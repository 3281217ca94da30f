/** When synchronising and exporting gives back exactly the input list: the
    list is already in the exporter's order (track indexes 0, 1, 2, ...
    without gaps, each track's sequences together and of one kind), every
    optional field is present and every time is a whole number of
    microseconds. */
module Canonical {
  import opened Wrappers
  import opened Units
  import opened Native
  import opened Simple
  import Grouping
  import opened Sync
  import opened Export
  import opened RoundTrip

  /** A sequence the exporter writes back unchanged. */
  predicate CanonicalSeq(s: SimpleSeq) {
    && s.sourceIn.Some? && s.sourceOut.Some? && s.volume.Some?
    && s.fadeInDuration.Some? && s.fadeOutDuration.Some?
    && s.trackIndex.Some? && s.trackIndex.value >= 0
    && WholeMicros(s.startTime) && WholeMicros(s.endTime)
    && WholeMicros(s.sourceIn.value) && WholeMicros(s.sourceOut.value)
    && WholeMicros(s.fadeInDuration.value) && WholeMicros(s.fadeOutDuration.value)
    && (s.kind == Audio ==> s.fadeInDuration.value >= 0.0 && s.fadeOutDuration.value == 0.0)
  }

  /** Track indexes start at 0 and each sequence keeps its predecessor's
      index or takes the next one. */
  predicate Contiguous(L: seq<SimpleSeq>) {
    && (L != [] ==> TrackIndexOf(L[0]) == 0)
    && forall k :: 0 < k < |L| ==>
         TrackIndexOf(L[k]) == TrackIndexOf(L[k - 1]) || TrackIndexOf(L[k]) == TrackIndexOf(L[k - 1]) + 1
  }

  /** Sequences sharing a track index share a kind. */
  predicate OneKindPerTrack(L: seq<SimpleSeq>) {
    forall a, b :: 0 <= a < b < |L| && TrackIndexOf(L[a]) == TrackIndexOf(L[b]) ==> L[a].kind == L[b].kind
  }

  predicate CanonicalList(L: seq<SimpleSeq>) {
    && (forall s :: s in L ==> CanonicalSeq(s))
    && Contiguous(L)
    && OneKindPerTrack(L)
  }

  /** The number of tracks of a contiguous list. */
  function TrackCount(L: seq<SimpleSeq>): int {
    if L == [] then 0 else TrackIndexOf(L[|L| - 1]) + 1
  }

  function Range(n: nat): (r: seq<int>)
    ensures |r| == n && forall j :: 0 <= j < n ==> r[j] == j
  {
    if n == 0 then [] else Range(n - 1) + [n - 1]
  }

  /** A canonical sequence exports as itself. */
  lemma ExpectedCanonical(s: SimpleSeq)
    requires CanonicalSeq(s)
    ensures Expected(s, TrackIndexOf(s)) == s
  {
    MicrosOfDifference(s.startTime, s.endTime);
    MicrosExact(s.endTime);
    MicrosOfDifference(s.sourceIn.value, s.sourceOut.value);
    MicrosExact(s.sourceIn.value);
    MicrosExact(s.sourceOut.value);
    MicrosExact(s.startTime);
    MicrosExact(s.fadeInDuration.value);
    MicrosExact(s.fadeOutDuration.value);
    if s.kind == Audio && !FadePositive(s) {
      assert FadeInUs(s) as real == s.fadeInDuration.value * MicrosPerSecond;
      assert s.fadeInDuration.value == 0.0;
    }
  }

  /** Every index of a contiguous list lies in `[0, TrackCount(L))`. */
  lemma {:induction false} ContiguousBounds(L: seq<SimpleSeq>)
    requires Contiguous(L)
    ensures forall k :: 0 <= k < |L| ==> 0 <= TrackIndexOf(L[k]) < TrackCount(L)
    decreases |L|
  {
    if |L| > 1 {
      var init := L[..|L| - 1];
      assert Contiguous(init);
      ContiguousBounds(init);
      forall k | 0 <= k < |L| ensures 0 <= TrackIndexOf(L[k]) < TrackCount(L) {
        if k < |L| - 1 {
          assert L[k] == init[k];
        }
      }
    }
  }

  /** Appending a key above all keys of an ascending list. */
  lemma {:induction false} InsertAbove(xs: seq<int>, i: int)
    requires Grouping.StrictlyIncreasing(xs) && forall x :: x in xs ==> x < i
    ensures Grouping.InsertSorted(xs, i) == xs + [i]
  {
    if xs != [] {
      var t := xs[1..];
      Grouping.HeadBelow(xs);
      assert xs[0] in xs;
      InsertAbove(t, i);
      InsertPastHead(xs, i);
      assert xs == [xs[0]] + t;
    }
  }

  lemma InsertPastHead(xs: seq<int>, i: int)
    requires Grouping.StrictlyIncreasing(xs) && xs != [] && xs[0] < i
    ensures Grouping.StrictlyIncreasing(xs[1..])
    ensures Grouping.InsertSorted(xs, i) == [xs[0]] + Grouping.InsertSorted(xs[1..], i)
  {
    Grouping.HeadBelow(xs);
  }

  /** Dropping the last sequence keeps a list contiguous, and the last
      sequence repeats the previous track index or opens the next one. */
  lemma ContiguousLast(L: seq<SimpleSeq>)
    requires Contiguous(L) && L != []
    ensures Contiguous(L[..|L| - 1])
    ensures var n := TrackCount(L[..|L| - 1]);
            var i := TrackIndexOf(L[|L| - 1]);
            && (n == 0 ==> i == 0)
            && (n != 0 ==> 0 < n && (i == n - 1 || i == n))
            && TrackCount(L) == i + 1
  {
    var init := L[..|L| - 1];
    assert forall k :: 0 <= k < |init| ==> init[k] == L[k];
    assert Contiguous(init);
    if init != [] {
      ContiguousBounds(init);
      assert init[|init| - 1] == L[|L| - 2];
    }
  }

  /** Inserting the last or the next key into `0, 1, ..., n - 1`. */
  lemma RangeInsert(n: nat, i: int)
    requires n == 0 ==> i == 0
    requires n != 0 ==> i == n - 1 || i == n
    ensures 0 <= i + 1
    ensures Grouping.InsertSorted(Range(n), i) == Range(i + 1)
  {
    var xs := Range(n);
    if i == n {
      assert Grouping.StrictlyIncreasing(xs);
      assert forall x :: x in xs ==> x < i;
      InsertAbove(xs, i);
      assert Range(i + 1) == xs + [i];
    } else {
      assert xs[n - 1] == i;
      assert i in xs;
    }
  }

  /** The tracks of a contiguous list are `0, 1, ..., TrackCount(L) - 1`. */
  lemma {:induction false} TrackOrderRange(L: seq<SimpleSeq>)
    requires Contiguous(L)
    ensures 0 <= TrackCount(L)
    ensures TrackOrder(L) == Range(TrackCount(L))
    decreases |L|
  {
    if L != [] {
      var init := L[..|L| - 1];
      ContiguousLast(L);
      TrackOrderRange(init);
      RangeInsert(TrackCount(init), TrackIndexOf(L[|L| - 1]));
    }
  }

  lemma ExpectedSegsSnoc(F: seq<SimpleSeq>, s: SimpleSeq, p: nat)
    ensures ExpectedSegs(F + [s], s.kind, p) == ExpectedSegs(F, s.kind, p) + [Expected(s, p)]
  {
    assert (F + [s])[..|F|] == F;
  }

  /** Appending a group appends its track's expected export. */
  lemma ExpectedOfSnoc(Gs: seq<seq<SimpleSeq>>, G: seq<SimpleSeq>)
    ensures ExpectedOf(Gs + [G]) == ExpectedOf(Gs) + TrackExpected(G, |Gs|)
  {
    var Hs := Gs + [G];
    assert Hs[..|Hs| - 1] == Gs;
    assert Hs[|Hs| - 1] == G;
  }

  lemma TrackExpectedSnoc(F: seq<SimpleSeq>, s: SimpleSeq, p: nat)
    requires F == [] || F[0].kind == s.kind
    ensures TrackExpected(F + [s], p) == TrackExpected(F, p) + [Expected(s, p)]
  {
    assert (F + [s])[0].kind == s.kind;
    ExpectedSegsSnoc(F, s, p);
    if F == [] {
      assert ExpectedSegs([], s.kind, p) == [];
    }
  }

  /** Adding a sequence to the last group, whose kind it shares, adds its
      expected form at the end. */
  lemma ExpectedOfGrowLast(Gs: seq<seq<SimpleSeq>>, s: SimpleSeq)
    requires Gs != [] && Gs[|Gs| - 1] != [] && Gs[|Gs| - 1][0].kind == s.kind
    ensures var n := |Gs| - 1;
            ExpectedOf(Gs[..n] + [Gs[n] + [s]]) == ExpectedOf(Gs) + [Expected(s, n)]
  {
    var n := |Gs| - 1;
    var A := ExpectedOf(Gs[..n]);
    var B := TrackExpected(Gs[n], n);
    var e := Expected(s, n);
    ExpectedOfSnoc(Gs[..n], Gs[n] + [s]);
    TrackExpectedSnoc(Gs[n], s, n);
    assert ExpectedOf(Gs[..n] + [Gs[n] + [s]]) == A + (B + [e]);
    ExpectedOfSnoc(Gs[..n], Gs[n]);
    SplitLast(Gs);
    assert ExpectedOf(Gs) == A + B;
    Assoc(A, B, e);
  }

  lemma Assoc<T>(a: seq<T>, b: seq<T>, e: T)
    ensures a + (b + [e]) == (a + b) + [e]
  {
  }

  /** In a list with one kind per track, the first sequence of the last
      sequence's group has that sequence's kind. */
  lemma GroupKind(init: seq<SimpleSeq>, s: SimpleSeq)
    requires OneKindPerTrack(init + [s])
    requires OnTrack(init, TrackIndexOf(s)) != []
    ensures OnTrack(init, TrackIndexOf(s))[0].kind == s.kind
  {
    var t := OnTrack(init, TrackIndexOf(s))[0];
    assert t in OnTrack(init, TrackIndexOf(s));
    var a :| 0 <= a < |init| && init[a] == t;
    assert (init + [s])[a] == t && (init + [s])[|init|] == s;
  }

  /** The groups of a contiguous list are those of its track indexes
      `0, 1, ...` in turn. */
  lemma GroupsRange(L: seq<SimpleSeq>)
    requires Contiguous(L)
    ensures 0 <= TrackCount(L) == |Groups(L)|
    ensures forall p :: 0 <= p < |Groups(L)| ==> Groups(L)[p] == OnTrack(L, p)
  {
    TrackOrderRange(L);
  }

  /** Removing the last sequence keeps a list canonical. */
  lemma CanonicalPrefix(L: seq<SimpleSeq>)
    requires CanonicalList(L) && L != []
    ensures CanonicalList(L[..|L| - 1])
  {
    var init := L[..|L| - 1];
    assert forall a :: 0 <= a < |init| ==> init[a] == L[a];
    assert forall x :: x in init ==> x in L;
  }

  /** How the groups change when the last sequence joins the last track. */
  lemma GroupsSameTrack(init: seq<SimpleSeq>, s: SimpleSeq)
    requires Contiguous(init + [s]) && Contiguous(init) && init != []
    requires TrackIndexOf(s) == TrackCount(init) - 1
    ensures var Gs := Groups(init); var n := |Gs| - 1;
            && Gs != [] && Groups(init + [s]) == Gs[..n] + [Gs[n] + [s]]
            && Gs[n] == OnTrack(init, TrackIndexOf(s))
  {
    GroupsRange(init + [s]);
    GroupsRange(init);
    var Gs := Groups(init);
    var Hs := Groups(init + [s]);
    var n := |Gs| - 1;
    forall p | 0 <= p <= n ensures Hs[p] == Gs[p] + (if p == n then [s] else []) {
      OnTrackSnoc(init, s, p);
    }
    GrowLastOf(Hs, Gs, s);
  }

  lemma GrowLastOf<T>(Hs: seq<seq<T>>, Gs: seq<seq<T>>, s: T)
    requires |Hs| == |Gs| > 0
    requires forall p :: 0 <= p < |Gs| ==> Hs[p] == Gs[p] + (if p == |Gs| - 1 then [s] else [])
    ensures Hs == Gs[..|Gs| - 1] + [Gs[|Gs| - 1] + [s]]
  {
    var n := |Gs| - 1;
    var R := Gs[..n] + [Gs[n] + [s]];
    forall p | 0 <= p < |Hs| ensures Hs[p] == R[p] {
      if p < n {
        assert R[p] == Gs[p];
      }
    }
  }

  lemma AppendOneOf<T>(Hs: seq<seq<T>>, Gs: seq<seq<T>>, s: T)
    requires |Hs| == |Gs| + 1 && Hs[|Gs|] == [s]
    requires forall p :: 0 <= p < |Gs| ==> Hs[p] == Gs[p]
    ensures Hs == Gs + [[s]]
  {
  }

  /** How the groups change when the last sequence opens a new track. */
  lemma GroupsNewTrack(init: seq<SimpleSeq>, s: SimpleSeq)
    requires Contiguous(init + [s]) && Contiguous(init)
    requires TrackIndexOf(s) == TrackCount(init)
    ensures Groups(init + [s]) == Groups(init) + [[s]]
  {
    GroupsRange(init + [s]);
    GroupsRange(init);
    ContiguousBounds(init);
    var Gs := Groups(init);
    var Hs := Groups(init + [s]);
    var n := |Gs|;
    forall p | 0 <= p < n ensures Hs[p] == Gs[p] {
      OnTrackSnoc(init, s, p);
    }
    OnTrackSnoc(init, s, n);
    assert forall x :: x in init ==> TrackIndexOf(x) != n by {
      forall x | x in init ensures TrackIndexOf(x) != n {
        var a :| 0 <= a < |init| && init[a] == x;
      }
    }
    NoneOnTrack(init, n);
    AppendOneOf(Hs, Gs, s);
  }

  /** A canonical list exports, after synchronisation, as itself. */
  lemma {:induction false} ExpectedCanonicalList(L: seq<SimpleSeq>)
    requires CanonicalList(L)
    ensures ExpectedExport(L) == L
    decreases |L|
  {
    if L != [] {
      var init := L[..|L| - 1];
      SplitLast(L);
      CanonicalPrefix(L);
      ExpectedCanonicalList(init);
      CanonicalStep(init, L[|L| - 1]);
    }
  }

  lemma CanonicalStep(init: seq<SimpleSeq>, s: SimpleSeq)
    requires CanonicalList(init + [s]) && CanonicalList(init)
    requires ExpectedExport(init) == init
    ensures ExpectedExport(init + [s]) == init + [s]
  {
    var L := init + [s];
    var n := TrackCount(init);
    var i := TrackIndexOf(s);
    assert L[..|L| - 1] == init && L[|L| - 1] == s;
    ContiguousLast(L);
    assert i == n - 1 || i == n;
    assert s in L;
    ExpectedCanonical(s);
    if i == n - 1 {
      SameTrackCase(init, s);
    } else {
      NewTrackCase(init, s);
    }
  }

  lemma SameTrackCase(init: seq<SimpleSeq>, s: SimpleSeq)
    requires Contiguous(init + [s]) && Contiguous(init) && OneKindPerTrack(init + [s]) && init != []
    requires TrackIndexOf(s) == TrackCount(init) - 1
    requires 0 <= TrackIndexOf(s) && Expected(s, TrackIndexOf(s)) == s
    ensures ExpectedExport(init + [s]) == ExpectedExport(init) + [s]
  {
    var i := TrackIndexOf(s);
    GroupsSameTrack(init, s);
    GroupsRange(init);
    assert init[|init| - 1] in OnTrack(init, i);
    GroupKind(init, s);
    ExpectedOfGrowLast(Groups(init), s);
  }

  lemma NewTrackCase(init: seq<SimpleSeq>, s: SimpleSeq)
    requires Contiguous(init + [s]) && Contiguous(init)
    requires TrackIndexOf(s) == TrackCount(init)
    requires 0 <= TrackIndexOf(s) && Expected(s, TrackIndexOf(s)) == s
    ensures ExpectedExport(init + [s]) == ExpectedExport(init) + [s]
  {
    GroupsNewTrack(init, s);
    GroupsRange(init);
    ExpectedOfSnoc(Groups(init), [s]);
    TrackExpectedSnoc([], s, |Groups(init)|);
  }

  /** A canonical list satisfies the synchroniser's input condition. */
  lemma CanonicalSyncable(L: seq<SimpleSeq>)
    requires CanonicalList(L)
    ensures SyncableInput(L)
  {
    forall s | s in L && s.kind == Audio ensures FadeOutUs(s) <= 0 {
      MicrosExact(s.fadeOutDuration.value);
    }
  }

  /** Synchronising a canonical list into any document and exporting the
      result gives the list back. */
  lemma CanonicalRoundTrip(d: Doc, L: seq<SimpleSeq>, next: nat)
    requires CanonicalList(L)
    ensures SyncableInput(L)
    ensures ExportDoc(SyncDoc(d, L, next).doc) == L
  {
    CanonicalSyncable(L);
    SyncThenExport(d, L, next);
    ExpectedCanonicalList(L);
  }

  /** The content file and its backup, each synchronised from the same
      list, export identically, whatever their earlier contents. */
  lemma CopiesExportAlike(p: Project, L: seq<SimpleSeq>, next: nat)
    requires SyncableInput(L)
    requires p.content.Some? && p.backup.Some?
    ensures var (q, _) := SyncProject(p, L, next);
            ExportDoc(q.content.value) == ExportDoc(q.backup.value) == ExpectedExport(L)
  {
    var afterContent := SyncDoc(p.content.value, L, next).next;
    SyncThenExport(p.content.value, L, next);
    SyncThenExport(p.backup.value, L, afterContent);
  }
}
