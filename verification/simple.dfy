/** The simplified sequence schema (`{"sequences": [...]}` entries) and the
    defaults the synchroniser applies to its optional fields. */
module Simple {
  import opened Wrappers
  import opened Units
  import opened Native

  /** One simplified sequence. Times are seconds. The optional fields are
      the keys a caller may leave out. */
  datatype SimpleSeq = SimpleSeq(path: string, startTime: real, endTime: real,
                                 sourceIn: Option<real>, sourceOut: Option<real>,
                                 volume: Option<real>,
                                 fadeInDuration: Option<real>, fadeOutDuration: Option<real>,
                                 kind: Kind, trackIndex: Option<int>)

  /** Default track: 0 for video, 1 for audio. */
  function DefaultTrackIndex(k: Kind): int {
    match k
    case Video => 0
    case Audio => 1
  }

  function TrackIndexOf(s: SimpleSeq): int {
    s.trackIndex.GetOr(DefaultTrackIndex(s.kind))
  }

  function SourceInOf(s: SimpleSeq): real {
    s.sourceIn.GetOr(0.0)
  }

  /** A missing `source_out` is `source_in` plus the timeline span. */
  function SourceOutOf(s: SimpleSeq): real {
    match s.sourceOut
    case Some(o) => o
    case None => SourceInOf(s) + (s.endTime - s.startTime)
  }

  function VolumeOf(s: SimpleSeq): real {
    s.volume.GetOr(1.0)
  }

  function FadeInUs(s: SimpleSeq): int {
    Micros(s.fadeInDuration.GetOr(0.0))
  }

  function FadeOutUs(s: SimpleSeq): int {
    Micros(s.fadeOutDuration.GetOr(0.0))
  }

  /** Some fade truncates to a positive number of microseconds. */
  predicate FadePositive(s: SimpleSeq) {
    FadeInUs(s) > 0 || FadeOutUs(s) > 0
  }

  /** The trim window into the source media, in microseconds. */
  function SourceRangeOf(s: SimpleSeq): TimeRange {
    TimeRange(Micros(SourceInOf(s)), Micros(SourceOutOf(s)) - Micros(SourceInOf(s)))
  }

  /** Timeline placement written by a full synchronisation: the duration
      is the span in seconds, converted and truncated once. */
  function SyncTargetOf(s: SimpleSeq): TimeRange {
    TimeRange(Micros(s.startTime), Micros(s.endTime - s.startTime))
  }

  /** Timeline placement written by the add operations: the duration is the
      difference of the two ends, each converted and truncated on its own. */
  function AddTargetOf(s: SimpleSeq): TimeRange {
    TimeRange(Micros(s.startTime), Micros(s.endTime) - Micros(s.startTime))
  }

  /** The sequences of `L` placed on track index `i`, in input order. */
  function OnTrack(L: seq<SimpleSeq>, i: int): (r: seq<SimpleSeq>)
    ensures |r| <= |L|
    ensures forall s :: s in r ==> s in L && TrackIndexOf(s) == i
    ensures forall s :: s in L && TrackIndexOf(s) == i ==> s in r
  {
    if L == [] then []
    else
      var init := L[..|L| - 1];
      var last := L[|L| - 1];
      SplitLast(L);
      OnTrack(init, i) + (if TrackIndexOf(last) == i then [last] else [])
  }

  /** The sequences of `L` of kind `k`, in input order. */
  function OfKind(L: seq<SimpleSeq>, k: Kind): (r: seq<SimpleSeq>)
    ensures |r| <= |L|
    ensures forall s :: s in r ==> s in L && s.kind == k
    ensures forall s :: s in L && s.kind == k ==> s in r
  {
    if L == [] then []
    else
      var init := L[..|L| - 1];
      var last := L[|L| - 1];
      SplitLast(L);
      OfKind(init, k) + (if last.kind == k then [last] else [])
  }

  /** The track indexes `L` uses. */
  function IndexSet(L: seq<SimpleSeq>): set<int> {
    set s | s in L :: TrackIndexOf(s)
  }

  /** A non-empty list is its prefix followed by its last element. */
  lemma SplitLast<T>(xs: seq<T>)
    requires xs != []
    ensures xs == xs[..|xs| - 1] + [xs[|xs| - 1]]
  {
  }

  lemma OnTrackSnoc(L: seq<SimpleSeq>, s: SimpleSeq, i: int)
    ensures OnTrack(L + [s], i) == OnTrack(L, i) + (if TrackIndexOf(s) == i then [s] else [])
  {
    assert (L + [s])[..|L|] == L;
  }

  lemma NoneOnTrack(L: seq<SimpleSeq>, i: int)
    requires forall x :: x in L ==> TrackIndexOf(x) != i
    ensures OnTrack(L, i) == []
  {
  }

  /** A list whose every sequence is on track `i` is its own track-`i` part. */
  lemma {:induction false} AllOnTrack(L: seq<SimpleSeq>, i: int)
    requires forall x :: x in L ==> TrackIndexOf(x) == i
    ensures OnTrack(L, i) == L
  {
    if L != [] {
      var m := |L| - 1;
      assert forall x :: x in L[..m] ==> x in L;
      AllOnTrack(L[..m], i);
      assert L[m] in L;
      SplitLast(L);
    }
  }

  /** Selecting a track distributes over concatenation. */
  lemma {:induction false} OnTrackAppend(A: seq<SimpleSeq>, B: seq<SimpleSeq>, i: int)
    ensures OnTrack(A + B, i) == OnTrack(A, i) + OnTrack(B, i)
  {
    if B == [] {
      assert A + B == A;
    } else {
      var m := |B| - 1;
      assert A + B == (A + B[..m]) + [B[m]];
      OnTrackAppend(A, B[..m], i);
      OnTrackSnoc(A + B[..m], B[m], i);
      SplitLast(B);
      OnTrackSnoc(B[..m], B[m], i);
    }
  }

  lemma OfKindSnoc(L: seq<SimpleSeq>, s: SimpleSeq, k: Kind)
    ensures OfKind(L + [s], k) == OfKind(L, k) + (if s.kind == k then [s] else [])
  {
    assert (L + [s])[..|L|] == L;
  }

  lemma IndexSetSnoc(L: seq<SimpleSeq>, s: SimpleSeq)
    ensures IndexSet(L + [s]) == IndexSet(L) + {TrackIndexOf(s)}
  {
    forall x | x in IndexSet(L + [s]) ensures x in IndexSet(L) + {TrackIndexOf(s)} {
      var t :| t in L + [s] && TrackIndexOf(t) == x;
      if t != s { assert t in L; }
    }
    forall x | x in IndexSet(L) ensures x in IndexSet(L + [s]) {
      var t :| t in L && TrackIndexOf(t) == x;
      assert t in L + [s];
    }
    assert s in L + [s];
  }
}
