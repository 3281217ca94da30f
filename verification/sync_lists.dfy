/** Loop invariants about the material, fade and auxiliary lists built by a
    full synchronisation. */
module SyncLists {
  import opened Wrappers
  import opened Units
  import opened Native
  import opened Simple
  import opened Auxiliary
  import opened Grouping
  import opened Realization
  import opened Sync
  import opened SyncStepFacts

  /** Ids increase along the list (so they are pairwise distinct). */
  ghost predicate IdsIncreasing(ms: seq<Material>) {
    forall a, b :: 0 <= a < b < |ms| ==> ms[a].id.n < ms[b].id.n
  }

  ghost predicate FadeIdsIncreasing(fs: seq<AudioFade>) {
    forall a, b :: 0 <= a < b < |fs| ==> fs[a].id.n < fs[b].id.n
  }

  /** `ms` holds, in order, one material built from each sequence of `S`. */
  ghost predicate MaterialsFrom(ms: seq<Material>, S: seq<SimpleSeq>) {
    |ms| == |S| && forall j :: 0 <= j < |S| ==> MaterialMatches(ms[j], S[j])
  }

  /** Number of sequences that leave an `audio_fades` entry. */
  function FadeEntryCount(L: seq<SimpleSeq>): nat {
    if L == [] then 0
    else FadeEntryCount(L[..|L| - 1]) + (if HasFadeEntry(L[|L| - 1]) then 1 else 0)
  }

  /** The multiset of ids of a material list. */
  function IdBag(ms: seq<Material>): multiset<Id> {
    if ms == [] then multiset{} else IdBag(ms[..|ms| - 1]) + multiset{ms[|ms| - 1].id}
  }

  lemma IdsAppend(ms: seq<Material>, m: Material, n: nat)
    requires IdsIncreasing(ms) && (forall x :: x in ms ==> x.id.n < n) && m.id.n == n
    ensures IdsIncreasing(ms + [m])
  {
    forall a, b | 0 <= a < b < |ms + [m]| ensures (ms + [m])[a].id.n < (ms + [m])[b].id.n {
      if b == |ms| {
        assert ms[a] in ms;
      }
    }
  }

  lemma FadeIdsAppend(fs: seq<AudioFade>, extra: seq<AudioFade>, n: nat)
    requires FadeIdsIncreasing(fs) && (forall f :: f in fs ==> f.id.n < n)
    requires |extra| <= 1 && forall f :: f in extra ==> n <= f.id.n
    ensures FadeIdsIncreasing(fs + extra)
  {
    forall a, b | 0 <= a < b < |fs + extra| ensures (fs + extra)[a].id.n < (fs + extra)[b].id.n {
      if b >= |fs| {
        assert fs[a] in fs;
        assert (fs + extra)[b] == extra[b - |fs|];
        assert extra[b - |fs|] in extra;
      }
    }
  }

  /** `ms` is built from `S` in order, with increasing ids in `[lo, hi)`. */
  ghost predicate ListInv(ms: seq<Material>, S: seq<SimpleSeq>, lo: nat, hi: nat) {
    && MaterialsFrom(ms, S) && IdsIncreasing(ms)
    && forall m :: m in ms ==> lo <= m.id.n < hi
  }

  ghost predicate Disjoint(vs: seq<Material>, as_: seq<Material>) {
    forall a, b :: a in vs && b in as_ ==> a.id != b.id
  }

  lemma ListGrow(ms: seq<Material>, S: seq<SimpleSeq>, m: Material, s: SimpleSeq, lo: nat, hi: nat, hi2: nat)
    requires ListInv(ms, S, lo, hi) && MaterialMatches(m, s) && m.id.n == hi && lo <= hi < hi2
    ensures ListInv(ms + [m], S + [s], lo, hi2)
  {
    IdsAppend(ms, m, hi);
    forall j | 0 <= j < |S + [s]| ensures MaterialMatches((ms + [m])[j], (S + [s])[j]) {
      if j < |S| {
        assert (ms + [m])[j] == ms[j] && (S + [s])[j] == S[j];
      }
    }
    forall x | x in ms + [m] ensures lo <= x.id.n < hi2 {
      if x != m { assert x in ms; }
    }
  }

  lemma DisjointGrow(vs: seq<Material>, as_: seq<Material>, m: Material, hi: nat)
    requires Disjoint(vs, as_) && (forall x :: x in vs + as_ ==> x.id.n < hi) && m.id.n == hi
    ensures Disjoint(vs + [m], as_) && Disjoint(vs, as_ + [m])
  {
    forall a, b | a in vs + [m] && b in as_ ensures a.id != b.id {
      if a == m { assert b in vs + as_; }
    }
    forall a, b | a in vs && b in as_ + [m] ensures a.id != b.id {
      if b == m { assert a in vs + as_; }
    }
  }

  /** Material lists: one material per sequence of each kind, in input
      order, ids increasing, from the counter's range, and the two lists
      share no id. */
  lemma {:induction false} SyncAllMaterials(d: Doc, next: nat, L: seq<SimpleSeq>)
    ensures var st := SyncAll(InitialState(d, next), L);
            && ListInv(st.doc.videos, OfKind(L, Video), next, st.next)
            && ListInv(st.doc.audios, OfKind(L, Audio), next, st.next)
            && Disjoint(st.doc.videos, st.doc.audios)
    decreases |L|
  {
    if L != [] {
      var init := L[..|L| - 1];
      var s := L[|L| - 1];
      SyncAllMaterials(d, next, init);
      SyncProofsBridge(d, next, init);
      var st1 := SyncAll(InitialState(d, next), init);
      PartsMaterials(st1, s);
      SyncAllLast(InitialState(d, next), L);
      var p := Parts(st1, s);
      SplitLast(L);
      OfKindSnoc(init, s, Video);
      OfKindSnoc(init, s, Audio);
      MaterialsStep(st1.doc.videos, st1.doc.audios, p.doc.videos, p.doc.audios, Last(MaterialsOf(p.doc, s.kind)),
                    s, OfKind(init, Video), OfKind(init, Audio), next, st1.next, p.next);
      var st := SyncAll(InitialState(d, next), L);
      assert st.doc.videos == p.doc.videos && st.doc.audios == p.doc.audios && st.next == p.next;
    }
  }

  lemma SyncAllLast(st: SyncState, L: seq<SimpleSeq>)
    requires StrictlyIncreasing(Indexes(st.groups)) && L != []
    ensures var st1 := SyncAll(st, L[..|L| - 1]);
            var p := Parts(st1, L[|L| - 1]);
            && SyncAll(st, L).doc == p.doc && SyncAll(st, L).next == p.next
            && SyncAll(st, L).groups == AddToGroup(st1.groups, TrackIndexOf(L[|L| - 1]), NewTrack(L[|L| - 1]), p.segment)
  {
  }

  lemma MaterialsStep(vs: seq<Material>, as_: seq<Material>, vs2: seq<Material>, as2: seq<Material>,
                      m: Material, s: SimpleSeq, V: seq<SimpleSeq>, A: seq<SimpleSeq>, next: nat, n: nat, n2: nat)
    requires ListInv(vs, V, next, n) && ListInv(as_, A, next, n) && Disjoint(vs, as_)
    requires next <= n < n2 && m.id == Id(n) && MaterialMatches(m, s)
    requires s.kind == Video ==> vs2 == vs + [m] && as2 == as_
    requires s.kind == Audio ==> as2 == as_ + [m] && vs2 == vs
    ensures ListInv(vs2, V + (if s.kind == Video then [s] else []), next, n2)
    ensures ListInv(as2, A + (if s.kind == Audio then [s] else []), next, n2)
    ensures Disjoint(vs2, as2)
  {
    if s.kind == Video {
      GrowOne(vs, as_, m, s, V, A, next, n, n2);
      assert A + [] == A;
    } else {
      DisjointSym(vs, as_);
      GrowOne(as_, vs, m, s, A, V, next, n, n2);
      DisjointSym(as2, vs2);
      assert V + [] == V;
    }
  }

  lemma DisjointSym(xs: seq<Material>, ys: seq<Material>)
    requires Disjoint(xs, ys)
    ensures Disjoint(ys, xs)
  {
  }

  /** One list grows by `m`, the other is kept. */
  lemma GrowOne(xs: seq<Material>, ys: seq<Material>, m: Material, s: SimpleSeq, X: seq<SimpleSeq>, Y: seq<SimpleSeq>,
                next: nat, n: nat, n2: nat)
    requires ListInv(xs, X, next, n) && ListInv(ys, Y, next, n)
    requires Disjoint(xs, ys)
    requires next <= n < n2 && m.id == Id(n) && MaterialMatches(m, s)
    ensures ListInv(xs + [m], X + [s], next, n2) && ListInv(ys, Y, next, n2)
    ensures Disjoint(xs + [m], ys)
  {
    ListGrow(xs, X, m, s, next, n, n2);
    ListKeep(ys, Y, next, n, n2);
    forall a, b | a in xs + [m] && b in ys ensures a.id != b.id {
      if a != m { assert a in xs; } else { assert b.id.n < n; }
    }
  }

  lemma ListKeep(ms: seq<Material>, S: seq<SimpleSeq>, lo: nat, hi: nat, hi2: nat)
    requires ListInv(ms, S, lo, hi) && hi <= hi2
    ensures ListInv(ms, S, lo, hi2)
  {
  }

  /** The counter stays above every id in the working document. */
  lemma SyncProofsBridge(d: Doc, next: nat, L: seq<SimpleSeq>)
    ensures var st := SyncAll(InitialState(d, next), L);
            IdsBelow(st.doc, st.next) && next <= st.next
    decreases |L|
  {
    if L != [] {
      var init := L[..|L| - 1];
      SyncProofsBridge(d, next, init);
      PartsGrows(SyncAll(InitialState(d, next), init), L[|L| - 1]);
    }
  }

  /** Fades: one entry per sequence that has one, in input order, with
      increasing ids from the counter's range. */
  lemma {:induction false} SyncAllFades(d: Doc, next: nat, L: seq<SimpleSeq>)
    ensures var st := SyncAll(InitialState(d, next), L);
            && |st.doc.audioFades| == FadeEntryCount(L)
            && FadeIdsIncreasing(st.doc.audioFades)
            && (forall f :: f in st.doc.audioFades ==> next <= f.id.n < st.next)
    decreases |L|
  {
    if L != [] {
      var init := L[..|L| - 1];
      var s := L[|L| - 1];
      SyncAllFades(d, next, init);
      SyncProofsBridge(d, next, init);
      var st1 := SyncAll(InitialState(d, next), init);
      PartsGrows(st1, s);
      SyncAllLast(InitialState(d, next), L);
      var p := Parts(st1, s);
      var fs := st1.doc.audioFades;
      var extra := p.doc.audioFades[|fs|..];
      assert p.doc.audioFades == fs + extra;
      FadeIdsAppend(fs, extra, st1.next);
      forall f | f in p.doc.audioFades ensures next <= f.id.n < p.next {
        if f !in fs { assert f in extra; }
      }
    }
  }

  /** Auxiliary entries appended after `es0` carry distinct new paths and
      ids in `[lo, hi)`. */
  ghost predicate AuxInv(es0: seq<AuxEntry>, es: seq<AuxEntry>, lo: nat, hi: nat) {
    && NewEntriesDistinct(es0, es)
    && forall k :: |es0| <= k < |es| ==> lo <= es[k].id.n < hi
  }

  lemma LookupOrAddAux(es0: seq<AuxEntry>, es: seq<AuxEntry>, path: string, lo: nat, n: nat)
    requires AuxInv(es0, es, lo, n) && lo <= n
    ensures var r := LookupOrAdd(es, path, n);
            n <= r.next && AuxInv(es0, r.entries, lo, r.next)
  {
    LookupOrAddKeepsDistinct(es0, es, path, n);
  }

  lemma AuxWiden(es0: seq<AuxEntry>, es: seq<AuxEntry>, lo: nat, hi: nat, hi2: nat)
    requires AuxInv(es0, es, lo, hi) && hi <= hi2
    ensures AuxInv(es0, es, lo, hi2)
  {
  }

  /** One iteration keeps the three auxiliary invariants. */
  lemma PartsAux(st: SyncState, s: SimpleSeq, d0: Doc, lo: nat)
    requires lo <= st.next
    requires AuxInv(d0.canvases, st.doc.canvases, lo, st.next)
    requires AuxInv(d0.speeds, st.doc.speeds, lo, st.next)
    requires AuxInv(d0.placeholders, st.doc.placeholders, lo, st.next)
    ensures var p := Parts(st, s);
            && AuxInv(d0.canvases, p.doc.canvases, lo, p.next)
            && AuxInv(d0.speeds, p.doc.speeds, lo, p.next)
            && AuxInv(d0.placeholders, p.doc.placeholders, lo, p.next)
  {
    var media := AddMedia(st.doc, s, st.next);
    AddMediaShape(st.doc, s, st.next);
    assert media.doc.canvases == st.doc.canvases && media.doc.speeds == st.doc.speeds;
    assert media.doc.placeholders == st.doc.placeholders;
    var canvas := LookupOrAdd(media.doc.canvases, s.path, media.next);
    var speed := LookupOrAdd(media.doc.speeds, s.path, canvas.next);
    var holder := LookupOrAdd(media.doc.placeholders, s.path, speed.next);
    var p := Parts(st, s);
    assert p.doc.canvases == canvas.entries && p.doc.speeds == speed.entries;
    assert p.doc.placeholders == holder.entries && p.next == holder.next + 1;
    AuxWiden(d0.canvases, st.doc.canvases, lo, st.next, media.next);
    LookupOrAddAux(d0.canvases, st.doc.canvases, s.path, lo, media.next);
    AuxWiden(d0.canvases, canvas.entries, lo, canvas.next, p.next);
    AuxWiden(d0.speeds, st.doc.speeds, lo, st.next, canvas.next);
    LookupOrAddAux(d0.speeds, st.doc.speeds, s.path, lo, canvas.next);
    AuxWiden(d0.speeds, speed.entries, lo, speed.next, p.next);
    AuxWiden(d0.placeholders, st.doc.placeholders, lo, st.next, speed.next);
    LookupOrAddAux(d0.placeholders, st.doc.placeholders, s.path, lo, speed.next);
    AuxWiden(d0.placeholders, holder.entries, lo, holder.next, p.next);
  }

  /** Auxiliary lists: the document's own entries are kept, and each list
      gains at most one entry per new path, with ids from the counter's
      range. */
  lemma {:induction false} SyncAllAux(d: Doc, next: nat, L: seq<SimpleSeq>)
    ensures var st := SyncAll(InitialState(d, next), L);
            && AuxInv(d.canvases, st.doc.canvases, next, st.next)
            && AuxInv(d.speeds, st.doc.speeds, next, st.next)
            && AuxInv(d.placeholders, st.doc.placeholders, next, st.next)
    decreases |L|
  {
    if L != [] {
      var init := L[..|L| - 1];
      SyncAllAux(d, next, init);
      SyncProofsBridge(d, next, init);
      SyncAllLast(InitialState(d, next), L);
      PartsAux(SyncAll(InitialState(d, next), init), L[|L| - 1], d, next);
    }
  }

  lemma IdBagSnoc(ms: seq<Material>, m: Material)
    ensures IdBag(ms + [m]) == IdBag(ms) + multiset{m.id}
  {
    assert (ms + [m])[..|ms|] == ms;
  }

  /** Every segment refers to a material of its own: the multiset of
      segment material ids equals the multiset of material ids. */
  lemma {:induction false} SyncAllOneSegmentPerMaterial(d: Doc, next: nat, L: seq<SimpleSeq>)
    ensures var st := SyncAll(InitialState(d, next), L);
            SegmentMaterialIds(TracksOf(st.groups)) == IdBag(st.doc.videos) + IdBag(st.doc.audios)
    decreases |L|
  {
    if L != [] {
      var init := L[..|L| - 1];
      var s := L[|L| - 1];
      SyncAllOneSegmentPerMaterial(d, next, init);
      SyncProofsBridge(d, next, init);
      var st1 := SyncAll(InitialState(d, next), init);
      PartsMaterials(st1, s);
      var p := Parts(st1, s);
      assert p.segment.materialId == AddMedia(st1.doc, s, st1.next).materialId;
      SyncAllLast(InitialState(d, next), L);
      BagStep(st1.groups, st1.doc.videos, st1.doc.audios, p.doc.videos, p.doc.audios,
              Last(MaterialsOf(p.doc, s.kind)), p.segment, TrackIndexOf(s), NewTrack(s));
    }
  }

  lemma BagStep(gs: seq<Group>, vs: seq<Material>, as_: seq<Material>, vs2: seq<Material>, as2: seq<Material>,
                m: Material, seg: Segment, i: int, blank: Track)
    requires StrictlyIncreasing(Indexes(gs)) && blank.segments == []
    requires SegmentMaterialIds(TracksOf(gs)) == IdBag(vs) + IdBag(as_)
    requires seg.materialId == m.id
    requires (vs2 == vs + [m] && as2 == as_) || (as2 == as_ + [m] && vs2 == vs)
    ensures SegmentMaterialIds(TracksOf(AddToGroup(gs, i, blank, seg))) == IdBag(vs2) + IdBag(as2)
  {
    AddToGroupMaterialIds(gs, i, blank, seg);
    BagAppend(vs, as_, vs2, as2, m);
  }

  /** Appending one material to either list adds its id to the joint bag. */
  lemma BagAppend(vs: seq<Material>, as_: seq<Material>, vs2: seq<Material>, as2: seq<Material>, m: Material)
    requires (vs2 == vs + [m] && as2 == as_) || (as2 == as_ + [m] && vs2 == vs)
    ensures IdBag(vs2) + IdBag(as2) == IdBag(vs) + IdBag(as_) + multiset{m.id}
  {
    if vs2 == vs + [m] && as2 == as_ {
      IdBagSnoc(vs, m);
      UnionSwap(IdBag(vs), IdBag(as_), multiset{m.id});
    } else {
      IdBagSnoc(as_, m);
    }
  }

  lemma UnionSwap<T>(a: multiset<T>, b: multiset<T>, c: multiset<T>)
    ensures (a + c) + b == (a + b) + c
  {
  }
}
