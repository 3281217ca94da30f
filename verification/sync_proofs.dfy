/** Properties of the whole synchronisation loop, proved by induction over
    the input list. */
module SyncProofs {
  import opened Wrappers
  import opened Units
  import opened Native
  import opened Simple
  import opened Auxiliary
  import opened Grouping
  import opened Duration
  import opened FadeRefs
  import opened Realization
  import opened Sync
  import opened SyncStepFacts

  lemma OnTrackEmpty(L: seq<SimpleSeq>, i: int)
    requires i !in IndexSet(L)
    ensures OnTrack(L, i) == []
  {
  }

  lemma IndexesMembers(gs: seq<Group>, i: int)
    ensures i in Indexes(gs) <==> exists g :: g in gs && g.index == i
  {
    if i in Indexes(gs) {
      var k :| 0 <= k < |gs| && Indexes(gs)[k] == i;
      assert gs[k] in gs;
    }
    if exists g :: g in gs && g.index == i {
      var g :| g in gs && g.index == i;
      var k :| 0 <= k < |gs| && gs[k] == g;
      assert Indexes(gs)[k] == i;
    }
  }

  /** An existing group grown by a realized segment is realized from its
      sequences followed by the new one. */
  lemma GrownExisting(d: Doc, d2: Doc, bound: nat, i: int, t: Track, F: seq<SimpleSeq>, s: SimpleSeq, seg: Segment)
    requires IdsBelow(d, bound) && Extends(d, d2, bound) && Realizes(d2, seg, s)
    requires TrackRealizes(d, i, t, F)
    ensures TrackRealizes(d2, i, AppendSegment(t, seg), F + [s])
  {
    ExtendsTrackRealizes(d, d2, bound, i, t, F);
    var t' := AppendSegment(t, seg);
    forall j | 0 <= j < |F| + 1 ensures Realizes(d2, t'.segments[j], (F + [s])[j]) {
      if j < |F| {
        assert t'.segments[j] == t.segments[j];
      }
    }
  }

  /** The group that receives the new segment is realized from the
      sequences carrying its index, the new one last. */
  lemma GrownRealizes(d: Doc, d2: Doc, bound: nat, gs: seq<Group>, init: seq<SimpleSeq>, s: SimpleSeq, seg: Segment)
    requires IdsBelow(d, bound) && Extends(d, d2, bound) && Realizes(d2, seg, s)
    requires forall g :: g in gs ==> TrackRealizes(d, g.index, g.track, OnTrack(init, g.index))
    requires forall x :: x in Indexes(gs) <==> x in IndexSet(init)
    ensures var i := TrackIndexOf(s);
            TrackRealizes(d2, i, Grown(gs, i, NewTrack(s), seg).track, OnTrack(init + [s], i))
  {
    var i := TrackIndexOf(s);
    OnTrackSnoc(init, s, i);
    match FindGroup(gs, i)
    case Some(og) =>
      GrownExisting(d, d2, bound, i, og.track, OnTrack(init, i), s, seg);
    case None =>
      IndexesMembers(gs, i);
      OnTrackEmpty(init, i);
      assert OnTrack(init, i) + [s] == [s];
      NewTrackRealizes(d2, s, seg);
  }

  /** A track created for a sequence, holding its segment alone. */
  lemma NewTrackRealizes(d: Doc, s: SimpleSeq, seg: Segment)
    requires Realizes(d, seg, s)
    ensures TrackRealizes(d, TrackIndexOf(s), AppendSegment(NewTrack(s), seg), [s])
  {
    assert AppendSegment(NewTrack(s), seg).segments == [seg];
  }

  lemma UntouchedRealizes(d: Doc, d2: Doc, bound: nat, g: Group, init: seq<SimpleSeq>, s: SimpleSeq)
    requires IdsBelow(d, bound) && Extends(d, d2, bound)
    requires TrackRealizes(d, g.index, g.track, OnTrack(init, g.index))
    requires g.index != TrackIndexOf(s)
    ensures TrackRealizes(d2, g.index, g.track, OnTrack(init + [s], g.index))
  {
    OnTrackSnoc(init, s, g.index);
    ExtendsTrackRealizes(d, d2, bound, g.index, g.track, OnTrack(init, g.index));
  }

  /** Grouping one more realized segment keeps every group realized. */
  lemma GroupsStep(d: Doc, d2: Doc, bound: nat, gs: seq<Group>, init: seq<SimpleSeq>, s: SimpleSeq, seg: Segment)
    requires IdsBelow(d, bound) && Extends(d, d2, bound) && Realizes(d2, seg, s)
    requires StrictlyIncreasing(Indexes(gs))
    requires forall g :: g in gs ==> TrackRealizes(d, g.index, g.track, OnTrack(init, g.index))
    requires forall x :: x in Indexes(gs) <==> x in IndexSet(init)
    ensures forall g :: g in AddToGroup(gs, TrackIndexOf(s), NewTrack(s), seg) ==>
              TrackRealizes(d2, g.index, g.track, OnTrack(init + [s], g.index))
  {
    var i := TrackIndexOf(s);
    var gr := Grown(gs, i, NewTrack(s), seg);
    assert gr.index == i;
    AddToGroupOnly(gs, i, NewTrack(s), seg);
    GrownRealizes(d, d2, bound, gs, init, s, seg);
    forall g | g in AddToGroup(gs, i, NewTrack(s), seg)
      ensures TrackRealizes(d2, g.index, g.track, OnTrack(init + [s], g.index))
    {
      if g in gs && g.index != i {
        UntouchedRealizes(d, d2, bound, g, init, s);
      } else {
        assert g == gr;
      }
    }
  }

  /** The loop invariant: ids stay below the counter, the document only
      grows, the groups are keyed by the sorted distinct indexes, and every
      group is realized from the sequences carrying its index. */
  lemma {:induction false} SyncAllRealizes(d: Doc, next: nat, L: seq<SimpleSeq>)
    ensures var st := SyncAll(InitialState(d, next), L);
            && IdsBelow(st.doc, st.next) && next <= st.next
            && Extends(Reset(d), st.doc, next)
            && Indexes(st.groups) == TrackOrder(L)
            && forall g :: g in st.groups ==> TrackRealizes(st.doc, g.index, g.track, OnTrack(L, g.index))
    decreases |L|
  {
    var st0 := InitialState(d, next);
    if L != [] {
      var init := L[..|L| - 1];
      var s := L[|L| - 1];
      SplitLast(L);
      SyncAllRealizes(d, next, init);
      var st1 := SyncAll(st0, init);
      PartsGrows(st1, s);
      PartsRealizes(st1, s);
      var p := Parts(st1, s);
      assert SyncAll(st0, L) == SyncState(p.doc, AddToGroup(st1.groups, TrackIndexOf(s), NewTrack(s), p.segment), p.next);
      ExtendsTrans(Reset(d), st1.doc, p.doc, next, st1.next);
      GroupsStep(st1.doc, p.doc, st1.next, st1.groups, init, s, p.segment);
    }
  }
}
