/** Grouping of segments into tracks during a full synchronisation. The
    source collects tracks in a dictionary keyed by track index alone and
    finally emits them in ascending key order; the model keeps the groups in
    a list that is always sorted by index, which yields the same final list. */
module Grouping {
  import opened Wrappers
  import opened Native

  predicate StrictlyIncreasing(xs: seq<int>) {
    forall a, b :: 0 <= a < b < |xs| ==> xs[a] < xs[b]
  }

  /** Adds `i` to an ascending list of distinct keys: the sorted key order of
      the track dictionary, maintained one key at a time. */
  function InsertSorted(xs: seq<int>, i: int): (r: seq<int>)
    requires StrictlyIncreasing(xs)
    ensures StrictlyIncreasing(r)
    ensures forall x :: x in r <==> x in xs || x == i
    ensures i in xs ==> r == xs
  {
    if xs == [] then [i]
    else if xs[0] == i then xs
    else if i < xs[0] then
      HeadBelow(xs);
      ConsIncreasing(i, xs);
      [i] + xs
    else
      HeadBelow(xs);
      var rest := InsertSorted(xs[1..], i);
      ConsIncreasing(xs[0], rest);
      assert xs == [xs[0]] + xs[1..];
      [xs[0]] + rest
  }

  /** The head of an ascending list is below the rest of it. */
  lemma HeadBelow(xs: seq<int>)
    requires StrictlyIncreasing(xs) && xs != []
    ensures StrictlyIncreasing(xs[1..])
    ensures forall x :: x in xs[1..] ==> xs[0] < x
    ensures forall x :: x in xs <==> x == xs[0] || x in xs[1..]
  {
    assert xs == [xs[0]] + xs[1..];
    forall x | x in xs[1..] ensures xs[0] < x {
      var k :| 0 <= k < |xs[1..]| && xs[1..][k] == x;
      assert xs[k + 1] == x;
    }
  }

  lemma ConsIncreasing(h: int, xs: seq<int>)
    requires StrictlyIncreasing(xs) && forall x :: x in xs ==> h < x
    ensures StrictlyIncreasing([h] + xs)
  {
    forall a, b | 0 <= a < b < |[h] + xs| ensures ([h] + xs)[a] < ([h] + xs)[b] {
      assert ([h] + xs)[b] == xs[b - 1];
      if a > 0 { assert ([h] + xs)[a] == xs[a - 1]; } else { assert xs[b - 1] in xs; }
    }
  }

  /** A track under construction together with its key. */
  datatype Group = Group(index: int, track: Track)

  function Indexes(gs: seq<Group>): (r: seq<int>)
    ensures |r| == |gs| && forall k :: 0 <= k < |gs| ==> r[k] == gs[k].index
  {
    if gs == [] then [] else [gs[0].index] + Indexes(gs[1..])
  }

  /** The emitted tracks: the groups' tracks in ascending index order. */
  function TracksOf(gs: seq<Group>): (r: seq<Track>)
    ensures |r| == |gs| && forall k :: 0 <= k < |gs| ==> r[k] == gs[k].track
  {
    if gs == [] then [] else [gs[0].track] + TracksOf(gs[1..])
  }

  function FindGroup(gs: seq<Group>, i: int): (r: Option<Group>)
    ensures r.None? <==> forall g :: g in gs ==> g.index != i
    ensures r.Some? ==> r.value in gs && r.value.index == i
  {
    if gs == [] then None
    else if gs[0].index == i then Some(gs[0])
    else
      assert forall g :: g in gs ==> g == gs[0] || g in gs[1..];
      FindGroup(gs[1..], i)
  }

  function AppendSegment(t: Track, seg: Segment): Track {
    t.(segments := t.segments + [seg])
  }

  /** The group for key `i` once `seg` is appended: the existing one, or
      `blank` (built from the first sequence with that key). */
  function Grown(gs: seq<Group>, i: int, blank: Track, seg: Segment): Group {
    match FindGroup(gs, i)
    case Some(g) => Group(i, AppendSegment(g.track, seg))
    case None => Group(i, AppendSegment(blank, seg))
  }

  /** Appends `seg` to the track of index `i`, first opening that track from
      `blank` when no sequence has used the index yet. */
  function AddToGroup(gs: seq<Group>, i: int, blank: Track, seg: Segment): (r: seq<Group>)
    requires StrictlyIncreasing(Indexes(gs))
    ensures Indexes(r) == InsertSorted(Indexes(gs), i)
  {
    if gs == [] then [Group(i, AppendSegment(blank, seg))]
    else if gs[0].index == i then
      assert Indexes(gs) == [gs[0].index] + Indexes(gs[1..]);
      [Group(i, AppendSegment(gs[0].track, seg))] + gs[1..]
    else if i < gs[0].index then
      [Group(i, AppendSegment(blank, seg))] + gs
    else
      assert Indexes(gs)[1..] == Indexes(gs[1..]);
      [gs[0]] + AddToGroup(gs[1..], i, blank, seg)
  }

  /** After `AddToGroup` the group for `i` is the grown one. */
  lemma {:induction false} AddToGroupGrows(gs: seq<Group>, i: int, blank: Track, seg: Segment)
    requires StrictlyIncreasing(Indexes(gs))
    ensures Grown(gs, i, blank, seg) in AddToGroup(gs, i, blank, seg)
  {
    if gs != [] && gs[0].index != i && gs[0].index < i {
      assert Indexes(gs)[1..] == Indexes(gs[1..]);
      AddToGroupGrows(gs[1..], i, blank, seg);
      assert FindGroup(gs, i) == FindGroup(gs[1..], i);
    }
  }

  /** After `AddToGroup` every group is either an untouched one with another
      key or the grown group for `i`. */
  lemma {:induction false} AddToGroupOnly(gs: seq<Group>, i: int, blank: Track, seg: Segment)
    requires StrictlyIncreasing(Indexes(gs))
    ensures forall g :: g in AddToGroup(gs, i, blank, seg) ==> (g in gs && g.index != i) || g == Grown(gs, i, blank, seg)
  {
    var r := AddToGroup(gs, i, blank, seg);
    var gr := Grown(gs, i, blank, seg);
    if gs == [] {
    } else if gs[0].index == i {
      TailKeysAbove(gs);
      assert r == [gr] + gs[1..];
    } else if i < gs[0].index {
      assert r == [gr] + gs;
      KeysAbove(gs, i);
    } else {
      assert Indexes(gs)[1..] == Indexes(gs[1..]);
      AddToGroupOnly(gs[1..], i, blank, seg);
      assert FindGroup(gs, i) == FindGroup(gs[1..], i);
      assert gr == Grown(gs[1..], i, blank, seg);
      var rest := AddToGroup(gs[1..], i, blank, seg);
      assert r == [gs[0]] + rest;
      forall g | g in r ensures (g in gs && g.index != i) || g == gr {
        if g != gs[0] {
          assert g in rest;
        }
      }
    }
  }

  lemma TailKeysAbove(gs: seq<Group>)
    requires StrictlyIncreasing(Indexes(gs)) && gs != []
    ensures forall g :: g in gs[1..] ==> g in gs && g.index != gs[0].index
  {
    forall g | g in gs[1..] ensures g in gs && g.index != gs[0].index {
      var k :| 0 <= k < |gs[1..]| && gs[1..][k] == g;
      assert Indexes(gs)[0] < Indexes(gs)[k + 1];
    }
  }

  lemma KeysAbove(gs: seq<Group>, i: int)
    requires StrictlyIncreasing(Indexes(gs)) && gs != [] && i < gs[0].index
    ensures forall g :: g in gs ==> g.index != i
  {
    forall g | g in gs ensures g.index != i {
      var k :| 0 <= k < |gs| && gs[k] == g;
      assert k == 0 || Indexes(gs)[0] < Indexes(gs)[k];
    }
  }

  /** `AddToGroup` keeps every group with another key. */
  lemma {:induction false} AddToGroupKeeps(gs: seq<Group>, i: int, blank: Track, seg: Segment)
    requires StrictlyIncreasing(Indexes(gs))
    ensures forall g :: g in gs && g.index != i ==> g in AddToGroup(gs, i, blank, seg)
  {
    var r := AddToGroup(gs, i, blank, seg);
    if gs == [] {
    } else if gs[0].index == i {
      assert forall g :: g in gs ==> g == gs[0] || g in gs[1..];
    } else if i < gs[0].index {
    } else {
      assert Indexes(gs)[1..] == Indexes(gs[1..]);
      AddToGroupKeeps(gs[1..], i, blank, seg);
      assert forall g :: g in gs ==> g == gs[0] || g in gs[1..];
      assert r == [gs[0]] + AddToGroup(gs[1..], i, blank, seg);
    }
  }

  /** The multiset of `material_id`s referenced by the segments of `ts`. */
  function SegmentMaterialIds(ts: seq<Track>): multiset<Id> {
    if ts == [] then multiset{} else MaterialIdsOf(ts[0].segments) + SegmentMaterialIds(ts[1..])
  }

  function MaterialIdsOf(segs: seq<Segment>): multiset<Id> {
    if segs == [] then multiset{} else multiset{segs[0].materialId} + MaterialIdsOf(segs[1..])
  }

  lemma {:induction false} MaterialIdsOfSnoc(segs: seq<Segment>, seg: Segment)
    ensures MaterialIdsOf(segs + [seg]) == MaterialIdsOf(segs) + multiset{seg.materialId}
  {
    if segs != [] {
      assert (segs + [seg])[1..] == segs[1..] + [seg];
      MaterialIdsOfSnoc(segs[1..], seg);
    } else {
      assert segs + [seg] == [seg];
    }
  }

  /** Grouping adds exactly the new segment's material reference. */
  lemma {:induction false} AddToGroupMaterialIds(gs: seq<Group>, i: int, blank: Track, seg: Segment)
    requires StrictlyIncreasing(Indexes(gs))
    requires blank.segments == []
    ensures SegmentMaterialIds(TracksOf(AddToGroup(gs, i, blank, seg)))
         == SegmentMaterialIds(TracksOf(gs)) + multiset{seg.materialId}
    decreases |gs|, 1
  {
    var r := AddToGroup(gs, i, blank, seg);
    if gs == [] {
      assert r == [Group(i, AppendSegment(blank, seg))] + gs;
      NewGroupIds(gs, i, blank, seg);
    } else if gs[0].index == i {
      var rest := gs[1..];
      assert gs == [gs[0]] + rest;
      assert r == [Group(i, AppendSegment(gs[0].track, seg))] + rest;
      GrownGroupIds(gs[0], rest, i, seg);
    } else if i < gs[0].index {
      assert r == [Group(i, AppendSegment(blank, seg))] + gs;
      NewGroupIds(gs, i, blank, seg);
    } else {
      LaterGroupIds(gs, i, blank, seg);
    }
  }

  /** The case where the key belongs after the first group. */
  lemma {:induction false} LaterGroupIds(gs: seq<Group>, i: int, blank: Track, seg: Segment)
    requires StrictlyIncreasing(Indexes(gs))
    requires blank.segments == []
    requires gs != [] && gs[0].index < i
    ensures SegmentMaterialIds(TracksOf(AddToGroup(gs, i, blank, seg)))
         == SegmentMaterialIds(TracksOf(gs)) + multiset{seg.materialId}
    decreases |gs|, 0
  {
    var g := gs[0];
    var rest := gs[1..];
    assert gs == [g] + rest;
    assert Indexes(gs)[1..] == Indexes(rest);
    var r' := AddToGroup(rest, i, blank, seg);
    assert AddToGroup(gs, i, blank, seg) == [g] + r';
    AddToGroupMaterialIds(rest, i, blank, seg);
    KeptGroupIds(g, rest, r', seg);
  }

  lemma NewGroupIds(gs: seq<Group>, i: int, blank: Track, seg: Segment)
    requires blank.segments == []
    ensures SegmentMaterialIds(TracksOf([Group(i, AppendSegment(blank, seg))] + gs))
         == SegmentMaterialIds(TracksOf(gs)) + multiset{seg.materialId}
  {
    MaterialIdsOfSnoc(blank.segments, seg);
    MaterialIdsCons(Group(i, AppendSegment(blank, seg)), gs);
  }

  lemma GrownGroupIds(g: Group, rest: seq<Group>, i: int, seg: Segment)
    ensures SegmentMaterialIds(TracksOf([Group(i, AppendSegment(g.track, seg))] + rest))
         == SegmentMaterialIds(TracksOf([g] + rest)) + multiset{seg.materialId}
  {
    MaterialIdsOfSnoc(g.track.segments, seg);
    MaterialIdsCons(Group(i, AppendSegment(g.track, seg)), rest);
    MaterialIdsCons(g, rest);
  }

  lemma KeptGroupIds(g: Group, rest: seq<Group>, rest': seq<Group>, seg: Segment)
    requires SegmentMaterialIds(TracksOf(rest')) == SegmentMaterialIds(TracksOf(rest)) + multiset{seg.materialId}
    ensures SegmentMaterialIds(TracksOf([g] + rest'))
         == SegmentMaterialIds(TracksOf([g] + rest)) + multiset{seg.materialId}
  {
    MaterialIdsCons(g, rest);
    MaterialIdsCons(g, rest');
  }

  /** The references of a group list are the first group's and the rest's. */
  lemma MaterialIdsCons(g: Group, gs: seq<Group>)
    ensures SegmentMaterialIds(TracksOf([g] + gs))
         == MaterialIdsOf(g.track.segments) + SegmentMaterialIds(TracksOf(gs))
  {
    assert ([g] + gs)[1..] == gs;
  }
}
