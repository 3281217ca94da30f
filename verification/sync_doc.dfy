/** What `sync_from_json` guarantees about the document it writes. */
module SyncResult {
  import opened Wrappers
  import opened Units
  import opened Native
  import opened Simple
  import opened Auxiliary
  import opened Grouping
  import opened Duration
  import opened Realization
  import opened Sync
  import opened SyncStepFacts
  import opened SyncProofs
  import opened SyncLists

  /** The end of the timeline placement a synchronisation gives `s`. */
  function SyncEnd(s: SimpleSeq): int {
    SyncTargetOf(s).start + SyncTargetOf(s).duration
  }

  lemma ForceFadeKeyKeeps(vs: seq<Material>)
    requires forall m :: m in vs ==> m.audioFade != Absent
    ensures ForceFadeKey(vs) == vs
  {
    var r := ForceFadeKey(vs);
    forall k | 0 <= k < |vs| ensures r[k] == vs[k] {
      assert vs[k] in vs;
    }
  }

  lemma VideosHaveFadeKey(vs: seq<Material>, V: seq<SimpleSeq>)
    requires MaterialsFrom(vs, V) && forall s :: s in V ==> s.kind == Video
    ensures forall m :: m in vs ==> m.audioFade != Absent
  {
    forall m | m in vs ensures m.audioFade != Absent {
      var k :| 0 <= k < |vs| && vs[k] == m;
      assert MaterialMatches(vs[k], V[k]) && V[k] in V;
    }
  }

  /** The written document is the loop's working document with the grouped
      tracks and the recomputed duration. */
  lemma SyncDocIsLoop(d: Doc, L: seq<SimpleSeq>, next: nat)
    requires SyncableInput(L)
    ensures var st := SyncAll(InitialState(d, next), L);
            var r := SyncDoc(d, L, next);
            && r.next == st.next
            && r.doc.tracks == TracksOf(st.groups)
            && r.doc.videos == st.doc.videos && r.doc.audios == st.doc.audios
            && r.doc.audioFades == st.doc.audioFades
            && r.doc.canvases == st.doc.canvases && r.doc.speeds == st.doc.speeds
            && r.doc.placeholders == st.doc.placeholders
            && (r.doc.duration.Some? <==> d.duration.Some?)
            && (r.doc.duration.Some? ==> r.doc.duration.value == MaxEnd(r.doc.tracks))
  {
    var st := SyncAll(InitialState(d, next), L);
    SyncAllMaterials(d, next, L);
    VideosHaveFadeKey(st.doc.videos, OfKind(L, Video));
    ForceFadeKeyKeeps(st.doc.videos);
    SyncAllBounds(InitialState(d, next), L);
  }

  /** Tracks: one per distinct track index, in ascending index order; the
      track for index `i` takes its type and name from the first sequence
      with that index and holds one realized segment per such sequence, in
      input order. */
  lemma SyncTracks(d: Doc, L: seq<SimpleSeq>, next: nat)
    requires SyncableInput(L)
    ensures var r := SyncDoc(d, L, next).doc;
            && |r.tracks| == |TrackOrder(L)|
            && forall p :: 0 <= p < |r.tracks| ==>
                 TrackRealizes(r, TrackOrder(L)[p], r.tracks[p], OnTrack(L, TrackOrder(L)[p]))
  {
    var st := SyncAll(InitialState(d, next), L);
    var r := SyncDoc(d, L, next).doc;
    SyncDocIsLoop(d, L, next);
    SyncAllRealizes(d, next, L);
    forall p | 0 <= p < |r.tracks|
      ensures TrackRealizes(r, TrackOrder(L)[p], r.tracks[p], OnTrack(L, TrackOrder(L)[p]))
    {
      var g := st.groups[p];
      assert g in st.groups && g.index == Indexes(st.groups)[p];
      SameListsRealize(st.doc, r, g.index, g.track, OnTrack(L, g.index));
    }
  }

  lemma TrackSegment(r: Doc, i: int, t: Track, F: seq<SimpleSeq>, j: int)
    requires TrackRealizes(r, i, t, F) && 0 <= j < |F|
    ensures j < |t.segments| && Realizes(r, t.segments[j], F[j])
  {
  }

  /** Materials: one per sequence of each kind, in input order, built from
      it; ids are fresh counter values, distinct across both lists; every
      video material carries an `audio_fade` key. */
  lemma SyncMaterials(d: Doc, L: seq<SimpleSeq>, next: nat)
    requires SyncableInput(L)
    ensures var r := SyncDoc(d, L, next);
            && ListInv(r.doc.videos, OfKind(L, Video), next, r.next)
            && ListInv(r.doc.audios, OfKind(L, Audio), next, r.next)
            && Disjoint(r.doc.videos, r.doc.audios)
            && forall m :: m in r.doc.videos ==> m.audioFade != Absent
  {
    var st := SyncAll(InitialState(d, next), L);
    SyncDocIsLoop(d, L, next);
    SyncAllMaterials(d, next, L);
    VideosHaveFadeKey(st.doc.videos, OfKind(L, Video));
  }

  /** `audio_fades`: one entry per sequence that needs one, with increasing
      fresh ids. */
  lemma SyncFades(d: Doc, L: seq<SimpleSeq>, next: nat)
    requires SyncableInput(L)
    ensures var r := SyncDoc(d, L, next);
            && |r.doc.audioFades| == FadeEntryCount(L)
            && FadeIdsIncreasing(r.doc.audioFades)
            && forall f :: f in r.doc.audioFades ==> next <= f.id.n < r.next
  {
    SyncDocIsLoop(d, L, next);
    SyncAllFades(d, next, L);
  }

  /** Canvases, speeds and placeholders: the existing entries are kept and
      each list gains at most one entry per path it did not name before. */
  lemma SyncAuxiliary(d: Doc, L: seq<SimpleSeq>, next: nat)
    requires SyncableInput(L)
    ensures var r := SyncDoc(d, L, next);
            && AuxInv(d.canvases, r.doc.canvases, next, r.next)
            && AuxInv(d.speeds, r.doc.speeds, next, r.next)
            && AuxInv(d.placeholders, r.doc.placeholders, next, r.next)
  {
    SyncDocIsLoop(d, L, next);
    SyncAllAux(d, next, L);
  }

  lemma IdBagMember(ms: seq<Material>, id: Id)
    ensures id in IdBag(ms) <==> exists m :: m in ms && m.id == id
  {
    if ms != [] {
      var init := ms[..|ms| - 1];
      SplitLast(ms);
      IdBagMember(init, id);
      if exists m :: m in ms && m.id == id {
        var m :| m in ms && m.id == id;
        if m != ms[|ms| - 1] { assert m in init; }
      }
    }
  }

  lemma IdsIncreasingPrefix(ms: seq<Material>)
    requires IdsIncreasing(ms) && ms != []
    ensures IdsIncreasing(ms[..|ms| - 1])
    ensures forall x :: x in ms[..|ms| - 1] ==> x.id.n < ms[|ms| - 1].id.n
  {
    var init := ms[..|ms| - 1];
    forall x | x in init ensures x.id.n < ms[|ms| - 1].id.n {
      var k :| 0 <= k < |init| && init[k] == x;
      assert ms[k] == x;
    }
  }

  lemma {:induction false} IdBagAtMostOnce(ms: seq<Material>, id: Id)
    requires IdsIncreasing(ms)
    ensures IdBag(ms)[id] <= 1
  {
    if ms != [] {
      var init := ms[..|ms| - 1];
      IdsIncreasingPrefix(ms);
      if ms[|ms| - 1].id == id {
        IdBagMember(init, id);
      } else {
        IdBagAtMostOnce(init, id);
      }
    }
  }

  lemma IdBagOnce(ms: seq<Material>, m: Material)
    requires IdsIncreasing(ms) && m in ms
    ensures IdBag(ms)[m.id] == 1
  {
    IdBagMember(ms, m.id);
    IdBagAtMostOnce(ms, m.id);
  }

  /** Every material is referred to by exactly one segment. */
  lemma SyncOneSegmentPerMaterial(d: Doc, L: seq<SimpleSeq>, next: nat)
    requires SyncableInput(L)
    ensures var r := SyncDoc(d, L, next).doc;
            && SegmentMaterialIds(r.tracks) == IdBag(r.videos) + IdBag(r.audios)
            && forall m :: m in r.videos + r.audios ==> SegmentMaterialIds(r.tracks)[m.id] == 1
  {
    var r := SyncDoc(d, L, next).doc;
    SyncDocIsLoop(d, L, next);
    SyncAllOneSegmentPerMaterial(d, next, L);
    SyncMaterials(d, L, next);
    forall m | m in r.videos + r.audios ensures SegmentMaterialIds(r.tracks)[m.id] == 1 {
      if m in r.videos {
        IdBagOnce(r.videos, m);
        IdBagMember(r.audios, m.id);
      } else {
        IdBagOnce(r.audios, m);
        IdBagMember(r.videos, m.id);
      }
    }
  }

  /** `duration` (when the document has the key) becomes the latest end of
      any sequence's placement, or 0 without sequences. */
  lemma SyncDuration(d: Doc, L: seq<SimpleSeq>, next: nat)
    requires SyncableInput(L)
    ensures var r := SyncDoc(d, L, next).doc;
            && (r.duration.Some? <==> d.duration.Some?)
            && (r.duration.Some? ==>
                  && 0 <= r.duration.value
                  && (forall s :: s in L ==> SyncEnd(s) <= r.duration.value)
                  && (r.duration.value == 0 || exists s :: s in L && SyncEnd(s) == r.duration.value))
  {
    SyncDocIsLoop(d, L, next);
    SyncTracks(d, L, next);
    var r := SyncDoc(d, L, next).doc;
    TracksEnds(r, L);
    EndsCover(r.tracks, L, SyncEnd);
  }

  /** Segment `j` of track `p` ends at `E` of the `j`-th sequence with
      index `TrackOrder(L)[p]`. */
  ghost predicate EndsFollow(ts: seq<Track>, L: seq<SimpleSeq>, E: SimpleSeq -> int) {
    && |ts| == |TrackOrder(L)|
    && forall p :: 0 <= p < |ts| ==>
         && |ts[p].segments| == |OnTrack(L, TrackOrder(L)[p])|
         && forall j :: 0 <= j < |ts[p].segments| ==> EndOf(ts[p].segments[j]) == E(OnTrack(L, TrackOrder(L)[p])[j])
  }

  lemma TrackEnds(r: Doc, i: int, t: Track, F: seq<SimpleSeq>)
    requires TrackRealizes(r, i, t, F)
    ensures |t.segments| == |F| && forall j :: 0 <= j < |t.segments| ==> EndOf(t.segments[j]) == SyncEnd(F[j])
  {
    forall j | 0 <= j < |t.segments| ensures EndOf(t.segments[j]) == SyncEnd(F[j]) {
      TrackSegment(r, i, t, F, j);
    }
  }

  lemma TracksEnds(r: Doc, L: seq<SimpleSeq>)
    requires |r.tracks| == |TrackOrder(L)|
    requires forall p :: 0 <= p < |r.tracks| ==>
               TrackRealizes(r, TrackOrder(L)[p], r.tracks[p], OnTrack(L, TrackOrder(L)[p]))
    ensures EndsFollow(r.tracks, L, SyncEnd)
  {
    forall p | 0 <= p < |r.tracks|
      ensures && |r.tracks[p].segments| == |OnTrack(L, TrackOrder(L)[p])|
              && forall j :: 0 <= j < |r.tracks[p].segments| ==>
                   EndOf(r.tracks[p].segments[j]) == SyncEnd(OnTrack(L, TrackOrder(L)[p])[j])
    {
      TrackEnds(r, TrackOrder(L)[p], r.tracks[p], OnTrack(L, TrackOrder(L)[p]));
    }
  }

  lemma EndsCover(ts: seq<Track>, L: seq<SimpleSeq>, E: SimpleSeq -> int)
    requires EndsFollow(ts, L, E)
    ensures forall s :: s in L ==> E(s) <= MaxEnd(ts)
    ensures MaxEnd(ts) == 0 || exists s :: s in L && E(s) == MaxEnd(ts)
  {
    forall s | s in L ensures E(s) <= MaxEnd(ts) {
      EndBound(ts, L, E, s);
    }
    if MaxEnd(ts) != 0 {
      EndAttained(ts, L, E);
    }
  }

  lemma EndBound(ts: seq<Track>, L: seq<SimpleSeq>, E: SimpleSeq -> int, s: SimpleSeq)
    requires EndsFollow(ts, L, E) && s in L
    ensures E(s) <= MaxEnd(ts)
  {
    var O := TrackOrder(L);
    var i := TrackIndexOf(s);
    assert i in IndexSet(L);
    var p :| 0 <= p < |O| && O[p] == i;
    var F := OnTrack(L, i);
    assert s in F;
    var j :| 0 <= j < |F| && F[j] == s;
    assert ts[p] in ts && ts[p].segments[j] in ts[p].segments;
  }

  lemma EndAttained(ts: seq<Track>, L: seq<SimpleSeq>, E: SimpleSeq -> int)
    requires EndsFollow(ts, L, E) && MaxEnd(ts) != 0
    ensures exists s :: s in L && E(s) == MaxEnd(ts)
  {
    var t, seg :| t in ts && seg in t.segments && EndOf(seg) == MaxEnd(ts);
    var p :| 0 <= p < |ts| && ts[p] == t;
    var j :| 0 <= j < |t.segments| && t.segments[j] == seg;
    var F := OnTrack(L, TrackOrder(L)[p]);
    assert F[j] in F;
  }
}
