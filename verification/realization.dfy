/** What it means for a native segment, material or track to have been
    built from a simplified sequence, stated against the lists of a document.
    These predicates are the vocabulary of the synchronisation and export
    properties. */
module Realization {
  import opened Wrappers
  import opened Units
  import opened Native
  import opened Simple
  import opened FadeRefs
  import opened Grouping

  /** The sequence leaves an entry in `audio_fades`: a video whenever a
      truncated fade is non-zero, an audio whenever one is positive. */
  predicate HasFadeEntry(s: SimpleSeq) {
    match s.kind
    case Video => !(FadeInUs(s) == 0 && FadeOutUs(s) == 0)
    case Audio => FadePositive(s)
  }

  /** Every material and fade id of `d` is below `n` (the counter has not produced it yet). */
  ghost predicate IdsBelow(d: Doc, n: nat) {
    && (forall m :: m in d.videos ==> m.id.n < n)
    && (forall m :: m in d.audios ==> m.id.n < n)
    && (forall f :: f in d.audioFades ==> f.id.n < n)
  }

  /** `d2` grew from `d` by appending only: materials and fades with ids
      at least `bound`, and auxiliary entries. */
  ghost predicate Extends(d: Doc, d2: Doc, bound: nat) {
    && d.videos <= d2.videos && (forall m :: m in d2.videos[|d.videos|..] ==> bound <= m.id.n)
    && d.audios <= d2.audios && (forall m :: m in d2.audios[|d.audios|..] ==> bound <= m.id.n)
    && d.audioFades <= d2.audioFades && (forall f :: f in d2.audioFades[|d.audioFades|..] ==> bound <= f.id.n)
    && d.canvases <= d2.canvases && d.speeds <= d2.speeds && d.placeholders <= d2.placeholders
  }

  /** A video material's `audio_fade` is null when both truncated fades are
      0 and otherwise a fade object with those values; an audio material has
      no such key. */
  ghost predicate FadeShape(f: FadeField, s: SimpleSeq) {
    match s.kind
    case Video =>
      if FadeInUs(s) == 0 && FadeOutUs(s) == 0 then f == Null
      else f.Inline? && f.fade.fadeIn == FadeInUs(s) && f.fade.fadeOut == FadeOutUs(s)
    case Audio => f == Absent
  }

  /** The material built for `s`: its path, basename, volume, and the
      duration of the trim window. */
  ghost predicate MaterialMatches(m: Material, s: SimpleSeq) {
    && m.kind == s.kind && m.path == s.path && m.name == Basename(s.path)
    && m.duration == SourceRangeOf(s).duration && m.volume == VolumeOf(s)
    && FadeShape(m.audioFade, s)
  }

  /** The id the segment's fade reference uses: the inline fade's for a
      video, the material's own for an audio. */
  function FadeIdOf(m: Material): Id {
    if m.audioFade.Inline? then m.audioFade.fade.id else m.id
  }

  /** How the material's fade appears in `audio_fades`: a video's inline
      fade object is there, an audio material has an entry with its own id
      exactly when some fade is positive. */
  ghost predicate FadeLinked(d: Doc, m: Material, s: SimpleSeq) {
    match s.kind
    case Video => m.audioFade.Inline? ==> FindFade(d.audioFades, m.audioFade.fade.id) == Some(m.audioFade.fade)
    case Audio =>
      FindFade(d.audioFades, m.id)
        == if FadePositive(s) then Some(AudioFade(m.id, FadeInUs(s), FadeOutUs(s))) else None
  }

  /** `extra_material_refs`: the first canvas, speed and placeholder entries
      named by the path, then the fade reference. */
  ghost predicate RefsMatch(d: Doc, refs: seq<Id>, m: Material, s: SimpleSeq) {
    && |refs| >= 3
    && FindAux(d.canvases, s.path) == Some(refs[0])
    && FindAux(d.speeds, s.path) == Some(refs[1])
    && FindAux(d.placeholders, s.path) == Some(refs[2])
    && refs[3..] == FadeRef(FadeInUs(s), FadeOutUs(s), FadeIdOf(m))
  }

  /** Segment `seg` of document `d` was built from sequence `s`. */
  ghost predicate Realizes(d: Doc, seg: Segment, s: SimpleSeq) {
    && seg.target == SyncTargetOf(s)
    && seg.source == SourceRangeOf(s)
    && seg.volume == VolumeOf(s)
    && seg.fadeIn == FadeInUs(s) && seg.fadeOut == FadeOutUs(s)
    && FindMaterial(MaterialsOf(d, OtherKind(s.kind)), seg.materialId).None?
    && FindMaterial(MaterialsOf(d, s.kind), seg.materialId).Some?
    && MaterialMatches(FindMaterial(MaterialsOf(d, s.kind), seg.materialId).value, s)
    && FadeLinked(d, FindMaterial(MaterialsOf(d, s.kind), seg.materialId).value, s)
    && seg.extraRefs.Some?
    && RefsMatch(d, seg.extraRefs.value, FindMaterial(MaterialsOf(d, s.kind), seg.materialId).value, s)
  }

  /** Track `t` at key `i` was built from the sequences `F` that carry that
      key: type, id and name from the first of them, one segment per
      sequence in order. */
  ghost predicate TrackRealizes(d: Doc, i: int, t: Track, F: seq<SimpleSeq>) {
    && |F| > 0
    && t.trackType == Typed(F[0].kind)
    && t.tag == Some(LabelFor(F[0].kind, i))
    && |t.segments| == |F|
    && forall j :: 0 <= j < |F| ==> Realizes(d, t.segments[j], F[j])
  }

  lemma ExtendsTrans(d1: Doc, d2: Doc, d3: Doc, b1: nat, b2: nat)
    requires Extends(d1, d2, b1) && Extends(d2, d3, b2) && b1 <= b2
    ensures Extends(d1, d3, b1)
  {
    forall m | m in d3.videos[|d1.videos|..] ensures b1 <= m.id.n {
      var k :| 0 <= k < |d3.videos[|d1.videos|..]| && d3.videos[|d1.videos|..][k] == m;
      if |d1.videos| + k < |d2.videos| {
        assert m == d2.videos[|d1.videos|..][k];
      } else {
        assert m == d3.videos[|d2.videos|..][|d1.videos| + k - |d2.videos|];
      }
    }
    forall m | m in d3.audios[|d1.audios|..] ensures b1 <= m.id.n {
      var k :| 0 <= k < |d3.audios[|d1.audios|..]| && d3.audios[|d1.audios|..][k] == m;
      if |d1.audios| + k < |d2.audios| {
        assert m == d2.audios[|d1.audios|..][k];
      } else {
        assert m == d3.audios[|d2.audios|..][|d1.audios| + k - |d2.audios|];
      }
    }
    forall f | f in d3.audioFades[|d1.audioFades|..] ensures b1 <= f.id.n {
      var k :| 0 <= k < |d3.audioFades[|d1.audioFades|..]| && d3.audioFades[|d1.audioFades|..][k] == f;
      if |d1.audioFades| + k < |d2.audioFades| {
        assert f == d2.audioFades[|d1.audioFades|..][k];
      } else {
        assert f == d3.audioFades[|d2.audioFades|..][|d1.audioFades| + k - |d2.audioFades|];
      }
    }
  }

  /** Lookups that succeed, or fail on an id below `bound`, give the same
      answer after an extension. */
  lemma ExtendsLookups(d: Doc, d2: Doc, bound: nat, id: Id)
    requires Extends(d, d2, bound) && id.n < bound
    ensures forall k :: FindMaterial(MaterialsOf(d2, k), id) == FindMaterial(MaterialsOf(d, k), id)
    ensures FindFade(d2.audioFades, id) == FindFade(d.audioFades, id)
  {
    forall k ensures FindMaterial(MaterialsOf(d2, k), id) == FindMaterial(MaterialsOf(d, k), id) {
      var a := MaterialsOf(d, k);
      var b := MaterialsOf(d2, k);
      assert b == a + b[|a|..];
      FindMaterialAppend(a, b[|a|..], id);
      assert forall m :: m in b[|a|..] ==> m.id != id;
    }
    assert d2.audioFades == d.audioFades + d2.audioFades[|d.audioFades|..];
    FindFadeAppend(d.audioFades, d2.audioFades[|d.audioFades|..], id);
  }

  /** A realized segment stays realized while the document only grows. */
  lemma ExtendsRealizes(d: Doc, d2: Doc, bound: nat, seg: Segment, s: SimpleSeq)
    requires IdsBelow(d, bound) && Extends(d, d2, bound)
    requires Realizes(d, seg, s)
    ensures Realizes(d2, seg, s)
  {
    var m := FindMaterial(MaterialsOf(d, s.kind), seg.materialId).value;
    assert m in MaterialsOf(d, s.kind);
    ExtendsLookups(d, d2, bound, seg.materialId);
    var refs := seg.extraRefs.value;
    FindAuxPrefix(d.canvases, d2.canvases, s.path);
    FindAuxPrefix(d.speeds, d2.speeds, s.path);
    FindAuxPrefix(d.placeholders, d2.placeholders, s.path);
    if s.kind == Video && m.audioFade.Inline? {
      var f := m.audioFade.fade;
      assert f in d.audioFades;
      ExtendsLookups(d, d2, bound, f.id);
    }
  }

  lemma ExtendsTrackRealizes(d: Doc, d2: Doc, bound: nat, i: int, t: Track, F: seq<SimpleSeq>)
    requires IdsBelow(d, bound) && Extends(d, d2, bound)
    requires TrackRealizes(d, i, t, F)
    ensures TrackRealizes(d2, i, t, F)
  {
    forall j | 0 <= j < |F| ensures Realizes(d2, t.segments[j], F[j]) {
      ExtendsRealizes(d, d2, bound, t.segments[j], F[j]);
    }
  }

  /** Realization depends only on the material, fade and auxiliary lists. */
  lemma SameListsRealize(d: Doc, d2: Doc, i: int, t: Track, F: seq<SimpleSeq>)
    requires d2.videos == d.videos && d2.audios == d.audios && d2.audioFades == d.audioFades
    requires d2.canvases == d.canvases && d2.speeds == d.speeds && d2.placeholders == d.placeholders
    requires TrackRealizes(d, i, t, F)
    ensures TrackRealizes(d2, i, t, F)
  {
    forall j | 0 <= j < |F| ensures Realizes(d2, t.segments[j], F[j]) {
      SameListsRealizeSegment(d, d2, t.segments[j], F[j]);
    }
  }

  lemma SameListsRealizeSegment(d: Doc, d2: Doc, seg: Segment, s: SimpleSeq)
    requires d2.videos == d.videos && d2.audios == d.audios && d2.audioFades == d.audioFades
    requires d2.canvases == d.canvases && d2.speeds == d.speeds && d2.placeholders == d.placeholders
    requires Realizes(d, seg, s)
    ensures Realizes(d2, seg, s)
  {
    assert MaterialsOf(d2, s.kind) == MaterialsOf(d, s.kind);
    assert MaterialsOf(d2, OtherKind(s.kind)) == MaterialsOf(d, OtherKind(s.kind));
  }
}
