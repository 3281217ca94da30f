/** What one iteration of the synchronisation loop does to the document. */
module SyncStepFacts {
  import opened Wrappers
  import opened Units
  import opened Native
  import opened Simple
  import opened Auxiliary
  import opened Grouping
  import opened FadeRefs
  import opened Realization
  import opened Sync

  function Last<T>(xs: seq<T>): T
    requires xs != []
  {
    xs[|xs| - 1]
  }

  /** The fade entry one sequence appends to `audio_fades`, if any. */
  function NewFades(s: SimpleSeq, n: nat): (r: seq<AudioFade>)
    ensures |r| == if HasFadeEntry(s) then 1 else 0
    ensures forall f :: f in r ==> n <= f.id.n <= n + 1
  {
    if !HasFadeEntry(s) then []
    else if s.kind == Video then [AudioFade(Id(n + 1), FadeInUs(s), FadeOutUs(s))]
    else [AudioFade(Id(n), FadeInUs(s), FadeOutUs(s))]
  }

  /** `AddMedia` appends one material to its kind's list and `NewFades` to
      the fade list, and touches nothing else. */
  lemma AddMediaShape(d: Doc, s: SimpleSeq, n: nat)
    ensures var media := AddMedia(d, s, n);
            var m := Last(MaterialsOf(media.doc, s.kind));
            && m.id == Id(n) && media.materialId == Id(n)
            && media.next == n + (if s.kind == Video && HasFadeEntry(s) then 2 else 1)
            && media.doc == (if s.kind == Video then d.(videos := d.videos + [m]) else d.(audios := d.audios + [m]))
                              .(audioFades := d.audioFades + NewFades(s, n))
  {
    var media := AddMedia(d, s, n);
    var fin, fout := FadeInUs(s), FadeOutUs(s);
    if s.kind == Video {
      var m := MaterialOf(s, Id(n), if fin == 0 && fout == 0 then Null else Inline(AudioFade(Id(n + 1), fin, fout)));
      assert media.doc.videos == d.videos + [m];
      if fin == 0 && fout == 0 {
        assert NewFades(s, n) == [];
        assert media.doc == d.(videos := d.videos + [m]);
      } else {
        assert media.doc == d.(videos := d.videos + [m], audioFades := d.audioFades + NewFades(s, n));
      }
    } else {
      var m := MaterialOf(s, Id(n), Absent);
      assert media.doc.audios == d.audios + [m];
      if fin > 0 || fout > 0 {
        assert media.doc == d.(audios := d.audios + [m], audioFades := d.audioFades + NewFades(s, n));
      } else {
        assert NewFades(s, n) == [];
        assert media.doc == d.(audios := d.audios + [m]);
      }
    }
  }

  /** Appending the material (and fade) of one sequence. */
  lemma AddMediaFacts(d: Doc, s: SimpleSeq, n: nat)
    requires IdsBelow(d, n)
    ensures var media := AddMedia(d, s, n);
            && media.materialId == Id(n) && n < media.next
            && IdsBelow(media.doc, media.next)
            && Extends(d, media.doc, n)
            && media.doc.canvases == d.canvases && media.doc.speeds == d.speeds
            && media.doc.placeholders == d.placeholders
            && MaterialsOf(media.doc, OtherKind(s.kind)) == MaterialsOf(d, OtherKind(s.kind))
            && |MaterialsOf(media.doc, s.kind)| == |MaterialsOf(d, s.kind)| + 1
            && |media.doc.audioFades| == |d.audioFades| + (if HasFadeEntry(s) then 1 else 0)
            && (forall f :: f in media.doc.audioFades[|d.audioFades|..] ==> f.id.n < media.next)
  {
    var media := AddMedia(d, s, n);
    AddMediaShape(d, s, n);
    var m := Last(MaterialsOf(media.doc, s.kind));
    var fs := NewFades(s, n);
    AppendFades(d.audioFades, fs, n, media.next);
    if s.kind == Video {
      AppendMaterial(d.videos, m, n, media.next);
    } else {
      AppendMaterial(d.audios, m, n, media.next);
    }
  }

  lemma AppendFades(fs: seq<AudioFade>, extra: seq<AudioFade>, n: nat, n2: nat)
    requires (forall x :: x in fs ==> x.id.n < n) && (forall x :: x in extra ==> n <= x.id.n < n2)
    requires n < n2
    ensures fs <= fs + extra && (fs + extra)[|fs|..] == extra
    ensures forall x :: x in fs + extra ==> x.id.n < n2
  {
    assert (fs + extra)[|fs|..] == extra;
  }

  lemma AppendMaterial(ms: seq<Material>, m: Material, n: nat, n2: nat)
    requires (forall x :: x in ms ==> x.id.n < n) && m.id.n == n && n < n2
    ensures ms <= ms + [m] && (ms + [m])[|ms|..] == [m]
    ensures forall x :: x in ms + [m] ==> x.id.n < n2
    ensures forall x :: x in (ms + [m])[|ms|..] ==> n <= x.id.n
  {
    assert (ms + [m])[|ms|..] == [m];
  }

  /** The material appended for one sequence matches it and is found by its id. */
  lemma AddMediaMaterial(d: Doc, s: SimpleSeq, n: nat)
    requires IdsBelow(d, n)
    ensures var media := AddMedia(d, s, n);
            var ms := MaterialsOf(media.doc, s.kind);
            && ms != [] && Last(ms).id == Id(n)
            && MaterialMatches(Last(ms), s)
            && FadeLinked(media.doc, Last(ms), s)
            && media.fadeRefs == FadeRef(FadeInUs(s), FadeOutUs(s), FadeIdOf(Last(ms)))
            && FindMaterial(ms, Id(n)) == Some(Last(ms))
            && FindMaterial(MaterialsOf(media.doc, OtherKind(s.kind)), Id(n)).None?
  {
    var media := AddMedia(d, s, n);
    var ms := MaterialsOf(media.doc, s.kind);
    AddMediaFacts(d, s, n);
    var old_ := MaterialsOf(d, s.kind);
    assert ms == old_ + [Last(ms)];
    FindMaterialAppend(old_, [Last(ms)], Id(n));
    assert forall m :: m in old_ ==> m.id.n < n;
    assert forall m :: m in MaterialsOf(d, OtherKind(s.kind)) ==> m.id.n < n;
    if s.kind == Video && !(FadeInUs(s) == 0 && FadeOutUs(s) == 0) {
      var f := AudioFade(Id(n + 1), FadeInUs(s), FadeOutUs(s));
      FindFadeAppend(d.audioFades, [f], f.id);
      assert forall g :: g in d.audioFades ==> g.id.n < n;
    }
    if s.kind == Audio {
      var f := AudioFade(Id(n), FadeInUs(s), FadeOutUs(s));
      FindFadeAppend(d.audioFades, [f], f.id);
      assert forall g :: g in d.audioFades ==> g.id != Id(n);
    }
  }

  /** A segment whose fields, material, fade and references carry the
      values built from `s` is realized from `s`. */
  lemma SegmentRealizes(d: Doc, seg: Segment, s: SimpleSeq, m: Material, refs: seq<Id>)
    requires seg.target == SyncTargetOf(s) && seg.source == SourceRangeOf(s) && seg.volume == VolumeOf(s)
    requires seg.fadeIn == FadeInUs(s) && seg.fadeOut == FadeOutUs(s)
    requires FindMaterial(MaterialsOf(d, s.kind), seg.materialId) == Some(m)
    requires FindMaterial(MaterialsOf(d, OtherKind(s.kind)), seg.materialId).None?
    requires MaterialMatches(m, s) && FadeLinked(d, m, s)
    requires |refs| == 3 && FindAux(d.canvases, s.path) == Some(refs[0])
    requires FindAux(d.speeds, s.path) == Some(refs[1]) && FindAux(d.placeholders, s.path) == Some(refs[2])
    requires seg.extraRefs == Some(refs + FadeRef(FadeInUs(s), FadeOutUs(s), FadeIdOf(m)))
    ensures Realizes(d, seg, s)
  {
    assert (refs + FadeRef(FadeInUs(s), FadeOutUs(s), FadeIdOf(m)))[3..] == FadeRef(FadeInUs(s), FadeOutUs(s), FadeIdOf(m));
  }

  /** The segment of one iteration is realized from its sequence. */
  lemma PartsRealizes(st: SyncState, s: SimpleSeq)
    requires IdsBelow(st.doc, st.next)
    ensures var p := Parts(st, s);
            && Realizes(p.doc, p.segment, s)
            && p.segment.materialId == Id(st.next)
  {
    var d := st.doc;
    var n := st.next;
    var media := AddMedia(d, s, n);
    AddMediaMaterial(d, s, n);
    var canvas := LookupOrAdd(media.doc.canvases, s.path, media.next);
    var speed := LookupOrAdd(media.doc.speeds, s.path, canvas.next);
    var holder := LookupOrAdd(media.doc.placeholders, s.path, speed.next);
    var p := Parts(st, s);
    var doc := media.doc.(canvases := canvas.entries, speeds := speed.entries, placeholders := holder.entries);
    assert p.doc == doc;
    assert MaterialsOf(doc, s.kind) == MaterialsOf(media.doc, s.kind);
    assert MaterialsOf(doc, OtherKind(s.kind)) == MaterialsOf(media.doc, OtherKind(s.kind));
    var m := Last(MaterialsOf(media.doc, s.kind));
    assert FadeLinked(doc, m, s);
    SegmentRealizes(doc, p.segment, s, m, [canvas.id, speed.id, holder.id]);
  }

  /** `es2` is `es` when `es` already names `path`, and otherwise `es` with
      one entry for `path` appended whose id lies in `[lo, hi)`. */
  predicate AuxGrew(es: seq<AuxEntry>, es2: seq<AuxEntry>, path: string, lo: nat, hi: nat) {
    && (FindAux(es, path).Some? ==> es2 == es)
    && (FindAux(es, path).None? ==>
          && |es2| == |es| + 1 && es <= es2
          && es2[|es|].name == Some(path) && lo <= es2[|es|].id.n < hi)
  }

  lemma LookupOrAddGrew(es: seq<AuxEntry>, path: string, next: nat, lo: nat, hi: nat)
    requires lo <= next && LookupOrAdd(es, path, next).next <= hi
    ensures AuxGrew(es, LookupOrAdd(es, path, next).entries, path, lo, hi)
  {
    var r := LookupOrAdd(es, path, next);
    if FindAux(es, path).Some? {
      assert |r.entries| == |es|;
      assert r.entries == es[..|es|];
    }
  }

  /** One iteration only appends: its own kind's material list gains exactly
      the sequence's material, with id `st.next`; the fade list gains the
      sequence's fade entry, if any; each auxiliary list gains an entry for
      the path only when it did not name it, with a fresh id; and the counter
      advances past every new id. */
  lemma PartsGrows(st: SyncState, s: SimpleSeq)
    requires IdsBelow(st.doc, st.next)
    ensures var p := Parts(st, s);
            var m := Last(MaterialsOf(p.doc, s.kind));
            && st.next < p.next
            && IdsBelow(p.doc, p.next)
            && Extends(st.doc, p.doc, st.next)
            && MaterialsOf(p.doc, s.kind) == MaterialsOf(st.doc, s.kind) + [m]
            && m.id == Id(st.next) && MaterialMatches(m, s)
            && MaterialsOf(p.doc, OtherKind(s.kind)) == MaterialsOf(st.doc, OtherKind(s.kind))
            && p.doc.audioFades == st.doc.audioFades + NewFades(s, st.next)
            && AuxGrew(st.doc.canvases, p.doc.canvases, s.path, st.next, p.next)
            && AuxGrew(st.doc.speeds, p.doc.speeds, s.path, st.next, p.next)
            && AuxGrew(st.doc.placeholders, p.doc.placeholders, s.path, st.next, p.next)
  {
    var d := st.doc;
    var n := st.next;
    var media := AddMedia(d, s, n);
    AddMediaFacts(d, s, n);
    AddMediaShape(d, s, n);
    var canvas := LookupOrAdd(media.doc.canvases, s.path, media.next);
    var speed := LookupOrAdd(media.doc.speeds, s.path, canvas.next);
    var holder := LookupOrAdd(media.doc.placeholders, s.path, speed.next);
    var p := Parts(st, s);
    assert p.doc == media.doc.(canvases := canvas.entries, speeds := speed.entries, placeholders := holder.entries);
    assert forall k :: MaterialsOf(p.doc, k) == MaterialsOf(media.doc, k);
    PartsMaterials(st, s);
    PartsAuxGrew(st, s);
  }

  lemma PartsAuxGrew(st: SyncState, s: SimpleSeq)
    ensures var p := Parts(st, s);
            && AuxGrew(st.doc.canvases, p.doc.canvases, s.path, st.next, p.next)
            && AuxGrew(st.doc.speeds, p.doc.speeds, s.path, st.next, p.next)
            && AuxGrew(st.doc.placeholders, p.doc.placeholders, s.path, st.next, p.next)
  {
    var d := st.doc;
    var media := AddMedia(d, s, st.next);
    assert media.doc.canvases == d.canvases && media.doc.speeds == d.speeds;
    assert media.doc.placeholders == d.placeholders && media.next > st.next;
    var canvas := LookupOrAdd(d.canvases, s.path, media.next);
    var speed := LookupOrAdd(d.speeds, s.path, canvas.next);
    var holder := LookupOrAdd(d.placeholders, s.path, speed.next);
    var p := Parts(st, s);
    assert p.next == holder.next + 1;
    LookupOrAddGrew(d.canvases, s.path, media.next, st.next, p.next);
    LookupOrAddGrew(d.speeds, s.path, canvas.next, st.next, p.next);
    LookupOrAddGrew(d.placeholders, s.path, speed.next, st.next, p.next);
  }

  /** The fade reference of one iteration, as intended: a sequence with a
      positive fade references the id of its `audio_fades` entry, which holds
      its fades. For an audio sequence that id is its own material's id;
      for a video sequence it is the id of its inline fade object. A
      sequence without a positive fade references nothing, and an audio one
      then has no `audio_fades` entry. */
  lemma PartsFadeReference(st: SyncState, s: SimpleSeq)
    requires IdsBelow(st.doc, st.next)
    ensures var p := Parts(st, s);
            var fadeId := FadeIdFor(s, st.next);
            && p.segment.materialId == Id(st.next)
            && p.segment.extraRefs.Some? && |p.segment.extraRefs.value| >= 3
            && p.segment.extraRefs.value[3..] == (if FadePositive(s) then [fadeId] else [])
            && (FadePositive(s) ==>
                  FindFade(p.doc.audioFades, fadeId) == Some(AudioFade(fadeId, FadeInUs(s), FadeOutUs(s))))
            && (s.kind == Audio && !FadePositive(s) ==> FindFade(p.doc.audioFades, fadeId).None?)
  {
    var media := AddMedia(st.doc, s, st.next);
    if s.kind == Video {
      VideoFadeReference(st.doc, s, st.next);
    } else {
      AudioFadeReference(st.doc, s, st.next);
    }
    var p := Parts(st, s);
    assert p.doc.audioFades == media.doc.audioFades;
    var canvas := LookupOrAdd(media.doc.canvases, s.path, media.next);
    var speed := LookupOrAdd(media.doc.speeds, s.path, canvas.next);
    var holder := LookupOrAdd(media.doc.placeholders, s.path, speed.next);
    assert p.segment.extraRefs.value == [canvas.id, speed.id, holder.id] + media.fadeRefs;
  }

  /** The id of the `audio_fades` entry one sequence creates: an audio
      material's own id, or the id after a video material's. */
  function FadeIdFor(s: SimpleSeq, n: nat): Id {
    if s.kind == Audio then Id(n) else Id(n + 1)
  }

  /** The intended fade rule of `AddMedia` for one video sequence. */
  lemma VideoFadeReference(d: Doc, s: SimpleSeq, n: nat)
    requires IdsBelow(d, n) && s.kind == Video
    ensures var media := AddMedia(d, s, n);
            && media.materialId == Id(n)
            && media.fadeRefs == (if FadePositive(s) then [Id(n + 1)] else [])
            && (FadePositive(s) ==>
                  FindFade(media.doc.audioFades, Id(n + 1)) == Some(AudioFade(Id(n + 1), FadeInUs(s), FadeOutUs(s))))
  {
    if !(FadeInUs(s) == 0 && FadeOutUs(s) == 0) {
      var f := AudioFade(Id(n + 1), FadeInUs(s), FadeOutUs(s));
      assert AddMedia(d, s, n).doc.audioFades == d.audioFades + [f];
      FindFadeAppend(d.audioFades, [f], f.id);
      assert forall g :: g in d.audioFades ==> g.id != f.id;
    }
  }

  /** The intended fade rule of `AddMedia` for one audio sequence. */
  lemma AudioFadeReference(d: Doc, s: SimpleSeq, n: nat)
    requires IdsBelow(d, n) && s.kind == Audio
    ensures var media := AddMedia(d, s, n);
            && media.materialId == Id(n)
            && media.fadeRefs == (if FadePositive(s) then [Id(n)] else [])
            && (FadePositive(s) ==>
                  FindFade(media.doc.audioFades, Id(n)) == Some(AudioFade(Id(n), FadeInUs(s), FadeOutUs(s))))
            && (!FadePositive(s) ==> FindFade(media.doc.audioFades, Id(n)).None?)
  {
    assert forall g :: g in d.audioFades ==> g.id != Id(n);
    if FadePositive(s) {
      var f := AudioFade(Id(n), FadeInUs(s), FadeOutUs(s));
      assert AddMedia(d, s, n).doc.audioFades == d.audioFades + [f];
      FindFadeAppend(d.audioFades, [f], f.id);
    }
  }

  /** The material lists after one iteration: the sequence's own kind gains
      one matching material with id `st.next`, the other is unchanged. */
  lemma PartsMaterials(st: SyncState, s: SimpleSeq)
    requires IdsBelow(st.doc, st.next)
    ensures var p := Parts(st, s);
            var m := Last(MaterialsOf(p.doc, s.kind));
            && st.next < p.next && m.id == Id(st.next) && MaterialMatches(m, s)
            && (s.kind == Video ==> p.doc.videos == st.doc.videos + [m] && p.doc.audios == st.doc.audios)
            && (s.kind == Audio ==> p.doc.audios == st.doc.audios + [m] && p.doc.videos == st.doc.videos)
  {
    var media := AddMedia(st.doc, s, st.next);
    AddMediaShape(st.doc, s, st.next);
    AddMediaMaterial(st.doc, s, st.next);
    var p := Parts(st, s);
    assert p.doc.videos == media.doc.videos && p.doc.audios == media.doc.audios;
    if s.kind == Video {
      assert MaterialsOf(p.doc, s.kind) == media.doc.videos;
    } else {
      assert MaterialsOf(p.doc, s.kind) == media.doc.audios;
    }
  }

}
