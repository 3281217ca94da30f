/** Full synchronisation (`sync_from_json`): the document's tracks and its
    video, audio and audio-fade lists are reset and rebuilt from a list of
    simplified sequences, one sequence at a time, threading a fresh-id
    counter; the canvas, speed and placeholder lists are kept and
    deduplicated against. */
module Sync {
  import opened Wrappers
  import opened Units
  import opened Native
  import opened Simple
  import opened Auxiliary
  import opened Grouping
  import opened Duration
  import opened FadeRefs

  /** The working document, the tracks built so far, and the next free id. */
  datatype SyncState = SyncState(doc: Doc, groups: seq<Group>, next: nat)

  /** Empties the track list and the video, audio and audio-fade lists; the
      canvas, speed and placeholder lists are kept. */
  function Reset(d: Doc): Doc {
    d.(tracks := [], videos := [], audios := [], audioFades := [])
  }

  function InitialState(d: Doc, next: nat): SyncState {
    SyncState(Reset(d), [], next)
  }

  /** The material object built for `s` (`video_obj` or `audio_obj`). */
  function MaterialOf(s: SimpleSeq, id: Id, fade: FadeField): Material {
    Material(id, s.kind, s.path, SourceRangeOf(s).duration, Basename(s.path), VolumeOf(s), fade)
  }

  /** The document after the material (and fade) of one sequence is
      appended, the material's id, the fade reference for the segment and
      the next free id. */
  datatype MediaStep = MediaStep(doc: Doc, materialId: Id, fadeRefs: seq<Id>, next: nat)

  function AddMedia(d: Doc, s: SimpleSeq, next: nat): MediaStep {
    var id := Id(next);
    var fadeIn := FadeInUs(s);
    var fadeOut := FadeOutUs(s);
    match s.kind
    case Video =>
      if fadeIn == 0 && fadeOut == 0 then
        MediaStep(d.(videos := d.videos + [MaterialOf(s, id, Null)]), id, FadeRef(fadeIn, fadeOut, id), next + 1)
      else
        var fade := AudioFade(Id(next + 1), fadeIn, fadeOut);
        MediaStep(d.(videos := d.videos + [MaterialOf(s, id, Inline(fade))], audioFades := d.audioFades + [fade]),
                  id, FadeRef(fadeIn, fadeOut, fade.id), next + 2)
    case Audio =>
      var withAudio := d.(audios := d.audios + [MaterialOf(s, id, Absent)]);
      if fadeIn > 0 || fadeOut > 0 then
        MediaStep(withAudio.(audioFades := withAudio.audioFades + [AudioFade(id, fadeIn, fadeOut)]),
                  id, FadeRef(fadeIn, fadeOut, id), next + 1)
      else
        MediaStep(withAudio, id, FadeRef(fadeIn, fadeOut, id), next + 1)
  }

  /** Everything one sequence adds to the document, and its segment. */
  datatype StepParts = StepParts(doc: Doc, segment: Segment, next: nat)

  function Parts(st: SyncState, s: SimpleSeq): StepParts {
    var media := AddMedia(st.doc, s, st.next);
    var canvas := LookupOrAdd(media.doc.canvases, s.path, media.next);
    var speed := LookupOrAdd(media.doc.speeds, s.path, canvas.next);
    var holder := LookupOrAdd(media.doc.placeholders, s.path, speed.next);
    var seg := Segment(Id(holder.next), media.materialId, SyncTargetOf(s), SourceRangeOf(s),
                       VolumeOf(s), FadeInUs(s), FadeOutUs(s),
                       Some([canvas.id, speed.id, holder.id] + media.fadeRefs));
    StepParts(media.doc.(canvases := canvas.entries, speeds := speed.entries, placeholders := holder.entries),
              seg, holder.next + 1)
  }

  /** The track created for the first sequence with a given index; its
      type, id and name follow that sequence's kind. */
  function NewTrack(s: SimpleSeq): Track {
    Track(Typed(s.kind), Some(LabelFor(s.kind, TrackIndexOf(s))), [])
  }

  /** One iteration of the loop over the input sequences. */
  function SyncStep(st: SyncState, s: SimpleSeq): SyncState
    requires StrictlyIncreasing(Indexes(st.groups))
  {
    var p := Parts(st, s);
    SyncState(p.doc, AddToGroup(st.groups, TrackIndexOf(s), NewTrack(s), p.segment), p.next)
  }

  /** The loop over the input sequences, in input order. */
  function SyncAll(st: SyncState, L: seq<SimpleSeq>): (r: SyncState)
    requires StrictlyIncreasing(Indexes(st.groups))
    ensures StrictlyIncreasing(Indexes(r.groups))
    decreases |L|
  {
    if L == [] then st
    else SyncStep(SyncAll(st, L[..|L| - 1]), L[|L| - 1])
  }

  /** The ascending list of the distinct track indexes of `L`. */
  function TrackOrder(L: seq<SimpleSeq>): (r: seq<int>)
    ensures StrictlyIncreasing(r)
    ensures forall x :: x in r <==> x in IndexSet(L)
  {
    if L == [] then []
    else
      var init := L[..|L| - 1];
      SplitLast(L);
      IndexSetSnoc(init, L[|L| - 1]);
      InsertSorted(TrackOrder(init), TrackIndexOf(L[|L| - 1]))
  }

  /** Every video material gets an `audio_fade` key, null when it had none. */
  function ForceFadeKey(vs: seq<Material>): (r: seq<Material>)
    ensures |r| == |vs|
    ensures forall k :: 0 <= k < |r| ==> r[k].audioFade != Absent
    ensures forall k :: 0 <= k < |r| ==> r[k] == if vs[k].audioFade == Absent then vs[k].(audioFade := Null) else vs[k]
  {
    if vs == [] then []
    else [if vs[0].audioFade == Absent then vs[0].(audioFade := Null) else vs[0]] + ForceFadeKey(vs[1..])
  }

  /** The inputs the model covers: no audio sequence with a fade-out that
      truncates to a positive duration (the code's fade reference for those
      reads another sequence's `video_obj`; see `FadeRefs`). */
  predicate SyncableInput(L: seq<SimpleSeq>) {
    forall s :: s in L ==> s.kind == Audio ==> FadeOutUs(s) <= 0
  }

  /** A synchronised document and the next free id. */
  datatype Synced = Synced(doc: Doc, next: nat)

  /** `sync_from_json` on one document. */
  function SyncDoc(d: Doc, L: seq<SimpleSeq>, next: nat): (r: Synced)
    requires SyncableInput(L)
    ensures next <= r.next
    ensures r.doc.duration.Some? <==> d.duration.Some?
    ensures d.canvases <= r.doc.canvases && d.speeds <= r.doc.speeds && d.placeholders <= r.doc.placeholders
  {
    var st := SyncAll(InitialState(d, next), L);
    SyncAllBounds(InitialState(d, next), L);
    var built := st.doc.(tracks := TracksOf(st.groups));
    var timed := UpdateDuration(built);
    Synced(timed.(videos := ForceFadeKey(timed.videos)), st.next)
  }

  /** The loop only appends to the kept lists and only moves the counter forward. */
  lemma {:induction false} SyncAllBounds(st: SyncState, L: seq<SimpleSeq>)
    requires StrictlyIncreasing(Indexes(st.groups))
    ensures var r := SyncAll(st, L);
            && st.next <= r.next && r.doc.duration == st.doc.duration
            && st.doc.canvases <= r.doc.canvases && st.doc.speeds <= r.doc.speeds
            && st.doc.placeholders <= r.doc.placeholders
    decreases |L|
  {
    if L != [] {
      SyncAllBounds(st, L[..|L| - 1]);
      PartsBounds(SyncAll(st, L[..|L| - 1]), L[|L| - 1]);
    }
  }

  lemma PartsBounds(st: SyncState, s: SimpleSeq)
    ensures var p := Parts(st, s);
            && st.next < p.next && p.doc.duration == st.doc.duration
            && st.doc.canvases <= p.doc.canvases && st.doc.speeds <= p.doc.speeds
            && st.doc.placeholders <= p.doc.placeholders
  {
    var media := AddMedia(st.doc, s, st.next);
    assert media.doc.canvases == st.doc.canvases && media.doc.speeds == st.doc.speeds;
    assert media.doc.placeholders == st.doc.placeholders && media.doc.duration == st.doc.duration;
    assert media.next > st.next;
  }

  /** The content file and then its backup, each synchronised on its own
      when it exists. */
  function SyncProject(p: Project, L: seq<SimpleSeq>, next: nat): (r: (Project, nat))
    requires SyncableInput(L)
    ensures r.0.content.Some? <==> p.content.Some?
    ensures r.0.backup.Some? <==> p.backup.Some?
    ensures p.content.Some? ==> r.0.content.value == SyncDoc(p.content.value, L, next).doc
    ensures p.backup.Some? ==>
              r.0.backup.value == SyncDoc(p.backup.value, L,
                                          if p.content.Some? then SyncDoc(p.content.value, L, next).next else next).doc
    ensures next <= r.1
  {
    var (content, afterContent) :=
      match p.content
      case Some(d) => var sd := SyncDoc(d, L, next); (Some(sd.doc), sd.next)
      case None => (None, next);
    var (backup, afterBackup) :=
      match p.backup
      case Some(d) => var sd := SyncDoc(d, L, afterContent); (Some(sd.doc), sd.next)
      case None => (None, afterContent);
    (Project(content, backup), afterBackup)
  }
}
