/** The incremental operations `add_video_sequence` and
    `add_audio_sequence`: each appends one material and one segment to the
    content file and then to the backup, reusing the track at list position
    `track_index` when it qualifies and otherwise padding the track list and
    writing a fresh named track at that position. The two methods differ
    only in the kind, so one definition parameterised by the sequence's
    kind models both. */
module Add {
  import opened Wrappers
  import opened Units
  import opened Native
  import opened Simple
  import opened Grouping
  import opened FadeRefs
  import opened Realization
  import opened Sync
  import opened Export

  /** The material appended to `materials.videos` or `materials.audios`;
      it never carries an `audio_fade` key, and its name is the path's last
      component (`PathName`). */
  function AddedMaterial(s: SimpleSeq, next: nat): Material {
    Material(Id(next), s.kind, s.path, SourceRangeOf(s).duration, PathName(s.path), VolumeOf(s), Absent)
  }

  /** The segment appended; it has no `extra_material_refs`. */
  function AddedSegment(s: SimpleSeq, next: nat): Segment {
    Segment(Id(next + 1), Id(next), AddTargetOf(s), SourceRangeOf(s),
            VolumeOf(s), FadeInUs(s), FadeOutUs(s), None)
  }

  /** The fresh named track written at position `i`. */
  function NamedTrack(k: Kind, i: int): Track {
    Track(Typed(k), Some(LabelFor(k, i)), [])
  }

  /** The bare `{"type": ..., "segments": []}` tracks used as padding. */
  function PaddingTrack(k: Kind): Track {
    Track(Typed(k), None, [])
  }

  /** Python's `list.index`: the first position holding a value equal to `t`. */
  function FirstIndex(ts: seq<Track>, t: Track): (r: nat)
    requires t in ts
    ensures r < |ts| && ts[r] == t
    ensures forall q :: 0 <= q < r ==> ts[q] != t
  {
    if ts[0] == t then 0
    else
      assert t in ts[1..] by {
        var q :| 0 <= q < |ts| && ts[q] == t;
        assert ts[1..][q - 1] == t;
      }
      1 + FirstIndex(ts[1..], t)
  }

  /** The search loop from position `j` on: the first track of kind `k`
      whose `list.index` is `i`. */
  function Scan(ts: seq<Track>, k: Kind, i: int, j: nat): (r: Option<nat>)
    requires j <= |ts|
    ensures r.Some? ==> j <= r.value < |ts|
    ensures r.Some? ==> ts[r.value].trackType == Typed(k) && FirstIndex(ts, ts[r.value]) == i
    decreases |ts| - j
  {
    if j == |ts| then None
    else if ts[j].trackType == Typed(k) && FirstIndex(ts, ts[j]) == i then Some(j)
    else Scan(ts, k, i, j + 1)
  }

  /** The track at position `i` is reused: it has the requested type and no
      earlier track is equal to it. */
  predicate Reusable(ts: seq<Track>, k: Kind, i: int) {
    0 <= i < |ts| && ts[i].trackType == Typed(k) && forall q :: 0 <= q < i ==> ts[q] != ts[i]
  }

  /** Appends padding tracks of kind `k` until position `i` exists. */
  function PadTo(ts: seq<Track>, k: Kind, i: int): (r: seq<Track>)
    ensures |r| == if i < |ts| then |ts| else i + 1
    ensures ts <= r
    ensures forall q :: |ts| <= q < |r| ==> r[q] == PaddingTrack(k)
    decreases i + 1 - |ts|
  {
    if i < |ts| then ts else PadTo(ts + [PaddingTrack(k)], k, i)
  }

  /** The list position an index designates in a list of length `n`
      (Python counts a negative index from the end). */
  function Slot(n: nat, i: int): int {
    if i >= 0 then i else n + i
  }

  /** One of the two methods on one document. The only failure is the
      `IndexError` of a negative `track_index` beyond the list's start,
      raised before the file is written. */
  function AddToDoc(d: Doc, s: SimpleSeq, next: nat): (r: Result<Doc, PyError>)
    ensures r.Failure? <==> TrackIndexOf(s) < -|d.tracks|
    ensures r.Failure? ==> r.error == IndexError
    ensures r.Success? ==>
              && MaterialsOf(r.value, s.kind) == MaterialsOf(d, s.kind) + [AddedMaterial(s, next)]
              && MaterialsOf(r.value, OtherKind(s.kind)) == MaterialsOf(d, OtherKind(s.kind))
              && r.value.audioFades == d.audioFades
              && r.value.canvases == d.canvases && r.value.speeds == d.speeds
              && r.value.placeholders == d.placeholders
              && r.value.duration == d.duration
  {
    var k := s.kind;
    var i := TrackIndexOf(s);
    var seg := AddedSegment(s, next);
    var m := AddedMaterial(s, next);
    var withMaterial := if k == Video then d.(videos := d.videos + [m]) else d.(audios := d.audios + [m]);
    match Scan(d.tracks, k, i, 0)
    case Some(j) =>
      Success(withMaterial.(tracks := d.tracks[j := AppendSegment(d.tracks[j], seg)]))
    case None =>
      var padded := PadTo(d.tracks, k, i);
      if -|padded| <= i then
        Success(withMaterial.(tracks := padded[Slot(|padded|, i) := AppendSegment(NamedTrack(k, i), seg)]))
      else
        Failure(IndexError)
  }

  /** The search loop finds the track exactly when it is reusable, and then
      at position `track_index`. */
  lemma ScanFindsReusable(ts: seq<Track>, k: Kind, i: int)
    ensures Scan(ts, k, i, 0) == if Reusable(ts, k, i) then Some(i) else None
  {
    if Reusable(ts, k, i) {
      ScanReaches(ts, k, i, 0);
    } else {
      ScanMisses(ts, k, i, 0);
    }
  }

  /** Below a reusable position nothing matches, so the loop reaches it. */
  lemma {:induction false} ScanReaches(ts: seq<Track>, k: Kind, i: int, j: nat)
    requires Reusable(ts, k, i) && j <= i
    ensures Scan(ts, k, i, j) == Some(i)
    decreases i - j
  {
    if j < i {
      assert FirstIndex(ts, ts[j]) <= j;
      ScanReaches(ts, k, i, j + 1);
    }
  }

  /** When no position matches, the loop ends without a track. */
  lemma {:induction false} ScanMisses(ts: seq<Track>, k: Kind, i: int, j: nat)
    requires j <= |ts|
    requires forall q :: j <= q < |ts| ==> !(ts[q].trackType == Typed(k) && FirstIndex(ts, ts[q]) == i)
    ensures Scan(ts, k, i, j) == None
    decreases |ts| - j
  {
    if j < |ts| {
      ScanMisses(ts, k, i, j + 1);
    }
  }

  /** Where the segment goes and what happens to the track list: only the
      designated position changes (padding aside), and it holds the reused
      track or a fresh named one, with the new segment last. */
  lemma AddTracks(d: Doc, s: SimpleSeq, next: nat)
    requires AddToDoc(d, s, next).Success?
    ensures var ts := d.tracks;
            var i := TrackIndexOf(s);
            var p := Slot(|ts|, i);
            var r := AddToDoc(d, s, next).value;
            && 0 <= p < |r.tracks|
            && |r.tracks| == (if p < |ts| then |ts| else p + 1)
            && r.tracks[p] == AppendSegment(if Reusable(ts, s.kind, i) then ts[p] else NamedTrack(s.kind, i),
                                            AddedSegment(s, next))
            && (forall q :: 0 <= q < |ts| && q != p ==> r.tracks[q] == ts[q])
            && (forall q :: |ts| <= q < |r.tracks| && q != p ==> r.tracks[q] == PaddingTrack(s.kind))
  {
    ScanFindsReusable(d.tracks, s.kind, TrackIndexOf(s));
  }

  /** When the position holds a track that cannot be reused, its segments
      are dropped from the document. */
  lemma AddOverwrites(d: Doc, s: SimpleSeq, next: nat)
    requires 0 <= TrackIndexOf(s) < |d.tracks| && !Reusable(d.tracks, s.kind, TrackIndexOf(s))
    ensures AddToDoc(d, s, next).Success?
    ensures AddToDoc(d, s, next).value.tracks[TrackIndexOf(s)].segments == [AddedSegment(s, next)]
  {
    AddTracks(d, s, next);
  }

  /** What the new segment reads back as on export: the truncated times,
      with the end recomputed as start plus duration, and no fades, since
      export reads fades from the material's `audio_fade` or from
      `audio_fades`, neither of which the add operations write. */
  function AddedExport(s: SimpleSeq, p: nat): SimpleSeq {
    SimpleSeq(s.path, Seconds(Micros(s.startTime)), Seconds(Micros(s.endTime)),
              Some(Seconds(Micros(SourceInOf(s)))), Some(Seconds(Micros(SourceOutOf(s)))),
              Some(VolumeOf(s)), Some(0.0), Some(0.0), s.kind, Some(p))
  }

  /** With fresh ids, the exported track at the designated position ends
      with the added sequence. */
  lemma AddThenExport(d: Doc, s: SimpleSeq, next: nat)
    requires IdsBelow(d, next)
    requires AddToDoc(d, s, next).Success?
    ensures var r := AddToDoc(d, s, next).value;
            var p := Slot(|d.tracks|, TrackIndexOf(s));
            && 0 <= p < |r.tracks|
            && ExportKind(r.tracks[p].trackType) == Some(s.kind)
            && ExportSegment(r, s.kind, p, AddedSegment(s, next)) == Some(AddedExport(s, p))
            && exists pre :: ExportTrack(r, p, r.tracks[p]) == pre + [AddedExport(s, p)]
  {
    var r := AddToDoc(d, s, next).value;
    var p := Slot(|d.tracks|, TrackIndexOf(s));
    AddTracks(d, s, next);
    var m := AddedMaterial(s, next);
    FreshFound(MaterialsOf(d, s.kind), m);
    if s.kind == Audio {
      assert forall f :: f in r.audioFades ==> f.id != Id(next);
    }
    ExportAddedSegment(r, s, next, p);
    var segs := r.tracks[p].segments;
    SplitLast(segs);
    ExportSegmentsSnoc(r, s.kind, p, segs[..|segs| - 1], AddedSegment(s, next));
  }

  /** A material with an id no earlier one has is the one a look-up finds. */
  lemma FreshFound(ms: seq<Material>, m: Material)
    requires forall x :: x in ms ==> x.id.n < m.id.n
    ensures FindMaterial(ms + [m], m.id) == Some(m)
  {
    FindMaterialAppend(ms, [m], m.id);
  }

  lemma ExportAddedSegment(r: Doc, s: SimpleSeq, next: nat, p: nat)
    requires FindMaterial(MaterialsOf(r, s.kind), Id(next)) == Some(AddedMaterial(s, next))
    requires s.kind == Audio ==> FindFade(r.audioFades, Id(next)) == None
    ensures ExportSegment(r, s.kind, p, AddedSegment(s, next)) == Some(AddedExport(s, p))
  {
    var m := AddedMaterial(s, next);
    assert FadesOf(r, s.kind, m) == (0, 0);
    var seg := AddedSegment(s, next);
    assert seg.target.start + seg.target.duration == Micros(s.endTime);
    assert seg.source.start + seg.source.duration == Micros(SourceOutOf(s));
  }

  lemma ExportSegmentsSnoc(r: Doc, k: Kind, p: nat, segs: seq<Segment>, seg: Segment)
    ensures ExportSegments(r, k, p, segs + [seg])
         == ExportSegments(r, k, p, segs) + (match ExportSegment(r, k, p, seg) case Some(e) => [e] case None => [])
  {
    assert (segs + [seg])[..|segs|] == segs;
  }

  /** A full synchronisation and an add place the same span differently:
      the first truncates the span in seconds, the second subtracts the
      truncated ends. */
  lemma TargetDurationsDiffer()
    ensures var s := SimpleSeq("clip.mp4", 0.0000005, 0.000001, None, None, None, None, None, Video, None);
            SyncTargetOf(s).duration == 0 && AddTargetOf(s).duration == 1
  {
    var s := SimpleSeq("clip.mp4", 0.0000005, 0.000001, None, None, None, None, None, Video, None);
    assert s.endTime - s.startTime == 0.0000005;
    assert Micros(0.0000005) == 0;
    assert Micros(0.000001) == 1;
  }

  /** The two placements agree when the start is a whole number of
      microseconds and the span runs forward from a non-negative start. */
  lemma TargetDurationsAgree(s: SimpleSeq)
    requires WholeMicros(s.startTime) && 0.0 <= s.startTime <= s.endTime
    ensures SyncTargetOf(s) == AddTargetOf(s)
  {
    MicrosExact(s.startTime);
    var n := Micros(s.startTime);
    var x := s.endTime * MicrosPerSecond;
    assert (s.endTime - s.startTime) * MicrosPerSecond == x - n as real;
    assert (x - n as real).Floor == x.Floor - n;
  }

  /** The project after one add: the files, the next free id, and the
      error raised, if any. */
  datatype Added = Added(project: Project, next: nat, error: Option<PyError>)

  /** `add_video_sequence` / `add_audio_sequence` on the project: the
      content file and then the backup, each skipped when missing. An error
      on a file leaves that file as it was and stops before the next one. */
  function AddToProject(p: Project, s: SimpleSeq, next: nat): (r: Added)
    ensures r.error.None? <==>
              (forall d :: (p.content == Some(d) || p.backup == Some(d)) ==> -|d.tracks| <= TrackIndexOf(s))
    ensures r.error.Some? ==> r.error.value == IndexError
    ensures r.project.content.Some? <==> p.content.Some?
    ensures r.project.backup.Some? <==> p.backup.Some?
    ensures p.content.Some? && TrackIndexOf(s) < -|p.content.value.tracks| ==> r.project == p
    ensures p.content.Some? && -|p.content.value.tracks| <= TrackIndexOf(s) ==>
              r.project.content.value == AddToDoc(p.content.value, s, next).value
    ensures r.error.Some? ==> r.project.backup == p.backup
    ensures r.error.None? && p.backup.Some? ==>
              r.project.backup.value == AddToDoc(p.backup.value, s, if p.content.Some? then next + 2 else next).value
    ensures next <= r.next
  {
    match p.content
    case Some(d) =>
      (match AddToDoc(d, s, next)
       case Failure(e) => Added(p, next + 2, Some(e))
       case Success(d2) => AddToBackup(Project(Some(d2), p.backup), s, next + 2))
    case None => AddToBackup(p, s, next)
  }

  /** The second iteration of the loop over the two file names. */
  function AddToBackup(p: Project, s: SimpleSeq, next: nat): (r: Added)
    ensures r.project.content == p.content
    ensures r.error.None? <==> (p.backup.Some? ==> -|p.backup.value.tracks| <= TrackIndexOf(s))
    ensures r.error.Some? ==> r.error.value == IndexError && r.project == p
    ensures r.project.backup.Some? <==> p.backup.Some?
    ensures r.error.None? && p.backup.Some? ==> r.project.backup.value == AddToDoc(p.backup.value, s, next).value
    ensures next <= r.next
  {
    match p.backup
    case Some(d) =>
      (match AddToDoc(d, s, next)
       case Failure(e) => Added(p, next + 2, Some(e))
       case Success(d2) => Added(Project(p.content, Some(d2)), next + 2, None))
    case None => Added(p, next, None)
  }
}
