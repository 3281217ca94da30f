/** `export_to_json`: reads the native document back into simplified
    sequences, one per segment whose material is found in the list of its
    track's type. */
module Export {
  import opened Wrappers
  import opened Units
  import opened Native
  import opened Simple

  /** The kind a track's `type` selects for the material look-up: a track
      without a type counts as video; any other type finds no material. */
  function ExportKind(tt: TrackType): Option<Kind> {
    match tt
    case Typed(k) => Some(k)
    case Untyped => Some(Video)
    case OtherType(_) => None
  }

  /** The exported fade durations in microseconds: a video reads its inline
      `audio_fade` object, an audio its `audio_fades` entry with the
      material's id; otherwise 0. */
  function FadesOf(d: Doc, k: Kind, m: Material): (int, int) {
    match k
    case Video =>
      (match m.audioFade
       case Inline(f) => (f.fadeIn, f.fadeOut)
       case _ => (0, 0))
    case Audio =>
      (match FindFade(d.audioFades, m.id)
       case Some(f) => (f.fadeIn, f.fadeOut)
       case None => (0, 0))
  }

  /** The sequence exported for segment `seg` on track position `p` whose
      look-up kind is `k`; `None` when the material is missing. */
  function ExportSegment(d: Doc, k: Kind, p: nat, seg: Segment): (r: Option<SimpleSeq>)
    ensures r.Some? <==> FindMaterial(MaterialsOf(d, k), seg.materialId).Some?
    ensures r.Some? ==> r.value.kind == k && r.value.trackIndex == Some(p)
  {
    match FindMaterial(MaterialsOf(d, k), seg.materialId)
    case None => None
    case Some(m) =>
      var (fin, fout) := FadesOf(d, k, m);
      Some(SimpleSeq(m.path,
                     Seconds(seg.target.start), Seconds(seg.target.start + seg.target.duration),
                     Some(Seconds(seg.source.start)), Some(Seconds(seg.source.start + seg.source.duration)),
                     Some(seg.volume), Some(Seconds(fin)), Some(Seconds(fout)),
                     k, Some(p)))
  }

  /** The sequences exported for the segments `segs`, in order. */
  function ExportSegments(d: Doc, k: Kind, p: nat, segs: seq<Segment>): (r: seq<SimpleSeq>)
    ensures |r| <= |segs|
    ensures forall e :: e in r ==> e.kind == k && e.trackIndex == Some(p)
  {
    if segs == [] then []
    else
      var last := segs[|segs| - 1];
      ExportSegments(d, k, p, segs[..|segs| - 1])
        + (match ExportSegment(d, k, p, last) case Some(e) => [e] case None => [])
  }

  /** Whether the material of `seg` is in the material list of kind `k`. */
  predicate Found(d: Doc, k: Kind, seg: Segment) {
    FindMaterial(MaterialsOf(d, k), seg.materialId).Some?
  }

  /** Every position `pos` lists is in range and its material is found. */
  predicate AllFound(d: Doc, k: Kind, segs: seq<Segment>, pos: seq<nat>) {
    forall j :: 0 <= j < |pos| ==> pos[j] < |segs| && Found(d, k, segs[pos[j]])
  }

  predicate Ascending(pos: seq<nat>) {
    forall a, b :: 0 <= a < b < |pos| ==> pos[a] < pos[b]
  }

  /** Every position of `segs` whose material is found is listed. */
  predicate NoneMissed(d: Doc, k: Kind, segs: seq<Segment>, pos: seq<nat>) {
    forall q :: 0 <= q < |segs| && Found(d, k, segs[q]) ==> q in pos
  }

  /** `pos` lists exactly the positions of `segs` whose material is found,
      each once, in ascending order. */
  predicate FoundAt(d: Doc, k: Kind, segs: seq<Segment>, pos: seq<nat>) {
    AllFound(d, k, segs, pos) && Ascending(pos) && NoneMissed(d, k, segs, pos)
  }

  /** The positions listed for `segs` once its last segment is considered. */
  function SnocPosition(d: Doc, k: Kind, segs: seq<Segment>, pos: seq<nat>): seq<nat>
    requires segs != []
  {
    pos + (if Found(d, k, segs[|segs| - 1]) then [|segs| - 1] else [])
  }

  lemma AllFoundSnoc(d: Doc, k: Kind, segs: seq<Segment>, pos: seq<nat>)
    requires segs != [] && AllFound(d, k, segs[..|segs| - 1], pos)
    ensures AllFound(d, k, segs, SnocPosition(d, k, segs, pos))
  {
    var n := |segs| - 1;
    var r := SnocPosition(d, k, segs, pos);
    forall j | 0 <= j < |r| ensures r[j] < |segs| && Found(d, k, segs[r[j]]) {
      if j < |pos| {
        assert r[j] == pos[j] && segs[..n][pos[j]] == segs[pos[j]];
      }
    }
  }

  lemma AscendingSnoc(d: Doc, k: Kind, segs: seq<Segment>, pos: seq<nat>)
    requires segs != [] && Ascending(pos)
    requires forall j :: 0 <= j < |pos| ==> pos[j] < |segs| - 1
    ensures Ascending(SnocPosition(d, k, segs, pos))
  {
    var r := SnocPosition(d, k, segs, pos);
    forall a, b | 0 <= a < b < |r| ensures r[a] < r[b] {
      if b >= |pos| {
        assert r[a] == pos[a] && r[b] == |segs| - 1;
      }
    }
  }

  lemma NoneMissedSnoc(d: Doc, k: Kind, segs: seq<Segment>, pos: seq<nat>)
    requires segs != [] && NoneMissed(d, k, segs[..|segs| - 1], pos)
    ensures NoneMissed(d, k, segs, SnocPosition(d, k, segs, pos))
  {
    var n := |segs| - 1;
    var r := SnocPosition(d, k, segs, pos);
    forall q | 0 <= q < |segs| && Found(d, k, segs[q]) ensures q in r {
      if q < n {
        assert segs[..n][q] == segs[q];
        assert q in pos;
      } else {
        assert r[|r| - 1] == n;
      }
    }
  }

  lemma FoundAtSnoc(d: Doc, k: Kind, segs: seq<Segment>, pos: seq<nat>)
    requires segs != [] && FoundAt(d, k, segs[..|segs| - 1], pos)
    ensures FoundAt(d, k, segs, SnocPosition(d, k, segs, pos))
  {
    AllFoundSnoc(d, k, segs, pos);
    AscendingSnoc(d, k, segs, pos);
    NoneMissedSnoc(d, k, segs, pos);
  }

  /** The positions in `segs` whose material is found. */
  function FoundPositions(d: Doc, k: Kind, segs: seq<Segment>): (r: seq<nat>)
    ensures FoundAt(d, k, segs, r)
  {
    if segs == [] then []
    else
      var n := |segs| - 1;
      var init := FoundPositions(d, k, segs[..n]);
      FoundAtSnoc(d, k, segs, init);
      SnocPosition(d, k, segs, init)
  }

  /** `r` holds, in order, the export of each segment `pos` lists. */
  predicate ExportsAt(d: Doc, k: Kind, p: nat, segs: seq<Segment>, pos: seq<nat>, r: seq<SimpleSeq>) {
    |r| == |pos| && forall j :: 0 <= j < |r| ==> pos[j] < |segs| && ExportSegment(d, k, p, segs[pos[j]]) == Some(r[j])
  }

  lemma ExportsAtSnoc(d: Doc, k: Kind, p: nat, segs: seq<Segment>, pos: seq<nat>, r: seq<SimpleSeq>)
    requires segs != [] && ExportsAt(d, k, p, segs[..|segs| - 1], pos, r)
    ensures ExportsAt(d, k, p, segs, SnocPosition(d, k, segs, pos),
                      r + (match ExportSegment(d, k, p, segs[|segs| - 1]) case Some(e) => [e] case None => []))
  {
    var n := |segs| - 1;
    var pos2 := SnocPosition(d, k, segs, pos);
    var r2 := r + (match ExportSegment(d, k, p, segs[n]) case Some(e) => [e] case None => []);
    assert |r2| == |pos2|;
    forall j | 0 <= j < |r2| ensures pos2[j] < |segs| && ExportSegment(d, k, p, segs[pos2[j]]) == Some(r2[j]) {
      if j < |r| {
        assert pos2[j] == pos[j] && r2[j] == r[j] && segs[..n][pos[j]] == segs[pos[j]];
      }
    }
  }

  /** One exported sequence per segment whose material is found, in segment
      order: the `j`-th sequence is the export of the `j`-th such segment. */
  lemma {:induction false} ExportSegmentsFound(d: Doc, k: Kind, p: nat, segs: seq<Segment>)
    ensures ExportsAt(d, k, p, segs, FoundPositions(d, k, segs), ExportSegments(d, k, p, segs))
  {
    if segs != [] {
      var n := |segs| - 1;
      ExportSegmentsFound(d, k, p, segs[..n]);
      ExportsAtSnoc(d, k, p, segs, FoundPositions(d, k, segs[..n]), ExportSegments(d, k, p, segs[..n]));
    }
  }

  /** The sequences exported for the track at position `p`: nothing for a
      track of another type; otherwise one per segment whose material is
      found in the list of the track's kind, in segment order. */
  function ExportTrack(d: Doc, p: nat, t: Track): (r: seq<SimpleSeq>)
    ensures |r| <= |t.segments|
    ensures ExportKind(t.trackType).None? ==> r == []
    ensures forall e :: e in r ==> Some(e.kind) == ExportKind(t.trackType) && e.trackIndex == Some(p)
    ensures ExportKind(t.trackType).Some? ==>
              var k := ExportKind(t.trackType).value;
              ExportsAt(d, k, p, t.segments, FoundPositions(d, k, t.segments), r)
  {
    match ExportKind(t.trackType)
    case None => []
    case Some(k) =>
      ExportSegmentsFound(d, k, p, t.segments);
      ExportSegments(d, k, p, t.segments)
  }

  /** The sequences exported for the first `|ts|` tracks. */
  function ExportTracks(d: Doc, ts: seq<Track>): (r: seq<SimpleSeq>)
    ensures forall e :: e in r ==> e.trackIndex.Some? && 0 <= e.trackIndex.value < |ts|
                                    && Some(e.kind) == ExportKind(ts[e.trackIndex.value].trackType)
  {
    if ts == [] then []
    else
      var n := |ts| - 1;
      var A := ExportTracks(d, ts[..n]);
      var B := ExportTrack(d, n, ts[n]);
      PlacedSnoc(ts, A, B);
      A + B
  }

  /** The export of a track list is its prefix's export followed by the last track's. */
  lemma ExportTracksSnoc(d: Doc, init: seq<Track>, last: Track)
    ensures ExportTracks(d, init + [last]) == ExportTracks(d, init) + ExportTrack(d, |init|, last)
  {
    var ts := init + [last];
    assert ts[..|ts| - 1] == init && ts[|ts| - 1] == last;
  }

  lemma PlacedSnoc(ts: seq<Track>, A: seq<SimpleSeq>, B: seq<SimpleSeq>)
    requires ts != []
    requires forall e :: e in A ==> e.trackIndex.Some? && 0 <= e.trackIndex.value < |ts| - 1
                                    && Some(e.kind) == ExportKind(ts[..|ts| - 1][e.trackIndex.value].trackType)
    requires forall e :: e in B ==> Some(e.kind) == ExportKind(ts[|ts| - 1].trackType) && e.trackIndex == Some(|ts| - 1)
    ensures forall e :: e in A + B ==> e.trackIndex.Some? && 0 <= e.trackIndex.value < |ts|
                                        && Some(e.kind) == ExportKind(ts[e.trackIndex.value].trackType)
  {
    forall e | e in A + B
      ensures e.trackIndex.Some? && 0 <= e.trackIndex.value < |ts|
              && Some(e.kind) == ExportKind(ts[e.trackIndex.value].trackType)
    {
      if e in A {
        assert ts[..|ts| - 1][e.trackIndex.value] == ts[e.trackIndex.value];
      }
    }
  }

  /** Track indexes never decrease along the list. */
  predicate IndexesAscending(r: seq<SimpleSeq>) {
    forall a, b :: 0 <= a < b < |r| ==> TrackIndexOf(r[a]) <= TrackIndexOf(r[b])
  }

  /** Appending a list all on index `n` to an ascending list below `n`
      keeps the indexes ascending. */
  lemma AscendingAppend(A: seq<SimpleSeq>, B: seq<SimpleSeq>, n: int)
    requires IndexesAscending(A)
    requires forall x :: x in A ==> TrackIndexOf(x) < n
    requires forall x :: x in B ==> TrackIndexOf(x) == n
    ensures IndexesAscending(A + B)
  {
    forall a, b | 0 <= a < b < |A + B| ensures TrackIndexOf((A + B)[a]) <= TrackIndexOf((A + B)[b]) {
      if b >= |A| {
        assert (A + B)[b] in B;
        if a < |A| { assert (A + B)[a] in A; } else { assert (A + B)[a] in B; }
      }
    }
  }

  /** The track-`p` part of `A + B` when `A` lies below index `n` and `B` on it. */
  lemma OnTrackSplit(A: seq<SimpleSeq>, B: seq<SimpleSeq>, n: int, p: int)
    requires forall x :: x in A ==> TrackIndexOf(x) < n
    requires forall x :: x in B ==> TrackIndexOf(x) == n
    ensures p < n ==> OnTrack(A + B, p) == OnTrack(A, p)
    ensures p == n ==> OnTrack(A + B, p) == B
  {
    OnTrackAppend(A, B, p);
    if p < n {
      NoneOnTrack(B, p);
    } else if p == n {
      NoneOnTrack(A, n);
      AllOnTrack(B, n);
    }
  }

  /** The export of the first `|ts|` tracks lists them track by track: the
      sequences on index `p` are exactly track `p`'s export, and the
      indexes ascend. */
  lemma {:induction false} ExportTracksByTrack(d: Doc, ts: seq<Track>)
    ensures forall p :: 0 <= p < |ts| ==> OnTrack(ExportTracks(d, ts), p) == ExportTrack(d, p, ts[p])
    ensures IndexesAscending(ExportTracks(d, ts))
  {
    if ts != [] {
      var n := |ts| - 1;
      var A := ExportTracks(d, ts[..n]);
      var B := ExportTrack(d, n, ts[n]);
      ExportTracksByTrack(d, ts[..n]);
      assert ExportTracks(d, ts) == A + B;
      assert forall x :: x in A ==> TrackIndexOf(x) < n;
      assert forall x :: x in B ==> TrackIndexOf(x) == n;
      AscendingAppend(A, B, n);
      forall p | 0 <= p < |ts| ensures OnTrack(A + B, p) == ExportTrack(d, p, ts[p]) {
        OnTrackSplit(A, B, n, p);
        if p < n { assert ts[..n][p] == ts[p]; }
      }
    }
  }

  /** `export_to_json` on one document: the tracks in list order, each
      contributing exactly its own export under its list position. */
  function ExportDoc(d: Doc): (r: seq<SimpleSeq>)
    ensures forall e :: e in r ==> e.trackIndex.Some? && 0 <= e.trackIndex.value < |d.tracks|
                                    && Some(e.kind) == ExportKind(d.tracks[e.trackIndex.value].trackType)
    ensures forall p :: 0 <= p < |d.tracks| ==> OnTrack(r, p) == ExportTrack(d, p, d.tracks[p])
    ensures IndexesAscending(r)
  {
    ExportTracksByTrack(d, d.tracks);
    ExportTracks(d, d.tracks)
  }

  /** The project export reads the content document only; without one no
      file is written. */
  function ExportProject(p: Project): (r: Option<seq<SimpleSeq>>)
    ensures r.Some? <==> p.content.Some?
    ensures r.Some? ==> r.value == ExportDoc(p.content.value)
  {
    match p.content
    case Some(d) => Some(ExportDoc(d))
    case None => None
  }
}
