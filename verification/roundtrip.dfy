/** Synchronising and then exporting: what comes back for each input
    sequence, and when the original list comes back unchanged. */
module RoundTrip {
  import opened Wrappers
  import opened Units
  import opened Native
  import opened Simple
  import opened Grouping
  import opened Realization
  import opened Sync
  import opened SyncResult
  import opened Export

  /** The fade durations, in microseconds, that a synchronised sequence
      exports: a video always has its truncated fades (a null `audio_fade`
      stands for two zeros); an audio only when it got an `audio_fades`
      entry. */
  function ExpectedFades(s: SimpleSeq): (int, int) {
    if s.kind == Video || FadePositive(s) then (FadeInUs(s), FadeOutUs(s)) else (0, 0)
  }

  /** What `s` becomes after synchronisation and export from track
      position `p`: every time truncated to whole microseconds, every
      optional field filled in. */
  function Expected(s: SimpleSeq, p: nat): SimpleSeq {
    var t := SyncTargetOf(s);
    var src := SourceRangeOf(s);
    var (fin, fout) := ExpectedFades(s);
    SimpleSeq(s.path, Seconds(t.start), Seconds(t.start + t.duration),
              Some(Seconds(src.start)), Some(Seconds(src.start + src.duration)),
              Some(VolumeOf(s)), Some(Seconds(fin)), Some(Seconds(fout)),
              s.kind, Some(p))
  }

  /** The expected export of the sequences `F` of one track whose type is
      `k`: those of another kind are dropped. */
  function ExpectedSegs(F: seq<SimpleSeq>, k: Kind, p: nat): seq<SimpleSeq> {
    if F == [] then []
    else
      var last := F[|F| - 1];
      ExpectedSegs(F[..|F| - 1], k, p) + (if last.kind == k then [Expected(last, p)] else [])
  }

  /** The sequences of `L` grouped by track index, in ascending index
      order: what each emitted track is built from. */
  function Groups(L: seq<SimpleSeq>): (r: seq<seq<SimpleSeq>>)
    ensures |r| == |TrackOrder(L)|
    ensures forall p :: 0 <= p < |r| ==> r[p] == OnTrack(L, TrackOrder(L)[p])
  {
    var order := TrackOrder(L);
    seq(|order|, p requires 0 <= p < |order| => OnTrack(L, order[p]))
  }

  /** The expected export of the track built from the group `F` at
      position `p`: its type is the kind of the group's first sequence. */
  function TrackExpected(F: seq<SimpleSeq>, p: nat): seq<SimpleSeq> {
    if F == [] then [] else ExpectedSegs(F, F[0].kind, p)
  }

  /** The expected export of the tracks built from `Gs`, in order. */
  function ExpectedOf(Gs: seq<seq<SimpleSeq>>): seq<SimpleSeq> {
    if Gs == [] then []
    else ExpectedOf(Gs[..|Gs| - 1]) + TrackExpected(Gs[|Gs| - 1], |Gs| - 1)
  }

  /** The expected export of a synchronised `L`. */
  function ExpectedExport(L: seq<SimpleSeq>): seq<SimpleSeq> {
    ExpectedOf(Groups(L))
  }

  /** A realized segment exports as the expected sequence when its track's
      type is the sequence's kind, and is skipped otherwise. */
  lemma SegmentExport(r: Doc, seg: Segment, s: SimpleSeq, k: Kind, p: nat)
    requires Realizes(r, seg, s)
    ensures ExportSegment(r, k, p, seg) == if s.kind == k then Some(Expected(s, p)) else None
  {
    if s.kind != k {
      assert k == OtherKind(s.kind);
    } else {
      var m := FindMaterial(MaterialsOf(r, k), seg.materialId).value;
      assert FadeShape(m.audioFade, s) && FadeLinked(r, m, s);
      assert FadesOf(r, k, m) == ExpectedFades(s);
    }
  }

  lemma {:induction false} SegmentsExport(r: Doc, segs: seq<Segment>, F: seq<SimpleSeq>, k: Kind, p: nat)
    requires |segs| == |F| && forall j :: 0 <= j < |F| ==> Realizes(r, segs[j], F[j])
    ensures ExportSegments(r, k, p, segs) == ExpectedSegs(F, k, p)
  {
    if F != [] {
      var n := |F| - 1;
      SegmentsExport(r, segs[..n], F[..n], k, p);
      SegmentExport(r, segs[n], F[n], k, p);
    }
  }

  /** A realized track exports as the expected sequences of its group. */
  lemma TrackExport(r: Doc, i: int, t: Track, F: seq<SimpleSeq>, p: nat)
    requires TrackRealizes(r, i, t, F)
    ensures ExportTrack(r, p, t) == ExpectedSegs(F, F[0].kind, p)
  {
    SegmentsExport(r, t.segments, F, F[0].kind, p);
  }

  lemma {:induction false} TracksExport(r: Doc, Gs: seq<seq<SimpleSeq>>, order: seq<int>, m: nat)
    requires m <= |r.tracks| == |Gs| == |order|
    requires forall p :: 0 <= p < |r.tracks| ==> TrackRealizes(r, order[p], r.tracks[p], Gs[p])
    ensures ExportTracks(r, r.tracks[..m]) == ExpectedOf(Gs[..m])
  {
    if m > 0 {
      TracksExport(r, Gs, order, m - 1);
      var t := r.tracks[m - 1];
      var F := Gs[m - 1];
      assert TrackRealizes(r, order[m - 1], t, F);
      TrackExport(r, order[m - 1], t, F, m - 1);
      TracksStep(r, r.tracks, Gs, m);
    }
  }

  /** One more track on both sides. */
  lemma TracksStep(r: Doc, ts: seq<Track>, Gs: seq<seq<SimpleSeq>>, m: nat)
    requires 0 < m <= |ts| == |Gs|
    requires Gs[m - 1] != []
    requires ExportTracks(r, ts[..m - 1]) == ExpectedOf(Gs[..m - 1])
    requires ExportTrack(r, m - 1, ts[m - 1]) == ExpectedSegs(Gs[m - 1], Gs[m - 1][0].kind, m - 1)
    ensures ExportTracks(r, ts[..m]) == ExpectedOf(Gs[..m])
  {
    ExportPrefixSnoc(r, ts, m);
    ExpectedPrefixSnoc(Gs, m);
  }

  lemma ExportPrefixSnoc(r: Doc, ts: seq<Track>, m: nat)
    requires 0 < m <= |ts|
    ensures ExportTracks(r, ts[..m]) == ExportTracks(r, ts[..m - 1]) + ExportTrack(r, m - 1, ts[m - 1])
  {
    assert ts[..m] == ts[..m - 1] + [ts[m - 1]];
    ExportTracksSnoc(r, ts[..m - 1], ts[m - 1]);
  }

  lemma ExpectedPrefixSnoc(Gs: seq<seq<SimpleSeq>>, m: nat)
    requires 0 < m <= |Gs|
    ensures ExpectedOf(Gs[..m]) == ExpectedOf(Gs[..m - 1]) + TrackExpected(Gs[m - 1], m - 1)
  {
    var H := Gs[..m];
    assert H[..m - 1] == Gs[..m - 1] && H[m - 1] == Gs[m - 1];
  }

  /** Exporting a synchronised document gives, track by track in ascending
      index order, the expected form of each sequence whose kind matches
      its track's first sequence. */
  lemma SyncThenExport(d: Doc, L: seq<SimpleSeq>, next: nat)
    requires SyncableInput(L)
    ensures ExportDoc(SyncDoc(d, L, next).doc) == ExpectedExport(L)
  {
    SyncTracks(d, L, next);
    RealizedExport(SyncDoc(d, L, next).doc, L);
  }

  lemma RealizedExport(r: Doc, L: seq<SimpleSeq>)
    requires |r.tracks| == |TrackOrder(L)|
    requires forall p :: 0 <= p < |r.tracks| ==>
               TrackRealizes(r, TrackOrder(L)[p], r.tracks[p], OnTrack(L, TrackOrder(L)[p]))
    ensures ExportDoc(r) == ExpectedExport(L)
  {
    var Gs := Groups(L);
    TracksExport(r, Gs, TrackOrder(L), |r.tracks|);
    WholeSlice(r.tracks);
    WholeSlice(Gs);
  }

  lemma WholeSlice<T>(xs: seq<T>)
    ensures xs[..|xs|] == xs
  {
  }
}
