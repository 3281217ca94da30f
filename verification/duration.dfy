/** The project duration recomputed at the end of a full synchronisation:
    a running maximum, starting at 0, of `start + duration` over every
    segment of every track. */
module Duration {
  import opened Wrappers
  import opened Native

  function EndOf(seg: Segment): int {
    seg.target.start + seg.target.duration
  }

  /** The larger of `acc` and the latest segment end on the timeline. */
  function FoldSegments(segs: seq<Segment>, acc: int): (r: int)
    ensures acc <= r
    ensures forall seg :: seg in segs ==> EndOf(seg) <= r
    ensures r == acc || exists seg :: seg in segs && EndOf(seg) == r
  {
    if segs == [] then acc
    else
      assert forall seg :: seg in segs ==> seg == segs[0] || seg in segs[1..];
      FoldSegments(segs[1..], if EndOf(segs[0]) > acc then EndOf(segs[0]) else acc)
  }

  function FoldTracks(ts: seq<Track>, acc: int): (r: int)
    ensures acc <= r
    ensures forall t, seg :: t in ts && seg in t.segments ==> EndOf(seg) <= r
    ensures r == acc || exists t, seg :: t in ts && seg in t.segments && EndOf(seg) == r
  {
    if ts == [] then acc
    else
      assert forall t :: t in ts ==> t == ts[0] || t in ts[1..];
      FoldTracks(ts[1..], FoldSegments(ts[0].segments, acc))
  }

  /** The largest segment end, or 0 when there is none (or all end before 0). */
  function MaxEnd(ts: seq<Track>): (r: int)
    ensures 0 <= r
    ensures forall t, seg :: t in ts && seg in t.segments ==> EndOf(seg) <= r
    ensures r == 0 || exists t, seg :: t in ts && seg in t.segments && EndOf(seg) == r
  {
    FoldTracks(ts, 0)
  }

  /** Sets the document's duration to the latest segment end, but only when
      the document already has a duration field. */
  function UpdateDuration(d: Doc): (r: Doc)
    ensures r.duration.Some? <==> d.duration.Some?
    ensures r.duration.Some? ==> r.duration.value == MaxEnd(d.tracks)
    ensures r.(duration := d.duration) == d
  {
    if d.duration.Some? then d.(duration := Some(MaxEnd(d.tracks))) else d
  }
}
