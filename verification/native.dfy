/** The editor's native document (the content file and its backup): tracks
    of segments, the material lists the synchroniser touches, and the
    project duration. Ids are drawn from a counter instead of UUID text.
    Literal boilerplate fields (width/height 1280x720, `fade_type` 0,
    `attribute`, `flag`, canvas/speed/placeholder constants) are omitted. */
module Native {
  import opened Wrappers

  /** A generated identifier (the source's upper-case UUID4 text). */
  datatype Id = Id(n: nat)

  /** Media kind of a simplified sequence and of a material. */
  datatype Kind = Video | Audio

  function OtherKind(k: Kind): Kind {
    match k
    case Video => Audio
    case Audio => Video
  }

  /** A `type` string other than the two media kinds. */
  type OtherTypeName = t: string | t != "video" && t != "audio" witness "text"

  /** A track's `type` key: one of the two media kinds, missing, or a type
      the synchroniser does not handle (text, effect, ...). */
  datatype TrackType = Typed(kind: Kind) | Untyped | OtherType(name: OtherTypeName)

  /** A track's `id` and `name` pair: `TRACK-i`/`Track i` for video,
      `AUDIO-TRACK-i`/`Audio Track i` for audio. */
  datatype TrackLabel = VideoTrack(index: int) | AudioTrack(index: int)

  function LabelFor(k: Kind, i: int): TrackLabel {
    match k
    case Video => VideoTrack(i)
    case Audio => AudioTrack(i)
  }

  /** `start` and `duration` in microseconds. */
  datatype TimeRange = TimeRange(start: int, duration: int)

  /** An `audio_fades` entry; durations in microseconds. */
  datatype AudioFade = AudioFade(id: Id, fadeIn: int, fadeOut: int)

  /** A video material's `audio_fade` key: absent, JSON null, or an inline fade object. */
  datatype FadeField = Absent | Null | Inline(fade: AudioFade)

  /** An entry of `materials.videos` or `materials.audios`. Audio materials
      never carry the `audio_fade` key (`Absent`). */
  datatype Material = Material(id: Id, kind: Kind, path: string, duration: int,
                               name: string, volume: real, audioFade: FadeField)

  /** A placed clip. `extraRefs` is `extra_material_refs`, which the
      incremental add operations do not write. */
  datatype Segment = Segment(id: Id, materialId: Id, target: TimeRange, source: TimeRange,
                             volume: real, fadeIn: int, fadeOut: int,
                             extraRefs: Option<seq<Id>>)

  /** A track; the padding tracks written by the add operations carry no id/name (`tag == None`). */
  datatype Track = Track(trackType: TrackType, tag: Option<TrackLabel>, segments: seq<Segment>)

  /** A canvas, speed or placeholder entry, reduced to its id and its
      optional `material_name` (the key the deduplication compares). */
  datatype AuxEntry = AuxEntry(id: Id, name: Option<string>)

  /** The parts of a native document the synchroniser reads or writes. A
      missing material list is the same as an empty one; `duration` may be
      absent and then stays absent. */
  datatype Doc = Doc(tracks: seq<Track>,
                     videos: seq<Material>, audios: seq<Material>, audioFades: seq<AudioFade>,
                     canvases: seq<AuxEntry>, speeds: seq<AuxEntry>, placeholders: seq<AuxEntry>,
                     duration: Option<int>)

  /** The content file and its backup; `None` when the file does not exist. */
  datatype Project = Project(content: Option<Doc>, backup: Option<Doc>)

  function MaterialsOf(d: Doc, k: Kind): seq<Material> {
    match k
    case Video => d.videos
    case Audio => d.audios
  }

  /** First material whose id is `id`: the source's scans stop at the first
      match, so a later material with the same id is never read. */
  function FindMaterial(ms: seq<Material>, id: Id): (r: Option<Material>)
    ensures r.None? <==> forall m :: m in ms ==> m.id != id
    ensures r.Some? ==> exists j :: 0 <= j < |ms| && ms[j] == r.value && r.value.id == id
                                    && forall k :: 0 <= k < j ==> ms[k].id != id
  {
    if ms == [] then None
    else if ms[0].id == id then Some(ms[0])
    else
      var r := FindMaterial(ms[1..], id);
      assert forall m :: m in ms ==> m == ms[0] || m in ms[1..];
      if r.Some? then
        var j :| 0 <= j < |ms[1..]| && ms[1..][j] == r.value && r.value.id == id
                 && forall k :: 0 <= k < j ==> ms[1..][k].id != id;
        assert ms[j + 1] == r.value;
        r
      else r
  }

  /** First `audio_fades` entry whose id is `id`. */
  function FindFade(fs: seq<AudioFade>, id: Id): (r: Option<AudioFade>)
    ensures r.None? <==> forall f :: f in fs ==> f.id != id
    ensures r.Some? ==> exists j :: 0 <= j < |fs| && fs[j] == r.value && r.value.id == id
                                    && forall k :: 0 <= k < j ==> fs[k].id != id
  {
    if fs == [] then None
    else if fs[0].id == id then Some(fs[0])
    else
      var r := FindFade(fs[1..], id);
      assert forall f :: f in fs ==> f == fs[0] || f in fs[1..];
      if r.Some? then
        var j :| 0 <= j < |fs[1..]| && fs[1..][j] == r.value && r.value.id == id
                 && forall k :: 0 <= k < j ==> fs[1..][k].id != id;
        assert fs[j + 1] == r.value;
        r
      else r
  }

  /** Id of the first entry whose `material_name` is `path` (the canvas,
      speed and placeholder scans). */
  function FindAux(es: seq<AuxEntry>, path: string): (r: Option<Id>)
    ensures r.None? <==> forall e :: e in es ==> e.name != Some(path)
    ensures r.Some? ==> exists j :: 0 <= j < |es| && es[j] == AuxEntry(r.value, Some(path))
                                    && forall k :: 0 <= k < j ==> es[k].name != Some(path)
  {
    if es == [] then None
    else if es[0].name == Some(path) then Some(es[0].id)
    else
      var r := FindAux(es[1..], path);
      assert forall e :: e in es ==> e == es[0] || e in es[1..];
      if r.Some? then
        var j :| 0 <= j < |es[1..]| && es[1..][j] == AuxEntry(r.value, Some(path))
                 && forall k :: 0 <= k < j ==> es[1..][k].name != Some(path);
        assert es[j + 1] == AuxEntry(r.value, Some(path));
        r
      else r
  }

  lemma {:induction false} FindMaterialAppend(a: seq<Material>, b: seq<Material>, id: Id)
    ensures FindMaterial(a + b, id) == if FindMaterial(a, id).Some? then FindMaterial(a, id) else FindMaterial(b, id)
  {
    if a != [] {
      assert (a + b)[1..] == a[1..] + b;
      FindMaterialAppend(a[1..], b, id);
    } else {
      assert a + b == b;
    }
  }

  lemma {:induction false} FindFadeAppend(a: seq<AudioFade>, b: seq<AudioFade>, id: Id)
    ensures FindFade(a + b, id) == if FindFade(a, id).Some? then FindFade(a, id) else FindFade(b, id)
  {
    if a != [] {
      assert (a + b)[1..] == a[1..] + b;
      FindFadeAppend(a[1..], b, id);
    } else {
      assert a + b == b;
    }
  }

  lemma {:induction false} FindAuxAppend(a: seq<AuxEntry>, b: seq<AuxEntry>, path: string)
    ensures FindAux(a + b, path) == if FindAux(a, path).Some? then FindAux(a, path) else FindAux(b, path)
  {
    if a != [] {
      assert (a + b)[1..] == a[1..] + b;
      FindAuxAppend(a[1..], b, path);
    } else {
      assert a + b == b;
    }
  }

  /** The first match in a list is still the first match after more entries are appended. */
  lemma FindAuxPrefix(a: seq<AuxEntry>, b: seq<AuxEntry>, path: string)
    requires a <= b
    requires FindAux(a, path).Some?
    ensures FindAux(b, path) == FindAux(a, path)
  {
    assert b == a + b[|a|..];
    FindAuxAppend(a, b[|a|..], path);
  }

  /** POSIX `os.path.basename`: the text after the last '/'. */
  function Basename(p: string): string {
    if p == [] then []
    else if p[|p| - 1] == '/' then []
    else Basename(p[..|p| - 1]) + [p[|p| - 1]]
  }

  /** The path without its trailing '/' characters. */
  function StripTrailingSlashes(p: string): (r: string)
    ensures r <= p
    ensures r == [] || r[|r| - 1] != '/'
    ensures forall k :: |r| <= k < |p| ==> p[k] == '/'
  {
    if p != [] && p[|p| - 1] == '/' then StripTrailingSlashes(p[..|p| - 1]) else p
  }

  /** The final path component as Python's `pathlib` computes it, used by the
      add operations: like the basename,
      but trailing '/' characters are dropped first. */
  function PathName(p: string): string {
    Basename(StripTrailingSlashes(p))
  }

  /** The two agree unless the path ends with '/'; then they may differ:
      the basename is empty while the path name is the last component, which
      is empty too for a path made of '/' only. */
  lemma PathNameVersusBasename(p: string)
    ensures (p == [] || p[|p| - 1] != '/') ==> PathName(p) == Basename(p)
    ensures PathName("clips/a/") == "a" && Basename("clips/a/") == ""
    ensures PathName("/") == "" && Basename("/") == ""
  {
    if p != [] && p[|p| - 1] == '/' {
    } else {
      assert StripTrailingSlashes(p) == p;
    }
    assert "clips/a/"[..7] == "clips/a";
    assert StripTrailingSlashes("clips/a") == "clips/a";
    assert "clips/a"[..6] == "clips/";
    assert Basename("clips/") == "";
  }

  /** The basename is the longest suffix of the path without a '/'. */
  lemma {:induction false} BasenameIsLastComponent(p: string)
    ensures var r := Basename(p);
            && |r| <= |p| && r == p[|p| - |r|..]
            && '/' !in r
            && (|r| < |p| ==> p[|p| - |r| - 1] == '/')
  {
    if p != [] && p[|p| - 1] != '/' {
      var q := p[..|p| - 1];
      BasenameIsLastComponent(q);
      var r := Basename(q);
      var c := p[|p| - 1];
      assert Basename(p) == r + [c];
      assert p == q + [c];
      assert p[|p| - |r| - 1..] == q[|q| - |r|..] + [c];
      if |r| + 1 < |p| {
        assert p[|p| - |r| - 2] == q[|q| - |r| - 1];
      }
    }
  }
}
