/** The fade id a full synchronisation appends to a segment's
    `extra_material_refs`, as evidently intended and as written.

    As written, the guard of the video branch is "a video with a positive
    fade-in, or any sequence with a positive fade-out", because the
    conjunction binds tighter than the disjunction; so an audio sequence with
    a positive fade-out enters the video branch and reads the method-local
    video material, which is either still unbound or the material of an
    earlier video sequence. */
module FadeRefs {
  import opened Wrappers
  import opened Native

  /** Intended rule: the fade's id is referenced exactly when some fade
      truncates to a positive duration. For a video this is the id of its
      inline fade object, for an audio the material's own id. */
  function FadeRef(fadeInUs: int, fadeOutUs: int, fadeId: Id): (r: seq<Id>)
    ensures |r| <= 1
    ensures r == [fadeId] <==> (fadeInUs > 0 || fadeOutUs > 0)
    ensures r == [] <==> !(fadeInUs > 0 || fadeOutUs > 0)
  {
    if fadeInUs > 0 || fadeOutUs > 0 then [fadeId] else []
  }

  /** The exceptions the Python code can raise on the paths modelled here. */
  datatype PyError = NameError | KeyError | TypeError | IndexError

  /** The fade reference exactly as the code computes it. `videoObj` is the
      current binding of the local `video_obj`: for a video sequence the
      material just built, for an audio sequence the material of the most
      recent earlier video sequence, or `None` when no video has been seen. */
  function FadeRefAsWritten(kind: Kind, fadeInUs: int, fadeOutUs: int, materialId: Id,
                            videoObj: Option<Material>): Result<seq<Id>, PyError>
  {
    if (kind == Video && fadeInUs > 0) || fadeOutUs > 0 then
      match videoObj
      case None => Failure(NameError)
      case Some(v) =>
        if fadeInUs > 0 || (fadeOutUs > 0 && v.audioFade.Inline?) then
          match v.audioFade
          case Inline(f) => Success([f.id])
          case Null => Failure(TypeError)
          case Absent => Failure(KeyError)
        else Success([])
    else if (kind == Audio && fadeInUs > 0) || fadeOutUs > 0 then Success([materialId])
    else Success([])
  }

  /** For a video sequence, with `video_obj` bound to its own material, the
      code computes the intended reference. */
  lemma AsWrittenAgreesForVideo(fadeInUs: int, fadeOutUs: int, v: Material)
    requires fadeInUs == 0 && fadeOutUs == 0 ==> v.audioFade == Null
    requires !(fadeInUs == 0 && fadeOutUs == 0) ==> v.audioFade.Inline?
    ensures FadeRefAsWritten(Video, fadeInUs, fadeOutUs, v.id, Some(v))
         == Success(FadeRef(fadeInUs, fadeOutUs, if v.audioFade.Inline? then v.audioFade.fade.id else v.id))
  {
  }

  /** For an audio sequence whose fade-out is not positive, the code computes
      the intended reference whatever `video_obj` holds. */
  lemma AsWrittenAgreesForAudio(fadeInUs: int, fadeOutUs: int, materialId: Id, videoObj: Option<Material>)
    requires fadeOutUs <= 0
    ensures FadeRefAsWritten(Audio, fadeInUs, fadeOutUs, materialId, videoObj)
         == Success(FadeRef(fadeInUs, fadeOutUs, materialId))
  {
  }

  /** The discrepancy: an audio sequence with a one-second fade-out, read
      after a video whose inline fade has id 4, references that video's
      fade instead of its own id 7; read before any video, it raises
      `NameError`; after a fade-free video it references nothing, or, when
      its fade-in is positive too, raises `TypeError` on the null fade. */
  lemma AudioFadeOutReadsStaleVideo()
    ensures var fadedVideo := Material(Id(3), Video, "a.mp4", 5000000, "a.mp4", 1.0,
                                       Inline(AudioFade(Id(4), 500000, 0)));
            && FadeRefAsWritten(Audio, 0, 1000000, Id(7), Some(fadedVideo)) == Success([Id(4)])
            && FadeRef(0, 1000000, Id(7)) == [Id(7)]
    ensures FadeRefAsWritten(Audio, 0, 1000000, Id(7), None) == Failure(NameError)
    ensures var plainVideo := Material(Id(3), Video, "a.mp4", 5000000, "a.mp4", 1.0, Null);
            && FadeRefAsWritten(Audio, 0, 1000000, Id(7), Some(plainVideo)) == Success([])
            && FadeRefAsWritten(Audio, 1000000, 1000000, Id(7), Some(plainVideo)) == Failure(TypeError)
  {
  }
}
