# CapGenie project editor — a Dafny model

CapGenie edits CapCut projects. A project folder holds a native document,
`draft_content.json`, and a backup copy of it, `draft_content.json.bak`. A
native document has tracks of segments. Each segment points at an entry of
the `videos` or `audios` material list and at auxiliary entries (canvases,
speeds, placeholders, audio fades). Users work with a simpler format instead:
a flat list of sequences, each with a path, a timeline span in seconds, an
optional trim window, a volume, fades, a kind and a track index.

This project models the four operations that move data between the two
formats:

- **Full synchronisation** (`sync_from_json`) rebuilds the tracks, the
  material lists and the audio fades of each document from a list of
  sequences. It reuses canvas, speed and placeholder entries by path,
  recomputes the project duration, and adds a null `audio_fade` key to every
  video material that lacks one.
- **Export** (`export_to_json`) reads the content document back into a list
  of sequences, track by track.
- **Add video / add audio** (`add_video_sequence`, `add_audio_sequence`)
  append one material and one segment to each document. They reuse the
  track at position `track_index` when it qualifies; otherwise they pad the
  track list and write a fresh named track at that position.

What the model proves:

- After a synchronisation, every track is built from exactly the sequences
  carrying its index, one segment per sequence, in input order. Tracks come
  out in ascending index order.
- The material lists hold one entry per sequence of their kind, with fresh,
  increasing ids.
- Every material is referenced by exactly one segment.
- The auxiliary lists only grow, by at most one entry per new path.
- The duration is the largest segment end.
- Exporting a synchronised document lists the tracks in ascending index
  order. Each track gives back, in input order, those of its sequences whose
  kind matches the track's first sequence, with times truncated to whole
  microseconds and defaults filled in. This holds for inputs where no audio
  sequence has a positive fade-out (see Findings). A list already in
  canonical form comes back unchanged.
- Export emits one sequence per segment whose material is found, in segment
  order, track after track.
- Add changes only the designated track position, apart from padding.
- Add's track search finds the track exactly when the closed-form reuse
  condition holds.

Conventions:

- Seconds are real numbers. Converting to microseconds multiplies by
  1 000 000 and truncates toward zero (`Units.Micros`).
- Generated UUIDs are drawn from a counter.
- A missing file is `None`.

Modules, in dependency order:

- `Wrappers`: Option and Result.
- `Units`: unit conversions.
- `Native`: the native document and its look-ups.
- `Simple`: the sequence format and its defaults.
- `Auxiliary`: canvas, speed and placeholder deduplication.
- `Grouping`: the sorted track dictionary.
- `Duration`: the duration update.
- `FadeRefs`: the fade reference, both as written and as intended.
- `Sync`: full synchronisation.
- `Realization`, `SyncStepFacts`, `SyncProofs`, `SyncLists` and `SyncResult`:
  the loop invariants and the result of a synchronisation.
- `Export`: export.
- `RoundTrip` and `Canonical`: synchronisation followed by export.
- `Add`: the two add operations.

## Model

| member | source | states |
|---|---|---|
| Units.Trunc | capgenie/project_editor.py:505-509 | `int()` of a float truncates toward zero: the result has the sign side of `x` and lies within one unit of it, below it for positive and above it for negative values |
| Units.MicrosError | capgenie/project_editor.py:505-509 | converting seconds to microseconds and back loses less than one microsecond, in either direction |
| Units.MicrosExact | capgenie/project_editor.py:736-739 | a time that is a whole number of microseconds survives the conversion to microseconds and the division back exactly |
| Units.MicrosOfDifference | capgenie/project_editor.py:505-507 | for whole-microsecond times, truncating a difference equals the difference of the truncations, so the trim duration `out_us - in_us` is the truncated span |
| Native.FindMaterial | capgenie/project_editor.py:724-734 | the material look-up returns the first entry with the id, and returns nothing exactly when no entry has it |
| Native.FindFade | capgenie/project_editor.py:751-755 | the export's `audio_fades` look-up returns the first entry with the material's id, and nothing exactly when no entry has it |
| Native.FindAux | capgenie/project_editor.py:565-568 | the canvas, speed and placeholder scans return the id of the first entry whose `material_name` is the path, and nothing exactly when no entry names it |
| Native.BasenameIsLastComponent | capgenie/project_editor.py:516 | `os.path.basename` is the longest suffix of the path free of '/', preceded by a '/' whenever it is shorter than the path |
| Native.PathNameVersusBasename | capgenie/project_editor.py:810 | the add operations' `Path(p).name` agrees with the synchroniser's basename unless the path ends with '/'. Then the two may differ: `clips/a/` gives `a` against the empty string, while `/` gives the empty string for both |
| Auxiliary.LookupOrAdd | capgenie/project_editor.py:561-584 | a canvas, speed or placeholder look-up returns the first entry named by the path, appending one new entry with a fresh id exactly when none exists; the list only grows |
| Auxiliary.LookupOrAddKeepsDistinct | capgenie/project_editor.py:561-626 | repeated look-ups never append two entries for the same path, nor one for a path the list already named |
| Grouping.InsertSorted | capgenie/project_editor.py:656 | adding a key to the ascending list of distinct keys keeps it ascending and distinct, with exactly the old keys plus the new one |
| Grouping.AddToGroup | capgenie/project_editor.py:486-497 | the track dictionary, kept as a list sorted by key, has as keys the sorted old keys plus the sequence's index, as `sorted(tracks.keys())` would give |
| Grouping.AddToGroupOnly | capgenie/project_editor.py:653 | appending a segment leaves every track with another key untouched and only grows the track of the sequence's key, created blank if new |
| Grouping.AddToGroupMaterialIds | capgenie/project_editor.py:653 | appending a segment adds exactly that segment's material reference to the multiset of references in all tracks |
| Duration.MaxEnd | capgenie/project_editor.py:658-663 | the running maximum is non-negative, bounds the end of every segment of every track, and is 0 or attained by some segment |
| Duration.UpdateDuration | capgenie/project_editor.py:664-665 | the duration is overwritten with the maximum end only when the key exists, and nothing else changes |
| FadeRefs.AsWrittenAgreesForVideo | capgenie/project_editor.py:629-631 | for a video sequence, whose `video_obj` is its own material, the code's conditions give the intended reference |
| FadeRefs.AsWrittenAgreesForAudio | capgenie/project_editor.py:629-633 | for an audio sequence without a positive fade-out, the code gives the intended reference whatever `video_obj` holds |
| FadeRefs.AudioFadeOutReadsStaleVideo | capgenie/project_editor.py:629-633 | an audio sequence with a positive fade-out does not reference its own id. After a video with an inline fade it references that video's fade. With no video seen yet it raises `NameError`. After a video with a null fade it references nothing, or raises `TypeError` when its fade-in is positive too |
| Sync.TrackOrder | capgenie/project_editor.py:656 | the emitted track order is strictly ascending and holds exactly the track indexes used by the sequences |
| Sync.ForceFadeKey | capgenie/project_editor.py:666-670 | every video material ends up with an `audio_fade` key, set to null only where the key was missing, and keeps its position |
| Sync.SyncAll | capgenie/project_editor.py:486-653 | the loop keeps the track dictionary's keys sorted and distinct |
| Sync.SyncAllBounds | capgenie/project_editor.py:486-653 | the loop only moves the id supply forward, keeps the duration key as it was, and only appends to the canvas, speed and placeholder lists |
| Sync.SyncDoc | capgenie/project_editor.py:478-672 | a synchronised document keeps or lacks the duration key as before and keeps every earlier canvas, speed and placeholder entry as a prefix |
| Sync.SyncProject | capgenie/project_editor.py:472-475 | the content file and the backup are each synchronised when they exist, the content first: the backup's result is its own synchronisation, drawing ids from where the content's left off. A missing file stays missing |
| SyncStepFacts.PartsRealizes | capgenie/project_editor.py:499-653 | one iteration builds a segment whose target, source window, volume, fades, material, fade entry and extra references all match the sequence |
| SyncStepFacts.PartsGrows | capgenie/project_editor.py:499-626 | one iteration appends exactly the sequence's matching material, with id `next`, to its own kind's list and leaves the other kind's list as it was. It appends the sequence's fade entry, if any, to `audio_fades`. Each canvas, speed and placeholder list is unchanged when it already names the path, and otherwise gains one entry for the path with a fresh id. Every new id is below the advanced counter |
| SyncStepFacts.PartsFadeReference | capgenie/project_editor.py:522-557 | the intended fade reference of one iteration: a sequence with a positive fade references the id of the `audio_fades` entry holding its fades. For audio that id is the material's own id; for video it is the id of the inline fade object. A sequence without a positive fade references nothing, and an audio one then has no `audio_fades` entry |
| SyncProofs.SyncAllRealizes | capgenie/project_editor.py:485-656 | after the loop, the tracks' keys are the sorted distinct indexes, and the track for each index is built from exactly the sequences with that index, in input order |
| SyncProofs.GrownRealizes | capgenie/project_editor.py:486-497 | the track receiving a new segment, whether found by its index or created blank, is realized by the sequences with that index, the new one last |
| SyncLists.SyncAllMaterials | capgenie/project_editor.py:511-547 | the video and audio lists hold, in order, one matching material per sequence of their kind, with increasing fresh ids, and no id is in both lists |
| SyncLists.SyncAllOneSegmentPerMaterial | capgenie/project_editor.py:499-653 | the multiset of segment material references equals the multiset of material ids |
| SyncResult.SyncDocIsLoop | capgenie/project_editor.py:656-670 | the document written is the loop's state, with the tracks in ascending key order and the duration, if present, set to their maximum end |
| SyncResult.SyncTracks | capgenie/project_editor.py:485-656 | the p-th written track has the p-th smallest index and one segment per sequence with that index, in input order; its type and name come from the first such sequence |
| SyncResult.SyncMaterials | capgenie/project_editor.py:478-547 | after reset and rebuild, the material lists hold exactly one matching material per sequence of each kind, with distinct fresh ids, and every video has an `audio_fade` key |
| SyncResult.SyncFades | capgenie/project_editor.py:483-557 | `audio_fades` holds one entry per video with a nonzero fade and per audio with a positive fade, with fresh increasing ids |
| SyncResult.SyncAuxiliary | capgenie/project_editor.py:561-626 | the canvas, speed and placeholder lists only gain entries for paths they did not name, one per path, with fresh ids |
| SyncResult.SyncOneSegmentPerMaterial | capgenie/project_editor.py:636-653 | every material of the written document is referenced by exactly one segment, and every reference names a material |
| SyncResult.SyncDuration | capgenie/project_editor.py:658-665 | when the duration key exists it becomes non-negative, at least the truncated end of every sequence, and 0 or equal to one of those ends |
| Export.ExportSegment | capgenie/project_editor.py:721-769 | a segment is exported exactly when its material is found in the list of its track's type, with that kind and the track's position as index |
| Export.FoundPositions | capgenie/project_editor.py:724-734 | the positions of a track's segments whose material is found are listed each once, in ascending order, and no such position is missed |
| Export.ExportSegmentsFound | capgenie/project_editor.py:721-769 | a track's segments export as one sequence per segment whose material is found, in segment order: the j-th sequence is the export of the j-th such segment |
| Export.ExportTrack | capgenie/project_editor.py:718-769 | a track of a type other than video or audio exports nothing; otherwise it exports, in segment order, exactly one sequence per segment whose material is found in the list of the kind its type selects (video when the type is missing), with the track's position as index |
| Export.ExportTracksByTrack | capgenie/project_editor.py:716-769 | the export of a track list takes the tracks in list order: the sequences with index p are exactly track p's export, and the indexes never decrease |
| Export.ExportDoc | capgenie/project_editor.py:716-769 | every exported sequence carries the position of an existing track whose type selects its kind; the sequences on each position are exactly that track's export, and positions ascend along the list |
| Export.ExportProject | capgenie/project_editor.py:710-715 | only the content document is exported, and nothing is written without one |
| RoundTrip.SegmentExport | capgenie/project_editor.py:736-769 | a synchronised segment exports as its sequence with truncated times, filled-in defaults and the fades the material records, or not at all when its kind differs from its track's |
| RoundTrip.SyncThenExport | capgenie/project_editor.py:716-769 | exporting a synchronised document gives, track by track in ascending index order, the expected form of every sequence whose kind matches the first sequence of its track |
| Canonical.ExpectedCanonical | capgenie/project_editor.py:736-757 | a sequence with every optional field present, a track index of at least 0, whole-microsecond times and, for audio, a non-negative fade-in and a fade-out of 0 is exported as itself |
| Canonical.TrackOrderRange | capgenie/project_editor.py:656 | for sequences sorted by contiguous track indexes from 0, the emitted track order is 0, 1, 2, ... |
| Canonical.ExpectedCanonicalList | capgenie/project_editor.py:718-769 | for a canonical list, the export expected after a synchronisation, taken track by track in ascending index order, is the list itself |
| Canonical.CanonicalRoundTrip | capgenie/project_editor.py:710-772 | synchronising a canonical list into any document and exporting it gives the same list back |
| Canonical.CopiesExportAlike | capgenie/project_editor.py:472-475 | after a synchronisation, the content file and the backup export identically, whatever they held before |
| Add.FirstIndex | capgenie/project_editor.py:820 | `list.index` returns the first position holding a track equal to the given one |
| Add.Scan | capgenie/project_editor.py:819-823 | a track found by the search loop has the requested type, and its first equal occurrence is at `track_index` |
| Add.ScanFindsReusable | capgenie/project_editor.py:818-823 | the search loop finds a track exactly when the track at `track_index` has the requested type and no earlier track equals it, and then it is that track |
| Add.PadTo | capgenie/project_editor.py:834-835 | padding grows the list to length `track_index + 1` when it is shorter, appending only bare tracks of the requested type |
| Add.AddToDoc | capgenie/project_editor.py:796-850 | an add fails with `IndexError` exactly when the index is negative beyond the list's start; otherwise one material is appended to its kind's list and the other lists and the duration are unchanged |
| Add.AddTracks | capgenie/project_editor.py:818-847 | only the designated position changes, apart from padding. It holds the reused track or a fresh named one, with the new segment last. The list grows only to reach that position |
| Add.AddOverwrites | capgenie/project_editor.py:834-836 | when the track at the position cannot be reused, its segments are replaced by the new segment alone |
| Add.AddThenExport | capgenie/project_editor.py:840-847 | with fresh ids, the track at the position exports with the added sequence last: truncated start and end, the trim window, the volume, and zero fades |
| Add.TargetDurationsDiffer | capgenie/project_editor.py:787-789 | the add operations' duration `int(end) - int(start)` can differ from the synchroniser's `int(end - start)` (start 0.5 µs, end 1 µs gives 1 against 0) |
| Add.TargetDurationsAgree | capgenie/project_editor.py:787-789 | the two durations agree when the start is a whole number of microseconds and the span runs forward from a non-negative start |
| Add.AddToProject | capgenie/project_editor.py:796-799 | the content file and then the backup are each updated by the per-document add when they exist, the backup drawing ids after the content's. An `IndexError` leaves its file unchanged and stops before the backup. `error` models `add_video_sequence`: there, success holds exactly when every existing file accepts the index. For `add_audio_sequence` only the file effects as of line 924 are modelled; its later `NameError` is under Left out |
| Add.AddToBackup | capgenie/project_editor.py:873-876 | the second file is updated when it exists and accepts the index; otherwise it is left unchanged, and the content is never touched |

## Left out

- Sync.SyncDoc: requires that no audio sequence has a fade-out that truncates to a positive duration. For those inputs the code reads a stale or unbound `video_obj` (see Findings). `FadeRefs.FadeRefAsWritten` models that path on its own, outside the loop.
- File I/O and JSON are not modelled: reading the input list, reading and writing the two documents, and writing the exported file. The documents are values, a missing file is `None`, and the sequence list is a parameter.
- UUID generation is a counter `next`. `Add.AddThenExport` assumes that the counter is above every id already in the document, as UUID uniqueness makes it in practice.
- Floats are real numbers. IEEE-754 rounding of `x * 1_000_000` and of the division by 1 000 000 on export is not modelled.
- Missing JSON keys are not modelled: sequences always carry `type`, `path`, `start_time` and `end_time`, and documents always carry `tracks` and the material lists. So the `KeyError` of a sequence without `type` (line 492) and export's defaults for a segment without `source_timerange` or `volume` (lines 738-739, 766) are out.
- Sequence types other than `video` and `audio` in a synchronisation are not modelled. Such a sequence would get a track and auxiliary entries but no material.
- Track equality in the add operations' `list.index` compares the modelled fields: type, id/name label and segments. Extra keys a loaded track may carry are not modelled.
- Native.BasenameIsLastComponent: paths are POSIX paths, and '/' is the only separator. A Windows path such as `C:\clips\a.mp4` would be split at '\' too under Windows, and that separator is not modelled.
- Native.PathNameVersusBasename: the same POSIX assumption; on Windows both `os.path.basename` and `pathlib` also treat '\' as a separator.
- `Native.PathName` drops trailing '/' only. pathlib's removal of `.` components is not modelled.
- Auxiliary.LookupOrAdd: assumes that the ids of canvas, speed and placeholder entries loaded from a file are non-empty. Those lists survive the reset, and an entry whose `id` is the empty string counts as not found (lines 569, 594, 614), so the code would append a second entry for the same path.
- Literal constant fields (width/height 1280×720, `fade_type`, `attribute`, `flag`, `is_default_name`, the canvas/speed/placeholder boilerplate) are omitted.
- Add.AddToProject: `error` does not record the `NameError` that ends `add_audio_sequence` whenever a file exists (line 965). It models the errors of `add_video_sequence`, and for audio only the file effects.
- `add_audio_sequence` after line 924 is left out. It is an older video-append body that runs after both files have been written. It reads them again and raises `NameError` on the undefined `crop` (line 965) before changing anything. So the files hold the state as of line 924, which is what the model computes.
- The first body of `export_to_json` (lines 680-704) is left out: its empty output is overwritten by the second body.
- Project creation (`capgenie/project_editor.py:27-447`) is not modelled: folder copying, UUID and date stamping, and template data.
- The I/O helpers are not modelled: `load_json`, `save_json`, `list_files` and `list_folders` (lines 449-459), and `capgenie/file_manager.py`. They wrap `open`, `json` and `pathlib`.
- `capgenie/__init__.py` is package metadata and is not modelled.
- `tests/test_project_editor.py` is a driver script without assertions and is not modelled.

## Findings

| source | as written | input that shows it | evidently intended | confidence | as-written member | corrected member |
|---|---|---|---|---|---|---|
| capgenie/project_editor.py:629-633 | `and` binds tighter than `or`, so the video branch is taken for any sequence with a positive fade-out. An audio sequence then reads `video_obj`, a local of the whole method: the most recent video material, possibly from the content file when the backup is processed | an audio sequence with a 1 s fade-out after a video whose inline fade has id 4: its segment references id 4. With no video earlier in the first file processed: `NameError`. After a video with a null fade and with a positive fade-in too: `TypeError` | an audio sequence with a positive fade references its own material id, the id of its `audio_fades` entry | high, not executed | FadeRefs.AudioFadeOutReadsStaleVideo | SyncStepFacts.PartsFadeReference |
