# AURA Studio assembly core, modelled in Dafny

AURA Studio turns a topic into a vertical (1080×1920) short video. A language
model writes a blueprint of script and scenes. A speech service narrates the
script. Stock clips are fetched per scene, and a video editor stitches clips,
captions, branding and music into one render. This project models the
deterministic decision layer of that pipeline and proves what it promises.
The media library, HTTP and speech services are oracles.

- `text.dfy` (`Text`): Python's `str.split()`, `" ".join`, `upper`/`lower`
  and `str(n)`, with the split/join round trip.
- `config.dfy` (`Config`): frame size, frame rate, directories, `os.path.join`.
- `media.dfy` (`Media`): clips as `{w, h, duration}`, audio tracks, overlay
  layers, and the library calls the editor relies on (loop, subclip,
  resize, crop, black screen, concatenate).
- `subtitles.dfy` (`Subtitles`): `generate_subtitle_clips`. It splits the text
  into five-word chunks, gives each chunk a share of the duration
  proportional to its length, and schedules the captions back to back,
  skipping any that fail to render.
- `editor.dfy` (`Editor`): `assemble_video`. It chooses the music, partitions
  the voice duration into slots, crops and loops or trims each clip, applies
  the black-screen fallbacks, stacks the overlays, mixes the audio and names
  the output.
- `assets.dfy` (`Assets`): `search_pexels`, `_process_single_scene` and
  `download_scene_assets`. They choose the link, try the fallback queries
  in order, and build the scene-id → path map.
- `voice.dfy` (`Voice`): the voice table, its default, and the success rule of
  `generate_audio`.
- `app.dfy` (`App`): the history file (newest first, at most ten), the
  narration voice chosen from the language, and the branding and logo guard.

Oracles appear as parameters:
- whether a file exists;
- what an audio or video file decodes to (`None` when decoding raises);
- whether each library step succeeds;
- the search service's reply;
- the download's success;
- the speech service's outcome.

The random digits in file names are a parameter `draw` with
`1000 <= draw <= 9999`.

Four behaviours of the code are worth stating plainly:
- A clip that fails to load is dropped and nothing stands in for it. The
  visual track is then shorter than the voice when at least one other clip
  is kept (`Editor.VisualTrackLength`). When none is kept, a black screen of
  the full length stands in (`Editor.VisualTrackFallback`,
  `Editor.NoFileDecodes`).
- Watermark and logo can appear together.
- Captions come from the whole voice-over, not from per-scene text.
- Still images get no zoom.

The portrait crop reaches 1080×1920 only for some clips. A clip comes out
exactly 1080×1920 when it is at most 1920 high and at least 9:16 wide
(`Editor.Portrait`, `Editor.PrepareClip`). A narrower clip keeps fewer
columns: its negative left edge counts from the right, so a 886×1920 clip
keeps only its last 97 columns (`Editor.CenterCrop`). A clip taller than
1920 is never scaled down and the crop keeps every row, so it stays taller.
The compose concatenation then stretches the whole visual track to that
height (`Editor.TallClipStretchesFrame`). With no files, or only dropped or
portrait-ready ones, the track is exactly 1080×1920
(`Editor.VisualTrackShape`).

The callers and the engines disagree on two interfaces, and the model
follows each side's own code:
- `src/app.py:202-212` calls the blueprint writer with arguments that
  `src/modules/brain.py:8,23` does not accept. The resulting `TypeError` is
  caught at `src/app.py:302-304`, which reports a critical error, so the
  studio stops before any audio, asset or editing step. The blueprint writer
  is not part of this model.
- The command-line driver `src/main.py:49-62` does reach the editor. It hands
  it the scene-id → path dictionary from `download_scene_assets` as
  `video_paths`, as `src/app.py:233-246` would, and
  `src/modules/editor.py:69-81` iterates it as a list of paths. `Editor`
  takes a sequence of paths. Iterating the dictionary yields the integer
  scene ids, not paths; `VideoFileClip` raises on each, and the loop catches
  and drops it. So the command-line run as written renders the full-length
  black screen: the case where no file decodes (`Editor.NoFileDecodes`).

A blank music mood makes `mood.split()[0]` raise. The editor's exceptions
propagate to its caller, so `Editor.AssembleVideo` reports `Raised` for a
blank mood instead of requiring a non-blank one. The same holds for a voice
file that exists but does not decode.

The studio offers the English persona "Hindi (Neural)", which the voice table
does not list. `Voice.SelectVoice` therefore narrates it with the default
English voice `en-US-AriaNeural` (`App.NarrationVoice`).

Library effects the model assumes, as moviepy 1.x and Python implement them
(`media.dfy`, `config.dfy`); the properties below are proved on top of them:
- `clip.loop(duration=d)` lasts `d`, and `clip.subclip(0, t)` lasts `t`; both
  keep the frame size (`Media.Loop`, `Media.Subclip`).
- `clip.resize(height=h)` sets the height to `h` and the width to
  `int(w * h / clip.h)` (`Media.ResizeToHeight`).
- `clip.crop(x1=x1, width=w, height=h)` sets `x2 = x1 + w`, ignores `h`
  because no `y1` or `y2` is given, and slices each frame `[:, int(x1):int(x2)]`
  with Python's slice rules (`Media.Crop`, `Media.SliceIndex`, `Media.Trunc`).
- `ColorClip(size=(1080, 1920), duration=d)` is a 1080×1920 clip of length `d`
  (`Media.BlackScreen`).
- `concatenate_videoclips(clips, method="compose")` puts the clips one after
  another on a frame as wide as the widest and as high as the highest
  (`Media.Concatenate`).
- `os.path.join(dir, name)` for a relative directory and a plain name is
  `dir + "/" + name` (`Config.JoinPath`).

## Model

| member | source | states |
|---|---|---|
| Config.JoinPathInjective | src/modules/editor.py:169 | within one directory, two joined paths are equal iff the file names are equal |
| Text.SplitWords | src/modules/subtitles.py:15 | every piece `split()` yields is a non-empty run free of whitespace |
| Text.Upper | src/modules/subtitles.py:37 | same length; each character is the upper-case form of the input's |
| Text.Lower | src/modules/editor.py:22 | same length; each character is the lower-case form of the input's |
| Text.NatToString | src/modules/editor.py:169 | `str(n)` is a non-empty string of decimal digits |
| Text.NatToStringValue | src/modules/editor.py:169 | reading the digits of `str(n)` back gives `n` |
| Text.NatToStringInjective | src/modules/editor.py:169 | `str(n) == str(m)` iff `n == m` |
| Text.FourDigits | src/modules/editor.py:169 | every number from 1000 to 9999 renders as exactly four digits |
| Text.SplitJoin | src/modules/subtitles.py:15-20 | splitting the single-space join of words gives the words back |
| Text.JoinLength | src/modules/subtitles.py:20 | a join of k ≥ 1 words is their total length plus k − 1 separators |
| Text.SplitLength | src/modules/subtitles.py:15-23 | the words of a text plus one separator between each two fit in the text |
| Text.LowerIdempotent | src/modules/editor.py:22-46 | lower-casing twice is lower-casing once |
| Text.LowerKeepsWords | src/modules/editor.py:46 | lower-casing a word leaves a word (no separator is created) |
| Media.ResizeKeepsAspect | src/modules/editor.py:86-87 | the scaled width keeps the aspect ratio to within one pixel: the new width `w'` satisfies `w'·h ≤ w·H < (w'+1)·h` for the target height `H` |
| Media.ConcatenateFrame | src/modules/editor.py:103 | the compose frame holds every clip, and its width and its height are each attained by some clip |
| Media.ConcatenateSameSize | src/modules/editor.py:103 | clips of one frame size concatenate to that size and to the sum of their lengths |
| Media.TotalDurationUniform | src/modules/editor.py:77-96 | n clips of length d last n·d together |
| Subtitles.ChunkDuration | src/modules/subtitles.py:31 | a chunk no longer than the text gets at most the total duration |
| Subtitles.ChunkWords | src/modules/subtitles.py:15-20 | the chunking loop yields exactly the reference chunks, ⌈n/5⌉ of them |
| Subtitles.GenerateSubtitleClips | src/modules/subtitles.py:10-54 | the two loops produce exactly the caption schedule of the text, at most one caption per chunk |
| Subtitles.ScheduleStep | src/modules/subtitles.py:29-52 | one loop step appends chunk k's caption iff it renders and advances the clock by its duration only then, leaving the rest of the schedule as from k + 1 |
| Subtitles.ChunksAt | src/modules/subtitles.py:17-20 | there are ⌈n/5⌉ chunks and chunk k is the join of words 5k…5k+5 |
| Subtitles.ChunkWordCounts | src/modules/subtitles.py:17-20 | every chunk but the last has exactly 5 words; the last has 1 to 5 |
| Subtitles.ChunksRoundTrip | src/modules/subtitles.py:15-20 | splitting each chunk and concatenating gives back the word list |
| Subtitles.ChunksLength | src/modules/subtitles.py:19-20 | chunking adds exactly one separator between words inside a chunk |
| Subtitles.ChunksFitText | src/modules/subtitles.py:15-23 | the chunks' total length never exceeds the text's length |
| Subtitles.ChunksNonEmptyText | src/modules/subtitles.py:23-31 | when there is any chunk, the text is non-empty, so the division is defined |
| Subtitles.BlankTextNoCaptions | src/modules/subtitles.py:15-29 | whitespace-only text has no words and yields no captions |
| Subtitles.SumDurationIsShare | src/modules/subtitles.py:31 | the chunks' durations add up to the share of their total length |
| Subtitles.ShareAdd | src/modules/subtitles.py:31 | the shares of two parts of one whole add up to the share of their sum |
| Subtitles.ScheduleContents | src/modules/subtitles.py:29-52 | the captions are exactly the chunks that render, in order, upper-cased, centred, each with its proportional duration |
| Subtitles.ScheduleContiguous | src/modules/subtitles.py:25-48 | the first caption starts at the clock; each later one starts where the previous emitted one ended, since a failed chunk does not advance the clock |
| Subtitles.ScheduleWithin | src/modules/subtitles.py:25-48 | captions lie between the start and the start plus the sum of all chunk durations |
| Subtitles.ShareAtMostTotal | src/modules/subtitles.py:31 | a proportional share of the duration lies between 0 and the duration |
| Subtitles.CaptionsEndByTotal | src/modules/subtitles.py:23-48 | every caption starts at or after 0 and ends by the total duration |
| Editor.MusicFile | src/modules/editor.py:37-46 | the file is one of the map's five; it is `chill.mp3` exactly when the mood's first word is unlisted or is "chill" |
| Editor.LoadMusic | src/modules/editor.py:47-66 | music is present iff its file exists and decodes; it then lasts exactly the voice duration, whether looped or cut, at volume 0.12 |
| Editor.CenterCrop | src/modules/editor.py:88 | rows and length kept; a frame ≥ 1080 wide gives its 1080 centre columns from `(w−1080)/2`; a narrower frame gives its last `(1080−w)/2` columns, or all of them when that start is before the left edge or `w = 1079` |
| Editor.CenterCropIsCrop | src/modules/editor.py:88 | the whole-pixel centre crop equals the library crop called with `x1 = w/2 − 540`, `width=1080`, `height=1920`, and `int(x1)` is `(w−1080)/2` rounded toward zero |
| Editor.ScaledWidth | src/modules/editor.py:86-88 | a clip at most 1920 high is at least 1080 wide after the scaling step iff it is at least 9:16 wide |
| Editor.PrepareClip | src/modules/editor.py:83-94 | a clip is kept iff it decodes with a positive height; a kept clip lasts exactly the slot, is at most 1080 wide, is 1920 high or its own greater height, and is exactly 1080×1920 iff the decoded clip is at most 1920 high and at least 9:16 wide |
| Editor.BuildVisualTrack | src/modules/editor.py:68-111 | the stitching loop yields the `VisualTrack` function's track; it is never longer than the voice, at most 1080 wide and at least 1920 high, and exactly 1080×1920 when every file is dropped or portrait-ready |
| Editor.BuildOverlays | src/modules/editor.py:113-156 | the caption and branding steps yield exactly the overlay stack |
| Editor.Soundtrack | src/modules/editor.py:163-167 | the voice alone, or the voice then the music when music loaded |
| Editor.AssembleVideo | src/modules/editor.py:20-186 | missing voice: `None` with nothing built; undecodable voice or blank mood: raises; otherwise the render job has the visual track, the overlay stack, the audio `[voice]` when the music file is missing or does not decode and `[voice, music]` otherwise (music at volume 0.12, lasting the voice), `data/output/AURA_<draw>.mp4`, which is returned iff the render succeeds, and the fixed encode settings (30 fps, libx264, aac, ultrafast, 4 threads) |
| Editor.KeptClipsShape | src/modules/editor.py:81-98 | never more kept clips than entries; each kept clip lasts the slot, is at most 1080 wide and at least 1920 high, and is exactly 1080×1920 when every file is dropped or portrait-ready |
| Editor.KeptClipsAppend | src/modules/editor.py:81-98 | kept clips keep the input order |
| Editor.KeptClipsContain | src/modules/editor.py:81-96 | a file whose clip is prepared contributes that clip to the kept clips |
| Editor.FailedClipDropped | src/modules/editor.py:97-98 | a failing entry is dropped, with nothing put in its place |
| Editor.KeptClipsAllLoad | src/modules/editor.py:81-96 | when every entry loads, clip k is entry k prepared |
| Editor.VisualTrackShape | src/modules/editor.py:100-111 | the visual track is never longer than the voice, at most 1080 wide and at least 1920 high; exactly 1080×1920 with no files or when every file is dropped or portrait-ready |
| Editor.TallClipStretchesFrame | src/modules/editor.py:86-103 | one decodable file taller than 1920 makes the concatenated track at least that tall |
| Editor.VisualTrackFallback | src/modules/editor.py:72-111 | no entries, a failed concatenation or no kept clip each give a black screen of the full duration |
| Editor.NoFileDecodes | src/modules/editor.py:81-111 | when no entry decodes, every clip is dropped and the track is the full-length black screen |
| Editor.AllDropped | src/modules/editor.py:81-98 | entries that all fail to decode keep no clip |
| Editor.VisualTrackLength | src/modules/editor.py:77-106 | with kept clips, the track lasts their count times the slot `duration / len(video_files)` |
| Editor.ConcatenateKept | src/modules/editor.py:96-103 | kept clips (never more than the entries) concatenate to one slot per kept clip, at most 1080 wide and at least 1920 high, and exactly 1080×1920 when every file is dropped or portrait-ready |
| Editor.SlotClipsConcatenate | src/modules/editor.py:91-103 | clips of one slot each, at most 1080 wide and at least 1920 high, concatenate to k slots with the same width and height bounds |
| Editor.SlotsFit | src/modules/editor.py:77 | k of n equal slots fit in the duration, and fill it when k = n |
| Editor.VisualTrackFull | src/modules/editor.py:77-106 | with a non-empty list in which every entry loads, and a concatenation that succeeds, the track lasts exactly the voice duration |
| Editor.OverlayStack | src/modules/editor.py:122-156 | captions first, then the watermark if shown, then the logo last if shown; both may appear; branding spans the whole duration |
| Editor.OverlaysWithinDuration | src/modules/editor.py:113-156 | every overlay starts at or after 0 and ends by the voice duration |
| Editor.MusicFileFirstWord | src/modules/editor.py:46 | only the first word of the mood selects the music |
| Editor.MusicFileOfWord | src/modules/editor.py:37-46 | a one-word mood selects its lower-cased entry, or `chill.mp3` when unlisted |
| Editor.MusicFileIgnoresCase | src/modules/editor.py:22-46 | a mood and its lower-cased form select the same music |
| Editor.OutputPathDistinct | src/modules/editor.py:169 | different draws name different output files, and a draw from 1000 to 9999 gives a name of `AURA_`, four digits and `.mp4` |
| Assets.SearchPexels | src/modules/assets.py:71-106 | `None` for an empty query, a missing key, a raising request or a non-200 status; any link returned belongs to a file of the reply |
| Assets.FirstPreferredFileIsFirst | src/modules/assets.py:94-97 | the scan finds the preferred file with no preferred file before it, and finds none iff none is preferred |
| Assets.FirstPreferredIsFirst | src/modules/assets.py:93-97 | the nested scan over videos and files equals one scan over all files in order |
| Assets.SelectLinkFromFiles | src/modules/assets.py:88-101 | a chosen link is the link of some returned file |
| Assets.SelectLinkRule | src/modules/assets.py:88-101 | the link of the first MP4 with 700 < width < 2000; if there is none, the first file of the first video, or `None` |
| Assets.Queries | src/modules/assets.py:47-48 | the primary query comes first, then the fallbacks; the default "abstract background" is used only when the key is absent |
| Assets.EmptyQueryGoesToFallbacks | src/modules/assets.py:47-73 | a null or empty primary query is not searched and not replaced by the default: the worker returns nothing without fallbacks, and otherwise behaves as if the first fallback were the primary query |
| Assets.EmptyQueryLastAnswer | src/modules/assets.py:47-58 | with a null or empty primary query the last answer is nothing when there are no fallbacks, and otherwise the answer obtained by starting from the first fallback |
| Assets.AnswerAfterMiss | src/modules/assets.py:51-58 | a query that finds nothing hands the search on to the remaining queries: the final answer is theirs |
| Assets.TriedCount | src/modules/assets.py:50-58 | every query before the last tried finds nothing, and the search stops early only at a hit |
| Assets.TriedCountAfterMisses | src/modules/assets.py:54-58 | after i misses, query i ends the search when it hits or is the last |
| Assets.SearchWithFallbacks | src/modules/assets.py:50-58 | the queries searched are exactly the prefix up to the first hit (or all of them), and the URL is the last one's answer |
| Assets.ProcessSingleScene | src/modules/assets.py:41-68 | a path is returned only when a query hit and the download succeeded, and it is `assets/temp/scene_<id>_<draw>.mp4`; a malformed scene raises |
| Assets.DownloadSceneAssets | src/modules/assets.py:12-38 | the collection loop builds exactly the map of the workers' results, in submission order |
| Assets.AssetMapStep | src/modules/assets.py:29-34 | collecting one more future changes the map only by that scene's returned path |
| Assets.FutureResult | src/modules/assets.py:29-34 | waiting on a scene's worker yields exactly what `_process_single_scene` returns for that scene, or its exception |
| Assets.CollectStep | src/modules/assets.py:29-34 | recording future i's result into the map of the first i gives the map of the first i + 1 |
| Assets.AssetMapEntries | src/modules/assets.py:29-38 | an id is a key iff some scene with that id returned a path, and each value is a path a worker returned |
| Assets.AssetMapUnique | src/modules/assets.py:29-34 | with distinct ids, a scene's id is a key iff its own worker returned a non-empty path, which is the value |
| Assets.SceneResultPath | src/modules/assets.py:61-66 | a returned path is the scene's non-empty download path |
| Assets.DownloadedScenes | src/modules/assets.py:20-38 | with distinct ids, the keys are scene ids, and a scene is present iff its own worker returned a path, which is its download path |
| Voice.DefaultVoiceId | src/modules/voice.py:15-26 | the fallback voice is a table value and the same as the default name's |
| Voice.SelectVoice | src/modules/voice.py:42-46 | the voice is always a table value: the listed name's own, or the default for an unlisted name |
| Voice.GenerateAudio | src/modules/voice.py:37-63 | true iff synthesis with the selected voice completes and the file exists; false when it raises |
| Voice.ListedLanguages | src/modules/voice.py:20-23 | Hindi, Spanish, French and German select their own neural voices |
| Voice.UnlistedNames | src/modules/voice.py:44-46 | "English" and "Hindi (Neural)" fall back to `en-US-AriaNeural` |
| App.LoadHistory | src/app.py:40-47 | the stored list, or `[]` for a missing or corrupt file |
| App.Saved | src/app.py:49-52 | the new entry first, at most ten entries, the rest being the old first up-to-nine in order |
| App.SaveToHistory | src/app.py:49-56 | the saved history is as above and loading the written file gives it back |
| App.SaveAllKeepsNewest | src/app.py:49-52 | after any series of saves from empty, the history is the last ten entries, newest first |
| App.TargetVoice | src/app.py:226 | the language's name, unless the language is English, then the persona |
| App.NarrationVoice | src/app.py:167-227 | Hindi, Spanish, French and German narrate with `hi-IN-SwaraNeural`, `es-ES-ElviraNeural`, `fr-FR-DeniseNeural`, `de-DE-KatjaNeural` whatever the persona; in English, the persona's voice, or Aria for "Hindi (Neural)" |
| App.BrandingChoice | src/app.py:175-185 | branding off: no watermark text and no logo; on: the handle, and the upload path iff a logo was uploaded |
| App.SafeLogoPath | src/app.py:240-242 | the logo path is passed iff it is set, non-empty and exists |
| App.BrandingOffOnlyCaptions | src/app.py:175-185 | with branding off, the video carries only its captions on top |
| App.BrandingReachesVideo | src/app.py:240-249 | the logo reaches the video iff branding is on, a logo was uploaded, it exists and renders; the watermark iff branding is on with a non-empty handle and it renders |

## Left out

- Decoding, pixel resizing, compositing, fonts, stroke, the 80% caption wrap
  width, the logo's 150-pixel height and margin, and encoding. Clips are
  `{w, h, duration}` records and layers are `{content, start, duration,
  position, opacity}` records. `write_videofile` is a render-success flag.
- Floating point: durations are exact reals. No float identity is claimed
  bit-exactly, for example that n slots of `d/n` add up to `d`. The `int()`
  truncations in resize and crop are taken on exact values, so a float
  rounding that would move a pixel boundary by one is not modelled.
- Unicode case mapping beyond ASCII letters in `upper`/`lower`.
- Editor.LoadMusic: it does not model `loop`, `subclip` or `volumex` raising
  after the music decoded. There, the source keeps the music at full volume and
  original length, and the model treats those calls as total.
- Editor.AssembleVideo: the `try/except` around caption generation never
  fires, because caption failures are per chunk and are modelled by the
  `renders` oracle.
- Assets.SearchPexels: it does not model a `width` that is JSON `null` or a
  string. That makes the comparison raise, which the source catches, giving
  `None`. Widths are integers, with 0 when absent.
- Assets.DownloadSceneAssets: the four-thread pool is modelled as a
  sequential map over scenes in submission order. A scene without an `id`
  makes submission itself raise; that is not modelled.
- The speech synthesis itself (`edge_tts`), the HTTP requests and the
  streaming download are oracles. The blueprint writer (language models and
  JSON parsing) and `generate_ai_image` are not part of this model.
- App.LoadHistory: a history file holding valid JSON that is not a list of
  entries is not modelled. The marketing field of an entry and the creation
  of the data directory are left out, as is a write that raises.
- The Streamlit pages, dashboard and themes, the command-line loop in
  `src/main.py`, and the environment setup and `validate` in `src/config.py`.
