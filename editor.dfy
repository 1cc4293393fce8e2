/**
 * The video editor (`VideoEditor.assemble_video`): loads the voice track, whose
 * length is the master duration; picks, fits and ducks background music by mood;
 * cuts the voice duration into equal slots, one per visual file, and fits every
 * clip that loads to its slot after a centred vertical crop; falls back to a
 * black screen; stacks captions, text watermark and logo above the visual track;
 * mixes the audio and hands everything to the renderer under a random name.
 */
module Editor {
  import opened Wrappers
  import opened Media
  import opened Text
  import Config
  import Subtitles

  // ---------------------------------------------------------------------------
  // Inputs and outputs
  // ---------------------------------------------------------------------------

  /** The `assets` dictionary the editor receives (missing optional keys are `None`). */
  datatype Assets = Assets(
    audioPath: string,
    videoPaths: seq<string>,
    musicMood: Option<string>,
    watermarkText: Option<string>,
    logoPath: Option<string>)

  /**
   * What the editor learns from the file system and the media library:
   * whether a path exists, what an audio or video file decodes to (`None` when
   * decoding raises), and whether each later library step succeeds.
   */
  datatype Env = Env(
    fileExists: string -> bool,
    loadAudio: string -> Option<Duration>,
    loadVideo: string -> Option<Clip>,
    concatOk: bool,
    renders: nat -> bool,
    watermarkOk: bool,
    logoOk: bool,
    renderOk: bool)

  /** Everything handed to `write_videofile`: the composite, its audio, the file and the encode settings. */
  datatype RenderJob = RenderJob(visual: Clip, overlays: seq<Layer>, audio: seq<AudioTrack>, outputPath: string,
                                 profile: Profile)

  /** `assemble_video` either returns (a path or `None`) or lets an exception escape. */
  datatype Outcome = Returned(path: Option<string>) | Raised

  /** Encode settings: frame rate, video codec, audio codec, encoder preset and thread count. */
  datatype Profile = Profile(fps: nat, codec: string, audioCodec: string, preset: string, threads: nat)

  /** The fixed profile every render uses: 30 fps, libx264, aac, preset ultrafast, four threads. */
  const RenderProfile: Profile := Profile(Config.Fps, "libx264", "aac", "ultrafast", 4)

  // ---------------------------------------------------------------------------
  // Music
  // ---------------------------------------------------------------------------

  const MusicMap: map<string, string> := map[
    "chill" := "chill.mp3",
    "upbeat" := "upbeat.mp3",
    "dramatic" := "dramatic.mp3",
    "phonk" := "phonk.mp3",
    "corporate" := "corporate.mp3"]

  const DefaultMood: string := "chill"
  const DefaultMusicFile: string := "chill.mp3"

  /** Music volume after ducking. */
  const MusicVolume: real := 0.12

  /** A mood `split()` can take a first word from. */
  predicate HasMoodWord(mood: string) {
    SplitWords(Lower(mood)) != []
  }

  /** `mood.split()[0].lower()`, with `mood` already lower-cased. */
  function MoodKey(mood: string): string
    requires HasMoodWord(mood)
  {
    Lower(SplitWords(Lower(mood))[0])
  }

  /** `music_map.get(mood.split()[0].lower(), "chill.mp3")`. */
  function MusicFile(mood: string): (f: string)
    requires HasMoodWord(mood)
    ensures f in MusicMap.Values
    ensures f == DefaultMusicFile <==> MoodKey(mood) !in MusicMap || MoodKey(mood) == DefaultMood
  {
    var key := MoodKey(mood);
    assert MusicMap[DefaultMood] == DefaultMusicFile;
    if key in MusicMap then MusicMap[key] else DefaultMusicFile
  }

  /**
   * The background-music step: when the mood's file exists and decodes, the
   * music is looped when shorter than the voice or cut to `[0, duration]`
   * otherwise, then scaled to volume 0.12; otherwise there is no music.
   */
  method LoadMusic(mood: string, duration: Duration, env: Env) returns (bgMusic: Option<AudioTrack>)
    requires HasMoodWord(mood)
    ensures var path := Config.JoinPath(Config.MusicDir, MusicFile(mood));
            bgMusic.Some? <==> env.fileExists(path) && env.loadAudio(path).Some?
    ensures bgMusic.Some? ==>
              bgMusic.value.source == Config.JoinPath(Config.MusicDir, MusicFile(mood)) &&
              bgMusic.value.duration == duration && bgMusic.value.volume == MusicVolume
  {
    var filename := MusicFile(mood);
    var musicPath := Config.JoinPath(Config.MusicDir, filename);
    bgMusic := None;
    if env.fileExists(musicPath) {
      var loaded := env.loadAudio(musicPath);
      if loaded.Some? {
        var music := AudioTrack(musicPath, loaded.value, 1.0);
        if music.duration < duration {
          music := music.(duration := duration);   // afx.audio_loop(bg_music, duration=duration)
        } else {
          music := music.(duration := duration);   // bg_music.subclip(0, duration)
        }
        music := music.(volume := music.volume * MusicVolume);
        bgMusic := Some(music);
      }
    }
  }

  // ---------------------------------------------------------------------------
  // Visual track
  // ---------------------------------------------------------------------------

  /** The left edge the editor asks the crop for: `clip.w / 2 - 540`. */
  function CenterX1(c: Clip): real {
    c.w as real / 2.0 - (Config.VideoWidth / 2) as real
  }

  /**
   * `clip.crop(x1=clip.w/2 - 540, width=1080, height=1920)`, in whole pixels:
   * the slice runs from `int(x1)` to `int(x1 + 1080)` (`CenterCropIsCrop`). A
   * frame at least 1080 wide gives its 1080 centre columns, from column
   * `(w - 1080) / 2`. A narrower frame cannot give 1080: its negative `x1`
   * counts from the right edge, so the slice keeps only the last
   * `(1080 - w) / 2` columns, or every column when that start falls before
   * the left edge or truncates to 0 (a frame 1079 wide). Rows are never cut.
   */
  function CenterCrop(c: Clip): (r: Clip)
    ensures r.h == c.h && r.duration == c.duration
    ensures c.w >= Config.VideoWidth ==>
              r.w == Config.VideoWidth && CenterStart(c) == (c.w - Config.VideoWidth) / 2
    ensures c.w < Config.VideoWidth ==>
              r.w == if c.w + 1 == Config.VideoWidth || c.w < (Config.VideoWidth - c.w) / 2 then c.w
                     else (Config.VideoWidth - c.w) / 2
    ensures r.w <= Config.VideoWidth
  {
    Clip(SliceLength(HalfTowardZero(c.w - Config.VideoWidth), (c.w + Config.VideoWidth) / 2, c.w), c.h, c.duration)
  }

  /** `int(m / 2)`: half of `m`, rounded toward zero. */
  function HalfTowardZero(m: int): int {
    if m >= 0 then m / 2 else -((-m) / 2)
  }

  /** The first column the centre crop keeps. */
  function CenterStart(c: Clip): nat {
    SliceIndex(HalfTowardZero(c.w - Config.VideoWidth), c.w)
  }

  /** The whole-pixel crop is the library's crop with the editor's arguments. */
  lemma CenterCropIsCrop(c: Clip)
    ensures CenterCrop(c) == Crop(c, CenterX1(c), Config.VideoWidth, Config.VideoHeight)
    ensures Trunc(CenterX1(c)) == HalfTowardZero(c.w - Config.VideoWidth)
  {
    TruncHalf(c.w - Config.VideoWidth);
    TruncHalf(c.w + Config.VideoWidth);
    assert CenterX1(c) == (c.w - Config.VideoWidth) as real / 2.0;
    assert CenterX1(c) + Config.VideoWidth as real == (c.w + Config.VideoWidth) as real / 2.0;
  }

  /** The scaling step: a clip under 1920 high is scaled up to height 1920. */
  function Scaled(c: Clip): (r: Clip)
    requires c.h > 0
  {
    if c.h < Config.VideoHeight then ResizeToHeight(c, Config.VideoHeight) else c
  }

  /** A clip at most 1920 high and at least 9:16 wide (a non-zero height). */
  predicate Portrait(c: Clip) {
    0 < c.h <= Config.VideoHeight && 9 * c.h <= 16 * c.w
  }

  /** A clip no higher than 1920 is at least 1080 wide once scaled exactly when it is at least 9:16 wide. */
  lemma ScaledWidth(c: Clip)
    requires 0 < c.h <= Config.VideoHeight
    ensures Scaled(c).w >= Config.VideoWidth <==> 9 * c.h <= 16 * c.w
  {
    if c.h < Config.VideoHeight {
      var r := Scaled(c);
      ResizeKeepsAspect(c, Config.VideoHeight);
      if r.w >= 1080 {
        MulMono(1080, r.w, c.h);
      } else {
        MulMono(r.w + 1, 1080, c.h);
      }
    }
  }

  lemma MulMono(a: nat, b: nat, m: nat)
    requires a <= b
    ensures a * m <= b * m
  {
  }

  /** A file that is dropped, or decodes to a portrait-ready clip. */
  predicate PortraitOrDropped(loaded: Option<Clip>) {
    loaded.Some? && loaded.value.h > 0 ==> Portrait(loaded.value)
  }

  /**
   * The loop body for one file that decoded: scale to height 1920 when shorter,
   * crop the centred 1080 columns, then loop or cut to the slot length. `None`
   * when the library raises (a clip of height 0 cannot be scaled). The result
   * is the 1080x1920 frame exactly for a portrait-ready clip; a taller clip
   * keeps its height and a narrower one comes out narrower.
   */
  function PrepareClip(loaded: Option<Clip>, slot: Duration): (r: Option<Clip>)
    ensures r.None? <==> loaded.None? || loaded.value.h == 0
    ensures r.Some? ==> r.value.duration == slot && r.value.w <= Config.VideoWidth
    ensures r.Some? ==>
              r.value.h == if loaded.value.h < Config.VideoHeight then Config.VideoHeight else loaded.value.h
    ensures r.Some? ==>
              (r.value.w == Config.VideoWidth && r.value.h == Config.VideoHeight <==> Portrait(loaded.value))
  {
    match loaded
    case None => None
    case Some(c) =>
      if c.h == 0 then None
      else
        var cropped := CenterCrop(Scaled(c));
        assert c.h <= Config.VideoHeight ==> (cropped.w == Config.VideoWidth <==> Portrait(c)) by {
          if c.h <= Config.VideoHeight {
            ScaledWidth(c);
          }
        }
        Some(if cropped.duration < slot then Loop(cropped, slot) else Subclip(cropped, slot))
  }

  /** The clips kept from `paths`, in order: every path whose clip loads, fitted to the slot. */
  function KeptClips(paths: seq<string>, load: string -> Option<Clip>, slot: Duration): seq<Clip>
  {
    if paths == [] then []
    else
      var last := PrepareClip(load(paths[|paths| - 1]), slot);
      KeptClips(paths[..|paths| - 1], load, slot) + (if last.Some? then [last.value] else [])
  }

  /** The visual track as the code builds it. */
  function VisualTrack(videoFiles: seq<string>, duration: Duration, load: string -> Option<Clip>, concatOk: bool): Clip
  {
    var clips := if videoFiles == [] then [BlackScreen(duration)]
                 else KeptClips(videoFiles, load, duration / |videoFiles| as real);
    if clips != [] && concatOk then
      var c := Concatenate(clips);
      if c.duration > duration then Subclip(c, duration) else c
    else BlackScreen(duration)
  }

  /**
   * The stitching step: a black screen when there are no files, otherwise each
   * file that loads is fitted to `duration / len(video_files)` and appended;
   * the kept clips are concatenated and trimmed to the voice, falling back to a
   * black screen when none was kept or the concatenation fails.
   */
  method BuildVisualTrack(videoFiles: seq<string>, duration: Duration, env: Env) returns (finalVisual: Clip)
    ensures finalVisual == VisualTrack(videoFiles, duration, env.loadVideo, env.concatOk)
    ensures finalVisual.duration <= duration
    ensures finalVisual.w <= Config.VideoWidth && finalVisual.h >= Config.VideoHeight
    ensures AllPortrait(videoFiles, env.loadVideo) ==>
              finalVisual.w == Config.VideoWidth && finalVisual.h == Config.VideoHeight
  {
    var clips: seq<Clip> := [];
    if videoFiles == [] {
      clips := clips + [BlackScreen(duration)];
    } else {
      var clipDuration: Duration := duration / |videoFiles| as real;
      var i := 0;
      while i < |videoFiles|
        invariant i <= |videoFiles|
        invariant clips == KeptClips(videoFiles[..i], env.loadVideo, clipDuration)
      {
        var clip := PrepareClip(env.loadVideo(videoFiles[i]), clipDuration);
        if clip.Some? {
          clips := clips + [clip.value];
        }
        assert videoFiles[..i + 1][..i] == videoFiles[..i];
        i := i + 1;
      }
      assert videoFiles[..i] == videoFiles;
    }
    if clips != [] && env.concatOk {
      finalVisual := Concatenate(clips);
      if finalVisual.duration > duration {
        finalVisual := Subclip(finalVisual, duration);
      }
    } else {
      finalVisual := BlackScreen(duration);
    }
    VisualTrackShape(videoFiles, duration, env.loadVideo, env.concatOk);
  }

  // ---------------------------------------------------------------------------
  // Overlays, audio, output name
  // ---------------------------------------------------------------------------

  const WatermarkOpacity: real := 0.6
  const WatermarkY: int := 1750
  const LogoOpacity: real := 0.8

  /** Text watermark: bottom centre (y = 1750), whole duration, opacity 0.6. */
  function WatermarkLayer(text: string, duration: Duration): Layer {
    Layer(TextContent(text), 0.0, duration, Center, Pixels(WatermarkY), WatermarkOpacity)
  }

  /** Logo: top right, whole duration, opacity 0.8. */
  function LogoLayer(path: string, duration: Duration): Layer {
    Layer(ImageContent(path), 0.0, duration, Right, Top, LogoOpacity)
  }

  predicate WatermarkShown(assets: Assets, env: Env) {
    Truthy(assets.watermarkText) && env.watermarkOk
  }

  predicate LogoShown(assets: Assets, env: Env) {
    Truthy(assets.logoPath) && env.fileExists(assets.logoPath.value) && env.logoOk
  }

  /** The captions, only when the script is not empty. */
  function CaptionLayers(script: string, duration: Duration, env: Env): seq<Layer> {
    if script != "" then Subtitles.SubtitleLayers(script, duration, env.renders) else []
  }

  /** The overlay stack, bottom to top: captions, then watermark, then logo. */
  function Overlays(script: string, duration: Duration, assets: Assets, env: Env): seq<Layer> {
    CaptionLayers(script, duration, env)
    + (if WatermarkShown(assets, env) then [WatermarkLayer(assets.watermarkText.value, duration)] else [])
    + (if LogoShown(assets, env) then [LogoLayer(assets.logoPath.value, duration)] else [])
  }

  /** `data/output/AURA_<n>.mp4`. */
  function OutputPath(n: nat): string {
    Config.JoinPath(Config.OutputDir, "AURA_" + NatToString(n) + ".mp4")
  }

  /**
   * The output name encodes the draw: different draws give different paths,
   * and a draw from 1000 to 9999 gives `AURA_` and four digits.
   */
  lemma OutputPathDistinct(n: nat, m: nat)
    ensures OutputPath(n) == OutputPath(m) <==> n == m
    ensures 1000 <= n <= 9999 ==> |OutputPath(n)| == |Config.OutputDir| + 1 + 13
  {
    var a := "AURA_" + NatToString(n) + ".mp4";
    var b := "AURA_" + NatToString(m) + ".mp4";
    Config.JoinPathInjective(Config.OutputDir, a, b);
    if a == b {
      assert NatToString(n) == a[5..|a| - 4];
      assert NatToString(m) == b[5..|b| - 4];
    }
    NatToStringInjective(n, m);
    if 1000 <= n <= 9999 {
      FourDigits(n);
    }
  }

  /** The voice at full volume, plus the music when it loaded. */
  function Soundtrack(voice: AudioTrack, bgMusic: Option<AudioTrack>): (tracks: seq<AudioTrack>)
    ensures |tracks| == (if bgMusic.Some? then 2 else 1)
    ensures tracks[0] == voice
    ensures bgMusic.Some? ==> tracks[1] == bgMusic.value
  {
    if bgMusic.Some? then [voice, bgMusic.value] else [voice]
  }

  // ---------------------------------------------------------------------------
  // The whole assembly
  // ---------------------------------------------------------------------------

  /**
   * The overlay steps: the captions of the script when it is not empty, then
   * the watermark when there is watermark text and it renders, then the logo
   * when its path is set, the file exists and it renders.
   */
  method BuildOverlays(script: string, duration: Duration, assets: Assets, env: Env) returns (overlays: seq<Layer>)
    ensures overlays == Overlays(script, duration, assets, env)
  {
    var subtitleClips: seq<Layer> := [];
    if script != "" {
      subtitleClips := Subtitles.GenerateSubtitleClips(script, duration, env.renders);
    }
    overlays := subtitleClips;
    if Truthy(assets.watermarkText) && env.watermarkOk {
      overlays := overlays + [WatermarkLayer(assets.watermarkText.value, duration)];
    }
    if Truthy(assets.logoPath) && env.fileExists(assets.logoPath.value) && env.logoOk {
      overlays := overlays + [LogoLayer(assets.logoPath.value, duration)];
    }
  }

  /**
   * `assemble_video(blueprint, assets)`. `script` is the blueprint's
   * `full_voiceover` ("" when absent) and `draw` the random number in the
   * output name. `job` is what reaches the renderer (`None` when rendering is
   * never attempted).
   */
  method AssembleVideo(script: string, assets: Assets, env: Env, draw: nat)
    returns (outcome: Outcome, job: Option<RenderJob>)
    requires 1000 <= draw <= 9999
    // a missing voice file ends the assembly before anything else is built
    ensures !env.fileExists(assets.audioPath) ==> outcome == Returned(None) && job == None
    // an undecodable voice file or a blank mood raises out of the editor
    ensures env.fileExists(assets.audioPath) &&
            (env.loadAudio(assets.audioPath).None? || !HasMoodWord(assets.musicMood.GetOr(DefaultMood)))
            ==> outcome == Raised && job == None
    ensures outcome == Raised ==> job == None
    ensures job.Some? ==>
              var duration := env.loadAudio(assets.audioPath).value;
              var mood := Lower(assets.musicMood.GetOr(DefaultMood));
              var voice := AudioTrack(assets.audioPath, duration, 1.0);
              && env.fileExists(assets.audioPath)
              && HasMoodWord(mood)
              && job.value.visual == VisualTrack(assets.videoPaths, duration, env.loadVideo, env.concatOk)
              && job.value.overlays == Overlays(script, duration, assets, env)
              && 1 <= |job.value.audio| && job.value.audio[0] == voice
              && (|job.value.audio| == 2 <==>
                    var path := Config.JoinPath(Config.MusicDir, MusicFile(mood));
                    env.fileExists(path) && env.loadAudio(path).Some?)
              && (|job.value.audio| == 2 ==>
                    job.value.audio[1] == AudioTrack(Config.JoinPath(Config.MusicDir, MusicFile(mood)), duration, MusicVolume))
              && (var path := Config.JoinPath(Config.MusicDir, MusicFile(mood));
                  job.value.audio
                    == if env.fileExists(path) && env.loadAudio(path).Some?
                       then [voice, AudioTrack(path, duration, MusicVolume)]
                       else [voice])
              && job.value.outputPath == OutputPath(draw)
              && job.value.profile == RenderProfile
    ensures (env.fileExists(assets.audioPath) && env.loadAudio(assets.audioPath).Some? &&
             HasMoodWord(assets.musicMood.GetOr(DefaultMood))) ==> job.Some?
    ensures outcome == Returned(if env.renderOk && job.Some? then Some(job.value.outputPath) else None) || outcome == Raised
  {
    var mood := Lower(assets.musicMood.GetOr(DefaultMood));
    LowerIdempotent(assets.musicMood.GetOr(DefaultMood));
    job := None;

    // 1. Audio and music
    if !env.fileExists(assets.audioPath) {
      outcome := Returned(None);
      return;
    }
    var voiceLoaded := env.loadAudio(assets.audioPath);
    if voiceLoaded.None? {
      outcome := Raised;
      return;
    }
    var duration := voiceLoaded.value;
    var voiceAudio := AudioTrack(assets.audioPath, duration, 1.0);
    if !HasMoodWord(mood) {
      outcome := Raised;   // mood.split()[0] on a blank mood
      return;
    }
    var bgMusic := LoadMusic(mood, duration, env);

    // 2. Visual stitching
    var finalVisual := BuildVisualTrack(assets.videoPaths, duration, env);

    // 3 and 4. Subtitles, watermark and logo
    var overlays := BuildOverlays(script, duration, assets, env);

    // 5. Render
    var audio := Soundtrack(voiceAudio, bgMusic);
    var outputPath := OutputPath(draw);
    assert |audio| == 2 <==> bgMusic.Some?;
    job := Some(RenderJob(finalVisual, overlays, audio, outputPath, RenderProfile));
    if env.renderOk {
      outcome := Returned(Some(outputPath));
    } else {
      outcome := Returned(None);
    }
  }

  // ---------------------------------------------------------------------------
  // Properties of the specification functions
  // ---------------------------------------------------------------------------

  /**
   * Kept clips are never more than the inputs and last exactly one slot each;
   * they are at most 1080 wide and at least 1920 high, and exactly 1080x1920
   * when every file is dropped or portrait-ready.
   */
  lemma {:induction false} KeptClipsShape(paths: seq<string>, load: string -> Option<Clip>, slot: Duration)
    ensures |KeptClips(paths, load, slot)| <= |paths|
    ensures forall k :: 0 <= k < |KeptClips(paths, load, slot)| ==>
              var c := KeptClips(paths, load, slot)[k];
              c.duration == slot && c.w <= Config.VideoWidth && c.h >= Config.VideoHeight
    ensures AllPortrait(paths, load) ==>
              forall k :: 0 <= k < |KeptClips(paths, load, slot)| ==>
                KeptClips(paths, load, slot)[k].w == Config.VideoWidth &&
                KeptClips(paths, load, slot)[k].h == Config.VideoHeight
    decreases |paths|
  {
    if paths != [] {
      var init := paths[..|paths| - 1];
      KeptClipsShape(init, load, slot);
      assert AllPortrait(paths, load) ==> AllPortrait(init, load) by {
        forall k | 0 <= k < |init| ensures init[k] == paths[k] { }
      }
      assert AllPortrait(paths, load) ==> PortraitOrDropped(load(paths[|paths| - 1]));
    }
  }

  /** A file whose clip is prepared contributes that clip to the kept clips. */
  lemma KeptClipsContain(paths: seq<string>, j: nat, load: string -> Option<Clip>, slot: Duration)
    requires j < |paths|
    requires PrepareClip(load(paths[j]), slot).Some?
    ensures PrepareClip(load(paths[j]), slot).value in KeptClips(paths, load, slot)
  {
    assert paths == paths[..j + 1] + paths[j + 1..];
    assert paths[..j + 1][..j] == paths[..j];
    KeptClipsAppend(paths[..j + 1], paths[j + 1..], load, slot);
  }

  /** Every file is dropped or portrait-ready. */
  predicate AllPortrait(paths: seq<string>, load: string -> Option<Clip>) {
    forall k :: 0 <= k < |paths| ==> PortraitOrDropped(load(paths[k]))
  }

  /** Keeping is done path by path, in order: the clips of `p + q` are those of `p` then those of `q`. */
  lemma {:induction false} KeptClipsAppend(p: seq<string>, q: seq<string>, load: string -> Option<Clip>, slot: Duration)
    ensures KeptClips(p + q, load, slot) == KeptClips(p, load, slot) + KeptClips(q, load, slot)
    decreases |q|
  {
    if q == [] {
      assert p + q == p;
    } else {
      var q' := q[..|q| - 1];
      assert (p + q)[..|p + q| - 1] == p + q';
      assert (p + q)[|p + q| - 1] == q[|q| - 1];
      KeptClipsAppend(p, q', load, slot);
    }
  }

  /** A file that fails to load is dropped, not replaced: the result is as if it were not there. */
  lemma FailedClipDropped(paths: seq<string>, j: nat, load: string -> Option<Clip>, slot: Duration)
    requires j < |paths|
    requires PrepareClip(load(paths[j]), slot).None?
    ensures KeptClips(paths, load, slot) == KeptClips(paths[..j] + paths[j + 1..], load, slot)
  {
    assert paths == paths[..j] + [paths[j]] + paths[j + 1..];
    KeptClipsAppend(paths[..j] + [paths[j]], paths[j + 1..], load, slot);
    KeptClipsAppend(paths[..j], [paths[j]], load, slot);
    KeptClipsAppend(paths[..j], paths[j + 1..], load, slot);
    assert [paths[j]][..0] == [];
  }

  /** When every file loads, the k-th kept clip is the k-th file's clip. */
  lemma {:induction false} KeptClipsAllLoad(paths: seq<string>, load: string -> Option<Clip>, slot: Duration)
    requires forall k :: 0 <= k < |paths| ==> PrepareClip(load(paths[k]), slot).Some?
    ensures |KeptClips(paths, load, slot)| == |paths|
    ensures forall k :: 0 <= k < |paths| ==> KeptClips(paths, load, slot)[k] == PrepareClip(load(paths[k]), slot).value
    decreases |paths|
  {
    if paths != [] {
      KeptClipsAllLoad(paths[..|paths| - 1], load, slot);
    }
  }

  /**
   * The visual track is never longer than the voice, never wider than 1080 and
   * never lower than 1920; it is exactly 1080x1920 when there are no files or
   * every file is dropped or portrait-ready.
   */
  lemma VisualTrackShape(videoFiles: seq<string>, duration: Duration, load: string -> Option<Clip>, concatOk: bool)
    ensures VisualTrack(videoFiles, duration, load, concatOk).duration <= duration
    ensures VisualTrack(videoFiles, duration, load, concatOk).w <= Config.VideoWidth
    ensures VisualTrack(videoFiles, duration, load, concatOk).h >= Config.VideoHeight
    ensures videoFiles == [] || AllPortrait(videoFiles, load) ==>
              VisualTrack(videoFiles, duration, load, concatOk).w == Config.VideoWidth &&
              VisualTrack(videoFiles, duration, load, concatOk).h == Config.VideoHeight
  {
    if videoFiles == [] {
      ConcatenateSameSize([BlackScreen(duration)], Config.VideoWidth, Config.VideoHeight);
    } else {
      var slot: Duration := duration / |videoFiles| as real;
      var kept := KeptClips(videoFiles, load, slot);
      if kept != [] {
        ConcatenateKept(videoFiles, load, slot);
      }
    }
  }

  /**
   * One decodable file taller than 1920 makes the whole visual track taller
   * than the portrait frame: the crop keeps every row, and the concatenation
   * takes the tallest clip's height.
   */
  lemma TallClipStretchesFrame(videoFiles: seq<string>, duration: Duration, load: string -> Option<Clip>, j: nat)
    requires j < |videoFiles|
    requires load(videoFiles[j]).Some? && load(videoFiles[j]).value.h > Config.VideoHeight
    ensures VisualTrack(videoFiles, duration, load, true).h >= load(videoFiles[j]).value.h
  {
    var slot: Duration := duration / |videoFiles| as real;
    var kept := KeptClips(videoFiles, load, slot);
    KeptClipsContain(videoFiles, j, load, slot);
    var c := PrepareClip(load(videoFiles[j]), slot).value;
    var k :| 0 <= k < |kept| && kept[k] == c;
    ConcatenateFrame(kept);
  }


  /**
   * The black-screen fallbacks: no files, no file that loads, or a failed
   * concatenation each give a black screen lasting the whole voice.
   */
  lemma VisualTrackFallback(videoFiles: seq<string>, duration: Duration, load: string -> Option<Clip>, concatOk: bool)
    requires videoFiles == [] || !concatOk ||
             KeptClips(videoFiles, load, duration / |videoFiles| as real) == []
    ensures VisualTrack(videoFiles, duration, load, concatOk) == BlackScreen(duration)
  {
    if videoFiles == [] && concatOk {
      var one := [BlackScreen(duration)];
      ConcatenateSameSize(one, Config.VideoWidth, Config.VideoHeight);
      assert TotalDuration(one) == duration + TotalDuration([]);
    }
  }

  /**
   * When no file decodes, whatever the reason, the visual track is the black
   * screen of the whole voice: every clip is dropped, so none stands in.
   */
  lemma NoFileDecodes(videoFiles: seq<string>, duration: Duration, load: string -> Option<Clip>, concatOk: bool)
    requires forall k :: 0 <= k < |videoFiles| ==> load(videoFiles[k]).None?
    ensures VisualTrack(videoFiles, duration, load, concatOk) == BlackScreen(duration)
  {
    if videoFiles != [] {
      var slot: Duration := duration / |videoFiles| as real;
      AllDropped(videoFiles, load, slot);
    }
    VisualTrackFallback(videoFiles, duration, load, concatOk);
  }

  /** Files that all fail to decode keep no clip. */
  lemma {:induction false} AllDropped(paths: seq<string>, load: string -> Option<Clip>, slot: Duration)
    requires forall k :: 0 <= k < |paths| ==> load(paths[k]).None?
    ensures KeptClips(paths, load, slot) == []
    decreases |paths|
  {
    if paths != [] {
      var init := paths[..|paths| - 1];
      assert forall k :: 0 <= k < |init| ==> init[k] == paths[k];
      AllDropped(init, load, slot);
    }
  }

  /** Otherwise the visual track lasts one slot per kept clip. */
  lemma VisualTrackLength(videoFiles: seq<string>, duration: Duration, load: string -> Option<Clip>)
    requires videoFiles != []
    requires KeptClips(videoFiles, load, duration / |videoFiles| as real) != []
    ensures VisualTrack(videoFiles, duration, load, true).duration
              == Slots(|KeptClips(videoFiles, load, duration / |videoFiles| as real)|, duration / |videoFiles| as real)
  {
    var slot: Duration := duration / |videoFiles| as real;
    var kept := KeptClips(videoFiles, load, slot);
    ConcatenateKept(videoFiles, load, slot);
    SlotsFit(|kept|, |videoFiles|, duration);
    assert Concatenate(kept).duration <= duration;
    assert VisualTrack(videoFiles, duration, load, true) == Concatenate(kept);
  }

  /**
   * Kept clips concatenate to a track one slot per kept clip long, at most
   * 1080 wide and at least 1920 high, and exactly 1080x1920 when every file is
   * dropped or portrait-ready.
   */
  lemma ConcatenateKept(paths: seq<string>, load: string -> Option<Clip>, slot: Duration)
    requires KeptClips(paths, load, slot) != []
    ensures |KeptClips(paths, load, slot)| <= |paths|
    ensures Concatenate(KeptClips(paths, load, slot)).duration == Slots(|KeptClips(paths, load, slot)|, slot)
    ensures Concatenate(KeptClips(paths, load, slot)).w <= Config.VideoWidth
    ensures Concatenate(KeptClips(paths, load, slot)).h >= Config.VideoHeight
    ensures AllPortrait(paths, load) ==>
              Concatenate(KeptClips(paths, load, slot)).w == Config.VideoWidth &&
              Concatenate(KeptClips(paths, load, slot)).h == Config.VideoHeight
  {
    var kept := KeptClips(paths, load, slot);
    KeptClipsShape(paths, load, slot);
    SlotClipsConcatenate(kept, slot);
    if AllPortrait(paths, load) {
      ConcatenateSameSize(kept, Config.VideoWidth, Config.VideoHeight);
    }
  }

  /** The length of `k` slots of `slot` seconds. */
  function Slots(k: nat, slot: Duration): Duration {
    k as real * slot
  }

  /** Clips of one slot each, at most 1080 wide and at least 1920 high, concatenate to such a track. */
  lemma SlotClipsConcatenate(clips: seq<Clip>, slot: Duration)
    requires clips != []
    requires forall k :: 0 <= k < |clips| ==>
               clips[k].duration == slot && clips[k].w <= Config.VideoWidth && clips[k].h >= Config.VideoHeight
    ensures Concatenate(clips).duration == Slots(|clips|, slot)
    ensures Concatenate(clips).w <= Config.VideoWidth && Concatenate(clips).h >= Config.VideoHeight
  {
    ConcatenateFrame(clips);
    var i :| 0 <= i < |clips| && clips[i].w == Concatenate(clips).w;
    assert clips[0].h <= Concatenate(clips).h;
    TotalDurationUniform(clips, slot);
  }

  /** `k` slots of `d / n` each fit in `d` when `k <= n`, and fill it when `k == n`. */
  lemma SlotsFit(k: nat, n: nat, d: Duration)
    requires 0 < n && k <= n
    ensures Slots(k, d / n as real) <= d
    ensures k == n ==> Slots(k, d / n as real) == d
  {
    var slot := d / n as real;
    assert n as real * slot == d;
    assert k as real * slot <= n as real * slot;
  }

  /** When every file loads and concatenation succeeds, the visual track lasts exactly the voice. */
  lemma VisualTrackFull(videoFiles: seq<string>, duration: Duration, load: string -> Option<Clip>)
    requires videoFiles != []
    requires forall k :: 0 <= k < |videoFiles| ==>
               PrepareClip(load(videoFiles[k]), duration / |videoFiles| as real).Some?
    ensures VisualTrack(videoFiles, duration, load, true).duration == duration
  {
    var slot: Duration := duration / |videoFiles| as real;
    KeptClipsAllLoad(videoFiles, load, slot);
    VisualTrackLength(videoFiles, duration, load);
    SlotsFit(|videoFiles|, |videoFiles|, duration);
  }

  /**
   * The overlay stack: the captions first, in their order; then the watermark
   * if there is watermark text and it rendered; then the logo, last, if its
   * file exists and it rendered. Both branding layers can appear together, and
   * each spans the whole duration.
   */
  lemma OverlayStack(script: string, duration: Duration, assets: Assets, env: Env)
    ensures var o := Overlays(script, duration, assets, env);
            var c := CaptionLayers(script, duration, env);
            && |o| == |c| + (if WatermarkShown(assets, env) then 1 else 0) + (if LogoShown(assets, env) then 1 else 0)
            && o[..|c|] == c
            && (WatermarkShown(assets, env) ==> o[|c|] == WatermarkLayer(assets.watermarkText.value, duration))
            && (LogoShown(assets, env) ==> o[|o| - 1] == LogoLayer(assets.logoPath.value, duration))
            && forall j :: |c| <= j < |o| ==> o[j].start == 0.0 && o[j].duration == duration
  {
  }

  /** Every overlay lies within the voice duration. */
  lemma OverlaysWithinDuration(script: string, duration: Duration, assets: Assets, env: Env)
    ensures Subtitles.Within(Overlays(script, duration, assets, env), 0.0, duration)
  {
    var c := CaptionLayers(script, duration, env);
    if script != "" {
      Subtitles.CaptionsEndByTotal(script, duration, env.renders);
    }
    OverlayStack(script, duration, assets, env);
    var o := Overlays(script, duration, assets, env);
    forall j | 0 <= j < |o| ensures 0.0 <= o[j].start && o[j].start + o[j].duration <= duration {
      if j < |c| {
        assert o[j] == c[j];
      }
    }
  }

  /** The music file depends only on the mood's first word, whatever its case. */
  lemma MusicFileFirstWord(word: string, rest: string)
    requires IsWord(word)
    ensures HasMoodWord(word + " " + rest) && HasMoodWord(word)
    ensures MusicFile(word + " " + rest) == MusicFile(word)
  {
    LowerAppend(word + " ", rest);
    LowerAppend(word, " ");
    LowerKeepsWords(word);
    assert Lower(" ") == " ";
    SplitWordThenRest(Lower(word), Lower(rest));
    SplitWord(Lower(word));
  }

  /** A one-word mood selects the track named after the word in lower case, if there is one. */
  lemma MusicFileOfWord(word: string)
    requires IsWord(word)
    ensures HasMoodWord(word)
    ensures MusicFile(word) == if Lower(word) in MusicMap then MusicMap[Lower(word)] else DefaultMusicFile
  {
    LowerKeepsWords(word);
    SplitWord(Lower(word));
    LowerIdempotent(word);
  }

  /** Case does not matter: a mood and its lower-cased form select the same track. */
  lemma MusicFileIgnoresCase(mood: string)
    requires HasMoodWord(mood)
    ensures HasMoodWord(Lower(mood))
    ensures MusicFile(Lower(mood)) == MusicFile(mood)
  {
    LowerIdempotent(mood);
  }
}
