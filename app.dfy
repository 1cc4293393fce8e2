/**
 * The studio front end's own decisions: the persistent history of produced
 * videos, the narration voice chosen from the language, and the branding and
 * logo inputs handed to the editor. Pages, widgets and the production steps
 * that call the engines are not part of this model.
 */
module App {
  import opened Wrappers
  import Config
  import Voice
  import Editor
  import Media

  // ---------------------------------------------------------------------------
  // History
  // ---------------------------------------------------------------------------

  /** At most this many entries are kept. */
  const HistoryLimit: nat := 10

  /** One produced video as the history records it. */
  datatype Entry = Entry(timestamp: string, topic: string, title: string, path: string, language: string)

  /** What the history file holds: nothing, something that does not load as JSON, or a list of entries. */
  datatype Stored = Missing | Corrupt | Entries(entries: seq<Entry>)

  /** `load_history()`: the stored list, or `[]` when the file is missing or does not load. */
  function LoadHistory(file: Stored): (h: seq<Entry>)
    ensures file.Entries? ==> h == file.entries
    ensures !file.Entries? ==> h == []
  {
    match file
    case Entries(entries) => entries
    case _ => []
  }

  /** The history after recording `entry` on top of `prior`. */
  function Saved(entry: Entry, prior: seq<Entry>): (h: seq<Entry>)
    ensures 1 <= |h| <= HistoryLimit
    ensures h[0] == entry
    ensures h[1..] == prior[..Min(HistoryLimit - 1, |prior|)]
  {
    var withNew := [entry] + prior;
    var h := withNew[..Min(HistoryLimit, |withNew|)];
    var kept := prior[..Min(HistoryLimit - 1, |prior|)];
    assert h == [entry] + kept by {
      assert |h| == 1 + |kept|;
      forall i | 1 <= i < |h| ensures h[i] == kept[i - 1] {
        assert h[i] == withNew[i] == prior[i - 1];
      }
    }
    assert ([entry] + kept)[1..] == kept;
    h
  }

  /**
   * `save_to_history(entry)`: load the history, insert the entry at the
   * front, keep the first ten, write the list back and return it. The
   * returned list is what the file then holds: loading it gives it back.
   */
  method SaveToHistory(entry: Entry, file: Stored) returns (history: seq<Entry>, written: Stored)
    ensures history == Saved(entry, LoadHistory(file))
    ensures written == Entries(history)
    ensures LoadHistory(written) == history
  {
    history := LoadHistory(file);
    history := [entry] + history;
    history := history[..Min(HistoryLimit, |history|)];
    written := Entries(history);
  }

  /** The entries in reverse order. */
  function Reverse<T>(s: seq<T>): (r: seq<T>)
    ensures |r| == |s|
    ensures forall i :: 0 <= i < |s| ==> r[i] == s[|s| - 1 - i]
  {
    if s == [] then [] else Reverse(s[1..]) + [s[0]]
  }

  /** The history after saving `entries` one after another, starting from `prior`. */
  function SaveAll(entries: seq<Entry>, prior: seq<Entry>): seq<Entry> {
    if entries == [] then prior else Saved(entries[|entries| - 1], SaveAll(entries[..|entries| - 1], prior))
  }

  /**
   * Newest first, ten at most: after saving any sequence of entries into an
   * empty history, the history holds the last ten of them (or all, when fewer),
   * most recent first.
   */
  lemma {:induction false} SaveAllKeepsNewest(entries: seq<Entry>)
    ensures SaveAll(entries, []) == Reverse(entries)[..Min(HistoryLimit, |entries|)]
  {
    if entries != [] {
      var n := |entries| - 1;
      SaveAllKeepsNewest(entries[..n]);
      assert entries[..n] + [entries[n]] == entries;
      ReverseSnoc(entries[..n], entries[n]);
      var before := Reverse(entries[..n])[..Min(HistoryLimit, n)];
      var after := SaveAll(entries, []);
      assert after == Saved(entries[n], before);
      var expected := Reverse(entries)[..Min(HistoryLimit, |entries|)];
      assert |after| == |expected|;
      forall k | 0 <= k < |after| ensures after[k] == expected[k] {
        if k > 0 {
          assert after[k] == after[1..][k - 1];
        }
      }
    }
  }

  lemma ReverseSnoc<T>(s: seq<T>, x: T)
    ensures Reverse(s + [x]) == [x] + Reverse(s)
  {
    if s != [] {
      assert (s + [x])[1..] == s[1..] + [x];
      ReverseSnoc(s[1..], x);
    }
  }

  // ---------------------------------------------------------------------------
  // Narration voice
  // ---------------------------------------------------------------------------

  /** The languages and voice personas the studio offers. */
  const Languages: seq<string> := ["English", "Hindi", "Spanish", "French", "German"]
  const Personas: seq<string> := ["Nova (Female)", "Alloy (Male)", "Echo (Deep)", "Hindi (Neural)"]

  /** `target_voice`: the language's name, unless the language is English, then the persona. */
  function TargetVoice(language: string, persona: string): (v: string)
    ensures language == "English" ==> v == persona
    ensures language != "English" ==> v == language
  {
    if language != "English" then language else persona
  }

  /**
   * The voice the narration is synthesised with: for a non-English language
   * offered by the studio, that language's own voice whatever the persona; in
   * English, the persona's voice, or Aria for a persona the table does not
   * list (`"Hindi (Neural)"`).
   */
  lemma NarrationVoice(language: string, persona: string)
    requires language in Languages && persona in Personas
    ensures language != "English" ==>
              Voice.SelectVoice(TargetVoice(language, persona)) == Voice.VoiceMap[language]
    ensures language == "Hindi" ==> Voice.SelectVoice(TargetVoice(language, persona)) == "hi-IN-SwaraNeural"
    ensures language == "Spanish" ==> Voice.SelectVoice(TargetVoice(language, persona)) == "es-ES-ElviraNeural"
    ensures language == "French" ==> Voice.SelectVoice(TargetVoice(language, persona)) == "fr-FR-DeniseNeural"
    ensures language == "German" ==> Voice.SelectVoice(TargetVoice(language, persona)) == "de-DE-KatjaNeural"
    ensures language == "English" && persona != "Hindi (Neural)" ==>
              Voice.SelectVoice(TargetVoice(language, persona)) == Voice.VoiceMap[persona]
    ensures language == "English" && persona == "Hindi (Neural)" ==>
              Voice.SelectVoice(TargetVoice(language, persona)) == "en-US-AriaNeural"
  {
    Voice.ListedLanguages();
    if language == "English" && persona == "Hindi (Neural)" {
      Voice.UnlistedNames();
    }
  }

  // ---------------------------------------------------------------------------
  // Branding and the logo guard
  // ---------------------------------------------------------------------------

  /** Where an uploaded logo is written. */
  const LogoUploadPath: string := Config.JoinPath(Config.TempDir, "logo.png")

  /** The watermark text and logo path the form produces. */
  datatype Branding = Branding(watermarkText: string, logoPath: Option<string>)

  /**
   * With branding off, no watermark text and no logo; with it on, the handle
   * typed and, when a logo was uploaded, the path it was saved to.
   */
  function BrandingChoice(enabled: bool, handle: string, logoUploaded: bool): (b: Branding)
    ensures !enabled ==> b == Branding("", None)
    ensures enabled ==> b.watermarkText == handle && (b.logoPath.Some? <==> logoUploaded)
    ensures b.logoPath.Some? ==> b.logoPath.value == LogoUploadPath
  {
    if enabled then Branding(handle, if logoUploaded then Some(LogoUploadPath) else None)
    else Branding("", None)
  }

  /** `safe_logo_path`: the logo path only when it is set, non-empty, and the file exists. */
  function SafeLogoPath(logoPath: Option<string>, fileExists: string -> bool): (safe: Option<string>)
    ensures safe.Some? <==> logoPath.Some? && logoPath.value != "" && fileExists(logoPath.value)
    ensures safe.Some? ==> safe == logoPath
  {
    if logoPath.Some? && logoPath.value != "" && fileExists(logoPath.value) then logoPath else None
  }

  /** The `assets` dictionary handed to the editor. */
  function EditorAssets(audioPath: string, videoPaths: seq<string>, mood: string,
                        branding: Branding, fileExists: string -> bool): Editor.Assets
  {
    Editor.Assets(audioPath, videoPaths, Some(mood), Some(branding.watermarkText),
                  SafeLogoPath(branding.logoPath, fileExists))
  }

  /** With branding off, the video carries its captions and nothing else on top. */
  lemma BrandingOffOnlyCaptions(audioPath: string, videoPaths: seq<string>, mood: string, handle: string,
                                logoUploaded: bool, script: string, duration: Media.Duration, env: Editor.Env)
    ensures var assets := EditorAssets(audioPath, videoPaths, mood, BrandingChoice(false, handle, logoUploaded), env.fileExists);
            Editor.Overlays(script, duration, assets, env) == Editor.CaptionLayers(script, duration, env)
  {
    var assets := EditorAssets(audioPath, videoPaths, mood, BrandingChoice(false, handle, logoUploaded), env.fileExists);
    assert !Editor.WatermarkShown(assets, env);
    assert !Editor.LogoShown(assets, env);
    assert Editor.CaptionLayers(script, duration, env) + [] + [] == Editor.CaptionLayers(script, duration, env);
  }

  /**
   * The logo reaches the video exactly when branding is on, a logo was
   * uploaded, its file exists and the library draws it; the watermark exactly
   * when branding is on, the handle is not empty and the library draws it.
   */
  lemma BrandingReachesVideo(enabled: bool, handle: string, logoUploaded: bool,
                             audioPath: string, videoPaths: seq<string>, mood: string, env: Editor.Env)
    ensures var assets := EditorAssets(audioPath, videoPaths, mood, BrandingChoice(enabled, handle, logoUploaded), env.fileExists);
            (Editor.LogoShown(assets, env) <==> enabled && logoUploaded && env.fileExists(LogoUploadPath) && env.logoOk) &&
            (Editor.WatermarkShown(assets, env) <==> enabled && handle != "" && env.watermarkOk)
  {
    assert LogoUploadPath != "";
  }
}
