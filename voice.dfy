/**
 * The narration engine (`VoiceEngine`): a table from the names the studio
 * offers to neural voice ids, the lookup with its default, and the success
 * rule of one synthesis. The speech service itself is an oracle.
 */
module Voice {
  import opened Wrappers

  /** `VOICE_MAP`: studio voice name -> voice id. */
  const VoiceMap: map<string, string> := map[
    "Nova (Female)" := "en-US-AriaNeural",
    "Alloy (Male)" := "en-US-GuyNeural",
    "Echo (Deep)" := "en-US-ChristopherNeural",
    "Hindi" := "hi-IN-SwaraNeural",
    "Spanish" := "es-ES-ElviraNeural",
    "French" := "fr-FR-DeniseNeural",
    "German" := "de-DE-KatjaNeural",
    "default" := "en-US-AriaNeural"
  ]

  /** The name `generate_audio` uses when none is given. */
  const DefaultVoiceName: string := "Nova (Female)"

  /** The voice id used for a name the table does not list (`VOICE_MAP["default"]`). */
  function DefaultVoiceId(): (v: string)
    ensures v in VoiceMap.Values && v == VoiceMap[DefaultVoiceName]
  {
    VoiceMap["default"]
  }

  /**
   * The voice id `generate_audio` synthesises with: the table's entry for the
   * name when it has a non-empty one, otherwise the default voice.
   */
  function SelectVoice(name: string): (v: string)
    ensures v in VoiceMap.Values
    ensures name in VoiceMap ==> v == VoiceMap[name]
    ensures name !in VoiceMap ==> v == DefaultVoiceId()
  {
    var selected := if name in VoiceMap then Some(VoiceMap[name]) else None;
    if selected.None? || selected.value == "" then VoiceMap["default"] else selected.value
  }

  /** How one run of the speech service ends: it raises, or completes and the file is there or not. */
  datatype Synthesis = SynthesisRaised | Completed(fileCreated: bool)

  /**
   * `generate_audio(text, output_path, voice_name)`: synthesise `text` with
   * the selected voice into `output_path`; true exactly when the synthesis
   * completes and the output file then exists, false when it raises.
   */
  function GenerateAudio(text: string, outputPath: string, voiceName: string,
                         synthesize: (string, string, string) -> Synthesis): (ok: bool)
    ensures ok <==> synthesize(text, SelectVoice(voiceName), outputPath) == Completed(true)
  {
    match synthesize(text, SelectVoice(voiceName), outputPath)
    case SynthesisRaised => false
    case Completed(created) => created
  }

  /** The listed languages select their own voices. */
  lemma ListedLanguages()
    ensures SelectVoice("Hindi") == "hi-IN-SwaraNeural"
    ensures SelectVoice("Spanish") == "es-ES-ElviraNeural"
    ensures SelectVoice("French") == "fr-FR-DeniseNeural"
    ensures SelectVoice("German") == "de-DE-KatjaNeural"
  {
  }

  /** Names the table does not list, such as `"English"` or `"Hindi (Neural)"`, fall back to Aria. */
  lemma UnlistedNames()
    ensures SelectVoice("English") == "en-US-AriaNeural"
    ensures SelectVoice("Hindi (Neural)") == "en-US-AriaNeural"
  {
    assert "English" !in VoiceMap by {
      assert "English"[0] == 'E';
    }
    assert "Hindi (Neural)" !in VoiceMap by {
      assert |"Hindi (Neural)"| == 14;
    }
  }
}
