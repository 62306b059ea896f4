/** The session configuration rules of `connect` and `getSystemInstruction`:
    the languages must differ, the base voice is chosen from the two voice
    categories, and each translation direction is spoken in the tone of the
    voice chosen for its target language. */
module Config {
  import opened Types

  const LanguageError: string := "Please select two different languages."
  const MediaFallbackError: string := "Failed to start audio session"
  const ConnectionError: string := "Connection error. Please try again."

  /** The prebuilt voice passed to the live session: "Puck" when both
      participants chose Boy, "Kore" in every other case. */
  function BaseVoiceName(voiceA: Voice, voiceB: Voice): (name: string)
    ensures name == "Puck" <==> voiceA == Boy && voiceB == Boy
    ensures name == "Kore" <==> !(voiceA == Boy && voiceB == Boy)
  {
    if voiceA.Boy? && voiceB.Boy? then "Puck" else "Kore"
  }

  /** The voice tone named in the instruction text. */
  function Tone(v: Voice): (tone: string)
    ensures tone == "feminine/female" <==> v == Girl
    ensures tone == "masculine/male" <==> v == Boy
  {
    if v.Girl? then "feminine/female" else "masculine/male"
  }

  /** One "if the source was `from`, translate it to `into` with `tone`" rule
      of the instruction text. */
  datatype Direction = Direction(from: string, into: string, tone: string)

  /** The two translation rules that the instruction text interpolates; the
      surrounding prose is fixed. */
  function SystemInstruction(l1: string, v1: Voice, l2: string, v2: Voice): (rules: seq<Direction>)
    ensures |rules| == 2
    ensures rules[0].from == l1 && rules[0].into == l2 && rules[1].from == l2 && rules[1].into == l1
    ensures rules[0].tone == Tone(v2) && rules[1].tone == Tone(v1)
  {
    [Direction(l1, l2, Tone(v2)), Direction(l2, l1, Tone(v1))]
  }

  /** What the live session is opened with: audio responses, transcription of
      both directions, the base voice and the instruction rules. */
  datatype LiveConfig = LiveConfig(voiceName: string, instruction: seq<Direction>)

  function SessionConfig(langA: string, voiceA: Voice, langB: string, voiceB: Voice): (cfg: LiveConfig)
    ensures cfg.voiceName == "Puck" <==> voiceA.Boy? && voiceB.Boy?
    ensures cfg.voiceName == "Kore" <==> !(voiceA.Boy? && voiceB.Boy?)
    ensures cfg.instruction == [Direction(langA, langB, Tone(voiceB)), Direction(langB, langA, Tone(voiceA))]
  {
    LiveConfig(BaseVoiceName(voiceA, voiceB), SystemInstruction(langA, voiceA, langB, voiceB))
  }

  /** The message `connect` shows when the microphone request fails with
      message `msg`: the message itself, or a fixed fallback when it is empty. */
  function MediaError(msg: string): (e: string)
    ensures msg != "" ==> e == msg
    ensures msg == "" ==> e == MediaFallbackError
  {
    if msg != "" then msg else MediaFallbackError
  }
}
