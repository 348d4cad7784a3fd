/**
  The request sent to the speech service (synthesizeSpeech in
  scripts/generateAudio.js): the input is either plain text or an SSML
  document, and the voice and the audio encoding are fixed.
 */
module Synthesis {

  datatype Input = PlainText(text: string) | Ssml(ssml: string)

  datatype Request = Request(input: Input, languageCode: string, voiceName: string, audioEncoding: string)

  const LanguageCode := "en-GB"
  const VoiceName := "en-GB-Chirp3-HD-Zephyr"
  const AudioEncoding := "MP3"

  /** The string the service is asked to speak, whichever field carries it. */
  function Spoken(input: Input): string {
    match input
    case PlainText(t) => t
    case Ssml(t) => t
  }

  /** Builds the request for one clip; the text can be read back and the SSML flag picks the field. */
  function SynthesisRequest(text: string, useSsml: bool): (r: Request)
    ensures Spoken(r.input) == text
    ensures r.input.Ssml? <==> useSsml
    ensures r.languageCode == LanguageCode && r.voiceName == VoiceName && r.audioEncoding == AudioEncoding
  {
    Request(if useSsml then Ssml(text) else PlainText(text), LanguageCode, VoiceName, AudioEncoding)
  }

  /** Two clips get the same request exactly when they have the same text and the same SSML flag. */
  lemma SynthesisRequestInjective(t1: string, s1: bool, t2: string, s2: bool)
    ensures SynthesisRequest(t1, s1) == SynthesisRequest(t2, s2) <==> t1 == t2 && s1 == s2
  {
    if SynthesisRequest(t1, s1) == SynthesisRequest(t2, s2) {
      assert Spoken(SynthesisRequest(t1, s1).input) == Spoken(SynthesisRequest(t2, s2).input);
    }
  }
}
