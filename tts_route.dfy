/**
 * `POST /api/tts`: validate the text, default the voice, cap the text at
 * 4000 characters and hand it to the speech-synthesis service.
 */
module TtsRoute {
  import opened Js

  newtype Byte = b: int | 0 <= b < 256

  const MaxChars := 4000
  const DefaultVoice := "nova"
  const SpeechModel := "tts-1"
  const TextRequired := "Text is required"
  const TtsFailed := "TTS failed"

  /** The JSON body: unparsable, or its `text` and `voice` fields (None when absent). */
  datatype TtsBody = Unparsable(thrown: Thrown) | TtsBody(text: Option<string>, voice: Option<string>)

  /** What the route asks the speech service for. */
  datatype SpeechRequest = SpeechRequest(model: string, voice: string, input: string, speed: real)

  /** The speech service: the MP3 bytes for a request, or what it throws. */
  type Synthesizer = SpeechRequest -> Result<seq<Byte>>

  datatype TtsResponse =
    | Audio(mpeg: seq<Byte>, contentLength: nat)
    | JsonError(status: nat, error: string)

  function StatusOf(r: TtsResponse): nat {
    if r.Audio? then 200 else r.status
  }

  /** `text.slice(0, 4000)`: the first `MaxChars` characters. */
  function Truncate(text: string): (t: string)
    ensures |t| == if |text| < MaxChars then |text| else MaxChars
    ensures t <= text
    ensures |text| <= MaxChars ==> t == text
  {
    if |text| <= MaxChars then text else text[..MaxChars]
  }

  /** Destructuring default: an absent voice becomes "nova", a given one is kept. */
  function VoiceOf(voice: Option<string>): (v: string)
    ensures voice.None? ==> v == DefaultVoice
    ensures voice.Some? ==> v == voice.value
  {
    if voice.Some? then voice.value else DefaultVoice
  }

  /** The request sent for a body whose text is present. */
  function RequestFor(text: string, voice: Option<string>): SpeechRequest {
    SpeechRequest(SpeechModel, VoiceOf(voice), Truncate(text), 1.0)
  }

  function Post(body: TtsBody, synthesize: Synthesizer): (r: TtsResponse)
    ensures StatusOf(r) == 400 <==> body.TtsBody? && !Truthy(body.text)
    ensures StatusOf(r) == 400 ==> r.error == TextRequired
    ensures body.Unparsable? ==> r == JsonError(500, ErrorText(body.thrown, TtsFailed))
    ensures r.Audio? <==>
      body.TtsBody? && Truthy(body.text) && synthesize(RequestFor(body.text.value, body.voice)).Ok?
    ensures r.Audio? ==>
      r.mpeg == synthesize(RequestFor(body.text.value, body.voice)).value && r.contentLength == |r.mpeg|
    ensures body.TtsBody? && Truthy(body.text) && synthesize(RequestFor(body.text.value, body.voice)).Threw? ==>
      r == JsonError(500, ErrorText(synthesize(RequestFor(body.text.value, body.voice)).thrown, TtsFailed))
  {
    match body
    case Unparsable(t) => JsonError(500, ErrorText(t, TtsFailed))
    case TtsBody(text, voice) =>
      if !Truthy(text) then JsonError(400, TextRequired)
      else
        match synthesize(RequestFor(text.value, voice))
        case Ok(mpeg) => Audio(mpeg, |mpeg|)
        case Threw(t) => JsonError(500, ErrorText(t, TtsFailed))
  }
}
