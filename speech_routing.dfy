/**
 * The decisions of `generate_speech`: which endpoint is used, with which text
 * or audio, and which waveform and sample rate are returned for each way the
 * request can end. The HTTP exchange and the audio codec are abstracted: the
 * request's outcome is a parameter, and a decoded response is given by the
 * shape and sample rate the decoder would report.
 */
module SpeechRouting {

  import opened Wrappers
  import VoiceId
  import opened TensorShape
  import MetadataCache

  /** The sample rate of the fallback waveform, unless a speech-to-speech request could not be sent. */
  const FallbackSampleRate: int := 44100

  /** The fallback waveform: one silent sample, shape (1, 1, 1). */
  const FallbackShape: Shape := [1, 1, 1]

  /** The optional `input_audio` of the node: its waveform's shape and its sample rate. */
  datatype InputAudio = InputAudio(shape: Shape, sampleRate: int)

  datatype Mode = SpeechToSpeech | TextToSpeech

  /** What is sent: the WAV-encoded input audio, or the text of a JSON body. */
  datatype Payload = AudioUpload(shape: Shape, sampleRate: int) | TextBody(text: string)

  /** The request `generate_speech` builds; the key, the model and the voice settings are forwarded as given. */
  datatype Request = Request(mode: Mode, voiceId: string, payload: Payload)

  /** What the decoder makes of a response body. */
  datatype Decoding = Decoded(shape: Shape, sampleRate: int) | Undecodable

  /** How the POST ended: no response, or a status code and its body. */
  datatype Outcome = NetworkError | Response(status: int, body: Decoding)

  /** The node's output. */
  datatype Audio = Audio(shape: Shape, sampleRate: int)

  /** `input_text if input_text is not None else text`. */
  function FinalText(text: string, inputText: Option<string>): (r: string)
    ensures inputText.Some? ==> r == inputText.value
    ensures inputText.None? ==> r == text
  {
    if inputText.Some? then inputText.value else text
  }

  /** The request for the given inputs. */
  function BuildRequest(text: string, voice: string, inputText: Option<string>, inputAudio: Option<InputAudio>): (req: Request)
    ensures req.mode == SpeechToSpeech <==> inputAudio.Some?
    ensures req.payload.AudioUpload? <==> inputAudio.Some?
    ensures VoiceId.WellFormedId(req.voiceId)
  {
    var voiceId := VoiceId.ParseVoiceId(voice);
    match inputAudio
    case Some(audio) =>
      Request(SpeechToSpeech, voiceId, AudioUpload(SqueezeLeading(Ensure3D(audio.shape)), audio.sampleRate))
    case None =>
      Request(TextToSpeech, voiceId, TextBody(FinalText(text, inputText)))
  }

  /** A response that `generate_speech` returns as audio: status 200 and a body that decodes. */
  predicate Succeeded(outcome: Outcome)
  {
    outcome.Response? && outcome.status == 200 && outcome.body.Decoded?
  }

  /** The node's output once the request, speech-to-speech exactly when there is input audio, ended as `outcome`. */
  function HandleOutcome(inputAudio: Option<InputAudio>, outcome: Outcome): (audio: Audio)
    ensures Succeeded(outcome) ==> NumElements(audio.shape) == NumElements(outcome.body.shape)
    ensures !Succeeded(outcome) ==> NumElements(audio.shape) == 1
  {
    match outcome
    case NetworkError =>
      (match inputAudio
       case Some(audio) => Audio(FallbackShape, audio.sampleRate)
       case None => Audio(FallbackShape, FallbackSampleRate))
    case Response(status, body) =>
      if status == 200 then
        match body
        case Decoded(shape, sampleRate) => Audio(Ensure3D(shape), sampleRate)
        case Undecodable => Audio(FallbackShape, FallbackSampleRate)
      else
        Audio(FallbackShape, FallbackSampleRate)
  }

  /** `generate_speech`: the request it sends and the audio it returns once the request has ended as `outcome`. */
  function GenerateSpeech(text: string, voice: string, inputText: Option<string>, inputAudio: Option<InputAudio>, outcome: Outcome): (r: (Request, Audio))
    ensures r.0.mode == SpeechToSpeech <==> inputAudio.Some?
    ensures VoiceId.WellFormedId(r.0.voiceId)
    ensures Succeeded(outcome) ==> r.1.sampleRate == outcome.body.sampleRate && NumElements(r.1.shape) == NumElements(outcome.body.shape)
    ensures !Succeeded(outcome) ==> r.1.shape == FallbackShape
  {
    var req := BuildRequest(text, voice, inputText, inputAudio);
    (req, HandleOutcome(inputAudio, outcome))
  }

  /**
   * Speech-to-speech is used exactly when input audio is present; text-to-speech
   * sends `input_text` whenever it is given, even empty, and `text` otherwise.
   * The voice id is the one parsed from the selected option either way.
   */
  lemma RequestRouting(text: string, voice: string, inputText: Option<string>, inputAudio: Option<InputAudio>, outcome: Outcome)
    ensures var (req, _) := GenerateSpeech(text, voice, inputText, inputAudio, outcome);
      && (req.mode == SpeechToSpeech <==> inputAudio.Some?)
      && req.voiceId == VoiceId.ParseVoiceId(voice)
      && (inputAudio.None? && inputText.Some? ==> req.payload == TextBody(inputText.value))
      && (inputAudio.None? && inputText.None? ==> req.payload == TextBody(text))
      && (inputAudio.Some? ==> req.payload.sampleRate == inputAudio.value.sampleRate)
      && (inputAudio.Some? ==> req.payload.shape == SqueezeLeading(Ensure3D(inputAudio.value.shape)))
  {
  }

  /**
   * The returned audio: the decoded waveform made 3-D, at the decoded rate,
   * after a 200 that decodes; otherwise the one-sample fallback, at the input's
   * rate when the speech-to-speech request could not be sent and at 44100 in
   * every other case.
   */
  lemma OutcomeRouting(text: string, voice: string, inputText: Option<string>, inputAudio: Option<InputAudio>, outcome: Outcome)
    ensures var (_, audio) := GenerateSpeech(text, voice, inputText, inputAudio, outcome);
      && (Succeeded(outcome) ==> audio == Audio(Ensure3D(outcome.body.shape), outcome.body.sampleRate))
      && (!Succeeded(outcome) ==> audio.shape == FallbackShape)
      && (outcome.NetworkError? && inputAudio.Some? ==> audio.sampleRate == inputAudio.value.sampleRate)
      && (!Succeeded(outcome) && !(outcome.NetworkError? && inputAudio.Some?) ==> audio.sampleRate == FallbackSampleRate)
  {
  }

  /**
   * The decoder gives (channels, frames); such a waveform is returned as
   * (1, channels, frames), of rank 3 and with every sample kept.
   */
  lemma DecodedAudioIsBatched(text: string, voice: string, inputText: Option<string>, inputAudio: Option<InputAudio>, channels: nat, frames: nat, rate: int)
    ensures var (_, audio) := GenerateSpeech(text, voice, inputText, inputAudio, Response(200, Decoded([channels, frames], rate)));
      && audio == Audio([1, channels, frames], rate)
      && NumElements(audio.shape) == channels * frames
  {
    var outcome := Response(200, Decoded([channels, frames], rate));
    assert GenerateSpeech(text, voice, inputText, inputAudio, outcome).1 == HandleOutcome(inputAudio, outcome);
    Ensure3DRank2(channels, frames);
  }

  /** A 401 with any body yields the fallback at 44100, in either mode. */
  lemma RejectedKeyFallsBack(text: string, voice: string, inputText: Option<string>, inputAudio: Option<InputAudio>, body: Decoding)
    ensures GenerateSpeech(text, voice, inputText, inputAudio, Response(401, body)).1 == Audio([1, 1, 1], 44100)
  {
  }

  /**
   * Selecting the error option that a failed voice fetch offers sends the
   * request to a voice whose id is the error text itself.
   */
  lemma ErrorOptionSentAsVoiceId(text: string, inputText: Option<string>, inputAudio: Option<InputAudio>, outcome: Outcome)
    ensures GenerateSpeech(text, MetadataCache.VoiceFetchError, inputText, inputAudio, outcome).0.voiceId
      == "error_fetching_voices"
  {
    var option := MetadataCache.VoiceFetchError;
    assert '(' !in option && VoiceId.Unpadded(option, ')');
    VoiceId.ParseBareId(option);
    VoiceId.StripPadded(option, ')', 0, 0);
    assert VoiceId.Repeat(')', 0) + option + VoiceId.Repeat(')', 0) == option;
  }
}
