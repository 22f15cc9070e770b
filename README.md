# ElevenLabs speech node: a verified model of its logic

This project models the logic of the ElevenLabs text-to-speech and
speech-to-speech node for ComfyUI (`node.py`). It covers four parts:

- **Voice ids** (`VoiceId`). The voice options are rendered as
  `name (voice_id)`. `generate_speech` gets the id back with
  `voice.split("(")[-1].strip(")")`. The model defines Python's `split`,
  `lstrip`, `rstrip` and `strip` for one character, and proves the round trip
  between rendering and parsing.
- **Waveform shapes** (`TensorShape`). `ensure_3d_tensor` is a function on
  shapes: `unsqueeze(0)` puts a 1 in front, and `squeeze()` drops every
  dimension of size 1.
- **Metadata cache** (`MetadataCache`). The class attributes `voices_cache`,
  `models_cache` and the shared `last_fetch_time` live in a class,
  `ElevenLabsNode`. Its fetch methods change those attributes in place. Each
  method is proved equal to a pure step function (`FetchVoices`,
  `FetchModels`, `FetchOptions`), and the lemmas about several calls are
  stated over those functions. The clock reading `now` is a parameter. The
  outcome of the voice request is also a parameter: `RequestFailed`,
  `Listed(voices)`, or `Unreadable`.
- **Routing in `generate_speech`** (`SpeechRouting`). It picks
  speech-to-speech or text-to-speech, picks the text, and picks the waveform
  and sample rate returned for each way the request can end. The request's
  outcome is a parameter: `NetworkError`, or a status code with a body that
  decodes or does not.

Some facts about the code that the model keeps as they are:

- `fetch_elevenlabs_voices` overwrites the cache with
  `["error_fetching_voices"]` when the request fails, even if a good list was
  cached before.
- It fetches the voice list in one request, without following any page
  cursor.
- `generate_speech` always takes the voice id from the selected option;
  there is no field that overrides it.
- `ensure_3d_tensor` does not always return rank 3. `[2,2,2,2]` becomes
  `[1,2,2,2,2]` and `[1,1,1,1]` becomes `[1]` (`Ensure3DNotAlwaysRank3`).
- An option is parsed by stripping every `)` at both ends of the text after
  the last `(`, not by taking the text up to the final `)`.

The voice and model fetches share one timestamp, and `INPUT_TYPES` calls
them in a fixed order: voices first, then models. When a voice refresh fails,
the error option is cached and the timestamp is kept. If the model list is due
as well, the model refresh right after it renews the timestamp. This is always
the case on the first call and whenever the shared timestamp has expired. For
the next hour the error option is then served without a new voice request
(`FailedRefreshPinnedByModelRefresh`, `ExpiredFailureIsPinned`,
`ErrorOptionPinnedByModelRefresh`). So inside `INPUT_TYPES` a failed voice
refresh is not retried for an hour. A voice fetch called again on its own,
with no model fetch in between, refreshes again only when the cache had
expired by the clock (`FailedRefreshRetriedWhenExpired`). While the old
timestamp is still fresh, even that call serves the error option
(`FailedRefreshKeptUntilOldTimestampExpires`).

## Model

| member | source | states |
|---|---|---|
| `VoiceId.Split` | node.py:111 | `str.split` with a one-character separator always yields at least one piece |
| `VoiceId.SplitJoin` | node.py:111 | joining the pieces of a split with the separator gives back the string |
| `VoiceId.SplitPiecesLackSeparator` | node.py:111 | no piece of a split contains the separator |
| `VoiceId.SplitAtSeparator` | node.py:111 | splitting `a + sep + b` is splitting `a`, then `b` |
| `VoiceId.SplitWithoutSeparator` | node.py:111 | a string without the separator splits into itself alone |
| `VoiceId.LastPieceIsSuffixAfterLastSeparator` | node.py:111 | `split(sep)[-1]` is the suffix after the last `sep`: it has no `sep`, and it is the whole string exactly when there is a single piece; otherwise a `sep` precedes it |
| `VoiceId.LastPieceAfterSeparator` | node.py:111 | whatever precedes the last separator, `split(sep)[-1]` is exactly what follows it |
| `VoiceId.LastPieceWithoutSeparator` | node.py:111 | with no separator, `split(sep)[-1]` is the whole string |
| `VoiceId.StripLeading` | node.py:111 | `lstrip`: the result is no longer than the input and does not start with the stripped character |
| `VoiceId.StripTrailing` | node.py:111 | `rstrip`: the result is no longer than the input and does not end with the stripped character |
| `VoiceId.StripLeadingDropsOnly` | node.py:111 | `lstrip` keeps a suffix of the input, and every character it drops is the stripped one |
| `VoiceId.StripTrailingDropsOnly` | node.py:111 | `rstrip` keeps a prefix of the input, and every character it drops is the stripped one |
| `VoiceId.Strip` | node.py:111 | `strip`: the result is no longer than the input and neither starts nor ends with the stripped character |
| `VoiceId.StripIntroducesNothing` | node.py:111 | a character absent from the input is absent from the stripped result |
| `VoiceId.StripPadded` | node.py:111 | stripping removes any padding of leading and trailing characters from a string that is not itself padded |
| `VoiceId.LastPiece` | node.py:111 | `split(sep)[-1]` holds no `sep`; what it is exactly is stated by `LastPieceIsSuffixAfterLastSeparator`, `LastPieceAfterSeparator` and `LastPieceWithoutSeparator` |
| `VoiceId.ParseVoiceId` | node.py:111 | the parsed voice id never contains `(` and neither starts nor ends with `)` |
| `VoiceId.ParseVoiceIdOfSelector` | node.py:111 | only the text after the last `(` (or the whole string) reaches `strip(")")` |
| `VoiceId.ParseVoiceIdTakesSuffixAfterLastOpen` | node.py:111 | for a selector made of a prefix ending in `(` (or empty), any `)` padding and an unpadded suffix without `(`, the parsed id is that suffix |
| `VoiceId.LastPieceOfSelector` | node.py:111 | after a prefix that ends in `(` or is empty, `split("(")[-1]` is the rest |
| `VoiceId.FormatVoiceEntry` | node.py:77 | for an id without `(`, the text after the last `(` of the entry `name (id)` is `id)`, whatever `name` holds; the full round trip is `ParseFormattedEntry` |
| `VoiceId.ParseFormattedEntry` | node.py:77 | round trip: parsing `name + " (" + id + ")"` gives `id` back if and only if `id` has no `(` and neither starts nor ends with `)`, whatever `name` holds |
| `VoiceId.ParseNameWithParentheses` | node.py:111 | `"John (voice) Doe (abc123)"` parses to `"abc123"` |
| `VoiceId.ParseBareId` | node.py:111 | a selector without `(` parses to itself with its `)` stripped |
| `TensorShape.Unsqueeze` | node.py:97-101 | `unsqueeze(0)` puts one dimension of size 1 in front of the shape and keeps the element count |
| `TensorShape.SqueezeLeading` | node.py:124 | `squeeze(0)` drops the first dimension exactly when it has size 1 and otherwise leaves the shape alone; the element count is kept; its use on the encoder's input is `EncoderShapeOfLowRanks` |
| `TensorShape.Squeeze` | node.py:101 | `squeeze()` leaves no dimension of size 1 and never adds dimensions |
| `TensorShape.SqueezeAppend` | node.py:101 | squeezing distributes over concatenation, so the kept dimensions stay in order |
| `TensorShape.SqueezeWithoutUnitDimensions` | node.py:101 | a shape without a size-1 dimension is left unchanged by `squeeze()` |
| `TensorShape.SqueezeKeepsElements` | node.py:101 | `squeeze()` preserves the element count |
| `TensorShape.Ensure3D` | node.py:95-102 | `ensure_3d_tensor` preserves the element count in every branch; the result has rank 3 exactly when the input has rank 1 to 3, or has rank above 3 with exactly two dimensions other than 1 |
| `TensorShape.Ensure3DRank1` | node.py:96-97 | `[n]` becomes `[1, 1, n]` |
| `TensorShape.Ensure3DRank2` | node.py:98-99 | `[a, b]` becomes `[1, a, b]` |
| `TensorShape.Ensure3DKeepsRank0And3` | node.py:95-102 | rank-0 and rank-3 shapes are returned unchanged |
| `TensorShape.Ensure3DHighRank` | node.py:100-101 | above rank 3 the result is a 1 followed by the dimensions other than 1, in order, and its rank is one more than their number |
| `TensorShape.Ensure3DNotAlwaysRank3` | node.py:100-101 | `[2,2,2,2]` becomes `[1,2,2,2,2]` and `[1,1,1,1]` becomes `[1]` |
| `TensorShape.Ensure3DIdempotent` | node.py:95-102 | applying the rule twice equals applying it once if and only if the first result has neither rank 1 nor rank 2 |
| `TensorShape.EncoderShapeOfLowRanks` | node.py:122-124 | `ensure_3d_tensor(w).squeeze(0)` gives the WAV encoder `[1, n]` for `[n]` and `[a, b]` for `[a, b]` |
| `MetadataCache.VoiceOptions` | node.py:77 | one option per voice, in order, and each option parses back to its voice's id when that id is well formed |
| `MetadataCache.FetchVoices` | node.py:68-83 | the voice fetch never touches the models; an answered list is the one then cached; an escaping error leaves every attribute unchanged; the timestamp is kept or becomes `now`; which branch is taken is stated by `FreshVoicesServedFromCache`, `RefreshedVoicesParseBack`, `FailedRefreshOverwrites` and `UnreadableRaises`, one per branch |
| `MetadataCache.UnreadableRaises` | node.py:74-83 | a due voice refresh raises if and only if the listing cannot be read: a missing `voices`, `name` or `voice_id` fails at node.py:76-77 with an error that is not a `RequestException`. It then leaves every attribute unchanged |
| `MetadataCache.FetchModels` | node.py:87-92 | the model fetch never touches the voices; the returned list is the one then cached, and it is the fixed list unless another list was cached before (`ModelsAreFixed`) |
| `MetadataCache.FreshModelsServedFromCache` | node.py:87-92 | with a model list cached and at most 3600 s elapsed (the guard at node.py:89 is a strict `>`), the cached list is returned and nothing changes; in particular the shared timestamp is not renewed |
| `MetadataCache.FetchOptions` | node.py:20-21 | voices are fetched first, then models; the model fetch is skipped exactly when an error escapes the voice fetch, and then the attributes are unchanged; otherwise both answered lists are the cached ones |
| `MetadataCache.FreshVoicesServedFromCache` | node.py:68-83 | with a voice list cached and at most 3600 s elapsed (3600 itself still counts as fresh), the cached list is returned, nothing changes, and the provider's answer plays no part |
| `MetadataCache.RefreshedVoicesParseBack` | node.py:71-79 | a refresh with a readable listing caches and returns one entry per voice, in order; each entry parses back to its voice's id when the id is well formed; the timestamp becomes `now`; the models are untouched |
| `MetadataCache.FailedRefreshOverwrites` | node.py:70-83 | every due refresh whose request fails, with the list absent or expired, caches and answers exactly `["error_fetching_voices"]` and keeps the timestamp and the models |
| `MetadataCache.FailedRefreshKeptUntilOldTimestampExpires` | node.py:70-83 | since the timestamp is kept, the error option is then served without a voice request, whatever the provider would answer, until an hour after the old timestamp. This applies, for example, to a first fetch that fails while the clock reads under 3600 |
| `MetadataCache.FailedRefreshRetriedWhenExpired` | node.py:80-82 | when the cache had expired by the clock, a failed refresh caches the error option and keeps the timestamp, so a voice fetch called again on its own, with no model fetch in between, refreshes at any later time |
| `MetadataCache.FailedRefreshPinnedByModelRefresh` | node.py:20-92 | from any attributes where both lists are due, an `INPUT_TYPES` whose voice request fails caches the error option, and the model refresh sets the shared timestamp to its own clock reading. A second `INPUT_TYPES` within the hour after that returns the error option and the fixed models unchanged, whatever the provider answers |
| `MetadataCache.ExpiredFailureIsPinned` | node.py:20-92 | once the shared timestamp has expired, a failed voice refresh inside `INPUT_TYPES` is pinned in the same way for the next hour |
| `MetadataCache.ErrorOptionPinnedByModelRefresh` | node.py:68-92 | starting from the initial attributes, at any clock readings, a failed first voice fetch followed by the model fetch pins the error option for the next hour: a second pair of fetches returns it unchanged, whatever the provider answers |
| `MetadataCache.ModelsAreFixed` | node.py:87-92 | the model fetch always returns and caches the fixed three-model list, which never contains the voice error option |
| `MetadataCache.ModelRefreshRenewsVoices` | node.py:87-92 | a model refresh sets the shared timestamp to `now`, so a cached voice list, even the error option, is then served unchanged without a voice request until `now + 3600`, whatever the provider would answer |
| `MetadataCache.FetchesKeepValid` | node.py:68-92 | each fetch keeps the cache in its valid forms: voices absent, the error option, or the entries of some listing; models absent or the fixed list |
| `MetadataCache.ReplayKeepsValid` | node.py:68-92 | any sequence of voice and model fetches, at any clock readings, keeps the cache valid |
| `MetadataCache.ElevenLabsNode.constructor` | node.py:9-11 | the attributes start with no voices, no models and a timestamp of 0 |
| `MetadataCache.ElevenLabsNode.FetchElevenlabsVoices` | node.py:68-83 | the in-place voice fetch gives the state and answer of `FetchVoices`; it never touches the models; the timestamp is either kept or set to `now` |
| `MetadataCache.ElevenLabsNode.FetchElevenlabsModels` | node.py:87-92 | the in-place model fetch gives the state and list of `FetchModels`; it never touches the voices, and the returned list is the cached one |
| `MetadataCache.ElevenLabsNode.FetchInputOptions` | node.py:20-21 | `INPUT_TYPES` fetches voices first, then models; an error escaping the voice fetch skips the model fetch |
| `SpeechRouting.FinalText` | node.py:110 | the text sent is `input_text` whenever it is given, even empty, and `text` only when it is not; its use in the request is `RequestRouting` |
| `SpeechRouting.GenerateSpeech` | node.py:105-184 | speech-to-speech exactly when input audio is present; the voice id is well formed; a 200 that decodes returns audio at the decoded rate with the decoded element count, and every other outcome returns the `(1,1,1)` fallback; the details are `RequestRouting` and `OutcomeRouting` |
| `SpeechRouting.BuildRequest` | node.py:110-149 | speech-to-speech is used if and only if input audio is present, and the audio is uploaded in exactly that case; the voice id is always well formed |
| `SpeechRouting.HandleOutcome` | node.py:141-184 | a 200 response that decodes keeps the decoded element count; every other outcome returns a one-sample waveform |
| `SpeechRouting.RequestRouting` | node.py:110-149 | the mode depends only on whether input audio is present; text-to-speech sends `input_text` whenever it is given (even empty) and `text` otherwise; the voice id is the one parsed from the selector; the upload carries the input's sample rate and the shape `ensure_3d_tensor(w).squeeze(0)` of the input waveform (node.py:122-124) |
| `SpeechRouting.OutcomeRouting` | node.py:141-184 | a 200 response that decodes returns the decoded waveform made 3-D, at the decoded rate. Otherwise the `(1,1,1)` fallback is returned: at the input's rate when the speech-to-speech request could not be sent, and at 44100 in every other case |
| `SpeechRouting.DecodedAudioIsBatched` | node.py:168-180 | a decoded `(channels, frames)` waveform is returned as `(1, channels, frames)` with every sample kept |
| `SpeechRouting.RejectedKeyFallsBack` | node.py:182-184 | a 401 response, whatever its body, returns the `(1,1,1)` fallback at 44100 in both modes |
| `SpeechRouting.ErrorOptionSentAsVoiceId` | node.py:111 | selecting the error option `error_fetching_voices` sends the request to a voice with that id |

## Left out

- HTTP requests, URLs, headers, the API key, the model id and the voice settings (`stability`, `similarity_boost`, `style`, `use_speaker_boost`), and the JSON and multipart payloads (node.py:72-76, 113-165). The node forwards these to the provider and makes no decision on them. Only the mode, the voice id, the text and the uploaded audio's shape and rate are modelled, and the request's outcome is a parameter.
- WAV encoding and decoding and the `BytesIO` staging (node.py:123-125, 169-171). A decoded body is given by the shape and sample rate the decoder would report.
- Exceptions raised on the speech-to-speech path before the request is sent, for example from the encoder on a waveform whose leading dimension is not 1. They are not request errors, so they escape `generate_speech`. The model covers only the shape handed to the encoder.
- Rescaling integer samples to float by the dtype's maximum (node.py:177-178). This is floating-point arithmetic on the samples; the model keeps shapes and sample rates only.
- `time.time()` (node.py:69, 88). The clock reading is a parameter, and each fetch takes its own reading as in the source.
- The `INPUT_TYPES` schema dictionary, `IS_CHANGED` (which returns its own arguments as a tuple), `RETURN_TYPES`, `FUNCTION`, `CATEGORY`, the `print` logging and the node registration maps (node.py:19-64, 187-200). These are the host's plugin contract and carry no logic. Only the order of the two fetches in `INPUT_TYPES` is modelled.
- VoiceListing: a voice-list body that is not JSON is counted as a request error (`RequestFailed`). That holds for `requests` 2.27 and later, where `JSONDecodeError` is a `RequestException`. With older versions the `ValueError` escapes the fetch, which is the `Unreadable` case.
- Voice names and ids are modelled as strings. The f-string would render a non-string JSON value with `str()`.
- Concurrency: the source has none, and neither does the model.
