# Generative media orchestration of the Kingdom Intelligence app, in Dafny

The app's service layer, `geminiService.ts`, wraps every feature in a call to a remote
generative service. This project models the decision logic around those calls and
proves what it does:

- **Input normalisation**: the resolution-tier clamp, the two data-URI payload rules,
  the MIME type taken from a `data:` header, and the truthiness guard on map coordinates.
- **Response shaping**: the first inline image part, the first-part speech payload, the
  grounding citations that default to none, and the `'{}'` default before `JSON.parse`.
- **Image generation with fallback**: one primary call and, only when the primary path
  throws, one fallback call. The primary error is rethrown when the fallback yields no
  image.
- **Video generation**: a credential check before any call, one submit call, then a
  polling loop that replaces the operation until it is done. The result is the download
  link with the credential appended.
- **Audio decoding**: the byte-fill loop of `decode`, the little-endian 16-bit view of
  the bytes, and the nested loops that split interleaved samples into one row per channel.

Every remote call is an input to the model. It is an `Outcome`: `Returns(response)` or
`Throws(error)`. The video status calls are a sequence of such outcomes. The
operations that issue several calls also return the list of calls they made. That list
is how the contracts state that "the fallback is never consulted" and "exactly N status
fetches".

Modules, one file each: `Outcomes` (Option, Outcome, Error), `Strings` (`indexOf` and
`split` on one character), `GenAI` (request and response shapes), `InputNormalisation`,
`ResponseShaping`, `ImageGeneration`, `VideoGeneration`, `AudioDecoding` and
`TextServices`.

Two behaviours of the code are easy to misread, and the model states them as the code
has them:

- **Image fallback.** The fallback model is called only when the primary path throws.
  A primary response with no `candidates` field, or with a first candidate whose content
  holds no image part, gives null at once, with no fallback. An empty `candidates` array,
  or a first candidate without `content`, throws a TypeError at
  `candidates[0].content.parts`, and that does trigger the fallback. When the fallback
  has no image, the primary error is rethrown: the call's own error, or that TypeError.
- **JSON default.** Only an absent or empty text becomes `'{}'`. Malformed non-empty text
  still makes `JSON.parse` throw.

## Model

| member | source | states |
|---|---|---|
| `Strings.IndexOf` | geminiService.ts:140 | the index found holds the character and no earlier position does; none is found exactly when the character does not occur, as `includes` reports |
| `Strings.Split` | geminiService.ts:140 | `split(',')` yields at least one piece, none containing the separator, and more than one piece exactly when the separator occurs |
| `Strings.Field` | geminiService.ts:223 | `split(',')[k]` is present exactly when k is below the number of pieces, and is comma-free |
| `Strings.JoinSplit` | geminiService.ts:140 | joining the pieces of a split with the separator gives back the input |
| `Strings.SplitJoin` | geminiService.ts:140 | splitting a join of separator-free pieces gives back the pieces |
| `InputNormalisation.ApiResolution` | geminiService.ts:85-89 | the tier sent is the most detailed tier the primary model accepts that does not exceed the request: "6K" and "8K" become "4K", while "1K", "2K" and "4K" are sent unchanged |
| `InputNormalisation.VeoPayload` | geminiService.ts:140 | without a comma the whole input is sent; with one, the comma-free second field |
| `InputNormalisation.VeoPayloadBetweenCommas` | geminiService.ts:140 | for `head,payload[,rest…]` the video payload is exactly the text between the first two commas |
| `InputNormalisation.AnalyzePayload` | geminiService.ts:223 | the analysis payload is the second field when it is present and non-empty, and the whole input otherwise |
| `InputNormalisation.PayloadRulesCompared` | geminiService.ts:223 | the analysis payload equals the video payload, except that an empty video payload becomes the whole input |
| `InputNormalisation.TrailingCommaExample` | geminiService.ts:223 | "abc," yields "" as video payload and "abc," as analysis payload |
| `InputNormalisation.MimeAt` | geminiService.ts:141 | a capture found at position p is a real match of /data:([^;]+);/ there |
| `InputNormalisation.MimeAtComplete` | geminiService.ts:141 | every match at p has exactly the capture MimeAt finds (the greedy run up to the first ';') |
| `InputNormalisation.FirstMatch` | geminiService.ts:141 | the match found is the leftmost one; no match means no position matches |
| `InputNormalisation.MimeType` | geminiService.ts:141 | the MIME type is never empty |
| `InputNormalisation.MimeTypeOfDataUri` | geminiService.ts:141 | `data:<mime>;…` with a non-empty, ';'-free mime yields that mime |
| `InputNormalisation.MimeTypeIsLeftmostCapture` | geminiService.ts:141 | with no match the type is "image/png"; otherwise it is the capture of the leftmost match |
| `InputNormalisation.RetrievalLatLng` | geminiService.ts:198-200 | the coordinate bias is attached exactly when both lat and lng are truthy (defined, not 0, not NaN), and then it carries them unchanged |
| `ResponseShaping.FirstInlineIndex` | geminiService.ts:106-108 | the index found holds an inline part and no earlier part is inline; none is found exactly when no part is inline |
| `ResponseShaping.FirstInlineData` | geminiService.ts:106-108 | image data is found exactly when some part is inline |
| `ResponseShaping.FirstInlineDataAt` | geminiService.ts:106-108 | the data found is that of the first inline part, whatever follows it |
| `ResponseShaping.ImageDataUri` | geminiService.ts:107 | the result is "data:image/png;base64," followed by the data |
| `ResponseShaping.AudioPayload` | geminiService.ts:73 | speech data is found exactly when the first part of the first candidate is inline, and it agrees with the first-inline scan |
| `ResponseShaping.AudioIgnoresLaterParts` | geminiService.ts:73 | an inline part behind a text part yields no speech, though the image scan finds it |
| `ResponseShaping.FirstCandidateParts` | geminiService.ts:73 | `candidates?.[0]?.content?.parts`: the parts of the first candidate when it and its content exist, and absent when there is no candidate list, it is empty, or the first candidate has no content |
| `ResponseShaping.GroundingSources` | geminiService.ts:186 | `candidates?.[0]?.groundingMetadata?.groundingChunks`, defaulting to `[]`: the chunks of the first candidate when they are present, and no sources when there are no candidates or the first candidate lacks grounding metadata or chunks |
| `ResponseShaping.JsonText` | geminiService.ts:28 | the text given to the parser is never empty, a non-empty text passes unchanged, and an absent or empty one becomes "{}" |
| `ImageGeneration.PrimaryPath` | geminiService.ts:92-109 | a throwing primary call gives that same error; a response throws exactly when it has a candidate list that is empty or whose first candidate lacks content, and then the error is a TypeError; no candidate list gives null; when the first candidate has parts, the value is the first inline part as a data URI, or null when none is inline; a non-null value is an image data URI |
| `ImageGeneration.FallbackImage` | geminiService.ts:113-122 | a throwing fallback call yields no image; a fallback response yields one exactly when its first candidate has parts and one of them is inline, and then it is the first inline part's data |
| `ImageGeneration.ImageOutcome` | geminiService.ts:88-128 | a primary path that does not throw decides the outcome; after a primary failure the outcome throws exactly when the fallback yields no image, and then with the primary path's error; otherwise it is the fallback image as a data URI; every non-null result is a data URI |
| `ImageGeneration.FindInline` | geminiService.ts:106-108 | the `for…of` scan with early return yields the first inline part's data |
| `ImageGeneration.GenerateHighQualityImage` | geminiService.ts:82-128 | the result is the outcome of the policy; the first call goes to the primary model with the boosted prompt and the clamped tier; a second call, to the fallback model, is made exactly when the primary path throws |
| `ImageGeneration.PrimaryResultStands` | geminiService.ts:105-109 | a primary response with a first candidate that has content decides the result (its first image or null), whatever the fallback would answer |
| `ImageGeneration.PrimaryFailureOutcome` | geminiService.ts:110-127 | after a primary failure the result is the fallback's first image or else the primary error, and never null |
| `ImageGeneration.EmptyCandidatesFallBack` | geminiService.ts:105 | an empty candidate list is a TypeError of the primary path; with no fallback image that TypeError is rethrown |
| `ImageGeneration.FallbackErrorSwallowed` | geminiService.ts:118-126 | a throwing fallback call gives the same outcome as any fallback response without an image: no candidate list, an empty one, a first candidate without content or parts, or parts without inline data |
| `ImageGeneration.ImageResultIsDataUri` | geminiService.ts:107 | every non-null image result is a data URI, whichever model produced it |
| `VideoGeneration.FirstSettled` | geminiService.ts:150-153 | the index found is the first status that is done or throws |
| `VideoGeneration.DownloadLink` | geminiService.ts:155 | `operation.response?.generatedVideos?.[0]?.video?.uri`: the uri of the first video when every step of the chain exists, and absent otherwise |
| `VideoGeneration.SettledOutcome` | geminiService.ts:150-156 | a settled status that throws gives that error; a done operation gives a link exactly when its download link is a non-empty string, and that link is the one VideoResult builds |
| `VideoGeneration.VideoResult` | geminiService.ts:155-156 | a link is returned exactly when the first video's uri is a non-empty string, and it is that uri, then "&key=", then the credential |
| `VideoGeneration.GenerateVeoVideo` | geminiService.ts:134-157 | without a selected credential it throws KEY_RESET_REQUIRED before any call; otherwise it makes one submit call with the payload and MIME type of the image, then exactly as many status fetches as there are pending statuses before the first settled one, and ends with that status's error or link |
| `VideoGeneration.FetchCount` | geminiService.ts:150-153 | N pending operations followed by a done one settle at index N |
| `AudioDecoding.Decode` | geminiService.ts:233-241 | byte i is code unit i modulo 256, so it equals the code unit whenever that is below 256 |
| `AudioDecoding.Int16At` | geminiService.ts:249 | two bytes give a signed 16-bit value |
| `AudioDecoding.Int16View` | geminiService.ts:249 | an odd byte count throws RangeError; otherwise there is one sample per byte pair, each in [-32768, 32768) |
| `AudioDecoding.ViewOfBytes` | geminiService.ts:249 | viewing the little-endian bytes of 16-bit samples gives the samples back |
| `AudioDecoding.BytesOfView` | geminiService.ts:249 | writing the viewed samples back as bytes gives the original bytes |
| `AudioDecoding.SampleIndexIsAffine` | geminiService.ts:256 | the sample read for channel c and frame i is at `i * numChannels + c` |
| `AudioDecoding.FrameCountSpansInput` | geminiService.ts:250 | with a whole number of frames, frameCount frames span the whole input |
| `AudioDecoding.WholeFrames` | geminiService.ts:250-251 | the frames of a buffer of length floor(samples / numChannels) start inside the input, and fewer than numChannels samples are left over |
| `AudioDecoding.EverySampleReadExactlyOnce` | geminiService.ts:253-258 | each (channel, frame) pair reads inside the input, every input position is read by some pair, and no two pairs read the same position |
| `AudioDecoding.Deinterleave` | geminiService.ts:253-258 | the buffer has numChannels rows of floor(samples / numChannels) values; row c, frame i holds `samples[i*numChannels + c] / 32768`; only a trailing partial frame, shorter than numChannels, is dropped, none with whole frames; and every sample of the whole frames lands in its row and frame |
| `AudioDecoding.FillChannel` | geminiService.ts:255-257 | the inner loop fills one channel row with its scaled samples, keeps the rows already filled, and leaves the later rows unchanged |
| `AudioDecoding.DeinterleavedCoversInput` | geminiService.ts:253-258 | a buffer that holds every (channel, frame) sample holds every sample of the whole frames |
| `AudioDecoding.ReinterleaveRoundTrip` | geminiService.ts:256 | multiplying the channel values by 32768 and interleaving them again gives back the 16-bit samples exactly |
| `AudioDecoding.DecodeAudioData` | geminiService.ts:243-260 | odd byte counts throw RangeError; otherwise `createBuffer` throws NotSupportedError exactly when there is no channel, more channels than the context allows, or fewer samples than one frame; else the buffer has floor(samples / numChannels) frames, holds each 16-bit sample divided by 32768 in its channel row, covers every sample of the whole frames, and every value lies in [-1, 1) |
| `TextServices.ParseReply` | geminiService.ts:28 | a call failure propagates, an absent or empty text is parsed as "{}", and any other text is parsed as it is |
| `TextServices.MalformedTextStillThrows` | geminiService.ts:28 | non-empty text that does not parse makes the operation throw the parse error |
| `TextServices.GenerateDailyDevotional` | geminiService.ts:8-29 | the devotional is `JSON.parse` of the text with the "{}" default, or the call's error |
| `TextServices.GeneratePrayerResponse` | geminiService.ts:31-57 | the prayer response is `JSON.parse` of the text with the "{}" default, or the call's error |
| `TextServices.TextToSpeech` | geminiService.ts:59-74 | the request wraps the text in the fixed preamble; speech data is present exactly when the first part of the first candidate is inline |
| `TextServices.AskWisdomAssistant` | geminiService.ts:163-188 | search grounding is attached exactly when `useSearch` (default true); the answer carries the response text, and its sources are exactly GroundingSources of the response |
| `TextServices.SearchMapGrounding` | geminiService.ts:193-212 | maps and search tools are always attached, and the coordinate bias exactly when both coordinates are truthy; the answer carries the text, and its grounding is exactly GroundingSources of the response |
| `TextServices.ZeroOrAbsentCoordinateOmitsBias` | geminiService.ts:198 | a zero or absent latitude or longitude leaves the request without a bias |
| `TextServices.AnalyzeVisual` | geminiService.ts:217-229 | the request is the inline payload (by the analysis rule) with the given MIME type, then the prompt; the answer is the response text |

## Left out

- The remote generative service (`generateContent`, `generateVideos`, `getVideosOperation`) is not modelled. Each call is an input outcome. Request contents are modelled only where a property needs them.
- The prompts and response schemas of the two JSON operations, and the wisdom assistant's system instruction, are not modelled. They only steer the remote model.
- The 10-second `setTimeout` between status fetches is left out, along with all notion of time.
- `GenerateVeoVideo` requires, when a credential is selected, a status sequence in which some entry is done or throws. The source polls forever otherwise. That endless run is not represented.
- `process.env.API_KEY` becomes the `apiKey` parameter. `window.aistudio.hasSelectedApiKey()` becomes the `hasSelectedApiKey` parameter.
- `console.warn` and `console.error` are left out, since they are logging only.
- `atob` is not modelled. `Decode` takes the already-decoded string as UTF-16 code units.
- `Decode`, `Deinterleave` and `DecodeAudioData` allocate a new array, but their contracts do not state that it is fresh.
- The `AudioContext` is not modelled. Its channel limit becomes the `maxChannels` parameter; the Web Audio API guarantees at least 32. `createBuffer` becomes a new numChannels × frameCount array of reals, with the fractional frame count truncated as the `unsigned long` conversion does. `getChannelData(c)` becomes row c.
- `DecodeAudioData` does not model `sampleRate`. So the NotSupportedError that `createBuffer` throws for a rate outside the supported range is not modelled.
- `DecodeAudioData` treats a channel count as a natural number. Negative or fractional channel counts are not modelled.
- `DecodeAudioData` does not model the last loop step for a partial last frame. That step reads past the whole frames and writes past the end of each channel row, and the typed array ignores the write. So it changes nothing.
- `DecodeAudioData` assumes a little-endian host for `Int16Array`. It also assumes the `Uint8Array` covers its whole buffer, as the one from `decode` does.
- Channel values are exact reals. Each int16 value divided by 32768 is exactly representable as a 32-bit float, so nothing is lost.
- JavaScript numbers are reals, plus the infinities and NaN. Floating-point precision is not modelled.
- `response.text` is taken as a field of the response. The SDK accessor that assembles it from the parts is not modelled.
- An inline part always carries its `data`. The SDK's optional `inlineData.data` is not modelled.
- An absent `operation.done` reads as `false`.
- Strings are sequences of Unicode characters rather than UTF-16 code units. The split on ',' and the match on "data:" and ';' are unaffected.
- `JSON.parse` is the parameter `parse`. The `Devotional` and `PrayerResponse` records of `types.ts` are not mirrored. The operations return whatever `parse` returns, as the source returns whatever `JSON.parse` returns.
- `App.tsx` is not part of this model. It holds the React views, the view switch and a newsletter POST to a third-party form relay.
- `types.ts` is not part of this model. It holds declarations only.
