/** The single-call operations: the two JSON documents, speech, the wisdom assistant,
    maps grounding and visual analysis. Each is a function from its inputs and the
    outcome of the remote call to the request it sends and the value it resolves to. */
module TextServices {
  import opened Outcomes
  import opened GenAI
  import opened InputNormalisation
  import opened ResponseShaping

  const TextModel: string := "gemini-3-flash-preview"
  const SpeechModel: string := "gemini-2.5-flash-preview-tts"
  const MapsModel: string := "gemini-2.5-flash"

  const SpeechPreamble: string := "Say with deep compassion and peace: "
  const MapsPromptPrefix: string := "Analyze the biblical, archaeological, and geographical significance of: "
  const MapsPromptSuffix: string := ". Provide active links to maps and historical data. Describe the location as it was in ancient times and as it is today."

  /** A request together with the outcome of the operation that sent it. */
  datatype Exchange<+A> = Exchange(request: Request, result: Outcome<A>)

  /** `{ text, sources }` / `{ text, grounding }`: an answer and its citations. */
  datatype GroundedAnswer = GroundedAnswer(text: Option<string>, sources: seq<GroundingChunk>)

  /** `JSON.parse(response.text || '{}')` applied to the outcome of the call, with
      `parse` standing for `JSON.parse`: a call failure propagates, an absent or empty
      text parses as "{}", and any other text is parsed as it is, so malformed
      non-empty text still throws. */
  function ParseReply<J>(call: Outcome<Response>, parse: string -> Outcome<J>): (r: Outcome<J>)
    ensures call.Throws? ==> r == Throws(call.error)
    ensures call.Returns? && (call.value.text.None? || call.value.text.value == "") ==> r == parse("{}")
    ensures call.Returns? && call.value.text.Some? && call.value.text.value != "" ==> r == parse(call.value.text.value)
  {
    match call
    case Throws(e) => Throws(e)
    case Returns(response) => parse(JsonText(response.text))
  }

  /** Non-empty text that does not parse makes the operation throw the parse error;
      the "{}" default never hides it. */
  lemma MalformedTextStillThrows<J>(response: Response, parse: string -> Outcome<J>)
    requires response.text.Some? && response.text.value != ""
    requires parse(response.text.value).Throws?
    ensures ParseReply(Returns(response), parse) == Throws(parse(response.text.value).error)
  {
  }

  /** `generateDailyDevotional`: the parsed devotional document. */
  function GenerateDailyDevotional<J>(call: Outcome<Response>, parse: string -> Outcome<J>): (r: Outcome<J>)
    ensures call.Throws? ==> r == Throws(call.error)
    ensures call.Returns? ==> r == parse(JsonText(call.value.text))
  {
    ParseReply(call, parse)
  }

  /** `generatePrayerResponse`: the parsed prayer response document. */
  function GeneratePrayerResponse<J>(call: Outcome<Response>, parse: string -> Outcome<J>): (r: Outcome<J>)
    ensures call.Throws? ==> r == Throws(call.error)
    ensures call.Returns? ==> r == parse(JsonText(call.value.text))
  {
    ParseReply(call, parse)
  }

  /** `textToSpeech`: the inline data of the first part of the first candidate, absent
      when the response has no such part. */
  function TextToSpeech(text: string, call: Outcome<Response>): (x: Exchange<Option<string>>)
    ensures x.request.contents == [Text(SpeechPreamble + text)]
    ensures call.Throws? ==> x.result == Throws(call.error)
    ensures call.Returns? ==> x.result.Returns?
    ensures call.Returns? ==>
              (x.result.value.Some? <==> (var parts := FirstCandidateParts(call.value);
                                          parts.Some? && |parts.value| > 0 && parts.value[0].Inline?))
    ensures call.Returns? && x.result.value.Some?
            ==> (FirstCandidateParts(call.value).Some?
                 && x.result.value == FirstInlineData(FirstCandidateParts(call.value).value))
  {
    var request := Request(SpeechModel, [Text(SpeechPreamble + text)], None, None);
    match call
    case Throws(e) => Exchange(request, Throws(e))
    case Returns(response) => Exchange(request, Returns(AudioPayload(response)))
  }

  /** `askWisdomAssistant`: search grounding is attached exactly when `useSearch`, and
      the citations of the first candidate default to none. */
  function AskWisdomAssistant(query: string, call: Outcome<Response>, useSearch: bool := true): (x: Exchange<GroundedAnswer>)
    ensures x.request.contents == [Text(query)]
    ensures x.request.tools.Some? <==> useSearch
    ensures x.request.tools.Some? ==> x.request.tools.value == [GoogleSearch]
    ensures call.Throws? ==> x.result == Throws(call.error)
    ensures call.Returns? ==> x.result.Returns? && x.result.value.text == call.value.text
    ensures call.Returns? && (call.value.candidates.None? || call.value.candidates.value == [])
            ==> x.result.value.sources == []
    ensures call.Returns? ==> x.result.value.sources == GroundingSources(call.value)
  {
    var request := Request(TextModel, [Text(query)], if useSearch then Some([GoogleSearch]) else None, None);
    match call
    case Throws(e) => Exchange(request, Throws(e))
    case Returns(response) => Exchange(request, Returns(GroundedAnswer(response.text, GroundingSources(response))))
  }

  /** `searchMapGrounding`: maps and search tools always, a retrieval bias only when both
      coordinates are truthy. */
  function SearchMapGrounding(location: string, lat: Option<JsNumber>, lng: Option<JsNumber>,
                              call: Outcome<Response>): (x: Exchange<GroundedAnswer>)
    ensures x.request.contents == [Text(MapsPromptPrefix + location + MapsPromptSuffix)]
    ensures x.request.tools == Some([GoogleMaps, GoogleSearch])
    ensures x.request.latLng.Some? <==> Truthy(lat) && Truthy(lng)
    ensures x.request.latLng.Some? ==> x.request.latLng.value == LatLng(lat.value, lng.value)
    ensures call.Throws? ==> x.result == Throws(call.error)
    ensures call.Returns? ==> x.result.Returns? && x.result.value.text == call.value.text
    ensures call.Returns? && (call.value.candidates.None? || call.value.candidates.value == [])
            ==> x.result.value.sources == []
    ensures call.Returns? ==> x.result.value.sources == GroundingSources(call.value)
  {
    var request := Request(MapsModel, [Text(MapsPromptPrefix + location + MapsPromptSuffix)],
                           Some([GoogleMaps, GoogleSearch]), RetrievalLatLng(lat, lng));
    match call
    case Throws(e) => Exchange(request, Throws(e))
    case Returns(response) => Exchange(request, Returns(GroundedAnswer(response.text, GroundingSources(response))))
  }

  /** A zero or absent coordinate on either side leaves the request unbiased. */
  lemma ZeroOrAbsentCoordinateOmitsBias(location: string, v: JsNumber, call: Outcome<Response>)
    ensures SearchMapGrounding(location, Some(Finite(0.0)), Some(v), call).request.latLng.None?
    ensures SearchMapGrounding(location, Some(v), Some(Finite(0.0)), call).request.latLng.None?
    ensures SearchMapGrounding(location, None, Some(v), call).request.latLng.None?
    ensures SearchMapGrounding(location, Some(v), None, call).request.latLng.None?
  {
  }

  /** `analyzeVisual`: the inline payload then the prompt; the answer is the response text. */
  function AnalyzeVisual(prompt: string, fileData: string, mimeType: string,
                         call: Outcome<Response>): (x: Exchange<Option<string>>)
    ensures |x.request.contents| == 2 && x.request.contents[1] == Text(prompt)
    ensures x.request.contents[0] == Inline(AnalyzePayload(fileData), mimeType)
    ensures call.Throws? ==> x.result == Throws(call.error)
    ensures call.Returns? ==> x.result == Returns(call.value.text)
  {
    var request := Request(TextModel, [Inline(AnalyzePayload(fileData), mimeType), Text(prompt)], None, None);
    match call
    case Throws(e) => Exchange(request, Throws(e))
    case Returns(response) => Exchange(request, Returns(response.text))
  }
}
