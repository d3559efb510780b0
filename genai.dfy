/** The request and response shapes of the remote generative service, as far as the
    service layer looks into them. Every field read with `?.` is an Option. */
module GenAI {
  import opened Outcomes

  /** One content part: text, or inline binary data (base64) with its MIME type. */
  datatype Part = Text(text: string) | Inline(data: string, mimeType: string)

  datatype Content = Content(parts: Option<seq<Part>>)

  /** A citation the provider attaches to a grounded answer. */
  datatype GroundingChunk = GroundingChunk(uri: string, title: string)

  datatype GroundingMetadata = GroundingMetadata(groundingChunks: Option<seq<GroundingChunk>>)

  datatype Candidate = Candidate(content: Option<Content>, groundingMetadata: Option<GroundingMetadata>)

  /** A `generateContent` response; `text` is the SDK's text accessor, taken as given. */
  datatype Response = Response(candidates: Option<seq<Candidate>>, text: Option<string>)

  /** The retrieval tools a request can attach. */
  datatype Tool = GoogleSearch | GoogleMaps

  /** A JavaScript number: finite, infinite or NaN (precision is not modelled). */
  datatype JsNumber = Finite(value: real) | PositiveInfinity | NegativeInfinity | NaN

  datatype LatLng = LatLng(latitude: JsNumber, longitude: JsNumber)

  /** A `generateContent` request: model, content parts, `config.tools` and the
      `toolConfig.retrievalConfig.latLng` bias. */
  datatype Request = Request(model: string, contents: seq<Part>, tools: Option<seq<Tool>>, latLng: Option<LatLng>)

  /** Long-running video operation: `done` (an absent flag reads as false) and its result. */
  datatype Video = Video(uri: Option<string>)
  datatype GeneratedVideo = GeneratedVideo(video: Option<Video>)
  datatype VideoResponse = VideoResponse(generatedVideos: Option<seq<GeneratedVideo>>)
  datatype Operation = Operation(done: bool, response: Option<VideoResponse>)
}
