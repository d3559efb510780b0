/** How the service layer turns a provider response into the value it hands back:
    the first inline image part, the first-part audio payload, the grounding
    citations and the text given to `JSON.parse`. */
module ResponseShaping {
  import opened Outcomes
  import opened GenAI

  /** Index of the first part, in order, that carries inline data. */
  function FirstInlineIndex(parts: seq<Part>): (r: Option<nat>)
    ensures r.Some? ==> r.value < |parts| && parts[r.value].Inline?
    ensures r.Some? ==> forall j :: 0 <= j < r.value ==> !parts[j].Inline?
    ensures r.None? <==> forall j :: 0 <= j < |parts| ==> !parts[j].Inline?
  {
    if |parts| == 0 then None
    else if parts[0].Inline? then Some(0)
    else match FirstInlineIndex(parts[1..])
      case None => None
      case Some(i) => Some(i + 1)
  }

  /** The data of the first inline part, if any. */
  function FirstInlineData(parts: seq<Part>): (d: Option<string>)
    ensures d.Some? <==> exists j :: 0 <= j < |parts| && parts[j].Inline?
  {
    match FirstInlineIndex(parts)
    case Some(i) => Some(parts[i].data)
    case None => None
  }

  /** The first inline part's data is what FirstInlineData returns, whatever follows it. */
  lemma FirstInlineDataAt(parts: seq<Part>, i: nat)
    requires i < |parts| && parts[i].Inline?
    requires forall j :: 0 <= j < i ==> !parts[j].Inline?
    ensures FirstInlineData(parts) == Some(parts[i].data)
  {
  }

  const ImageDataUriPrefix: string := "data:image/png;base64,"

  /** The data URI returned for an image payload. */
  function ImageDataUri(data: string): (uri: string)
    ensures |uri| == |ImageDataUriPrefix| + |data|
    ensures uri[..|ImageDataUriPrefix|] == ImageDataUriPrefix && uri[|ImageDataUriPrefix|..] == data
  {
    ImageDataUriPrefix + data
  }

  /** `candidates?.[0]?.content?.parts`: the parts of the first candidate, when every
      step of the chain is present. */
  function FirstCandidateParts(response: Response): (parts: Option<seq<Part>>)
    ensures parts.Some? ==> response.candidates.Some? && response.candidates.value != []
                            && response.candidates.value[0].content.Some?
                            && parts == response.candidates.value[0].content.value.parts
    ensures (response.candidates.None? || response.candidates.value == []
             || response.candidates.value[0].content.None?) ==> parts.None?
  {
    match response.candidates
    case Some(cs) =>
      if |cs| > 0 && cs[0].content.Some? then cs[0].content.value.parts else None
    case None => None
  }

  /** `candidates?.[0]?.content?.parts?.[0]?.inlineData?.data`: the speech payload is
      looked for in the FIRST part only. */
  function AudioPayload(response: Response): (d: Option<string>)
    ensures d.Some? <==> (var ps := FirstCandidateParts(response);
                          ps.Some? && |ps.value| > 0 && ps.value[0].Inline?)
    ensures d.Some? ==> d == FirstInlineData(FirstCandidateParts(response).value)
  {
    match FirstCandidateParts(response)
    case Some(parts) =>
      if |parts| > 0 && parts[0].Inline? then
        FirstInlineDataAt(parts, 0);
        Some(parts[0].data)
      else None
    case None => None
  }

  /** An inline part that is not first is not found by the speech extraction, though the
      image scan would find it. */
  lemma AudioIgnoresLaterParts(t: string, d: string, mime: string)
    ensures var r := Response(Some([Candidate(Some(Content(Some([Text(t), Inline(d, mime)]))), None)]), None);
            AudioPayload(r) == None && FirstInlineData(FirstCandidateParts(r).value) == Some(d)
  {
    var parts := [Text(t), Inline(d, mime)];
    FirstInlineDataAt(parts, 1);
  }

  /** `candidates?.[0]?.groundingMetadata?.groundingChunks || []`. */
  function GroundingSources(response: Response): (sources: seq<GroundingChunk>)
    ensures (response.candidates.None? || response.candidates.value == []) ==> sources == []
    ensures response.candidates.Some? && response.candidates.value != []
            && response.candidates.value[0].groundingMetadata.Some?
            && response.candidates.value[0].groundingMetadata.value.groundingChunks.Some?
            ==> sources == response.candidates.value[0].groundingMetadata.value.groundingChunks.value
    ensures response.candidates.Some? && response.candidates.value != []
            && (response.candidates.value[0].groundingMetadata.None?
                || response.candidates.value[0].groundingMetadata.value.groundingChunks.None?)
            ==> sources == []
  {
    match response.candidates
    case Some(cs) =>
      if |cs| > 0 && cs[0].groundingMetadata.Some? then
        match cs[0].groundingMetadata.value.groundingChunks
        case Some(chunks) => chunks
        case None => []
      else []
    case None => []
  }

  const EmptyJsonObject: string := "{}"

  /** `response.text || '{}'`: only an absent or empty text is replaced. */
  function JsonText(text: Option<string>): (t: string)
    ensures t != ""
    ensures text.Some? && text.value != "" ==> t == text.value
    ensures text.None? || text.value == "" ==> t == EmptyJsonObject
  {
    match text
    case Some(s) => if s != "" then s else EmptyJsonObject
    case None => EmptyJsonObject
  }
}
