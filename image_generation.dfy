/** `generateHighQualityImage`: one call to the primary image model and, only when its
    path throws, one call to the fallback model; the primary error is rethrown when the
    fallback yields no image. */
module ImageGeneration {
  import opened Outcomes
  import opened GenAI
  import opened InputNormalisation
  import opened ResponseShaping

  datatype AspectRatio = Square | Landscape4x3 | Portrait3x4 | Wide16x9 | Tall9x16

  const QualityBoost: string := ", biblical masterpiece, hyper-photorealistic cinematic detail, epic lighting, sacred atmosphere, divine presence, extremely detailed textures, 8k resolution style, shot on 35mm lens, f/1.8, voluminous lighting, sharp focus"
  const FallbackSuffix: string := ", cinematic, realistic biblical art"

  /** The remote calls the operation issues, in order. */
  datatype ImageCall =
    | PrimaryImageCall(prompt: string, aspectRatio: AspectRatio, imageSize: Resolution)
    | FallbackImageCall(prompt: string)

  /** What the try block yields: the image (or null) from the first candidate, or the
      error it throws — the call's own, or a TypeError from `candidates[0].content.parts`
      when there is no first candidate or it has no content. */
  function PrimaryPath(primary: Outcome<Response>): (r: Outcome<Option<string>>)
    ensures primary.Throws? ==> r == Throws(primary.error)
    ensures primary.Returns? ==>
              (r.Throws? <==> primary.value.candidates.Some?
                              && (primary.value.candidates.value == []
                                  || primary.value.candidates.value[0].content.None?))
    ensures primary.Returns? && r.Throws? ==> r.error == TypeError
    ensures primary.Returns? && primary.value.candidates.None? ==> r == Returns(None)
    ensures primary.Returns? && FirstCandidateParts(primary.value).Some?
            ==> r == Returns(match FirstInlineData(FirstCandidateParts(primary.value).value)
                             case Some(d) => Some(ImageDataUri(d))
                             case None => None)
    ensures r.Returns? && r.value.Some? ==> exists d :: r.value == Some(ImageDataUri(d))
  {
    match primary
    case Throws(e) => Throws(e)
    case Returns(resp) =>
      match resp.candidates
      case None => Returns(None)
      case Some(cs) =>
        if |cs| == 0 || cs[0].content.None? then Throws(TypeError)
        else match cs[0].content.value.parts
          case None => Returns(None)
          case Some(parts) =>
            match FirstInlineData(parts)
            case Some(d) => Returns(Some(ImageDataUri(d)))
            case None => Returns(None)
  }

  /** The image data the fallback call yields, if any; a throwing fallback yields none. */
  function FallbackImage(fallback: Outcome<Response>): (d: Option<string>)
    ensures fallback.Throws? ==> d.None?
    ensures fallback.Returns? ==>
              (d.Some? <==> (var parts := FirstCandidateParts(fallback.value);
                             parts.Some? && exists j :: 0 <= j < |parts.value| && parts.value[j].Inline?))
    ensures d.Some? ==> d == FirstInlineData(FirstCandidateParts(fallback.value).value)
  {
    match fallback
    case Throws(_) => None
    case Returns(resp) =>
      match FirstCandidateParts(resp)
      case Some(parts) => FirstInlineData(parts)
      case None => None
  }

  /** The outcome of the whole operation. */
  function ImageOutcome(primary: Outcome<Response>, fallback: Outcome<Response>): (r: Outcome<Option<string>>)
    ensures PrimaryPath(primary).Returns? ==> r == PrimaryPath(primary)
    ensures PrimaryPath(primary).Throws? ==> (r.Throws? <==> FallbackImage(fallback).None?)
    ensures PrimaryPath(primary).Throws? && FallbackImage(fallback).Some?
            ==> r == Returns(Some(ImageDataUri(FallbackImage(fallback).value)))
    ensures r.Throws? ==> r == PrimaryPath(primary)
    ensures r.Returns? && r.value.Some? ==> exists d :: r.value == Some(ImageDataUri(d))
  {
    match PrimaryPath(primary)
    case Returns(v) => Returns(v)
    case Throws(e) =>
      match FallbackImage(fallback)
      case Some(d) => Returns(Some(ImageDataUri(d)))
      case None => Throws(e)
  }

  /** The `for … of parts` scan with early return. */
  method FindInline(parts: seq<Part>) returns (d: Option<string>)
    ensures d == FirstInlineData(parts)
  {
    for i := 0 to |parts|
      invariant forall j :: 0 <= j < i ==> !parts[j].Inline?
    {
      if parts[i].Inline? {
        FirstInlineDataAt(parts, i);
        return Some(parts[i].data);
      }
    }
    return None;
  }

  /** The operation: `primary` and `fallback` are the outcomes of the two remote calls;
      `calls` lists the calls actually issued. */
  method GenerateHighQualityImage(prompt: string, aspectRatio: AspectRatio,
                                  primary: Outcome<Response>, fallback: Outcome<Response>,
                                  resolution: Resolution := DefaultResolution)
    returns (r: Outcome<Option<string>>, calls: seq<ImageCall>)
    ensures r == ImageOutcome(primary, fallback)
    ensures |calls| == (if PrimaryPath(primary).Throws? then 2 else 1)
    ensures calls[0] == PrimaryImageCall(prompt + QualityBoost, aspectRatio, ApiResolution(resolution))
    ensures |calls| == 2 ==> calls[1] == FallbackImageCall(prompt + FallbackSuffix)
  {
    var apiRes := ApiResolution(resolution);
    calls := [PrimaryImageCall(prompt + QualityBoost, aspectRatio, apiRes)];
    var error: Error;
    match primary {
      case Throws(e) =>
        error := e;
      case Returns(response) =>
        if response.candidates.None? {
          return Returns(None), calls;
        }
        var candidates := response.candidates.value;
        if |candidates| == 0 || candidates[0].content.None? {
          error := TypeError;
        } else {
          var parts := candidates[0].content.value.parts;
          if parts.Some? {
            var d := FindInline(parts.value);
            if d.Some? {
              return Returns(Some(ImageDataUri(d.value))), calls;
            }
          }
          return Returns(None), calls;
        }
    }
    // catch (error): one attempt with the fallback model
    calls := calls + [FallbackImageCall(prompt + FallbackSuffix)];
    match fallback {
      case Returns(fallbackResponse) =>
        var parts := FirstCandidateParts(fallbackResponse);
        if parts.Some? {
          var d := FindInline(parts.value);
          if d.Some? {
            return Returns(Some(ImageDataUri(d.value))), calls;
          }
        }
      case Throws(_) =>
        // the fallback's own failure is logged and swallowed
    }
    r := Throws(error);
  }

  /** When the primary call returns a first candidate with content, its result stands:
      the first inline part as a data URI, or null; the fallback is not consulted. */
  lemma PrimaryResultStands(resp: Response, fallback: Outcome<Response>)
    requires resp.candidates.Some? && |resp.candidates.value| > 0
    requires resp.candidates.value[0].content.Some?
    ensures PrimaryPath(Returns(resp)).Returns?
    ensures ImageOutcome(Returns(resp), fallback)
            == match FirstCandidateParts(resp)
               case Some(parts) =>
                 (match FirstInlineData(parts)
                  case Some(d) => Returns(Some(ImageDataUri(d)))
                  case None => Returns(None))
               case None => Returns(None)
  {
  }

  /** When the primary path throws, the outcome is the fallback's first image if it has
      one and otherwise the primary error — never null and never the fallback's error. */
  lemma PrimaryFailureOutcome(primary: Outcome<Response>, fallback: Outcome<Response>)
    requires PrimaryPath(primary).Throws?
    ensures var out := ImageOutcome(primary, fallback);
            out == (if FallbackImage(fallback).Some? then Returns(Some(ImageDataUri(FallbackImage(fallback).value)))
                    else Throws(PrimaryPath(primary).error))
    ensures ImageOutcome(primary, fallback) != Returns(None)
  {
  }

  /** An empty candidate list is a failure of the primary path (TypeError), so it is
      followed by the fallback; with no fallback image the TypeError is rethrown. */
  lemma EmptyCandidatesFallBack(text: Option<string>, fallback: Outcome<Response>)
    ensures PrimaryPath(Returns(Response(Some([]), text))) == Throws(TypeError)
    ensures FallbackImage(fallback).None? ==> ImageOutcome(Returns(Response(Some([]), text)), fallback) == Throws(TypeError)
  {
  }

  /** A failing fallback call and any fallback response without an image (no candidate
      list, an empty one, a first candidate without content or parts, or parts without
      inline data) are indistinguishable to the caller. */
  lemma FallbackErrorSwallowed(primary: Outcome<Response>, e: Error, resp: Response)
    requires FallbackImage(Returns(resp)).None?
    ensures ImageOutcome(primary, Throws(e)) == ImageOutcome(primary, Returns(resp))
  {
  }

  /** Every successful non-null result is an image data URI, whichever model produced it
      (a corollary of ImageOutcome's contract, stated on its own for callers). */
  lemma ImageResultIsDataUri(primary: Outcome<Response>, fallback: Outcome<Response>)
    requires ImageOutcome(primary, fallback).Returns? && ImageOutcome(primary, fallback).value.Some?
    ensures exists d :: ImageOutcome(primary, fallback).value == Some(ImageDataUri(d))
  {
  }
}
