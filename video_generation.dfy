/** `generateVeoVideo`: a credential check, one submit call, then a polling loop that
    replaces the operation with a fresh status until it is done. */
module VideoGeneration {
  import opened Outcomes
  import opened GenAI
  import opened InputNormalisation

  /** The remote calls the operation issues, in order. */
  datatype VideoCall =
    | SubmitVideo(prompt: string, imageBytes: string, mimeType: string)
    | FetchStatus

  /** A status that ends the loop: a done operation, or a call that throws. */
  predicate Settles(status: Outcome<Operation>)
  {
    status.Throws? || status.value.done
  }

  predicate HasSettled(statuses: seq<Outcome<Operation>>)
  {
    exists k :: 0 <= k < |statuses| && Settles(statuses[k])
  }

  /** Index of the first status that settles. */
  function FirstSettled(statuses: seq<Outcome<Operation>>): (n: nat)
    requires HasSettled(statuses)
    ensures n < |statuses| && Settles(statuses[n])
    ensures forall j :: 0 <= j < n ==> !Settles(statuses[j])
  {
    if Settles(statuses[0]) then 0
    else
      var k :| 0 <= k < |statuses| && Settles(statuses[k]);
      assert Settles(statuses[1..][k - 1]);
      1 + FirstSettled(statuses[1..])
  }

  const KeySeparator: string := "&key="

  /** `operation.response?.generatedVideos?.[0]?.video?.uri`. */
  function DownloadLink(op: Operation): (uri: Option<string>)
    ensures uri.Some? ==> op.response.Some? && op.response.value.generatedVideos.Some?
                          && op.response.value.generatedVideos.value != []
                          && op.response.value.generatedVideos.value[0].video.Some?
                          && uri == op.response.value.generatedVideos.value[0].video.value.uri
    ensures op.response.Some? && op.response.value.generatedVideos.Some?
            && op.response.value.generatedVideos.value != []
            && op.response.value.generatedVideos.value[0].video.Some?
            ==> uri == op.response.value.generatedVideos.value[0].video.value.uri
  {
    match op.response
    case Some(VideoResponse(Some(videos))) =>
      if |videos| > 0 && videos[0].video.Some? then videos[0].video.value.uri else None
    case _ => None
  }

  /** The returned link: the download link followed by the credential when the link is a
      non-empty string, null otherwise. */
  function VideoResult(op: Operation, apiKey: string): (r: Option<string>)
    ensures r.Some? <==> DownloadLink(op).Some? && DownloadLink(op).value != ""
    ensures r.Some? ==> var uri := DownloadLink(op).value;
                        |r.value| == |uri| + |KeySeparator| + |apiKey|
                        && r.value[..|uri|] == uri
                        && r.value[|uri|..|uri| + |KeySeparator|] == KeySeparator
                        && r.value[|uri| + |KeySeparator|..] == apiKey
  {
    match DownloadLink(op)
    case Some(uri) => if uri != "" then Some(uri + KeySeparator + apiKey) else None
    case None => None
  }

  /** The outcome once the status at index n has settled. */
  function SettledOutcome(status: Outcome<Operation>, apiKey: string): (r: Outcome<Option<string>>)
    ensures r.Throws? <==> status.Throws?
    ensures r.Throws? ==> r.error == status.error
    ensures r.Returns? ==>
              (r.value.Some? <==> DownloadLink(status.value).Some? && DownloadLink(status.value).value != "")
    ensures r.Returns? && r.value.Some? ==> r.value == VideoResult(status.value, apiKey)
  {
    match status
    case Throws(e) => Throws(e)
    case Returns(op) => Returns(VideoResult(op, apiKey))
  }

  /** `statuses` is what the remote side answers: the submit call first, then one entry
      per status fetch. The source polls without bound; the model is given a status
      sequence in which some entry settles. */
  method GenerateVeoVideo(prompt: string, imageBase64: string, hasSelectedApiKey: bool, apiKey: string,
                          submit: Outcome<Operation>, polls: seq<Outcome<Operation>>)
    returns (r: Outcome<Option<string>>, calls: seq<VideoCall>)
    requires hasSelectedApiKey ==> HasSettled([submit] + polls)
    ensures !hasSelectedApiKey ==> r == Throws(KeyResetRequired) && calls == []
    ensures hasSelectedApiKey ==>
              var n := FirstSettled([submit] + polls);
              && |calls| == n + 1
              && calls[0] == SubmitVideo(prompt, VeoPayload(imageBase64), MimeType(imageBase64))
              && (forall j :: 1 <= j <= n ==> calls[j] == FetchStatus)
              && r == SettledOutcome(([submit] + polls)[n], apiKey)
  {
    if !hasSelectedApiKey {
      return Throws(KeyResetRequired), [];
    }
    ghost var statuses := [submit] + polls;
    ghost var n := FirstSettled(statuses);
    calls := [SubmitVideo(prompt, VeoPayload(imageBase64), MimeType(imageBase64))];
    if submit.Throws? {
      return Throws(submit.error), calls;
    }
    var operation := submit.value;
    var k := 0;
    while !operation.done
      invariant 0 <= k <= n
      invariant statuses[k] == Returns(operation)
      invariant |calls| == k + 1 && calls[0] == SubmitVideo(prompt, VeoPayload(imageBase64), MimeType(imageBase64))
      invariant forall j :: 1 <= j <= k ==> calls[j] == FetchStatus
      decreases n - k
    {
      calls := calls + [FetchStatus];
      var status := polls[k];
      k := k + 1;
      assert statuses[k] == status;
      if status.Throws? {
        return Throws(status.error), calls;
      }
      operation := status.value;
    }
    r := Returns(VideoResult(operation, apiKey));
  }

  /** A status sequence with N not-done entries before a done one takes exactly N fetches. */
  lemma {:induction false} FetchCount(pending: seq<Operation>, last: Operation, rest: seq<Outcome<Operation>>)
    requires forall j :: 0 <= j < |pending| ==> !pending[j].done
    requires last.done
    ensures var statuses := seq(|pending|, j requires 0 <= j < |pending| => Returns(pending[j])) + [Returns(last)] + rest;
            HasSettled(statuses) && FirstSettled(statuses) == |pending|
  {
    var statuses := seq(|pending|, j requires 0 <= j < |pending| => Returns(pending[j])) + [Returns(last)] + rest;
    assert Settles(statuses[|pending|]);
  }
}
