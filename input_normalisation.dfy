/** How the service layer normalises its inputs before calling the remote service:
    the resolution tier clamp, data-URI payload and MIME extraction, and the
    coordinate guard of the maps request. */
module InputNormalisation {
  import opened Outcomes
  import opened Strings
  import opened GenAI

  // ---------------------------------------------------------------- resolution

  /** The resolution tiers a caller may request ("1K" … "8K"). */
  datatype Resolution = R1K | R2K | R4K | R6K | R8K

  /** The tier used when the caller gives none. */
  const DefaultResolution: Resolution := R1K

  /** Tiers in increasing order of detail. */
  function Rank(r: Resolution): nat
  {
    match r
    case R1K => 1
    case R2K => 2
    case R4K => 4
    case R6K => 6
    case R8K => 8
  }

  /** The tiers the primary image model accepts as `imageSize`. */
  predicate AcceptedByProModel(r: Resolution)
  {
    Rank(r) <= 4
  }

  /** The tier sent to the primary image model: the most detailed accepted tier
      that does not exceed the requested one. */
  function ApiResolution(r: Resolution): (a: Resolution)
    ensures AcceptedByProModel(a) && Rank(a) <= Rank(r)
    ensures forall t :: AcceptedByProModel(t) && Rank(t) <= Rank(r) ==> Rank(t) <= Rank(a)
    ensures (r == R6K || r == R8K) ==> a == R4K
    ensures AcceptedByProModel(r) ==> a == r
  {
    if r == R6K || r == R8K then R4K else r
  }

  // ---------------------------------------------------------------- payloads

  /** The base64 payload sent for the video source image: the second comma-separated
      field when the input contains a comma, the whole input otherwise. */
  function VeoPayload(imageBase64: string): (p: string)
    ensures ',' !in imageBase64 ==> p == imageBase64
    ensures ',' in imageBase64 ==> ',' !in p && Field(imageBase64, ',', 1) == Some(p)
  {
    if ',' in imageBase64 then Split(imageBase64, ',')[1] else imageBase64
  }

  /** The payload sent for visual analysis: the second comma-separated field unless it
      is absent or empty, in which case the whole input. */
  function AnalyzePayload(fileData: string): (p: string)
    ensures p == fileData || (p != "" && Field(fileData, ',', 1) == Some(p))
    ensures Field(fileData, ',', 1) in {None, Some("")} ==> p == fileData
    ensures Field(fileData, ',', 1).Some? && Field(fileData, ',', 1).value != ""
            ==> p == Field(fileData, ',', 1).value
  {
    match Field(fileData, ',', 1)
    case Some(f) => if f != "" then f else fileData
    case None => fileData
  }

  /** For a data URI `head,payload` or `head,payload,rest` with a comma-free head and
      payload, the video payload is exactly the text between the first two commas. */
  lemma {:induction false} VeoPayloadBetweenCommas(head: string, payload: string, rest: seq<string>)
    requires ',' !in head && ',' !in payload
    requires forall i :: 0 <= i < |rest| ==> ',' !in rest[i]
    ensures VeoPayload(Join([head, payload] + rest, ',')) == payload
  {
    var pieces := [head, payload] + rest;
    SplitJoin(pieces, ',');
    assert pieces[1] == payload;
  }

  /** The two payload rules differ exactly when the second field is present but empty:
      there analysis keeps the whole input while video sends the empty string. */
  lemma PayloadRulesCompared(s: string)
    ensures AnalyzePayload(s) == (if VeoPayload(s) == "" then s else VeoPayload(s))
  {
  }

  /** A concrete instance: "abc," yields "abc," for analysis but "" for video. */
  lemma TrailingCommaExample()
    ensures VeoPayload("abc,") == ""
    ensures AnalyzePayload("abc,") == "abc,"
  {
  }

  // ---------------------------------------------------------------- MIME type

  const DataScheme: string := "data:"
  const DefaultMimeType: string := "image/png"

  /** The pattern /data:([^;]+);/ matches at position p of s with capture m. */
  ghost predicate MatchesAt(s: string, p: nat, m: string)
  {
    p + |DataScheme| + |m| < |s|
    && s[p..p + |DataScheme|] == DataScheme
    && |m| > 0 && ';' !in m
    && s[p + |DataScheme|..p + |DataScheme| + |m|] == m
    && s[p + |DataScheme| + |m|] == ';'
  }

  /** The capture of the pattern when the match starts at p: after "data:", the greedy
      run of non-';' characters, which must be non-empty and end at a ';'. */
  function MimeAt(s: string, p: nat): (r: Option<string>)
    ensures r.Some? ==> MatchesAt(s, p, r.value)
  {
    if p + |DataScheme| <= |s| && s[p..p + |DataScheme|] == DataScheme then
      var start := p + |DataScheme|;
      match IndexOf(s[start..], ';')
      case Some(k) =>
        if k > 0 then
          assert s[start..][..k] == s[start..start + k];
          Some(s[start..start + k])
        else None
      case None => None
    else None
  }

  /** A match at p has only one possible capture, the one MimeAt finds. */
  lemma MimeAtComplete(s: string, p: nat, m: string)
    requires MatchesAt(s, p, m)
    ensures MimeAt(s, p) == Some(m)
  {
  }

  /** The leftmost match at or after position p, with its position (`String.prototype.match`
      without the global flag). */
  function FirstMatch(s: string, p: nat): (r: Option<(nat, string)>)
    requires p <= |s|
    ensures r.Some? ==> p <= r.value.0 < |s| && MatchesAt(s, r.value.0, r.value.1)
    ensures r.Some? ==> forall q, m :: p <= q < r.value.0 ==> !MatchesAt(s, q, m)
    ensures r.None? ==> forall q, m :: p <= q ==> !MatchesAt(s, q, m)
    decreases |s| - p
  {
    if p == |s| then None
    else match MimeAt(s, p)
      case Some(m) => Some((p, m))
      case None =>
        NoMatchAt(s, p);
        FirstMatch(s, p + 1)
  }

  lemma NoMatchAt(s: string, p: nat)
    requires MimeAt(s, p).None?
    ensures forall m :: !MatchesAt(s, p, m)
  {
  }

  /** The MIME type sent for the video source image: the capture of the leftmost match,
      or "image/png" when there is none. */
  function MimeType(imageBase64: string): (mime: string)
    ensures mime != ""
  {
    match FirstMatch(imageBase64, 0)
    case Some((_, m)) => m
    case None => DefaultMimeType
  }

  /** A data URI whose header names a MIME type yields that type. */
  lemma MimeTypeOfDataUri(mime: string, tail: string)
    requires mime != "" && ';' !in mime
    ensures MimeType(DataScheme + mime + ";" + tail) == mime
  {
    var s := DataScheme + mime + ";" + tail;
    assert s[..|DataScheme|] == DataScheme;
    assert s[|DataScheme|..|DataScheme| + |mime|] == mime;
    assert MatchesAt(s, 0, mime);
    MimeAtComplete(s, 0, mime);
  }

  /** Without any match, the default "image/png" is used; with one, the leftmost capture. */
  lemma MimeTypeIsLeftmostCapture(s: string)
    ensures (forall q, m :: !MatchesAt(s, q, m)) ==> MimeType(s) == DefaultMimeType
    ensures forall p, m :: MatchesAt(s, p, m) && (forall q, m' :: q < p ==> !MatchesAt(s, q, m'))
                           ==> MimeType(s) == m
  {
    forall p, m | MatchesAt(s, p, m) && (forall q, m' :: q < p ==> !MatchesAt(s, q, m'))
      ensures MimeType(s) == m
    {
      var r := FirstMatch(s, 0);
      assert r.Some?;
      assert r.value.0 == p;
      MimeAtComplete(s, p, m);
      MimeAtComplete(s, p, r.value.1);
    }
  }

  // ---------------------------------------------------------------- coordinates

  /** JavaScript truthiness of an optional number: absent, 0 and NaN are falsy. */
  predicate Truthy(n: Option<JsNumber>)
  {
    match n
    case None => false
    case Some(Finite(v)) => v != 0.0
    case Some(NaN) => false
    case Some(_) => true
  }

  /** The retrieval bias attached to the maps request: present only when both
      coordinates are truthy, and then carrying them unchanged. */
  function RetrievalLatLng(lat: Option<JsNumber>, lng: Option<JsNumber>): (r: Option<LatLng>)
    ensures r.Some? <==> Truthy(lat) && Truthy(lng)
    ensures r.Some? ==> r.value == LatLng(lat.value, lng.value)
  {
    if Truthy(lat) && Truthy(lng) then Some(LatLng(lat.value, lng.value)) else None
  }
}
