/** Turning the outcome of the POST into the dictionary `send_request`
    returns, decided by substring tests on the declared content type. */
module ResponseClassifier {
  import opened Wire
  import opened Substring

  const JsonType := "application/json"
  const AudioType := "audio/"
  const UnexpectedPrefix := "Received unexpected content type: "
  const ErrorPrefix := "Error communicating with server: "

  /** What the transport reports for one POST. `Ok` is an answer whose
      status is not 4xx or 5xx, with its `content-type` header (if any), its
      raw body and the object its body parses to as JSON; `Err` is any
      failure of the request, a 4xx or 5xx status included, with the text
      of the exception. */
  datatype Outcome =
    | Ok(contentType: Option<string>, body: seq<Byte>, json: map<string, Value>)
    | Err(msg: string)

  /** The header value the client tests: a missing header reads as "". */
  function HeaderValue(o: Outcome): string
    requires o.Ok?
  {
    if o.contentType.Some? then o.contentType.value else ""
  }

  /** The result dictionary of `send_request` for a transport outcome. The
      JSON test comes first, so a content type that contains both
      "application/json" and "audio/" yields the parsed JSON. */
  function Classify(o: Outcome): (r: map<string, Value>)
    ensures o.Err? ==> r == map["response" := Str(ErrorPrefix + o.msg)]
    ensures o.Ok? && IsSubstring(HeaderValue(o), JsonType) ==> r == o.json
    ensures o.Ok? && !IsSubstring(HeaderValue(o), JsonType) && IsSubstring(HeaderValue(o), AudioType) ==>
              r == map["audio" := Blob(o.body), "content_type" := Str(HeaderValue(o))]
    ensures o.Ok? && !IsSubstring(HeaderValue(o), JsonType) && !IsSubstring(HeaderValue(o), AudioType) ==>
              r == map["response" := Str(UnexpectedPrefix + HeaderValue(o))]
  {
    match o
    case Err(msg) => map["response" := Str(ErrorPrefix + msg)]
    case Ok(_, body, json) =>
      var ct := HeaderValue(o);
      if Contains(ct, JsonType) then json
      else if Contains(ct, AudioType) then map["audio" := Blob(body), "content_type" := Str(ct)]
      else map["response" := Str(UnexpectedPrefix + ct)]
  }

  /** Every outcome that is not a JSON answer yields exactly one of the keys
      "response" and "audio", so the client always has something to show. */
  lemma NonJsonHasOneKey(o: Outcome)
    requires o.Err? || !IsSubstring(HeaderValue(o), JsonType)
    ensures var r := Classify(o); ("response" in r) != ("audio" in r)
  {
  }

  /** The content-type tests are case-sensitive: an upper-case JSON type is
      reported as unexpected. */
  lemma UpperCaseJsonIsUnexpected(body: seq<Byte>, json: map<string, Value>)
    ensures Classify(Ok(Some("Application/JSON"), body, json))
         == map["response" := Str(UnexpectedPrefix + "Application/JSON")]
  {
    var ct := "Application/JSON";
    NeedleCharsOccur(ct, JsonType, 12);
    NeedleCharsOccur(ct, AudioType, 1);
    assert JsonType[12] !in ct;
    assert AudioType[1] !in ct;
    assert !IsSubstring(ct, JsonType);
    assert !IsSubstring(ct, AudioType);
  }

  /** A missing header is the empty content type, which matches neither test. */
  lemma MissingHeaderIsUnexpected(body: seq<Byte>, json: map<string, Value>)
    ensures Classify(Ok(None, body, json)) == map["response" := Str(UnexpectedPrefix)]
  {
    assert UnexpectedPrefix + "" == UnexpectedPrefix;
  }

  /** Parameters after the media type do not matter, and neither does the
      position of the substring. */
  lemma JsonWithParametersIsJson(body: seq<Byte>, json: map<string, Value>)
    ensures Classify(Ok(Some("application/json; charset=utf-8"), body, json)) == json
  {
    assert OccursAt("application/json; charset=utf-8", JsonType, 0);
  }
}
