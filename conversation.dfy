/** Properties of whole conversations: what a run of sends does to the
    history, and the concrete exchanges the page is built for. */
module Conversation {
  import opened Wire
  import opened Substring
  import opened ResponseClassifier
  import opened History

  /** One press of a send button, with the outcome of the POST it makes. */
  datatype Send =
    | TextSend(userInput: string, outcome: Outcome)
    | AudioSend(upload: Option<seq<Byte>>, outcome: Outcome)

  function Step(h: seq<Message>, s: Send): seq<Message>
  {
    match s
    case TextSend(input, o) => AfterTextSend(h, input, o)
    case AudioSend(upload, o) => AfterAudioSend(h, upload, o)
  }

  /** The history after a run of sends, in order. */
  function Run(h: seq<Message>, sends: seq<Send>): seq<Message>
    decreases |sends|
  {
    if sends == [] then h else Run(Step(h, sends[0]), sends[1..])
  }

  /** A send that passes the page's guard and posts a request. */
  predicate Accepted(s: Send)
  {
    match s
    case TextSend(input, _) => input != ""
    case AudioSend(upload, _) => upload.Some?
  }

  /** The user entry an accepted send appends first. */
  function UserEntry(s: Send): Message
  {
    match s
    case TextSend(input, _) => Message(User, Text, Str(input))
    case AudioSend(upload, _) => Message(User, Audio, Blob(if upload.Some? then upload.value else []))
  }

  /** The page run of this send ends in the `KeyError` of `process_response`. */
  predicate Raises(s: Send)
  {
    Accepted(s) && RaisesKeyError(Classify(s.outcome))
  }

  function AcceptedCount(sends: seq<Send>): nat
    decreases |sends|
  {
    if sends == [] then 0 else (if Accepted(sends[0]) then 1 else 0) + AcceptedCount(sends[1..])
  }

  /** The history only grows: after any run of sends the earlier history is
      a prefix, each accepted send adds one or two entries and each refused
      send adds none. */
  lemma {:induction false} RunGrowth(h: seq<Message>, sends: seq<Send>)
    ensures var h' := Run(h, sends);
      |h| + AcceptedCount(sends) <= |h'| <= |h| + 2 * AcceptedCount(sends) && h'[..|h|] == h
    decreases |sends|
  {
    if sends != [] {
      var h1 := Step(h, sends[0]);
      RunGrowth(h1, sends[1..]);
      var h' := Run(h1, sends[1..]);
      assert h'[..|h|] == h'[..|h1|][..|h|];
    }
  }

  /** Every send adds exactly two entries precisely when it is accepted and
      its result dictionary names a "response", or an "audio" together with
      its "content_type"; any other accepted send leaves only the user entry. */
  lemma AddsTwoIff(h: seq<Message>, s: Send)
    ensures |Step(h, s)| == |h| + 2 <==>
      Accepted(s) && var r := Classify(s.outcome);
        "response" in r || ("audio" in r && "content_type" in r)
  {
  }

  /** Outcomes other than a JSON answer always produce an assistant entry. */
  lemma {:induction false} NonJsonAddsTwo(h: seq<Message>, s: Send)
    requires Accepted(s)
    requires s.outcome.Err? || !IsSubstring(HeaderValue(s.outcome), JsonType)
    ensures |Step(h, s)| == |h| + 2 && !Raises(s)
  {
    NonJsonHasOneKey(s.outcome);
    AddsTwoIff(h, s);
  }

  /** A JSON answer with neither a "response" nor an "audio" key: the send
      appends the user entry and nothing else, and the page goes on. */
  lemma BareJsonAddsOnlyUser(h: seq<Message>, s: Send)
    requires Accepted(s) && s.outcome.Ok? && IsSubstring(HeaderValue(s.outcome), JsonType)
    requires "response" !in s.outcome.json && "audio" !in s.outcome.json
    ensures Step(h, s) == h + [UserEntry(s)] && !Raises(s)
  {
  }

  /** A JSON answer with an "audio" key but no "response" and no
      "content_type" key: the user entry is appended, then the lookup of the
      format raises before any assistant entry is appended. */
  lemma AudioJsonWithoutFormatRaises(h: seq<Message>, s: Send)
    requires Accepted(s) && s.outcome.Ok? && IsSubstring(HeaderValue(s.outcome), JsonType)
    requires "response" !in s.outcome.json && "audio" in s.outcome.json && "content_type" !in s.outcome.json
    ensures Step(h, s) == h + [UserEntry(s)] && Raises(s)
  {
  }

  /** Text in, JSON `{"response": "hi there"}` back. */
  lemma TextExchange(h: seq<Message>, body: seq<Byte>)
    ensures AfterTextSend(h, "hello", Ok(Some("application/json"), body, map["response" := Str("hi there")]))
         == h + [Message(User, Text, Str("hello")), Message(Assistant, Text, Str("hi there"))]
  {
    assert OccursAt("application/json", JsonType, 0);
  }

  /** Audio in, an audio body back: the uploaded bytes become the user's
      audio entry and the body bytes, unchanged, the assistant's. */
  lemma AudioExchange(h: seq<Message>, sent: seq<Byte>, ct: string, body: seq<Byte>, json: map<string, Value>)
    requires IsSubstring(ct, AudioType) && !IsSubstring(ct, JsonType)
    ensures AfterAudioSend(h, Some(sent), Ok(Some(ct), body, json))
         == h + [Message(User, Audio, Blob(sent)), Message(Assistant, Audio, Blob(body))]
  {
    assert HeaderValue(Ok(Some(ct), body, json)) == ct;
  }

  /** The same for an `audio/wav` body. */
  lemma WavExchange(h: seq<Message>, sent: seq<Byte>, body: seq<Byte>, json: map<string, Value>)
    ensures AfterAudioSend(h, Some(sent), Ok(Some("audio/wav"), body, json))
         == h + [Message(User, Audio, Blob(sent)), Message(Assistant, Audio, Blob(body))]
  {
    assert OccursAt("audio/wav", AudioType, 0);
    NeedleCharsOccur("audio/wav", JsonType, 1);
    AudioExchange(h, sent, "audio/wav", body, json);
  }

  /** A transport failure, after a text or an audio send, is reported in
      the transcript as assistant text following the user entry. */
  lemma FailureExchange(h: seq<Message>, s: Send, msg: string)
    requires Accepted(s) && s.outcome == Err(msg)
    ensures Step(h, s) == h + [UserEntry(s), Message(Assistant, Text, Str(ErrorPrefix + msg))]
  {
  }
}
