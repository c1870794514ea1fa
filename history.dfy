/** The conversation history kept in the session, and the two send actions
    of the page that append to it. */
module History {
  import opened Wire
  import opened RequestBuilder
  import opened ResponseClassifier

  datatype Role = User | Assistant
  datatype Kind = Text | Audio

  /** One `{role, type, content}` entry of the history list. */
  datatype Message = Message(role: Role, kind: Kind, content: Value)

  /** `process_response` reads `response['content_type']` to draw an audio
      answer before it appends the entry; a result with an "audio" key, no
      "response" key and no "content_type" key makes that lookup raise
      `KeyError`, which nothing on the page catches. Only a JSON answer can
      have this shape. */
  predicate RaisesKeyError(response: map<string, Value>)
  {
    "response" !in response && "audio" in response && "content_type" !in response
  }

  /** What `process_response` appends for a result dictionary: a text entry
      when it has a "response" key, otherwise an audio entry when it has an
      "audio" key and the lookup of its format succeeds, otherwise nothing. */
  function AssistantEntries(response: map<string, Value>): (r: seq<Message>)
    ensures |r| <= 1
    ensures |r| == 1 <==> "response" in response || ("audio" in response && "content_type" in response)
    ensures RaisesKeyError(response) ==> r == []
    ensures forall m | m in r :: m.role == Assistant
    ensures "response" in response ==> r[0] == Message(Assistant, Text, response["response"])
    ensures "response" !in response && "audio" in response && "content_type" in response ==>
              r[0] == Message(Assistant, Audio, response["audio"])
  {
    if "response" in response then [Message(Assistant, Text, response["response"])]
    else if "audio" in response && "content_type" in response then [Message(Assistant, Audio, response["audio"])]
    else []
  }

  /** The history after a press of "Send Text" with `userInput` in the text
      area, when the POST (if one is made) has outcome `o`. Empty input is
      refused with a warning; otherwise the user entry goes first, then at
      most one assistant entry (none when `process_response` raises). */
  function AfterTextSend(h: seq<Message>, userInput: string, o: Outcome): (h': seq<Message>)
    ensures userInput == "" ==> h' == h
    ensures userInput != "" ==>
              |h| + 1 <= |h'| <= |h| + 2 && h'[..|h|] == h &&
              h'[|h|] == Message(User, Text, Str(userInput)) &&
              forall k | |h| < k < |h'| :: h'[k].role == Assistant
    ensures userInput != "" ==> h'[|h| + 1..] == AssistantEntries(Classify(o))
  {
    if userInput == "" then h
    else h + [Message(User, Text, Str(userInput))] + AssistantEntries(Classify(o))
  }

  /** The history after a press of "Send Audio" with the bytes of the uploaded
      file, when the POST has outcome `o`. Without an uploaded file there is
      no button and nothing changes; an uploaded file is always sent, even
      when it is empty. The user entry goes first, then at most one assistant
      entry (none when `process_response` raises). */
  function AfterAudioSend(h: seq<Message>, upload: Option<seq<Byte>>, o: Outcome): (h': seq<Message>)
    ensures upload.None? ==> h' == h
    ensures upload.Some? ==>
              |h| + 1 <= |h'| <= |h| + 2 && h'[..|h|] == h &&
              h'[|h|] == Message(User, Audio, Blob(upload.value)) &&
              forall k | |h| < k < |h'| :: h'[k].role == Assistant
    ensures upload.Some? ==> h'[|h| + 1..] == AssistantEntries(Classify(o))
  {
    if upload.None? then h
    else h + [Message(User, Audio, Blob(upload.value))] + AssistantEntries(Classify(o))
  }

  /** `st.session_state`, holding the history list of one browser session. */
  class Session {
    var messages: seq<Message>

    /** The list is created empty the first time the page runs. */
    constructor ()
      ensures messages == []
    {
      messages := [];
    }

    /** `process_response`: append the assistant entry for a result
        dictionary. `raised` reports the `KeyError` of a missing
        "content_type", in which case nothing is appended. */
    method ProcessResponse(response: map<string, Value>) returns (raised: bool)
      modifies this
      ensures messages == old(messages) + AssistantEntries(response)
      ensures raised == RaisesKeyError(response)
    {
      raised := false;
      if "response" in response {
        messages := messages + [Message(Assistant, Text, response["response"])];
      } else if "audio" in response {
        if "content_type" in response {
          messages := messages + [Message(Assistant, Audio, response["audio"])];
        } else {
          raised := true;
        }
      }
    }

    /** The "Send Text" branch of the page. Returns the request posted, or
        `None` when the input was empty and nothing was posted, and whether
        the page run ended in the `KeyError` of `process_response`. */
    method SendText(userId: string, userInput: string, o: Outcome) returns (posted: Option<Request>, raised: bool)
      modifies this
      ensures messages == AfterTextSend(old(messages), userInput, o)
      ensures posted == if userInput == "" then None else Some(BuildRequest(userId, Some(userInput), None))
      ensures raised <==> userInput != "" && RaisesKeyError(Classify(o))
    {
      raised := false;
      if userInput != "" {
        messages := messages + [Message(User, Text, Str(userInput))];
        posted := Some(BuildRequest(userId, Some(userInput), None));
        var response := Classify(o);
        raised := ProcessResponse(response);
      } else {
        posted := None;
      }
    }

    /** The "Send Audio" branch of the page, for the uploaded file if any.
        Returns the request posted, or `None` when no file was uploaded, and
        whether the page run ended in the `KeyError` of `process_response`. */
    method SendAudio(userId: string, upload: Option<seq<Byte>>, o: Outcome) returns (posted: Option<Request>, raised: bool)
      modifies this
      ensures messages == AfterAudioSend(old(messages), upload, o)
      ensures posted == if upload.None? then None else Some(BuildRequest(userId, None, upload))
      ensures raised <==> upload.Some? && RaisesKeyError(Classify(o))
    {
      raised := false;
      if upload.Some? {
        var audioBytes := upload.value;
        messages := messages + [Message(User, Audio, Blob(audioBytes))];
        posted := Some(BuildRequest(userId, None, Some(audioBytes)));
        var response := Classify(o);
        raised := ProcessResponse(response);
      } else {
        posted := None;
      }
    }
  }
}
