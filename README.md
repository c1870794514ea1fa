# Chat client request/response mediation, modelled in Dafny

The page `app.py` of this chat client lets a user send a text or an audio
message to a remote assistant service, and keeps the conversation as a list
of `{role, type, content}` entries in the session state. This project
models the mediation layer of that page:

- **Request building** (`send_request`): the form fields `user_id` and
  optionally `text`, or a `file` attachment framed as `audio.wav` /
  `audio/wav`. Python truthiness decides, so an empty text counts as absent,
  and text wins over audio (`request.dfy`, module `RequestBuilder`).
- **Response classification** (`send_request`): the transport outcome
  becomes the result dictionary. The decision uses Python's `in` on the
  `content-type` header: first `application/json`, then `audio/`, else an
  "unexpected content type" message. Any request failure becomes an
  "Error communicating with server" message (`classify.dfy`, module
  `ResponseClassifier`). Python's `in` on strings is modelled as a
  recursive search proved equivalent to "occurs at some position"
  (`substring.dfy`, module `Substring`).
- **History folding** (`process_response` and the two send branches of
  `main`): the session's list only grows. A send appends the user entry,
  then at most one assistant entry (`history.dfy`, module `History`, with
  the class `Session` for `st.session_state`). Properties of runs of sends
  and the worked exchanges are in `conversation.dfy`, module
  `Conversation`.

Values are modelled by `wire.dfy` (module `Wire`). `Byte` is an octet.
`Value` holds what a result dictionary can contain: JSON values, plus the
raw bytes of an audio body.

The network call is an input. `Outcome.Ok(contentType, body, json)` is a
final answer whose status `raise_for_status` (app.py:22) accepts, that is
any status other than 4xx or 5xx, with its header (absent or present), its
body and the JSON object the body parses to. `Outcome.Err(msg)` is any
request failure, including a 4xx or 5xx status, which `raise_for_status`
turns into an exception. Each send method takes the outcome of the one
POST it makes and returns the request it posted, or `None` when it posts
nothing.

Facts about app.py that the model keeps:

- The content-type tests at app.py:26 and app.py:28 are case-sensitive
  substring tests. `Application/JSON` is reported as an unexpected content
  type (`UpperCaseJsonIsUnexpected`), and `application/json;
  charset=utf-8` counts as JSON (`JsonWithParametersIsJson`).
- A JSON answer with neither a `response` nor an `audio` key makes
  `process_response` (app.py:83-91) append nothing. Such a send grows the
  history by one entry only, and no message tells the user
  (`BareJsonAddsOnlyUser`, `AddsTwoIff`).
- A JSON answer with an `audio` key but neither a `response` nor a
  `content_type` key makes the lookup `response['content_type']` at
  app.py:90 raise `KeyError` before the append at app.py:91. The user
  entry is already in the history; no assistant entry follows, and the
  page run ends with the exception (`AudioJsonWithoutFormatRaises`). The
  send methods report this as `raised`. The history survives into the next
  page run, so later sends continue from it.
- An uploaded audio file is sent even when it is empty (app.py:69-79). The
  user entry is appended and the request then carries only `user_id`.
- History entries carry no audio format (app.py:76, app.py:91). The page
  always draws history audio as `audio/wav` (app.py:48).

## Model

| member | source | states |
|---|---|---|
| `Substring.Contains` | app.py:26-28 | Python's `needle in s` on strings is true exactly when `needle` occurs contiguously at some position of `s` |
| `Substring.NeedleCharsOccur` | app.py:26-28 | a string that contains the needle contains each of the needle's characters, so a string lacking one does not match the content-type test |
| `RequestBuilder.BuildRequest` | app.py:13-19 | `user_id` is always the given id; a `text` field exists exactly when the text is non-empty, and then there is no attachment; otherwise non-empty audio gives exactly one `file` attachment named `audio.wav` with MIME `audio/wav` and the audio bytes; with neither, only `user_id`; never both a text field and a file |
| `RequestBuilder.Intended` | app.py:16-19 | the intended message is text exactly when the text is non-empty, and audio exactly when the text is empty or absent and the audio is non-empty |
| `RequestBuilder.BuildRequestDelivers` | app.py:14-19 | a service reading any built request recovers the user id and exactly the intended message: text has priority over audio |
| `ResponseClassifier.Classify` | app.py:20-33 | failure gives `{response: "Error communicating with server: " + msg}`; a content type containing `application/json` gives the parsed JSON, even if it also contains `audio/`; otherwise one containing `audio/` gives `{audio: body, content_type: ct}` unchanged; anything else, a missing header read as `""` included, gives `{response: "Received unexpected content type: " + ct}`; total for every outcome |
| `ResponseClassifier.NonJsonHasOneKey` | app.py:28-33 | every outcome that is not a JSON answer yields exactly one of the keys `response` and `audio` |
| `ResponseClassifier.UpperCaseJsonIsUnexpected` | app.py:26-31 | the test is case-sensitive: `Application/JSON` is reported as an unexpected content type |
| `ResponseClassifier.MissingHeaderIsUnexpected` | app.py:24-31 | a missing `content-type` header is the empty string and yields the unexpected-type message with nothing after the colon |
| `ResponseClassifier.JsonWithParametersIsJson` | app.py:26-27 | `application/json; charset=utf-8` is treated as JSON |
| `History.AssistantEntries` | app.py:83-91 | `process_response` adds at most one entry, always an assistant entry; a text entry with the `response` value when that key is present; else an audio entry with the `audio` value when that key and `content_type` are present; nothing when `audio` is present without `content_type` (the `KeyError` case) or when neither key is present |
| `History.AfterTextSend` | app.py:52-63 | empty input leaves the history unchanged; otherwise earlier entries are kept, the user text entry with the original input comes next, and what follows is exactly the assistant entries `process_response` gives for the classified outcome, at most one and none in the `KeyError` case |
| `History.AfterAudioSend` | app.py:65-81 | without an uploaded file nothing changes; otherwise earlier entries are kept, the user audio entry with the uploaded bytes comes next, and what follows is exactly the assistant entries `process_response` gives for the classified outcome, at most one and none in the `KeyError` case |
| `History.Session.constructor` | app.py:39-40 | the session's message list starts empty |
| `History.Session.ProcessResponse` | app.py:83-91 | the list becomes the old list followed by the assistant entries for the result dictionary; `raised` is true exactly when `audio` is present without `response` and without `content_type`, and then nothing is appended |
| `History.Session.SendText` | app.py:52-63 | the list becomes `AfterTextSend` of the old list; no request is posted for empty input, and otherwise the posted request is the text request for the user id; `raised` is true exactly when the input is non-empty and the result dictionary makes `process_response` raise |
| `History.Session.SendAudio` | app.py:65-81 | the list becomes `AfterAudioSend` of the old list; no request is posted without a file, and otherwise the posted request is the audio request built from the file's bytes; `raised` is true exactly when a file was sent and the result dictionary makes `process_response` raise |
| `Conversation.RunGrowth` | app.py:52-91 | over any run of sends the earlier history stays a prefix; each accepted send adds one or two entries and each refused send adds none |
| `Conversation.AddsTwoIff` | app.py:52-91 | a send adds two entries exactly when it is accepted and its result dictionary has a `response` key, or an `audio` key together with a `content_type` key |
| `Conversation.NonJsonAddsTwo` | app.py:28-33 | an accepted send whose outcome is a failure or a non-JSON answer always adds exactly two entries and never raises |
| `Conversation.BareJsonAddsOnlyUser` | app.py:83-91 | for any history and any accepted text or audio send, a JSON answer with neither a `response` nor an `audio` key appends only the user entry and does not raise |
| `Conversation.AudioJsonWithoutFormatRaises` | app.py:88-91 | for any history and any accepted send, a JSON answer with `audio` but neither `response` nor `content_type` appends only the user entry and the page run raises |
| `Conversation.TextExchange` | app.py:52-61 | sending `hello` and getting JSON `{"response": "hi there"}` appends user text `hello`, then assistant text `hi there` |
| `Conversation.AudioExchange` | app.py:65-79 | for any history, any uploaded bytes, any body and any content type containing `audio/` but not `application/json`, the uploaded bytes become a user audio entry, then the body bytes, unchanged, an assistant audio entry |
| `Conversation.WavExchange` | app.py:28-29 | the same holds for the content type `audio/wav` |
| `Conversation.FailureExchange` | app.py:32-33 | for any history and any accepted text or audio send whose request fails, the user entry is appended and then an assistant text entry carrying "Error communicating with server: " and the error message |

## Left out

- Streamlit rendering and widgets are not modelled: the title, chat bubbles, markdown, audio players, the radio button, the file uploader, spinners, warnings and info boxes. Only the list appends they accompany are modelled. Replaying the history on each page run draws only, so it is left out too.
- `requests.post` and `raise_for_status` are not modelled. They are network I/O, so their result is the `Outcome` input. Any exception text is taken as given in `Err(msg)`.
- `response.json()` is not modelled. Parsing is a foreign library call, so the parsed object is part of `Ok`. A body that is not valid JSON, and JSON whose top level is not an object, are not modelled. JSON numbers are modelled as integers.
- `load_dotenv` and `os.getenv` are not modelled. They only choose the endpoint URL, so the endpoint does not appear in the model.
- `io.BytesIO` and `audio_file.read()` are not modelled. The model uses plain byte sequences.
- The send buttons are not modelled: each send method stands for one press. The user id comes from a text box and is taken as a parameter.
- Persistence and concurrency are not modelled. The history belongs to one single-threaded session.
- Errors raised while drawing are not modelled: `st.markdown` or `st.audio` refusing a value that came from a JSON answer. Only the `KeyError` of the `content_type` lookup at app.py:90 is modelled.
