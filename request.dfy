/** Building the form that `send_request` posts: form fields in
    `data` and an optional file attachment in `files`. */
module RequestBuilder {
  import opened Wire

  const UserIdField := "user_id"
  const TextField := "text"
  const FileField := "file"
  const AudioFilename := "audio.wav"
  const AudioMime := "audio/wav"

  /** One entry of the `files` dictionary: (filename, content, MIME type). */
  datatype FilePart = FilePart(filename: string, content: seq<Byte>, mimeType: string)

  /** The arguments of the POST: form fields, and a files dictionary or `None`. */
  datatype Request = Request(data: map<string, string>, files: Option<map<string, FilePart>>)

  /** What the receiving service reads as the message carried by a request. */
  datatype Payload = TextPayload(text: string) | AudioPayload(audio: seq<Byte>) | NoPayload

  /** Python truthiness of the optional `text` argument: `None` and `""` are false. */
  predicate TextGiven(text: Option<string>)
  {
    text.Some? && text.value != ""
  }

  /** Python truthiness of the optional `audio` argument: `None` and `b""` are false. */
  predicate AudioGiven(audio: Option<seq<Byte>>)
  {
    audio.Some? && audio.value != []
  }

  /** The form and attachment `send_request` hands to the transport. */
  function BuildRequest(userId: string, text: Option<string>, audio: Option<seq<Byte>>): (r: Request)
    ensures UserIdField in r.data && r.data[UserIdField] == userId
    ensures r.data.Keys <= {UserIdField, TextField}
    ensures !(TextField in r.data && r.files.Some?)
    ensures TextField in r.data <==> TextGiven(text)
    ensures TextGiven(text) ==> r.data[TextField] == text.value && r.files == None
    ensures !TextGiven(text) && AudioGiven(audio) ==>
              r.files == Some(map[FileField := FilePart(AudioFilename, audio.value, AudioMime)])
    ensures !TextGiven(text) && !AudioGiven(audio) ==> r.data.Keys == {UserIdField} && r.files == None
  {
    var data := map[UserIdField := userId];
    if TextGiven(text) then
      Request(data[TextField := text.value], None)
    else if AudioGiven(audio) then
      Request(data, Some(map[FileField := FilePart(AudioFilename, audio.value, AudioMime)]))
    else
      Request(data, None)
  }

  /** The service's reading of a request: the text field if present, else
      the content of the `file` attachment, else nothing. */
  function RequestPayload(r: Request): Payload
  {
    if TextField in r.data then TextPayload(r.data[TextField])
    else if r.files.Some? && FileField in r.files.value then AudioPayload(r.files.value[FileField].content)
    else NoPayload
  }

  /** The message a caller means to send: text when it is non-empty, else
      audio when it is non-empty, else none. */
  function Intended(text: Option<string>, audio: Option<seq<Byte>>): (p: Payload)
    ensures p.TextPayload? <==> TextGiven(text)
    ensures p.AudioPayload? <==> !TextGiven(text) && AudioGiven(audio)
  {
    if TextGiven(text) then TextPayload(text.value)
    else if AudioGiven(audio) then AudioPayload(audio.value)
    else NoPayload
  }

  /** The service recovers the user id and exactly the intended message from
      every request `send_request` builds; text wins over audio. */
  lemma BuildRequestDelivers(userId: string, text: Option<string>, audio: Option<seq<Byte>>)
    ensures var r := BuildRequest(userId, text, audio);
      r.data[UserIdField] == userId && RequestPayload(r) == Intended(text, audio)
  {
  }
}
