/** Values that cross the boundary between the chat client and the assistant
    service: raw bytes, and the Python values that end up in the result
    dictionary of `send_request` and in the conversation history. */
module Wire {

  /** One octet of an audio upload or of a response body. */
  newtype Byte = x: int | 0 <= x < 256

  datatype Option<+T> = None | Some(value: T)

  /** A value held in a result dictionary: what `response.json()` can yield
      (JSON numbers are kept as integers), plus the raw `bytes` that the
      client stores for an audio response. */
  datatype Value =
    | Null
    | Bool(b: bool)
    | Num(n: int)
    | Str(s: string)
    | List(items: seq<Value>)
    | Object(fields: map<string, Value>)
    | Blob(bytes: seq<Byte>)
}
