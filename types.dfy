/**
 * The values that flow between the components of `litellm_utils`: the
 * wire shape of chat messages, the accepted forms of a file argument, the
 * exceptions the core raises, and a finite model of a stream.
 */
module Types {
  import opened Wrappers

  /** The `role` field of a chat message. */
  datatype Role = System | User | Assistant

  /** One typed element of a message's `content` list. */
  datatype ContentBlock =
    | Text(text: string)                               // {"type": "text", "text": ...}
    | ImageUrl(url: string)                            // {"type": "image_url", "image_url": {"url": ...}}
    | FileAttachment(filename: string, fileData: string) // {"type": "file", "file": {"filename": ..., "file_data": ...}}

  /** The `content` field of a message: `None`, a plain string, or a list of blocks. */
  datatype Content = Absent | Plain(text: string) | Blocks(blocks: seq<ContentBlock>)

  /** A chat message `{"role": ..., "content": ...}`. */
  datatype Message = Message(role: Role, content: Content)

  /**
   * The `file` argument of the payload builder: `None`, a path given as a
   * string, or an in-memory record `{"filename": ..., "encoded_data": ...}`.
   */
  datatype FileRef = NoFile | PathRef(path: string) | Blob(filename: string, encodedData: string)

  /**
   * The exceptions the core raises or lets through, each with its message.
   * `MalformedJson` is the `ValueError` that `parse_ai_response` raises; it
   * keeps the decoder's error text and the preview separately, and
   * `MalformedJsonMessage` renders the message the exception carries.
   */
  datatype Error =
    | ValueError(message: string)
    | FileNotFoundError(message: string)
    | ExtractionError(message: string)
    | CompletionError(message: string)
    | TypeError(message: string)
    | MalformedJson(decodeError: string, preview: string)

  /** The text of the `ValueError` that reports a response that is not JSON. */
  function MalformedJsonMessage(decodeError: string, preview: string): (m: string)
    ensures StartsWith(m, MalformedJsonHeader)
    ensures EndsWith(m, "\nResponse content:\n" + preview)
    ensures |m| == |MalformedJsonHeader| + |decodeError| + |"\nResponse content:\n" + preview|
    ensures m[|MalformedJsonHeader|..|MalformedJsonHeader| + |decodeError|] == decodeError
  {
    MalformedJsonHeader + decodeError + "\nResponse content:\n" + preview
  }

  const MalformedJsonHeader := "Failed to parse JSON from AI response.\nError: "

  /**
   * A finite stream: the items a producer yields, then either normal
   * exhaustion (`failure == None`) or the exception it raised after them.
   */
  datatype FiniteStream<T> = FiniteStream(items: seq<T>, failure: Option<Error>)

  /** Python truthiness of an optional string: present and non-empty. */
  predicate Truthy(s: Option<string>) {
    s.Some? && s.value != ""
  }

  /** Python truthiness of a file argument: `None` and the empty path are falsy. */
  predicate FileTruthy(file: FileRef) {
    match file
    case NoFile => false
    case PathRef(p) => p != ""
    case Blob(_, _) => true
  }

  /** `s.startswith(prefix)`. */
  predicate StartsWith(s: string, prefix: string) {
    |prefix| <= |s| && s[..|prefix|] == prefix
  }

  /** `s.endswith(suffix)`. */
  predicate EndsWith(s: string, suffix: string) {
    |suffix| <= |s| && s[|s| - |suffix|..] == suffix
  }
}
