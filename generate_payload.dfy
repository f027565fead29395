/**
 * The payload builder of `litellm_utils/generate_payload.py`: it resolves
 * the optional file argument, decides between one merged text block
 * (local preprocessing) and a text block followed by one attachment block,
 * and assembles the ordered message list sent to the completion call.
 *
 * The file system, the MIME table and the markdown extractor are not part
 * of the model; they are the parameters gathered in `Env`.
 */
module GeneratePayload {
  import opened Wrappers
  import opened Types

  /** What the file system says about a path: the three cases `_process_file` tells apart. */
  datatype PathStatus =
    | Missing                               // `not Path(p).exists()`
    | NotRegular                            // exists, `not Path(p).is_file()`
    | Regular(name: string, encoded: string) // `Path(p).name` and the base64 text of its bytes

  /** The collaborators of the payload builder. */
  datatype Env = Env(
    fs: string -> PathStatus,                          // the file system
    guessType: string -> Option<string>,               // `mimetypes.guess_type(filename)[0]`
    extract: (string, string) -> Result<string, string> // `extract_structured_md(filename, data)`
  )

  /** The `(filename, encoded_data)` pair of a resolved file. */
  datatype ResolvedFile = ResolvedFile(filename: string, encodedData: string)

  const MissingInputMessage := "Either filename or user_text must be provided."
  const DefaultMime := "application/octet-stream"
  const FileFooter := "\n<<<END FILE CONTENT>>>\n"

  /**
   * `_process_file`: `None` resolves to nothing, a record passes through
   * unchanged, and a path is looked up in the file system.
   */
  function ProcessFile(file: FileRef, fs: string -> PathStatus): (r: Result<Option<ResolvedFile>, Error>)
    ensures r.Success? && r.value.None? <==> file.NoFile?
    ensures file.Blob? ==> r == Success(Some(ResolvedFile(file.filename, file.encodedData)))
    ensures r.Failure? ==> file.PathRef? && !fs(file.path).Regular?
    ensures file.PathRef? && fs(file.path).Missing? ==>
              r == Failure(FileNotFoundError("File not found: " + file.path))
    ensures file.PathRef? && fs(file.path).NotRegular? ==>
              r == Failure(ValueError("Path is not a file: " + file.path))
    ensures file.PathRef? && fs(file.path).Regular? ==>
              r == Success(Some(ResolvedFile(fs(file.path).name, fs(file.path).encoded)))
  {
    match file
    case NoFile => Success(None)
    case Blob(name, data) => Success(Some(ResolvedFile(name, data)))
    case PathRef(p) =>
      match fs(p)
      case Missing => Failure(FileNotFoundError("File not found: " + p))
      case NotRegular =>
        Failure(ValueError("Path is not a file: " + p))
      case Regular(name, encoded) => Success(Some(ResolvedFile(name, encoded)))
  }

  /** The opening marker of an extracted file's text. */
  function FileHeader(filename: string): string {
    "\n<<<FILE CONTENT (" + filename + ")>>>\n"
  }

  /**
   * The wrapper `process_local_file` puts around the extracted markdown:
   * the header naming the file, the markdown, the footer. The markdown is
   * exactly what lies between the two markers.
   */
  function FileContentBlock(filename: string, markdown: string): (r: string)
    ensures StartsWith(r, FileHeader(filename)) && EndsWith(r, FileFooter)
    ensures |r| == |FileHeader(filename)| + |markdown| + |FileFooter|
    ensures r[|FileHeader(filename)|..|r| - |FileFooter|] == markdown
  {
    var r := FileHeader(filename) + markdown + FileFooter;
    assert r[..|FileHeader(filename)|] == FileHeader(filename);
    assert r[|r| - |FileFooter|..] == FileFooter;
    assert r[|FileHeader(filename)|..|r| - |FileFooter|] == markdown;
    r
  }

  /** `process_local_file`: extract the markdown and wrap it; an extractor failure propagates. */
  function ProcessLocalFile(filename: string, encodedData: string,
                            extract: (string, string) -> Result<string, string>): (r: Result<string, Error>)
    ensures extract(filename, encodedData).Failure? ==>
              r == Failure(ExtractionError(extract(filename, encodedData).error))
    ensures extract(filename, encodedData).Success? ==>
              r == Success(FileContentBlock(filename, extract(filename, encodedData).value))
  {
    match extract(filename, encodedData)
    case Failure(e) => Failure(ExtractionError(e))
    case Success(md) => Success(FileContentBlock(filename, md))
  }

  /** The MIME type used for an attachment: the guessed one, or the generic default when none is found. */
  function MimeFor(filename: string, guessType: string -> Option<string>): (m: string)
    ensures m != ""
    ensures Truthy(guessType(filename)) ==> m == guessType(filename).value
    ensures !Truthy(guessType(filename)) ==> m == DefaultMime
  {
    var guessed := guessType(filename);
    if Truthy(guessed) then guessed.value else DefaultMime
  }

  /** `f"data:{mime_type};base64,{encoded_data}"`. */
  function DataUrl(mime: string, data: string): (u: string)
    ensures StartsWith(u, "data:") && EndsWith(u, data)
    ensures |u| == |mime| + |data| + 13
    ensures u[5..5 + |mime|] == mime && u[5 + |mime|..13 + |mime|] == ";base64,"
  {
    "data:" + mime + ";base64," + data
  }

  /** The index of the first `c` in `s`, if any. */
  function IndexOf(s: string, c: char): (r: Option<nat>)
    ensures r.Some? ==> r.value < |s| && s[r.value] == c && c !in s[..r.value]
    ensures r.None? ==> c !in s
  {
    if s == [] then None
    else if s[0] == c then Some(0)
    else match IndexOf(s[1..], c)
      case None => None
      case Some(i) => assert s[..i + 1] == [s[0]] + s[1..][..i]; Some(i + 1)
  }

  /**
   * Splits a data URL back into its MIME type and payload: the MIME type
   * runs from after "data:" to the first ';', which must begin ";base64,".
   */
  function ParseDataUrl(url: string): (r: Option<(string, string)>)
    ensures r.Some? ==> url == DataUrl(r.value.0, r.value.1)
  {
    if !StartsWith(url, "data:") then None
    else
      var rest := url[5..];
      match IndexOf(rest, ';')
      case None => None
      case Some(i) =>
        if StartsWith(rest[i..], ";base64,") then
          assert url == "data:" + rest[..i] + ";base64," + rest[i + 8..];
          Some((rest[..i], rest[i + 8..]))
        else None
  }

  /** A data URL built from a MIME type without ';' decodes back to that MIME type and payload. */
  lemma DataUrlRoundTrip(mime: string, data: string)
    requires ';' !in mime
    ensures ParseDataUrl(DataUrl(mime, data)) == Some((mime, data))
  {
    var url := DataUrl(mime, data);
    assert StartsWith(url, "data:");
    var rest := url[5..];
    assert rest == mime + ";base64," + data;
    assert rest[..|mime|] == mime;
    assert rest[|mime|] == ';';
    assert IndexOf(rest, ';') == Some(|mime|);
    assert rest[|mime|..] == ";base64," + data;
    assert rest[|mime| + 8..] == data;
  }

  /**
   * The attachment block for a non-preprocessed file: `image_url` for an
   * `image/` MIME type, otherwise a `file` block carrying the file name.
   * Both carry the data URL of the file's MIME type and payload.
   */
  function Attachment(rf: ResolvedFile, mime: string): (b: ContentBlock)
    ensures b.ImageUrl? <==> StartsWith(mime, "image/")
    ensures b.ImageUrl? ==> b.url == DataUrl(mime, rf.encodedData)
    ensures !StartsWith(mime, "image/") ==> b == FileAttachment(rf.filename, DataUrl(mime, rf.encodedData))
  {
    var url := DataUrl(mime, rf.encodedData);
    if StartsWith(mime, "image/") then ImageUrl(url) else FileAttachment(rf.filename, url)
  }

  /** The text put in front of the extracted file content: `user_text + "\n"`, or nothing. */
  function MergedPrefix(userText: Option<string>): (p: string)
    ensures p != "" <==> Truthy(userText)
    ensures p != "" ==> EndsWith(p, "\n") && p[..|p| - 1] == userText.value
  {
    if Truthy(userText) then userText.value + "\n" else ""
  }

  /**
   * The content list `build_openai_user_content` returns (or the exception
   * it raises), stated case by case.
   */
  function UserContent(userText: Option<string>, file: FileRef, preprocess: bool, env: Env):
    (r: Result<seq<ContentBlock>, Error>)
    // missing input is rejected; with some input, a failure comes from resolving or extracting the file
    ensures !FileTruthy(file) && !Truthy(userText) ==> r == Failure(ValueError(MissingInputMessage))
    ensures (FileTruthy(file) || Truthy(userText)) && r.Failure? ==>
              FileTruthy(file) && (r.error.ExtractionError? || (ProcessFile(file, env.fs).Failure? && r.error == ProcessFile(file, env.fs).error))
    // no file: exactly one text block holding the user text
    ensures !FileTruthy(file) && Truthy(userText) ==> r == Success([Text(userText.value)])
    // a file that cannot be resolved raises the resolver's error
    ensures FileTruthy(file) && ProcessFile(file, env.fs).Failure? ==> r == Failure(ProcessFile(file, env.fs).error)
    // content is never empty, and a text block can only come first
    ensures r.Success? ==> |r.value| >= 1 && forall i :: 0 < i < |r.value| ==> !r.value[i].Text?
    // preprocessing: one merged text block, or the extractor's error
    ensures FileTruthy(file) && preprocess && ProcessFile(file, env.fs).Success? ==>
              var rf := ProcessFile(file, env.fs).value.value;
              var md := env.extract(rf.filename, rf.encodedData);
              (md.Failure? ==> r == Failure(ExtractionError(md.error))) &&
              (md.Success? ==> r == Success([Text(MergedPrefix(userText) + FileContentBlock(rf.filename, md.value))]))
    // no preprocessing: a text block exactly when there is user text, then one attachment last
    ensures FileTruthy(file) && !preprocess && ProcessFile(file, env.fs).Success? ==>
              var rf := ProcessFile(file, env.fs).value.value;
              && r.Success?
              && |r.value| == (if Truthy(userText) then 2 else 1)
              && (r.value[0].Text? <==> Truthy(userText))
              && (Truthy(userText) ==> r.value[0] == Text(userText.value))
              && r.value[|r.value| - 1] == Attachment(rf, MimeFor(rf.filename, env.guessType))
  {
    if !FileTruthy(file) && !Truthy(userText) then
      Failure(ValueError(MissingInputMessage))
    else if !FileTruthy(file) then
      Success([Text(userText.value)])
    else
      match ProcessFile(file, env.fs)
      case Failure(e) => Failure(e)
      case Success(resolved) =>
        var rf := resolved.value;
        if preprocess then
          match ProcessLocalFile(rf.filename, rf.encodedData, env.extract)
          case Failure(e) => Failure(e)
          case Success(wrapped) => Success([Text(MergedPrefix(userText) + wrapped)])
        else
          var lead := if Truthy(userText) then [Text(userText.value)] else [];
          Success(lead + [Attachment(rf, MimeFor(rf.filename, env.guessType))])
  }

  /**
   * `build_openai_user_content`, building `content` the way the source
   * does: reject missing input, append the text block, then the file's
   * merged text or its attachment.
   */
  method BuildOpenAiUserContent(userText: Option<string>, file: FileRef, preprocess: bool, env: Env)
    returns (r: Result<seq<ContentBlock>, Error>)
    ensures r == UserContent(userText, file, preprocess, env)
  {
    if !FileTruthy(file) && !Truthy(userText) {
      return Failure(ValueError(MissingInputMessage));
    }
    var content: seq<ContentBlock> := [];
    if Truthy(userText) && !FileTruthy(file) {
      content := content + [Text(userText.value)];
      assert content == [Text(userText.value)];
    }
    if FileTruthy(file) {
      var resolved := ProcessFile(file, env.fs);
      if resolved.Failure? {
        return Failure(resolved.error);
      }
      var rf := resolved.value.value;
      if preprocess {
        var wrapped := ProcessLocalFile(rf.filename, rf.encodedData, env.extract);
        if wrapped.Failure? {
          return Failure(wrapped.error);
        }
        content := content + [Text(MergedPrefix(userText) + wrapped.value)];
        assert content == [Text(MergedPrefix(userText) + wrapped.value)];
      } else {
        var mime := MimeFor(rf.filename, env.guessType);
        if Truthy(userText) {
          content := content + [Text(userText.value)];
        }
        content := content + [Attachment(rf, mime)];
        assert content == (if Truthy(userText) then [Text(userText.value)] else []) + [Attachment(rf, mime)];
      }
    }
    return Success(content);
  }

  /** Python truthiness of the `system_prompt` argument, counted as a number of leading messages. */
  function SystemCount(systemPrompt: Option<string>): nat {
    if Truthy(systemPrompt) then 1 else 0
  }

  /**
   * The message list `generate_openai_payload` returns: the system
   * message first exactly when the system prompt is non-empty, then the
   * prior messages verbatim and in order, then one user message holding
   * the built content. It fails exactly when building the content fails.
   */
  function OpenAiPayload(userText: Option<string>, systemPrompt: Option<string>, file: FileRef,
                         preprocess: bool, messages: seq<Message>, env: Env): (r: Result<seq<Message>, Error>)
    ensures UserContent(userText, file, preprocess, env).Failure? ==>
              r == Failure(UserContent(userText, file, preprocess, env).error)
    ensures r.Success? <==> UserContent(userText, file, preprocess, env).Success?
    ensures r.Success? ==>
              var n := SystemCount(systemPrompt);
              && |r.value| == n + |messages| + 1
              && (Truthy(systemPrompt) ==> r.value[0] == Message(System, Plain(systemPrompt.value)))
              && r.value[n..n + |messages|] == messages
              && r.value[|r.value| - 1] == Message(User, Blocks(UserContent(userText, file, preprocess, env).value))
  {
    var head := if Truthy(systemPrompt) then [Message(System, Plain(systemPrompt.value))] else [];
    match UserContent(userText, file, preprocess, env)
    case Failure(e) => Failure(e)
    case Success(content) =>
      var r := head + messages + [Message(User, Blocks(content))];
      assert r[|head|..|head| + |messages|] == messages;
      Success(r)
  }

  /**
   * `generate_openai_payload`, building `result` the way the source does:
   * append the system message, extend with the history, append the user
   * message.
   */
  method GenerateOpenAiPayload(userText: Option<string>, systemPrompt: Option<string>, file: FileRef,
                               preprocess: bool, messages: seq<Message>, env: Env)
    returns (r: Result<seq<Message>, Error>)
    ensures r == OpenAiPayload(userText, systemPrompt, file, preprocess, messages, env)
  {
    var result: seq<Message> := [];
    if Truthy(systemPrompt) {
      result := result + [Message(System, Plain(systemPrompt.value))];
    }
    if messages != [] {
      result := result + messages;
    }
    var content := BuildOpenAiUserContent(userText, file, preprocess, env);
    if content.Failure? {
      return Failure(content.error);
    }
    assert result == (if Truthy(systemPrompt) then [Message(System, Plain(systemPrompt.value))] else []) + messages;
    result := result + [Message(User, Blocks(content.value))];
    return Success(result);
  }

  /**
   * A well-formed payload has at most one system message, placed first:
   * when the history holds no system message, the only system message of
   * the payload is the leading one, present exactly when the prompt is
   * non-empty.
   */
  lemma PayloadSystemMessageOnlyFirst(userText: Option<string>, systemPrompt: Option<string>, file: FileRef,
                                      preprocess: bool, messages: seq<Message>, env: Env, i: nat)
    requires forall k :: 0 <= k < |messages| ==> messages[k].role != System
    requires OpenAiPayload(userText, systemPrompt, file, preprocess, messages, env).Success?
    requires i < |OpenAiPayload(userText, systemPrompt, file, preprocess, messages, env).value|
    ensures OpenAiPayload(userText, systemPrompt, file, preprocess, messages, env).value[i].role == System
            <==> i == 0 && Truthy(systemPrompt)
  {
    var p := OpenAiPayload(userText, systemPrompt, file, preprocess, messages, env).value;
    var n := SystemCount(systemPrompt);
    if i < n {
      assert p[i] == Message(System, Plain(systemPrompt.value));
    } else if i < n + |messages| {
      assert p[i] == p[n..n + |messages|][i - n];
      assert p[i] == messages[i - n];
    } else {
      assert i == |p| - 1;
      assert p[i].role == User;
    }
  }
}
