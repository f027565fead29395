/**
 * The dispatcher of `litellm_utils/handler.py`: the preprocessing rule
 * computed from model metadata, the `provider/model` naming, one blocking
 * request (raw text or parsed JSON), one streaming request (only the
 * non-empty delta contents are passed on), and the model catalogue.
 *
 * The metadata lookup, the completion call, its streaming form and the
 * JSON decoder are the parameters gathered in `Backend`.
 */
module Handler {
  import opened Wrappers
  import opened Types
  import opened GeneratePayload
  import Utils

  /** What the metadata lookup reports: `supports_pdf_input`, `None` when the key is absent or null. */
  datatype ModelInfo = ModelInfo(supportsPdfInput: Option<bool>)

  /** What `request_ai` returns: the raw text, or the decoded JSON value. */
  datatype Response<J> = Raw(text: string) | Parsed(value: J)

  /** The collaborators of the dispatcher. */
  datatype Backend<J> = Backend(
    getModelInfo: string -> Option<ModelInfo>,                       // `get_model_info`; `None` when it raises
    complete: (string, seq<Message>, real) -> Result<string, Error>,   // `litellm.completion(...)` content
    streamComplete: (string, seq<Message>, real) -> FiniteStream<Option<string>>, // the streamed delta contents
    loads: string -> Result<J, string>                                 // `json.loads`
  )

  /** `f"{provider}/{model}"`: the provider, a slash, the model, each recoverable from the name. */
  function ModelName(provider: string, model: string): (n: string)
    ensures |n| == |provider| + 1 + |model|
    ensures n[..|provider|] == provider && n[|provider|] == '/' && n[|provider| + 1..] == model
  {
    var n := provider + "/" + model;
    assert n[..|provider|] == provider;
    assert n[|provider| + 1..] == model;
    n
  }

  /**
   * `requires_preprocessing`: false when the metadata lookup fails;
   * otherwise true exactly when the metadata does not say the model
   * accepts PDF input.
   */
  function RequiresPreprocessing(provider: string, model: string,
                                 getModelInfo: string -> Option<ModelInfo>): (r: bool)
    ensures getModelInfo(ModelName(provider, model)).None? ==> !r
    ensures getModelInfo(ModelName(provider, model)).Some? ==>
              (r <==> getModelInfo(ModelName(provider, model)).value.supportsPdfInput != Some(true))
  {
    match getModelInfo(ModelName(provider, model))
    case None => false
    case Some(info) => !(info.supportsPdfInput.Some? && info.supportsPdfInput.value)
  }

  /**
   * The flag `request_ai` hands to the payload builder: the metadata can
   * switch preprocessing on but never off.
   */
  function RequestPreprocessFlag(requiresPreprocessing: bool, callerFlag: bool): (r: bool)
    ensures callerFlag ==> r
    ensures requiresPreprocessing ==> r
    ensures r ==> requiresPreprocessing || callerFlag
  {
    requiresPreprocessing || callerFlag
  }

  /**
   * The flag `stream_ai` hands to the payload builder. The source tests
   * `not requires_preprocessing(...)` here, the opposite of `request_ai`:
   * the metadata switches preprocessing on for models that accept files.
   */
  function StreamPreprocessFlag(requiresPreprocessing: bool, callerFlag: bool): (r: bool)
    ensures callerFlag ==> r
    ensures !requiresPreprocessing ==> r
    ensures r ==> !requiresPreprocessing || callerFlag
  {
    !requiresPreprocessing || callerFlag
  }

  /**
   * The two rules disagree whenever the caller does not ask for
   * preprocessing: a model that needs it gets it only from `request_ai`,
   * and a model that accepts files gets it only from `stream_ai`.
   */
  lemma StreamRuleIsInverted(requiresPreprocessing: bool)
    ensures RequestPreprocessFlag(requiresPreprocessing, false) == requiresPreprocessing
    ensures StreamPreprocessFlag(requiresPreprocessing, false) == !requiresPreprocessing
  {
  }

  /**
   * What one `request_ai` call returns or raises: the payload is built
   * with the request rule's flag and sent under `provider/model`; a
   * payload or completion error propagates; the content is returned as
   * is, or decoded when `jsonOutput` is set.
   */
  function RequestOutcome<J>(provider: string, model: string, systemPrompt: Option<string>,
                             userText: Option<string>, messages: seq<Message>, file: FileRef,
                             temperature: real, preprocess: bool, jsonOutput: bool,
                             env: Env, backend: Backend<J>): (r: Result<Response<J>, Error>)
    ensures var flag := RequestPreprocessFlag(RequiresPreprocessing(provider, model, backend.getModelInfo), preprocess);
            var payload := OpenAiPayload(userText, systemPrompt, file, flag, messages, env);
            && (payload.Failure? ==> r == Failure(payload.error))
            && (payload.Success? ==>
                 var reply := backend.complete(ModelName(provider, model), payload.value, temperature);
                 && (reply.Failure? ==> r == Failure(reply.error))
                 && (reply.Success? && !jsonOutput ==> r == Success(Raw(reply.value)))
                 && (reply.Success? && jsonOutput ==>
                      match Utils.ParseAiResponse(reply.value, backend.loads)
                      case Success(v) => r == Success(Parsed(v))
                      case Failure(e) => r == Failure(e)))
    ensures r.Success? ==> (r.value.Parsed? <==> jsonOutput)
  {
    var flag := RequestPreprocessFlag(RequiresPreprocessing(provider, model, backend.getModelInfo), preprocess);
    match OpenAiPayload(userText, systemPrompt, file, flag, messages, env)
    case Failure(e) => Failure(e)
    case Success(payload) =>
      match backend.complete(ModelName(provider, model), payload, temperature)
      case Failure(e) => Failure(e)
      case Success(text) =>
        if jsonOutput then
          match Utils.ParseAiResponse(text, backend.loads)
          case Success(v) => Success(Parsed(v))
          case Failure(e) => Failure(e)
        else Success(Raw(text))
  }

  /** `request_ai`, reassigning the flag and building the payload as the source does. */
  method RequestAi<J>(provider: string, model: string, systemPrompt: Option<string>,
                      userText: Option<string>, messages: seq<Message>, file: FileRef,
                      temperature: real, preprocess: bool, jsonOutput: bool,
                      env: Env, backend: Backend<J>) returns (r: Result<Response<J>, Error>)
    ensures r == RequestOutcome(provider, model, systemPrompt, userText, messages, file,
                                temperature, preprocess, jsonOutput, env, backend)
  {
    var modelName := ModelName(provider, model);
    var flag := preprocess;
    if RequiresPreprocessing(provider, model, backend.getModelInfo) {
      flag := true;
    }
    var payload := GenerateOpenAiPayload(userText, systemPrompt, file, flag, messages, env);
    match payload {
      case Failure(e) =>
        r := Failure(e);
      case Success(p) =>
        var reply := backend.complete(modelName, p, temperature);
        match reply {
          case Failure(e) =>
            r := Failure(e);
          case Success(text) =>
            if jsonOutput {
              match Utils.ParseAiResponse(text, backend.loads) {
                case Failure(e) => r := Failure(e);
                case Success(v) => r := Success(Parsed(v));
              }
            } else {
              r := Success(Raw(text));
            }
        }
    }
  }

  /** The delta contents `stream_ai` yields: the truthy ones, in order. */
  function TruthyContents(deltas: seq<Option<string>>): (r: seq<string>)
    ensures |r| <= |deltas|
    ensures forall i :: 0 <= i < |r| ==> r[i] != ""
  {
    if deltas == [] then []
    else
      var last := deltas[|deltas| - 1];
      TruthyContents(deltas[..|deltas| - 1]) + (if Truthy(last) then [last.value] else [])
  }

  /** Filtering a concatenation is concatenating the filtered parts: the kept deltas keep their order. */
  lemma {:induction false} TruthyContentsAppend(a: seq<Option<string>>, b: seq<Option<string>>)
    ensures TruthyContents(a + b) == TruthyContents(a) + TruthyContents(b)
    decreases |b|
  {
    if b == [] {
      assert a + b == a;
    } else {
      var b' := b[..|b| - 1];
      assert (a + b)[..|a + b| - 1] == a + b';
      TruthyContentsAppend(a, b');
    }
  }

  /** One delta is passed on exactly when it is a non-empty string. */
  lemma TruthyContentsSingle(d: Option<string>)
    ensures TruthyContents([d]) == if Truthy(d) then [d.value] else []
  {
    assert [d][..0] == [];
  }

  /**
   * A string is yielded exactly when some delta carries it: nothing is
   * invented and no non-empty delta is dropped.
   */
  lemma {:induction false} TruthyContentsMembers(deltas: seq<Option<string>>, x: string)
    ensures x in TruthyContents(deltas) <==> x != "" && Some(x) in deltas
    decreases |deltas|
  {
    if deltas != [] {
      var init := deltas[..|deltas| - 1];
      TruthyContentsMembers(init, x);
      assert deltas == init + [deltas[|deltas| - 1]];
    }
  }

  /**
   * What `stream_ai` yields: nothing but the payload error when the
   * payload cannot be built; otherwise the truthy delta contents of the
   * streaming completion under the stream rule's flag, ending as that
   * stream ends.
   */
  function StreamOutcome<J>(provider: string, model: string, systemPrompt: Option<string>,
                            userText: Option<string>, messages: seq<Message>, file: FileRef,
                            temperature: real, preprocess: bool,
                            env: Env, backend: Backend<J>): (r: FiniteStream<string>)
    ensures var flag := StreamPreprocessFlag(RequiresPreprocessing(provider, model, backend.getModelInfo), preprocess);
            var payload := OpenAiPayload(userText, systemPrompt, file, flag, messages, env);
            && (payload.Failure? ==> r == FiniteStream([], Some(payload.error)))
            && (payload.Success? ==>
                 var deltas := backend.streamComplete(ModelName(provider, model), payload.value, temperature);
                 r.failure == deltas.failure && r.items == TruthyContents(deltas.items))
  {
    var flag := StreamPreprocessFlag(RequiresPreprocessing(provider, model, backend.getModelInfo), preprocess);
    match OpenAiPayload(userText, systemPrompt, file, flag, messages, env)
    case Failure(e) => FiniteStream([], Some(e))
    case Success(payload) =>
      var deltas := backend.streamComplete(ModelName(provider, model), payload, temperature);
      FiniteStream(TruthyContents(deltas.items), deltas.failure)
  }

  /** `stream_ai`: the flag reassignment, then the loop that yields every truthy delta content. */
  method StreamAi<J>(provider: string, model: string, systemPrompt: Option<string>,
                     userText: Option<string>, messages: seq<Message>, file: FileRef,
                     temperature: real, preprocess: bool,
                     env: Env, backend: Backend<J>) returns (r: FiniteStream<string>)
    ensures r == StreamOutcome(provider, model, systemPrompt, userText, messages, file,
                               temperature, preprocess, env, backend)
  {
    var modelName := ModelName(provider, model);
    var flag := preprocess;
    if !RequiresPreprocessing(provider, model, backend.getModelInfo) {
      flag := true;
    }
    var payload := GenerateOpenAiPayload(userText, systemPrompt, file, flag, messages, env);
    if payload.Failure? {
      return FiniteStream([], Some(payload.error));
    }
    var deltas := backend.streamComplete(modelName, payload.value, temperature);
    var yielded: seq<string> := [];
    var i := 0;
    while i < |deltas.items|
      invariant 0 <= i <= |deltas.items|
      invariant yielded == TruthyContents(deltas.items[..i])
    {
      var content := deltas.items[i];
      if Truthy(content) {
        yielded := yielded + [content.value];
      }
      assert deltas.items[..i + 1][..i] == deltas.items[..i];
      i := i + 1;
    }
    assert deltas.items[..i] == deltas.items;
    return FiniteStream(yielded, deltas.failure);
  }

  /** `list_models`: the catalogue's list for a known provider, `[]` for an unknown one. */
  function ListModels(provider: string, modelsByProvider: map<string, seq<string>>): (r: seq<string>)
    ensures provider !in modelsByProvider ==> r == []
    ensures provider in modelsByProvider ==> r == modelsByProvider[provider]
  {
    if provider in modelsByProvider then modelsByProvider[provider] else []
  }
}
