# litellm_utils in Dafny

A Dafny model of the core of `litellm_utils`, a thin layer over LiteLLM's
chat-completion call. The model covers six parts:

- **Payload builder** (`litellm_utils/generate_payload.py`). It resolves an optional file argument and turns user text plus that file into content blocks:
  - one text block when there is no file;
  - one merged text block when the file's text is extracted locally;
  - an optional text block followed by one `image_url` or `file` attachment otherwise.

  It then assembles the message list: an optional system message, the prior history and the new user message.
- **Fenced-JSON parser** (`litellm_utils/utils.py`). It strips the reply and tries to decode it. If that fails, it retries on the body of the first "```json" (or "```") fence. A second failure raises with a preview of at most 500 characters.
- **Dispatcher** (`litellm_utils/handler.py`):
  - the preprocessing rule derived from model metadata;
  - the `provider/model` naming;
  - the blocking request, which returns raw text or decoded JSON;
  - the streaming request, which passes on only non-empty delta contents;
  - the model catalogue.
- **Priority selector** (`litellm_utils/priority.py`). It keeps `ModelPriority(model, budget, priority)` entries and a token counter per model. Selection takes the first model, in stable ascending priority order, that is still under budget.
- **Token-budget tracker** (`litellm_utils/_internal/token_tracker.py`). It holds the entries sorted once and a usage map. It selects, records usage, summarises, resets and totals.
- **Conversation** (`litellm_utils/conversation.py`). A transcript object:
  - it sends the system prompt only while the transcript is empty;
  - it records one user entry and one assistant entry per completed turn;
  - for streams, it records the turn only once the stream is exhausted.

Modules:

| module | role |
|---|---|
| `Wrappers` | the `Option` and `Result` types |
| `Types` | messages, content blocks, file arguments, exceptions, finite streams, Python truthiness |
| `GeneratePayload`, `Utils`, `Handler`, `Priority`, `TokenTracking`, `Conversations` | one per source file |

Foreign code is passed in as function-valued parameters: the file system, `mimetypes.guess_type`, the markdown extractor, `get_model_info`, `litellm.completion` (blocking and streaming), `json.loads` and `str()` of a decoded value. A stream is a finite value: the items the producer yields, then normal exhaustion or the exception it raised. `Conversation.Stream` takes the number of `next()` calls the consumer makes.

Behaviour of the code that the model keeps:

- No error is raised when a caller turns preprocessing off for a model that needs it. `request_ai` only ever switches the flag on (handler.py:25-26).
- `stream_ai` tests the negated rule (handler.py:45-46), so, when the caller does not ask for preprocessing, it preprocesses exactly when `request_ai` would not. Lemma `Handler.StreamRuleIsInverted` states this.
- A failed metadata lookup makes `requires_preprocessing` return False (handler.py:17-18). `request_ai` then keeps the caller's flag, and `stream_ai` turns preprocessing on.
- The transcript stores the raw `user_text` (possibly `None`), not the normalised content (conversation.py:41, 44, 70).
- One file per call. There is no file list.

## Model

| member | source | states |
|---|---|---|
| Types.MalformedJsonMessage | litellm_utils/utils.py:26-30 | the error text is the fixed header, then exactly the decoder's error, then "Response content:" and the preview at the end |
| GeneratePayload.ProcessFile | litellm_utils/generate_payload.py:11-28 | `None` resolves to nothing; a record passes its filename and data through unchanged; a path that does not exist raises FileNotFoundError "File not found: p"; a path that is not a regular file raises ValueError "Path is not a file: p"; a regular file gives its name and encoded bytes; failure happens only for such paths |
| GeneratePayload.FileContentBlock | litellm_utils/generate_payload.py:33-37 | the wrapper starts with "\n<<<FILE CONTENT (name)>>>\n", ends with "\n<<<END FILE CONTENT>>>\n", and the markdown is exactly what lies between them |
| GeneratePayload.ProcessLocalFile | litellm_utils/generate_payload.py:31-37 | the extracted markdown is wrapped; an extractor failure propagates as ExtractionError |
| GeneratePayload.MimeFor | litellm_utils/generate_payload.py:62-65 | the guessed MIME type when there is one, otherwise application/octet-stream; never empty |
| GeneratePayload.DataUrl | litellm_utils/generate_payload.py:73 | `data:` + the MIME type + `;base64,` + the encoded data, each part at its fixed place |
| GeneratePayload.ParseDataUrl | litellm_utils/generate_payload.py:73 | any URL it accepts is exactly `data:<mime>;base64,<data>` of the parts it returns |
| GeneratePayload.DataUrlRoundTrip | litellm_utils/generate_payload.py:73 | the data URL of a MIME type without ';' decodes back to that MIME type and payload |
| GeneratePayload.Attachment | litellm_utils/generate_payload.py:73-88 | `image_url` exactly when the MIME type starts with "image/"; every other MIME type gives a `file` block with the filename; both carry the data URL |
| GeneratePayload.MergedPrefix | litellm_utils/generate_payload.py:59 | empty iff user_text is not truthy; otherwise user_text followed by one newline |
| GeneratePayload.UserContent | litellm_utils/generate_payload.py:40-90 | missing text and file raise the ValueError; no file gives exactly [Text(user_text)]; a resolver error propagates; preprocess gives one merged text block `user_text + "\n"` (or nothing) + wrapper, or the extractor's error; otherwise a text block iff user_text is truthy, then the attachment last; a text block can only come first |
| GeneratePayload.BuildOpenAiUserContent | litellm_utils/generate_payload.py:40-90 | the step-by-step appends produce `UserContent` |
| GeneratePayload.OpenAiPayload | litellm_utils/generate_payload.py:93-113 | length is (prompt truthy ? 1 : 0) + \|history\| + 1; the system message first when the prompt is truthy; the history verbatim and in order; one final user message with the content; content errors propagate |
| GeneratePayload.GenerateOpenAiPayload | litellm_utils/generate_payload.py:93-113 | the appends and the extend produce `OpenAiPayload` |
| GeneratePayload.PayloadSystemMessageOnlyFirst | litellm_utils/generate_payload.py:96-111 | with a history free of system messages, position i holds a system message iff i == 0 and the prompt is truthy |
| Utils.IsSpaceAscii | litellm_utils/utils.py:4 | for ASCII, exactly tab, newline, vertical tab, form feed, carriage return, the four separators 0x1C-0x1F and space; never a letter or a digit |
| Utils.LStrip | litellm_utils/utils.py:4 | the result is a suffix, everything dropped is whitespace, and it does not start with whitespace |
| Utils.RStrip | litellm_utils/utils.py:4 | the result is a prefix, everything dropped is whitespace, and it does not end with whitespace |
| Utils.Strip | litellm_utils/utils.py:4 | no longer than the input; neither end is whitespace |
| Utils.StripIsSlice | litellm_utils/utils.py:4 | the stripped text is the contiguous slice of the input that starts after the leading whitespace |
| Utils.StripRemovesOnlySpace | litellm_utils/utils.py:4 | everything before and after that slice is whitespace |
| Utils.StripIdempotent | litellm_utils/utils.py:18 | stripping a stripped text changes nothing |
| Utils.Find | litellm_utils/utils.py:16 | `find(pat, from)`: the first occurrence at or after `from`, None when there is none |
| Utils.FindIsFirst | litellm_utils/utils.py:16 | an occurrence with none before it is the one `find` reports |
| Utils.FenceStart | litellm_utils/utils.py:9-13 | the start lies within the text |
| Utils.FenceStartAfterJsonFence | litellm_utils/utils.py:10-11 | with a "```json", the body starts 7 characters after the first one |
| Utils.FenceStartAfterPlainFence | litellm_utils/utils.py:12-13 | without "```json", the body starts 3 characters after the first "```" |
| Utils.JsonFenceHasFence | litellm_utils/utils.py:10-13 | each "```json" begins with "```", so the second test never sees a "```json" |
| Utils.RetryText | litellm_utils/utils.py:15-20 | without a fence the text is retried unchanged |
| Utils.RetryWithoutFence | litellm_utils/utils.py:15 | a text with no "```" anywhere has no fence and is retried as is |
| Utils.RetryTextClosedFence | litellm_utils/utils.py:16-18 | the body runs up to the first "```" at or after its start and is stripped |
| Utils.RetryTextOpenFence | litellm_utils/utils.py:19-20 | with no closing fence the body runs to the end and is stripped |
| Utils.Preview | litellm_utils/utils.py:25 | the first min(500, \|t\|) characters of t |
| Utils.ParseAiResponse | litellm_utils/utils.py:3-30 | a successful direct parse of the stripped text is returned unchanged; otherwise a successful parse of the retry text is returned; when both fail it raises MalformedJson with the second decoder error and the preview of the retried text; failure only when both fail, with the decoder's error and a preview of at most 500 characters that prefixes the retried text |
| Handler.ModelName | litellm_utils/handler.py:23 | `provider + "/" + model`, from which both parts are recovered |
| Handler.RequiresPreprocessing | litellm_utils/handler.py:12-20 | false when the lookup fails; otherwise true iff `supports_pdf_input` is absent or falsy |
| Handler.RequestPreprocessFlag | litellm_utils/handler.py:25-26 | preprocessing is on iff the model requires it or the caller asked for it; the metadata never switches it off |
| Handler.StreamPreprocessFlag | litellm_utils/handler.py:45-46 | preprocessing is on iff the model does NOT require it or the caller asked for it |
| Handler.StreamRuleIsInverted | litellm_utils/handler.py:45-46 | whenever the caller's flag is false, the stream rule and the request rule give opposite values |
| Handler.RequestOutcome | litellm_utils/handler.py:22-40 | payload built with the request rule's flag, sent as provider/model; payload and completion errors propagate; raw text unless json_output is set, when the parser's result or error is returned; a parsed value exactly when json_output is set |
| Handler.RequestAi | litellm_utils/handler.py:22-40 | the flag reassignment and the calls produce `RequestOutcome` |
| Handler.TruthyContents | litellm_utils/handler.py:57-59 | never more items than deltas; every item non-empty |
| Handler.TruthyContentsAppend | litellm_utils/handler.py:57-59 | filtering a concatenation concatenates the filtered parts, so order is kept |
| Handler.TruthyContentsSingle | litellm_utils/handler.py:58-59 | one delta is passed on exactly when it is a non-empty string |
| Handler.TruthyContentsMembers | litellm_utils/handler.py:57-59 | a string is yielded iff it is non-empty and some delta carries it |
| Handler.StreamOutcome | litellm_utils/handler.py:42-59 | a payload error ends the stream before any item; otherwise the truthy delta contents of the streaming completion under the stream rule's flag, ending as the upstream ends |
| Handler.StreamAi | litellm_utils/handler.py:42-59 | the loop yields `StreamOutcome` |
| Handler.ListModels | litellm_utils/handler.py:61-65 | [] for an unknown provider, the stored list otherwise |
| Priority.Insert | litellm_utils/priority.py:20 | the result holds the input entries plus the new one (as a multiset) |
| Priority.InsertKeepsLowerBound | litellm_utils/priority.py:20 | a lower bound of every priority survives insertion |
| Priority.InsertKeepsSorted | litellm_utils/priority.py:20 | insertion keeps ascending order |
| Priority.SortByPriority | litellm_utils/priority.py:20 | ascending by priority and a permutation of the input |
| Priority.InsertWithPriority | litellm_utils/priority.py:20 | insertion adds the new entry in front of the entries of its own priority, leaving all other groups alone |
| Priority.SortIsStable | litellm_utils/priority.py:20 | for every priority, the sorted entries of that priority are in input order |
| Priority.SortedGroupsDetermine | litellm_utils/priority.py:20 | two sorted sequences with the same per-priority entries are equal |
| Priority.StableSortIsUnique | litellm_utils/priority.py:20 | any ascending arrangement keeping each priority's input order is the sort's result |
| Priority.SortKeepsNames | litellm_utils/_internal/token_tracker.py:45-48 | sorting keeps the set of configured names |
| Priority.FirstAvailable | litellm_utils/priority.py:21-23 | None iff every entry is at or over budget; otherwise the model of an entry under budget with every earlier entry spent |
| Priority.ZeroUsage | litellm_utils/priority.py:17 | keys are exactly the configured names, all at 0 |
| Priority.SortKeepsCover | litellm_utils/priority.py:20 | every sorted entry still has a counter |
| Priority.ZeroUsageCovers | litellm_utils/priority.py:17 | every configured entry has a counter |
| Priority.LiteLLMUtils.constructor | litellm_utils/priority.py:15-17 | the entries are kept as given; every configured model is at 0 tokens |
| Priority.LiteLLMUtils.GetCurrentModel | litellm_utils/priority.py:19-23 | the first model in stable ascending priority order under budget, or None; nothing changes |
| Priority.LiteLLMUtils.RequestAi | litellm_utils/priority.py:25-44 | as written: always the TypeError for the missing `provider`; no counter changes |
| Priority.LiteLLMUtils.RequestAiWithProvider | litellm_utils/priority.py:25-44 | as intended: the dispatcher's outcome with the current model and the flag None read as false; no counter changes |
| Priority.ModelText | litellm_utils/priority.py:36 | the model name as given, or "None" when no model is available, as the f-string at handler.py:23 renders it |
| Priority.RequestAiAlwaysRaises | litellm_utils/priority.py:35-44 | even a well-formed request with a model available ends in TypeError |
| TokenTracking.Percentage | litellm_utils/_internal/token_tracker.py:145 | 0 for a non-positive budget, otherwise the value whose product with the budget is used * 100 |
| TokenTracking.PercentageWithinBudget | litellm_utils/_internal/token_tracker.py:145 | for a positive budget: at most 100 iff used <= budget; below 100 iff under budget; non-negative iff used >= 0 |
| TokenTracking.SummaryRows | litellm_utils/_internal/token_tracker.py:141-154 | one row per entry in order, with the model, priority, used tokens, budget and `remaining = budget - used`; the percentage is `Percentage(used, budget)`, 0 for a non-positive budget; tokens remain iff the entry is under budget |
| TokenTracking.SelectionMatchesSummary | litellm_utils/_internal/token_tracker.py:69-80 | the selected model is the first summary row with tokens remaining; None iff no row has any |
| TokenTracking.SumOverRemove | litellm_utils/_internal/token_tracker.py:182 | the sum of the counters does not depend on the order of the keys |
| TokenTracking.SumOverAgree | litellm_utils/_internal/token_tracker.py:182 | maps that agree on the keys have the same sum |
| TokenTracking.SumOverZero | litellm_utils/_internal/token_tracker.py:168 | counters all at zero sum to zero |
| TokenTracking.AddRaisesTotal | litellm_utils/_internal/token_tracker.py:93-94 | adding t to one known counter raises the total by exactly t |
| TokenTracking.TokenTracker.constructor | litellm_utils/_internal/token_tracker.py:37-53 | the entries are the stable ascending sort of the input; the usage keys are exactly the configured names, all at 0 |
| TokenTracking.TokenTracker.GetAvailableModel | litellm_utils/_internal/token_tracker.py:55-80 | the first stored entry under budget, None when all are spent; nothing changes |
| TokenTracking.TokenTracker.AddUsage | litellm_utils/_internal/token_tracker.py:82-103 | a known model's counter grows by tokens, and only that counter changes; the total grows by tokens; an unknown model changes nothing and adds no key; the entries are kept |
| TokenTracking.TokenTracker.GetUsageSummary | litellm_utils/_internal/token_tracker.py:105-156 | mode "priority" and the summary rows of the stored entries; nothing changes |
| TokenTracking.TokenTracker.Reset | litellm_utils/_internal/token_tracker.py:158-169 | every counter is 0; the key set and the entries are kept; the total is 0 |
| TokenTracking.TokenTracker.GetTotalUsage | litellm_utils/_internal/token_tracker.py:171-182 | the sum of all counters |
| TokenTracking.SelectionIsRepeatable | litellm_utils/_internal/token_tracker.py:55-80 | two selections in a row agree |
| TokenTracking.TrackerAgreesWithUtils | litellm_utils/_internal/token_tracker.py:69-77 | a fresh tracker and a fresh `LiteLLMUtils` built from the same entries select the same model |
| TokenTracking.SortOrderedPair | litellm_utils/_internal/token_tracker.py:45 | two entries already in priority order keep their order |
| TokenTracking.PairSelection | litellm_utils/_internal/token_tracker.py:69-80 | on two entries: the first if it is under budget, else the second if it is, else None |
| TokenTracking.BudgetExhaustion | litellm_utils/_internal/token_tracker.py:55-103 | A (budget 100, priority 1) and B (50, 2): A first, B after 100 tokens on A, None after 50 more on B |
| TokenTracking.SummaryAfterUsage | litellm_utils/_internal/token_tracker.py:141-154 | 30 tokens on a budget of 100 give the row (30 used, 70 remaining, 30 percent) |
| Conversations.UserEntry | litellm_utils/conversation.py:41 | the raw `user_text`: absent exactly when it is `None`, otherwise that text |
| Conversations.Turn | litellm_utils/conversation.py:41-45 | two entries: the user entry of `user_text`, then the assistant entry with the reply |
| Conversations.ReplyText | litellm_utils/conversation.py:40-45 | the reply string itself, or `str()` of a decoded value |
| Conversations.PromptFor | litellm_utils/conversation.py:31 | the configured prompt on an empty transcript; no prompt ever once the transcript has entries |
| Conversations.TurnKeepsAlternating | litellm_utils/conversation.py:40-45 | a turn adds two entries, user then assistant, and keeps the earlier entries |
| Conversations.PayloadSystemOnlyOnFirstTurn | litellm_utils/conversation.py:31 | every payload a conversation sends has a system message only at position 0, and only on the first turn with a non-empty prompt |
| Conversations.Concat | litellm_utils/conversation.py:67 | the empty list joins to "", a single chunk to itself, and the joined reply ends with the last chunk; with ConcatAppend this fixes the in-order join |
| Conversations.ConcatAppend | litellm_utils/conversation.py:67 | joining distributes over concatenating chunk lists |
| Conversations.ConcatTruthyContents | litellm_utils/handler.py:57-59 | dropping missing and empty deltas leaves the joined reply unchanged |
| Conversations.PullChunks | litellm_utils/conversation.py:57-68 | passes on the chunks as far as the pulls reach, unchanged and in order; the reply built is their concatenation |
| Conversations.Consumed | litellm_utils/conversation.py:57-71 | suspended while chunks remain; the pull after the last chunk raises the upstream's exception or ends the iteration |
| Conversations.Conversation.constructor | litellm_utils/conversation.py:8-19 | the configuration as given; an empty transcript |
| Conversations.Conversation.AppendTurn | litellm_utils/conversation.py:41-42 | the transcript grows by exactly the user entry then the assistant entry; the configuration is kept |
| Conversations.Conversation.Send | litellm_utils/conversation.py:21-47 | the request carries the system prompt only on an empty transcript and always the whole transcript; on success it records {user, user_text} then {assistant, text or str(value)} and returns the reply; on failure the transcript is unchanged |
| Conversations.Conversation.Stream | litellm_utils/conversation.py:49-71 | nothing runs before the first pull; chunks pass through unchanged; the turn is recorded, with the joined chunks, only when the stream is exhausted; a raising upstream or an unfinished stream leaves the transcript unchanged |
| Conversations.Conversation.GetHistory | litellm_utils/conversation.py:73-74 | equals the transcript; nothing changes |
| Conversations.Conversation.ClearHistory | litellm_utils/conversation.py:76-77 | the transcript is empty; the configuration is kept |
| Conversations.Conversation.SetSystemPrompt | litellm_utils/conversation.py:79-80 | only the prompt changes |

## Left out

- Lists of files are not modelled. `_process_file` has no branch for them: `Path(list)` raises TypeError.
- A `pathlib.Path` argument is treated like its string. A `Path` object is always truthy, and the messages print the normalised path; neither is modelled.
- Reading a file and base64-encoding it are I/O. The file system is a parameter returning the file's name and encoded text.
- A dict argument missing `filename` or `encoded_data` (where `dict.get` returns None) is not modelled. A record always carries both strings.
- These foreign calls are parameters: `mimetypes.guess_type`, `extract_structured_md`, `json.loads`, `get_model_info`, `litellm.completion` and its streaming form, `litellm.models_by_provider`, and `str()` of a decoded value.
- Handler.RequestOutcome: the completion's `message.content` is taken to be a string. A `None` content is not modelled.
- TokenTracking.Percentage: the value is the exact quotient. Floating point and `round(..., 2)` are not modelled.
- The Python integer fields are unbounded, matching Python's `int`. Pydantic validation of `ModelPriority` is not modelled.
- `litellm_utils/types.py` and `litellm_utils/models.py` are not part of this model. `ModelPriority` is modelled from priority.py:9-12, and the dict file form from its use in generate_payload.py:15-16.
- Conversations.Conversation.Stream: the consumer's pulls run back to back. Code interleaved between pulls, such as another `send` on the same conversation, is not modelled. Neither is closing the generator early.
- Logging, `__repr__`, `main.py`, the `__init__.py` re-exports and the `multi_ai_handler` package are not modelled.
- `LiteLLMUtils.__init__` keeps the caller's list itself, not a copy (priority.py:16). A later change to that list is seen by `_get_current_model`, and a model appended to it later raises KeyError at priority.py:21 once the selection loop reaches it. The model stores an immutable sequence, so it captures neither.
- The returned lists are values in the model. Aliasing between the history passed to a request and the transcript is not modelled; the source never mutates the passed list.

## Findings

| source | as written | input that shows it | evidently intended | confidence | as-written member | corrected member |
|---|---|---|---|---|---|---|
| litellm_utils/priority.py:35-44 | `LiteLLMUtils.request_ai` calls the module-level `request_ai` without `provider`, a required positional parameter of handler.py:22. It also discards the result. | any call, for example `LiteLLMUtils([ModelPriority("m", 10, 1)]).request_ai(user_text="hello")`, raises TypeError before any request is made | a caller-supplied provider is passed with the current model, and the dispatcher's result is returned | not executed | Priority.LiteLLMUtils.RequestAi, Priority.RequestAiAlwaysRaises | Priority.LiteLLMUtils.RequestAiWithProvider |
