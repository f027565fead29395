/**
 * The conversation transcript: a provider, a model, an optional system
 * prompt, a temperature and the list of turns so far. Each completed turn
 * adds one user entry holding the caller's `user_text` as given and one
 * assistant entry holding the reply.
 */
module Conversations {
  import opened Wrappers
  import opened Types
  import opened GeneratePayload
  import opened Handler

  /** How the consumer's pulls on `stream` left the generator. */
  datatype StreamEnd =
    | Suspended          // still waiting at a `yield` (or never started): no turn recorded
    | Exhausted          // the upstream ran out and the turn was recorded
    | Raised(error: Error) // the upstream raised; the exception reaches the consumer

  /** The `content` of the user entry: the raw `user_text`, `None` included. */
  function UserEntry(userText: Option<string>): (c: Content)
    ensures c.Absent? <==> userText.None?
    ensures c.Plain? <==> userText.Some?
    ensures c.Plain? ==> c.text == userText.value
  {
    if userText.Some? then Plain(userText.value) else Absent
  }

  /** The two entries one completed turn appends. */
  function Turn(userText: Option<string>, reply: string): (t: seq<Message>)
    ensures |t| == 2
    ensures t[0].role == User && t[0].content == UserEntry(userText)
    ensures t[1].role == Assistant && t[1].content == Plain(reply)
  {
    [Message(User, UserEntry(userText)), Message(Assistant, Plain(reply))]
  }

  /** The assistant text of a reply: the string itself, or `str()` of a decoded value. */
  function ReplyText<J>(response: Response<J>, show: J -> string): (s: string)
    ensures response.Raw? ==> s == response.text
    ensures response.Parsed? ==> s == show(response.value)
  {
    match response
    case Raw(text) => text
    case Parsed(v) => show(v)
  }

  /** The system prompt sent with a turn: the configured one on the first turn only. */
  function PromptFor(messages: seq<Message>, systemPrompt: Option<string>): (p: Option<string>)
    ensures messages == [] ==> p == systemPrompt
    ensures p.Some? ==> messages == []
  {
    if messages == [] then systemPrompt else None
  }

  /** A transcript of whole turns: user and assistant entries alternate, user first. */
  ghost predicate Alternating(messages: seq<Message>) {
    |messages| % 2 == 0 &&
    forall i :: 0 <= i < |messages| ==> messages[i].role == (if i % 2 == 0 then User else Assistant)
  }

  /** Appending a turn keeps a transcript of whole turns and grows it by two. */
  lemma TurnKeepsAlternating(messages: seq<Message>, userText: Option<string>, reply: string)
    requires Alternating(messages)
    ensures Alternating(messages + Turn(userText, reply))
    ensures |messages + Turn(userText, reply)| == |messages| + 2
    ensures (messages + Turn(userText, reply))[..|messages|] == messages
  {
    var t := messages + Turn(userText, reply);
    forall i | 0 <= i < |t| ensures t[i].role == (if i % 2 == 0 then User else Assistant) {
      if i >= |messages| {
        assert t[i] == Turn(userText, reply)[i - |messages|];
      }
    }
  }

  /**
   * Every payload a conversation sends holds at most one system message:
   * the leading one, present exactly on the first turn with a non-empty
   * prompt.
   */
  lemma PayloadSystemOnlyOnFirstTurn(messages: seq<Message>, systemPrompt: Option<string>,
                                     userText: Option<string>, file: FileRef, preprocess: bool,
                                     env: Env, i: nat)
    requires Alternating(messages)
    requires OpenAiPayload(userText, PromptFor(messages, systemPrompt), file, preprocess, messages, env).Success?
    requires i < |OpenAiPayload(userText, PromptFor(messages, systemPrompt), file, preprocess, messages, env).value|
    ensures OpenAiPayload(userText, PromptFor(messages, systemPrompt), file, preprocess, messages, env).value[i].role == System
            <==> i == 0 && messages == [] && Truthy(systemPrompt)
  {
    assert forall k :: 0 <= k < |messages| ==> messages[k].role != System;
    PayloadSystemMessageOnlyFirst(userText, PromptFor(messages, systemPrompt), file, preprocess, messages, env, i);
  }

  /** The chunks joined in order, as `full_response += chunk` builds them. */
  function Concat(chunks: seq<string>): (r: string)
    ensures chunks == [] ==> r == ""
    ensures chunks != [] ==> EndsWith(r, chunks[|chunks| - 1])
    ensures |chunks| == 1 ==> r == chunks[0]
  {
    if chunks == [] then "" else Concat(chunks[..|chunks| - 1]) + chunks[|chunks| - 1]
  }

  /** Joining distributes over concatenation of chunk lists. */
  lemma {:induction false} ConcatAppend(a: seq<string>, b: seq<string>)
    ensures Concat(a + b) == Concat(a) + Concat(b)
    decreases |b|
  {
    if b == [] {
      assert a + b == a;
    } else {
      var b' := b[..|b| - 1];
      var last := b[|b| - 1];
      assert (a + b)[..|a + b| - 1] == a + b';
      assert (a + b)[|a + b| - 1] == last;
      ConcatAppend(a, b');
      assert Concat(a + b) == (Concat(a) + Concat(b')) + last;
      assert Concat(b) == Concat(b') + last;
      assert (Concat(a) + Concat(b')) + last == Concat(a) + (Concat(b') + last);
    }
  }

  /** All the present delta contents joined in order, empty ones included. */
  function DeltaText(deltas: seq<Option<string>>): string {
    if deltas == [] then ""
    else
      var last := deltas[|deltas| - 1];
      DeltaText(deltas[..|deltas| - 1]) + (if last.Some? then last.value else "")
  }

  /**
   * Dropping the empty and missing deltas does not change the joined text:
   * the reply a stream records is everything the completion produced.
   */
  lemma {:induction false} ConcatTruthyContents(deltas: seq<Option<string>>)
    ensures Concat(TruthyContents(deltas)) == DeltaText(deltas)
    decreases |deltas|
  {
    if deltas != [] {
      var init := deltas[..|deltas| - 1];
      var last := deltas[|deltas| - 1];
      ConcatTruthyContents(init);
      var kept := if Truthy(last) then [last.value] else [];
      ConcatAppend(TruthyContents(init), kept);
      if Truthy(last) {
        assert kept[..0] == [];
      }
    }
  }

  /**
   * The loop of `stream`: while the consumer keeps pulling and chunks
   * remain, pass each chunk on and add it to the reply being built.
   */
  method PullChunks(items: seq<string>, pulls: nat) returns (yielded: seq<string>, fullResponse: string)
    ensures yielded == if pulls <= |items| then items[..pulls] else items
    ensures fullResponse == Concat(yielded)
  {
    yielded := [];
    fullResponse := "";
    var i := 0;
    while i < |items| && i < pulls
      invariant 0 <= i <= |items| && i <= pulls
      invariant yielded == items[..i]
      invariant fullResponse == Concat(yielded)
    {
      var chunk := items[i];
      fullResponse := fullResponse + chunk;
      assert (yielded + [chunk])[..|yielded|] == yielded;
      yielded := yielded + [chunk];
      assert items[..i + 1] == items[..i] + [chunk];
      i := i + 1;
    }
    assert items[..|items|] == items;
  }

  /**
   * What `pulls` calls to `next()` see of a stream that has started: the
   * chunks, in order, as far as the pulls reach; the consumer is still
   * suspended while chunks remain, and the pull after the last chunk raises
   * the upstream's exception or ends the iteration.
   */
  function Consumed(s: FiniteStream<string>, pulls: nat): (r: (seq<string>, StreamEnd))
    ensures r.0 == if pulls <= |s.items| then s.items[..pulls] else s.items
    ensures r.1 == Suspended <==> pulls <= |s.items|
    ensures r.1 == Exhausted <==> pulls > |s.items| && s.failure.None?
    ensures r.1.Raised? <==> pulls > |s.items| && s.failure.Some?
    ensures r.1.Raised? ==> r.1.error == s.failure.value
  {
    if pulls <= |s.items| then (s.items[..pulls], Suspended)
    else if s.failure.Some? then (s.items, Raised(s.failure.value))
    else (s.items, Exhausted)
  }

  /** `Conversation`: the configuration of a chat and its transcript. */
  class Conversation {
    var provider: string
    var model: string
    var systemPrompt: Option<string>
    var temperature: real
    var messages: seq<Message>

    ghost predicate Valid()
      reads this
    {
      Alternating(messages)
    }

    /** `__init__`: the configuration as given and an empty transcript. */
    constructor (provider: string, model: string, systemPrompt: Option<string>, temperature: real)
      ensures Valid()
      ensures this.provider == provider && this.model == model
      ensures this.systemPrompt == systemPrompt && this.temperature == temperature
      ensures messages == []
    {
      this.provider := provider;
      this.model := model;
      this.systemPrompt := systemPrompt;
      this.temperature := temperature;
      messages := [];
    }

    /** The two `append` calls that close a turn: the user entry, then the assistant entry. */
    method AppendTurn(userText: Option<string>, reply: string)
      requires Valid()
      modifies this
      ensures Valid()
      ensures messages == old(messages) + Turn(userText, reply)
      ensures provider == old(provider) && model == old(model)
      ensures systemPrompt == old(systemPrompt) && temperature == old(temperature)
    {
      ghost var before := messages;
      TurnKeepsAlternating(messages, userText, reply);
      messages := messages + [Message(User, UserEntry(userText))];
      messages := messages + [Message(Assistant, Plain(reply))];
      assert messages == before + Turn(userText, reply);
    }

    /**
     * `send`: one blocking request carrying the system prompt only on the
     * first turn and always the whole transcript; when it returns, the turn
     * is recorded and the reply handed back; when it raises, the transcript
     * is as before.
     */
    method Send<J>(userText: Option<string>, file: FileRef, jsonOutput: bool, preprocess: bool,
                   env: Env, backend: Backend<J>, show: J -> string)
      returns (r: Result<Response<J>, Error>)
      requires Valid()
      modifies this
      ensures Valid()
      ensures provider == old(provider) && model == old(model)
      ensures systemPrompt == old(systemPrompt) && temperature == old(temperature)
      ensures r == RequestOutcome(provider, model, PromptFor(old(messages), systemPrompt), userText,
                                  old(messages), file, temperature, preprocess, jsonOutput, env, backend)
      ensures r.Success? ==> messages == old(messages) + Turn(userText, ReplyText(r.value, show))
      ensures r.Failure? ==> messages == old(messages)
    {
      var sp := if messages == [] then systemPrompt else None;
      r := RequestAi(provider, model, sp, userText, messages, file, temperature, preprocess, jsonOutput, env, backend);
      if r.Success? {
        var reply := if r.value.Raw? then r.value.text else show(r.value.value);
        AppendTurn(userText, reply);
      }
    }

    /**
     * `stream`, driven by `pulls` calls to `next()`. Nothing runs before the
     * first pull. Each pull passes on the next chunk unchanged; the pull
     * after the last chunk either raises what the upstream raised, leaving
     * the transcript as it was, or records the turn with the joined chunks
     * and ends the iteration.
     */
    method Stream<J>(userText: Option<string>, file: FileRef, preprocess: bool,
                     env: Env, backend: Backend<J>, pulls: nat)
      returns (yielded: seq<string>, end: StreamEnd)
      requires Valid()
      modifies this
      ensures Valid()
      ensures provider == old(provider) && model == old(model)
      ensures systemPrompt == old(systemPrompt) && temperature == old(temperature)
      ensures pulls == 0 ==> yielded == [] && end == Suspended
      ensures pulls > 0 ==>
                (yielded, end) == Consumed(StreamOutcome(provider, model, PromptFor(old(messages), systemPrompt), userText,
                                                         old(messages), file, temperature, preprocess, env, backend), pulls)
      ensures end == Exhausted ==> messages == old(messages) + Turn(userText, Concat(yielded))
      ensures end != Exhausted ==> messages == old(messages)
    {
      yielded, end := [], Suspended;
      if pulls > 0 {
        var sp := if messages == [] then systemPrompt else None;
        var s := StreamAi(provider, model, sp, userText, messages, file, temperature, preprocess, env, backend);
        var fullResponse;
        yielded, fullResponse := PullChunks(s.items, pulls);
        end := Consumed(s, pulls).1;
        if end == Exhausted {
          AppendTurn(userText, fullResponse);
        }
      }
    }

    /** `get_history`: a copy of the transcript. It changes nothing. */
    method GetHistory() returns (h: seq<Message>)
      ensures h == messages
    {
      h := messages;
    }

    /** `clear_history`: back to an empty transcript; the configuration is kept. */
    method ClearHistory()
      modifies this
      ensures Valid()
      ensures messages == []
      ensures provider == old(provider) && model == old(model)
      ensures systemPrompt == old(systemPrompt) && temperature == old(temperature)
    {
      messages := [];
    }

    /** `set_system_prompt`: only the prompt changes. */
    method SetSystemPrompt(prompt: Option<string>)
      modifies this
      ensures systemPrompt == prompt
      ensures messages == old(messages)
      ensures provider == old(provider) && model == old(model) && temperature == old(temperature)
    {
      systemPrompt := prompt;
    }
  }
}
