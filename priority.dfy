/**
 * `litellm_utils/priority.py`: the `ModelPriority` record, the stable
 * ascending sort by priority that both selectors apply (Python's
 * `sorted(..., key=lambda p: p.priority)`), the "first model still under
 * budget" rule, and the `LiteLLMUtils` selector.
 */
module Priority {
  import opened Wrappers
  import opened Types
  import opened GeneratePayload
  import Handler

  /** `ModelPriority(model, budget, priority)`: lower priority values are tried first. */
  datatype ModelPriority = ModelPriority(model: string, budget: int, priority: int)

  /** Ascending by priority. */
  ghost predicate SortedByPriority(s: seq<ModelPriority>) {
    forall i, j :: 0 <= i < j < |s| ==> s[i].priority <= s[j].priority
  }

  /** The entries of `s` whose priority is `k`, in their order in `s`. */
  function WithPriority(s: seq<ModelPriority>, k: int): seq<ModelPriority> {
    if s == [] then [] else (if s[0].priority == k then [s[0]] else []) + WithPriority(s[1..], k)
  }

  /** The model names configured in `s`. */
  function Names(s: seq<ModelPriority>): set<string> {
    set p | p in s :: p.model
  }

  /** Puts `p` in front of the first entry whose priority is not below its own. */
  function Insert(p: ModelPriority, s: seq<ModelPriority>): (r: seq<ModelPriority>)
    ensures multiset(r) == multiset(s) + multiset{p}
  {
    if s == [] then [p]
    else if p.priority <= s[0].priority then [p] + s
    else
      assert s == [s[0]] + s[1..];
      [s[0]] + Insert(p, s[1..])
  }

  /** A lower bound of `p` and of every entry of `s` bounds every entry of `Insert(p, s)`. */
  lemma {:induction false} InsertKeepsLowerBound(p: ModelPriority, s: seq<ModelPriority>, b: int)
    requires b <= p.priority
    requires forall i :: 0 <= i < |s| ==> b <= s[i].priority
    ensures forall i :: 0 <= i < |Insert(p, s)| ==> b <= Insert(p, s)[i].priority
    decreases |s|
  {
    if s != [] && p.priority > s[0].priority {
      InsertKeepsLowerBound(p, s[1..], b);
    }
  }

  /** Inserting into a sorted sequence keeps it sorted. */
  lemma {:induction false} InsertKeepsSorted(p: ModelPriority, s: seq<ModelPriority>)
    requires SortedByPriority(s)
    ensures SortedByPriority(Insert(p, s))
    decreases |s|
  {
    if s != [] && p.priority > s[0].priority {
      InsertKeepsSorted(p, s[1..]);
      InsertKeepsLowerBound(p, s[1..], s[0].priority);
    }
  }

  /** `sorted(s, key=lambda p: p.priority)`, as an insertion sort. */
  function SortByPriority(s: seq<ModelPriority>): (r: seq<ModelPriority>)
    ensures multiset(r) == multiset(s)
    ensures SortedByPriority(r)
  {
    if s == [] then []
    else
      assert s == [s[0]] + s[1..];
      InsertKeepsSorted(s[0], SortByPriority(s[1..]));
      Insert(s[0], SortByPriority(s[1..]))
  }

  /** Inserting `p` puts it ahead of every entry of equal priority and leaves the other priorities alone. */
  lemma {:induction false} InsertWithPriority(p: ModelPriority, s: seq<ModelPriority>, k: int)
    ensures WithPriority(Insert(p, s), k) == (if p.priority == k then [p] else []) + WithPriority(s, k)
    decreases |s|
  {
    if s == [] {
    } else if p.priority <= s[0].priority {
      assert ([p] + s)[1..] == s;
    } else {
      var rest := Insert(p, s[1..]);
      InsertWithPriority(p, s[1..], k);
      assert ([s[0]] + rest)[1..] == rest;
      assert WithPriority([s[0]] + rest, k) == (if s[0].priority == k then [s[0]] else []) + WithPriority(rest, k);
      assert WithPriority(s, k) == (if s[0].priority == k then [s[0]] else []) + WithPriority(s[1..], k);
      if p.priority == k {
        assert WithPriority(Insert(p, s), k) == [p] + WithPriority(s[1..], k);
        assert WithPriority(s, k) == WithPriority(s[1..], k);
      } else {
        assert WithPriority(rest, k) == WithPriority(s[1..], k);
      }
    }
  }

  /**
   * The sort is stable: for every priority value, the entries with that
   * priority appear in the result in the same order as in the input.
   */
  lemma {:induction false} SortIsStable(s: seq<ModelPriority>, k: int)
    ensures WithPriority(SortByPriority(s), k) == WithPriority(s, k)
    decreases |s|
  {
    if s != [] {
      SortIsStable(s[1..], k);
      InsertWithPriority(s[0], SortByPriority(s[1..]), k);
    }
  }

  /** A sequence in which no entry has priority `k` has no entries of priority `k`. */
  lemma {:induction false} WithPriorityAbsent(s: seq<ModelPriority>, k: int)
    requires forall i :: 0 <= i < |s| ==> s[i].priority != k
    ensures WithPriority(s, k) == []
    decreases |s|
  {
    if s != [] {
      WithPriorityAbsent(s[1..], k);
    }
  }

  /** The first entry of a non-empty sequence is among its own priority's entries. */
  lemma WithPriorityHead(s: seq<ModelPriority>)
    ensures s != [] ==> WithPriority(s, s[0].priority) != []
  {
  }

  /** A sorted sequence has no entries below the priority of its first entry. */
  lemma SortedBelowHead(s: seq<ModelPriority>, k: int)
    ensures SortedByPriority(s) && s != [] && k < s[0].priority ==> WithPriority(s, k) == []
  {
    if SortedByPriority(s) && s != [] && k < s[0].priority {
      WithPriorityAbsent(s, k);
    }
  }

  /**
   * Two non-empty sequences with the same groups whose heads share a
   * priority have the same head, and their tails have the same groups.
   */
  lemma SameHeadSameTailGroups(r1: seq<ModelPriority>, r2: seq<ModelPriority>)
    requires r1 != [] && r2 != [] && r1[0].priority == r2[0].priority
    requires forall k :: WithPriority(r1, k) == WithPriority(r2, k)
    ensures r1[0] == r2[0]
    ensures forall k :: WithPriority(r1[1..], k) == WithPriority(r2[1..], k)
  {
    var k1 := r1[0].priority;
    assert WithPriority(r1, k1) == [r1[0]] + WithPriority(r1[1..], k1);
    assert WithPriority(r2, k1) == [r2[0]] + WithPriority(r2[1..], k1);
    assert WithPriority(r1, k1)[0] == r1[0] && WithPriority(r2, k1)[0] == r2[0];
    forall k ensures WithPriority(r1[1..], k) == WithPriority(r2[1..], k) {
      var head := if k1 == k then [r1[0]] else [];
      assert WithPriority(r1, k) == head + WithPriority(r1[1..], k);
      assert WithPriority(r2, k) == head + WithPriority(r2[1..], k);
      assert (head + WithPriority(r1[1..], k))[|head|..] == WithPriority(r1[1..], k);
      assert (head + WithPriority(r2[1..], k))[|head|..] == WithPriority(r2[1..], k);
    }
  }

  /**
   * Sortedness and the per-priority order determine a sequence: two sorted
   * sequences that agree on every priority's entries are equal.
   */
  lemma {:induction false} SortedGroupsDetermine(r1: seq<ModelPriority>, r2: seq<ModelPriority>)
    requires SortedByPriority(r1) && SortedByPriority(r2)
    requires forall k :: WithPriority(r1, k) == WithPriority(r2, k)
    ensures r1 == r2
    decreases |r1|
  {
    WithPriorityHead(r1);
    WithPriorityHead(r2);
    if r1 == [] && r2 == [] {
    } else if r1 == [] || r2 == [] {
      assert false;
    } else {
      var k1, k2 := r1[0].priority, r2[0].priority;
      SortedBelowHead(r1, k2);
      SortedBelowHead(r2, k1);
      if k1 < k2 {
        assert false;
      } else if k2 < k1 {
        assert false;
      } else {
        SameHeadSameTailGroups(r1, r2);
        assert SortedByPriority(r1[1..]) && SortedByPriority(r2[1..]);
        SortedGroupsDetermine(r1[1..], r2[1..]);
        assert r1 == [r1[0]] + r1[1..] && r2 == [r2[0]] + r2[1..];
      }
    }
  }

  /**
   * `SortByPriority` is the stable sort: any ascending arrangement that
   * keeps each priority's entries in input order is `SortByPriority(s)`.
   */
  lemma StableSortIsUnique(s: seq<ModelPriority>, r: seq<ModelPriority>)
    requires SortedByPriority(r)
    requires forall k :: WithPriority(r, k) == WithPriority(s, k)
    ensures r == SortByPriority(s)
  {
    forall k ensures WithPriority(r, k) == WithPriority(SortByPriority(s), k) {
      SortIsStable(s, k);
    }
    SortedGroupsDetermine(r, SortByPriority(s));
  }

  /** Sorting keeps the set of configured names. */
  lemma SortKeepsNames(s: seq<ModelPriority>)
    ensures Names(SortByPriority(s)) == Names(s)
  {
    var r := SortByPriority(s);
    assert forall p :: p in r <==> p in multiset(r);
    assert forall p :: p in s <==> p in multiset(s);
  }

  /** Every configured model has a usage counter. */
  ghost predicate Covers(ps: seq<ModelPriority>, used: map<string, int>) {
    forall i :: 0 <= i < |ps| ==> ps[i].model in used
  }

  /** A model is still under its budget. */
  predicate UnderBudget(p: ModelPriority, used: map<string, int>)
    requires p.model in used
  {
    used[p.model] < p.budget
  }

  /**
   * The selection rule: the first entry, in the given order, whose usage is
   * strictly below its budget; `None` exactly when every entry is spent.
   */
  function FirstAvailable(ps: seq<ModelPriority>, used: map<string, int>): (r: Option<string>)
    requires Covers(ps, used)
    ensures r.None? <==> forall i :: 0 <= i < |ps| ==> !UnderBudget(ps[i], used)
    ensures r.Some? ==> exists i :: 0 <= i < |ps| && ps[i].model == r.value && UnderBudget(ps[i], used)
                                  && forall j :: 0 <= j < i ==> !UnderBudget(ps[j], used)
  {
    if ps == [] then None
    else if UnderBudget(ps[0], used) then Some(ps[0].model)
    else
      var r := FirstAvailable(ps[1..], used);
      assert forall i :: 1 <= i < |ps| ==> ps[i] == ps[1..][i - 1];
      r
  }

  /** A usage map with every configured model at zero. */
  function ZeroUsage(ps: seq<ModelPriority>): (m: map<string, int>)
    ensures m.Keys == Names(ps)
    ensures forall name :: name in m ==> m[name] == 0
  {
    map name | name in Names(ps) :: 0
  }

  /** A sequence covered by a map stays covered once sorted. */
  lemma SortKeepsCover(ps: seq<ModelPriority>, used: map<string, int>)
    requires Covers(ps, used)
    ensures Covers(SortByPriority(ps), used)
  {
    var r := SortByPriority(ps);
    forall i | 0 <= i < |r| ensures r[i].model in used {
      assert r[i] in multiset(ps);
      var j :| 0 <= j < |ps| && ps[j] == r[i];
    }
  }

  /** `ZeroUsage` covers the list it is built from. */
  lemma ZeroUsageCovers(ps: seq<ModelPriority>)
    ensures Covers(ps, ZeroUsage(ps))
  {
    assert forall i :: 0 <= i < |ps| ==> ps[i] in ps;
  }

  /**
   * `LiteLLMUtils`: keeps the priorities as given and a token counter per
   * configured model, and selects by sorting on every call.
   */
  class LiteLLMUtils {
    var priorities: seq<ModelPriority>
    var tokensUsed: map<string, int>

    ghost predicate Valid()
      reads this
    {
      Covers(priorities, tokensUsed) && Covers(SortByPriority(priorities), tokensUsed)
    }

    /** `__init__`: the list as given, every configured model at 0 tokens. */
    constructor (input: seq<ModelPriority>)
      ensures Valid()
      ensures priorities == input
      ensures tokensUsed.Keys == Names(input)
      ensures forall name :: name in tokensUsed ==> tokensUsed[name] == 0
    {
      priorities := input;
      tokensUsed := ZeroUsage(input);
      ZeroUsageCovers(input);
      SortKeepsCover(input, ZeroUsage(input));
    }

    /**
     * `_get_current_model`: the first model, in stable ascending priority
     * order, whose usage is below its budget. It changes nothing.
     */
    method GetCurrentModel() returns (r: Option<string>)
      requires Valid()
      ensures r == FirstAvailable(SortByPriority(priorities), tokensUsed)
    {
      var order := SortByPriority(priorities);
      var i := 0;
      while i < |order|
        invariant 0 <= i <= |order|
        invariant FirstAvailable(order[i..], tokensUsed) == FirstAvailable(order, tokensUsed)
      {
        var p := order[i];
        if tokensUsed[p.model] < p.budget {
          return Some(p.model);
        }
        assert order[i..][1..] == order[i + 1..];
        i := i + 1;
      }
      return None;
    }

    /**
     * `request_ai` as written: the call to the module-level `request_ai`
     * leaves out the required `provider` argument, so after the current
     * model is computed the call raises `TypeError`; no counter changes.
     */
    method RequestAi(systemPrompt: Option<string>, userText: Option<string>, messages: seq<Message>,
                     file: FileRef, temperature: real, preprocess: Option<bool>, jsonOutput: bool)
      returns (r: Result<(), Error>)
      requires Valid()
      ensures r == Failure(TypeError(MissingProviderMessage))
    {
      var model := GetCurrentModel();
      return Failure(TypeError(MissingProviderMessage));
    }

    /**
     * `request_ai` as evidently intended: delegate under the caller's
     * provider with the current model (Python renders a missing one as
     * "None"), with `None` for the flag read as false, and return what the
     * module-level `request_ai` returns. No counter changes.
     */
    method RequestAiWithProvider<J>(provider: string, systemPrompt: Option<string>, userText: Option<string>,
                                    messages: seq<Message>, file: FileRef, temperature: real,
                                    preprocess: Option<bool>, jsonOutput: bool,
                                    env: Env, backend: Handler.Backend<J>)
      returns (r: Result<Handler.Response<J>, Error>)
      requires Valid()
      ensures var current := FirstAvailable(SortByPriority(priorities), tokensUsed);
              r == Handler.RequestOutcome(provider, ModelText(current), systemPrompt, userText, messages, file,
                                          temperature, preprocess == Some(true), jsonOutput, env, backend)
    {
      var model := GetCurrentModel();
      r := Handler.RequestAi(provider, ModelText(model), systemPrompt, userText, messages, file,
                             temperature, preprocess == Some(true), jsonOutput, env, backend);
    }
  }

  /** The message of the `TypeError` Python raises for the missing argument. */
  const MissingProviderMessage := "request_ai() missing 1 required positional argument: 'provider'"

  /** How an f-string renders an optional model name. */
  function ModelText(model: Option<string>): (s: string)
    ensures model.Some? ==> s == model.value
    ensures model.None? ==> s == "None"
  {
    if model.Some? then model.value else "None"
  }

  /**
   * The as-written `request_ai` never reaches the dispatcher even when a
   * model is available and the request is well formed.
   */
  method RequestAiAlwaysRaises(input: seq<ModelPriority>) returns (r: Result<(), Error>)
    ensures r.Failure? && r.error.TypeError?
  {
    var utils := new LiteLLMUtils(input);
    r := utils.RequestAi(None, Some("hello"), [], NoFile, 0.2, None, false);
  }
}
