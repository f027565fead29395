/**
 * The token-budget tracker: a priority-sorted list of models with budgets
 * and a usage counter per configured model name.
 */
module TokenTracking {
  import opened Wrappers
  import opened Priority

  /** One row of the usage summary. */
  datatype ModelUsage = ModelUsage(model: string, priority: int, usedTokens: int, budget: int,
                                   remaining: int, percentage: real)

  /** The usage summary: the selection mode and one row per configured entry. */
  datatype UsageSummary = UsageSummary(mode: string, models: seq<ModelUsage>)

  /**
   * The share of the budget used, in percent; 0 when the budget is not
   * positive. The value is exact: the rounding to two decimals is not modelled.
   */
  function Percentage(used: int, budget: int): (r: real)
    ensures budget <= 0 ==> r == 0.0
    ensures budget > 0 ==> r * (budget as real) == (used as real) * 100.0
  {
    if budget > 0 then (used as real) / (budget as real) * 100.0 else 0.0
  }

  /** A positive budget is used up to 100 percent exactly while usage stays within it. */
  lemma PercentageWithinBudget(used: int, budget: int)
    requires budget > 0
    ensures Percentage(used, budget) <= 100.0 <==> used <= budget
    ensures Percentage(used, budget) < 100.0 <==> used < budget
    ensures Percentage(used, budget) >= 0.0 <==> used >= 0
  {
    var p := Percentage(used, budget);
    var b := budget as real;
    assert p * b == (used as real) * 100.0;
    if p <= 100.0 { assert p * b <= 100.0 * b; }
    if used <= budget { assert p * b <= 100.0 * b; }
    if p < 100.0 { assert p * b < 100.0 * b; }
    if used < budget { assert p * b < 100.0 * b; }
    if p >= 0.0 { assert p * b >= 0.0; }
  }

  /** The summary row for one entry. */
  function RowFor(p: ModelPriority, used: map<string, int>): ModelUsage
    requires p.model in used
  {
    ModelUsage(p.model, p.priority, used[p.model], p.budget, p.budget - used[p.model],
               Percentage(used[p.model], p.budget))
  }

  /** The summary rows: one per entry, in the order of `ps`. */
  function SummaryRows(ps: seq<ModelPriority>, used: map<string, int>): (rows: seq<ModelUsage>)
    requires Covers(ps, used)
    ensures |rows| == |ps|
    ensures forall i :: 0 <= i < |ps| ==>
              rows[i].model == ps[i].model && rows[i].priority == ps[i].priority &&
              rows[i].usedTokens == used[ps[i].model] && rows[i].budget == ps[i].budget &&
              rows[i].remaining == ps[i].budget - used[ps[i].model]
    ensures forall i :: 0 <= i < |ps| ==> rows[i].percentage == Percentage(used[ps[i].model], ps[i].budget)
    ensures forall i :: 0 <= i < |ps| && ps[i].budget <= 0 ==> rows[i].percentage == 0.0
    ensures forall i :: 0 <= i < |ps| ==> (rows[i].remaining > 0 <==> UnderBudget(ps[i], used))
  {
    seq(|ps|, i requires 0 <= i < |ps| => RowFor(ps[i], used))
  }

  /**
   * The model the selection rule picks is the model of the first summary row
   * with tokens remaining.
   */
  lemma SelectionMatchesSummary(ps: seq<ModelPriority>, used: map<string, int>)
    requires Covers(ps, used)
    ensures var rows := SummaryRows(ps, used);
            FirstAvailable(ps, used).None? <==> forall i :: 0 <= i < |rows| ==> rows[i].remaining <= 0
    ensures var rows := SummaryRows(ps, used);
            FirstAvailable(ps, used).Some? ==>
              exists i :: 0 <= i < |rows| && rows[i].model == FirstAvailable(ps, used).value &&
                          rows[i].remaining > 0 && forall j :: 0 <= j < i ==> rows[j].remaining <= 0
  {
    var rows := SummaryRows(ps, used);
    var r := FirstAvailable(ps, used);
    if r.Some? {
      var i :| 0 <= i < |ps| && ps[i].model == r.value && UnderBudget(ps[i], used)
               && forall j :: 0 <= j < i ==> !UnderBudget(ps[j], used);
      assert rows[i].model == r.value && rows[i].remaining > 0;
    }
  }

  /** The sum of the counters of `m` over the keys `ks`. */
  ghost function SumOver(m: map<string, int>, ks: set<string>): int
    requires ks <= m.Keys
    decreases ks
  {
    if ks == {} then 0 else var k :| k in ks; m[k] + SumOver(m, ks - {k})
  }

  /** The sum does not depend on which key is taken first. */
  lemma {:induction false} SumOverRemove(m: map<string, int>, ks: set<string>, k: string)
    requires ks <= m.Keys && k in ks
    ensures SumOver(m, ks) == m[k] + SumOver(m, ks - {k})
    decreases ks
  {
    var j :| j in ks && SumOver(m, ks) == m[j] + SumOver(m, ks - {j});
    if j != k {
      SumOverRemove(m, ks - {j}, k);
      SumOverRemove(m, ks - {k}, j);
      assert ks - {j} - {k} == ks - {k} - {j};
    }
  }

  /** Two maps that agree on `ks` have the same sum over `ks`. */
  lemma {:induction false} SumOverAgree(m1: map<string, int>, m2: map<string, int>, ks: set<string>)
    requires ks <= m1.Keys && ks <= m2.Keys
    requires forall k :: k in ks ==> m1[k] == m2[k]
    ensures SumOver(m1, ks) == SumOver(m2, ks)
    decreases ks
  {
    if ks != {} {
      var k :| k in ks;
      SumOverRemove(m1, ks, k);
      SumOverRemove(m2, ks, k);
      SumOverAgree(m1, m2, ks - {k});
    }
  }

  /** Every counter at zero sums to zero. */
  lemma {:induction false} SumOverZero(m: map<string, int>, ks: set<string>)
    requires ks <= m.Keys
    requires forall k :: k in ks ==> m[k] == 0
    ensures SumOver(m, ks) == 0
    decreases ks
  {
    if ks != {} {
      var k :| k in ks;
      SumOverRemove(m, ks, k);
      SumOverZero(m, ks - {k});
    }
  }

  /** Adding `t` tokens to one known counter raises the total by exactly `t`. */
  lemma AddRaisesTotal(m: map<string, int>, k: string, t: int)
    requires k in m
    ensures SumOver(m[k := m[k] + t], m.Keys) == SumOver(m, m.Keys) + t
  {
    var m' := m[k := m[k] + t];
    assert m'.Keys == m.Keys;
    SumOverRemove(m, m.Keys, k);
    SumOverRemove(m', m.Keys, k);
    SumOverAgree(m, m', m.Keys - {k});
  }

  /**
   * `TokenTracker`: the configured entries sorted once, stably, by ascending
   * priority, and a usage counter for every configured model name.
   */
  class TokenTracker {
    var priorities: seq<ModelPriority>
    var usage: map<string, int>

    ghost predicate Valid()
      reads this
    {
      SortedByPriority(priorities) && Covers(priorities, usage) && usage.Keys == Names(priorities)
    }

    /** The total of all counters. */
    ghost function Total(): int
      reads this
    {
      SumOver(usage, usage.Keys)
    }

    /**
     * `__init__`: the entries in stable ascending priority order, every
     * configured model at 0 tokens.
     */
    constructor (input: seq<ModelPriority>)
      ensures Valid()
      ensures priorities == SortByPriority(input)
      ensures usage.Keys == Names(input)
      ensures forall name :: name in usage ==> usage[name] == 0
    {
      var sorted := SortByPriority(input);
      priorities := sorted;
      usage := ZeroUsage(sorted);
      ZeroUsageCovers(sorted);
      SortKeepsNames(input);
    }

    /**
     * `get_available_model`: the first entry, in the stored order, whose
     * usage is below its budget, or `None` when every budget is spent.
     */
    method GetAvailableModel() returns (r: Option<string>)
      requires Valid()
      ensures r == FirstAvailable(priorities, usage)
    {
      var i := 0;
      while i < |priorities|
        invariant 0 <= i <= |priorities|
        invariant FirstAvailable(priorities[i..], usage) == FirstAvailable(priorities, usage)
      {
        var p := priorities[i];
        var used := usage[p.model];
        if used < p.budget {
          return Some(p.model);
        }
        assert priorities[i..][1..] == priorities[i + 1..];
        i := i + 1;
      }
      return None;
    }

    /**
     * `add_usage`: a known model's counter grows by `tokens` and no other
     * counter changes; an unknown model leaves the counters as they are.
     */
    method AddUsage(model: string, tokens: int)
      requires Valid()
      modifies this
      ensures Valid()
      ensures priorities == old(priorities)
      ensures model in old(usage) ==> usage == old(usage)[model := old(usage)[model] + tokens]
      ensures model !in old(usage) ==> usage == old(usage)
      ensures model in old(usage) ==> Total() == old(Total()) + tokens
    {
      if model in usage {
        AddRaisesTotal(usage, model, tokens);
        usage := usage[model := usage[model] + tokens];
      }
    }

    /**
     * `get_usage_summary`: mode "priority" and one row per entry, in the
     * stored order. It changes nothing.
     */
    method GetUsageSummary() returns (r: UsageSummary)
      requires Valid()
      ensures r == UsageSummary("priority", SummaryRows(priorities, usage))
    {
      var models: seq<ModelUsage> := [];
      for i := 0 to |priorities|
        invariant models == SummaryRows(priorities[..i], usage)
      {
        var p := priorities[i];
        var used := usage[p.model];
        var remaining := p.budget - used;
        var percentage := Percentage(used, p.budget);
        assert priorities[..i + 1] == priorities[..i] + [p];
        models := models + [ModelUsage(p.model, p.priority, used, p.budget, remaining, percentage)];
      }
      assert priorities[..|priorities|] == priorities;
      r := UsageSummary("priority", models);
    }

    /** `reset`: every counter back to 0; the names and the entries are kept. */
    method Reset()
      requires Valid()
      modifies this
      ensures Valid()
      ensures priorities == old(priorities)
      ensures usage.Keys == old(usage).Keys
      ensures forall name :: name in usage ==> usage[name] == 0
      ensures Total() == 0
    {
      usage := map name | name in usage :: 0;
      SumOverZero(usage, usage.Keys);
    }

    /** `get_total_usage`: the sum of all counters. It changes nothing. */
    method GetTotalUsage() returns (total: int)
      requires Valid()
      ensures total == Total()
    {
      total := 0;
      var rest := usage.Keys;
      while rest != {}
        invariant rest <= usage.Keys
        invariant total + SumOver(usage, rest) == SumOver(usage, usage.Keys)
        decreases rest
      {
        var k :| k in rest;
        SumOverRemove(usage, rest, k);
        total := total + usage[k];
        rest := rest - {k};
      }
    }
  }

  /** Selection reads the state only, so two calls in a row agree. */
  method SelectionIsRepeatable(t: TokenTracker) returns (a: Option<string>, b: Option<string>)
    requires t.Valid()
    ensures a == b
  {
    a := t.GetAvailableModel();
    b := t.GetAvailableModel();
  }

  /**
   * A fresh tracker and a fresh `LiteLLMUtils` built from the same entries
   * select the same model.
   */
  method TrackerAgreesWithUtils(input: seq<ModelPriority>) returns (a: Option<string>, b: Option<string>)
    ensures a == b
  {
    var tracker := new TokenTracker(input);
    var utils := new LiteLLMUtils(input);
    a := tracker.GetAvailableModel();
    b := utils.GetCurrentModel();
    SortKeepsNames(input);
    assert tracker.usage == utils.tokensUsed;
  }

  /**
   * Two models: A (budget 100, priority 1) and B (budget 50, priority 2).
   * A is chosen first; B once A has used 100 tokens; nothing once B has
   * used 50 too.
   */
  method BudgetExhaustion() returns (first: Option<string>, second: Option<string>, third: Option<string>)
    ensures first == Some("A") && second == Some("B") && third == None
  {
    var a := ModelPriority("A", 100, 1);
    var b := ModelPriority("B", 50, 2);
    var t := new TokenTracker([a, b]);
    SortOrderedPair(a, b);
    assert a in [a, b] && b in [a, b];
    assert "A" in t.usage && "B" in t.usage;
    PairSelection(a, b, t.usage);
    first := t.GetAvailableModel();
    t.AddUsage("A", 100);
    PairSelection(a, b, t.usage);
    second := t.GetAvailableModel();
    t.AddUsage("B", 50);
    PairSelection(a, b, t.usage);
    third := t.GetAvailableModel();
  }

  /** Two entries already in priority order stay as they are. */
  lemma SortOrderedPair(a: ModelPriority, b: ModelPriority)
    requires a.priority <= b.priority
    ensures SortByPriority([a, b]) == [a, b]
  {
    assert [a, b][1..] == [b];
    assert Insert(b, []) == [b];
  }

  /** The selection rule on two entries. */
  lemma PairSelection(a: ModelPriority, b: ModelPriority, used: map<string, int>)
    requires a.model in used && b.model in used
    ensures FirstAvailable([a, b], used) ==
              if UnderBudget(a, used) then Some(a.model)
              else if UnderBudget(b, used) then Some(b.model)
              else None
  {
    assert [a, b][1..] == [b];
    assert [b][1..] == [];
  }

  /** After 30 tokens on a budget of 100, the row says 30 used, 70 left, 30 percent. */
  method SummaryAfterUsage() returns (s: UsageSummary)
    ensures s.mode == "priority" && |s.models| == 1
    ensures s.models[0] == ModelUsage("A", 1, 30, 100, 70, 30.0)
  {
    var t := new TokenTracker([ModelPriority("A", 100, 1)]);
    assert t.priorities == [ModelPriority("A", 100, 1)];
    t.AddUsage("A", 30);
    s := t.GetUsageSummary();
  }
}
