/**
 * The scan orchestrator: the tier of pacing settings chosen by scan size,
 * the per-symbol fetch-and-simulate task with its retry policy, the batch
 * fold that counts successes and failures, and the aggregation of the kept
 * results by exclude rules, multi-key stable sorting and top-N truncation.
 *
 * The thread pool is a sequential fold in input order; the data source, the
 * per-task timeout and the cached symbol database are inputs.
 */
module MarketScanner {
  import opened Wrappers
  import Strings
  import opened TechnicalAnalysis
  import opened TradingSimulator
  import StockFetcher
  import Requests

  // ---- Scan results and the field lookup shared by exclude and sort ----

  /** One kept symbol: its simulation with the trade log removed, under the upper-cased symbol. */
  datatype ScanResult = ScanResult(stock: string, summary: TradingSummary, statistics: Statistics)

  /** The value of a result field: a number, or a string for the two indicator names. */
  datatype FieldValue = Num(x: real) | Text(s: string)

  /** Python truthiness: zero and the empty string are false. */
  predicate Truthy(v: FieldValue) {
    match v
    case Num(x) => x != 0.0
    case Text(s) => s != []
  }

  const SummaryFields: set<string> := {
    "initial_balance", "final_balance", "total_return", "return_percentage", "total_trades",
    "success_rate", "avg_days_between_trades", "buy_indicator", "sell_indicator"}

  const StatisticsFields: set<string> := {
    "success_rate", "avg_trade_frequency", "total_profit", "total_loss", "avg_profit",
    "avg_loss", "max_profit", "max_loss", "avg_hold_days"}

  /** `trading_summary.get(field)` */
  function SummaryField(m: TradingSummary, field: string): (v: Option<FieldValue>)
    ensures v.Some? <==> field in SummaryFields
  {
    if field == "initial_balance" then Some(Num(m.initialBalance))
    else if field == "final_balance" then Some(Num(m.finalBalance))
    else if field == "total_return" then Some(Num(m.totalReturn))
    else if field == "return_percentage" then Some(Num(m.returnPercentage))
    else if field == "total_trades" then Some(Num(m.totalTrades as real))
    else if field == "success_rate" then Some(Num(m.successRate))
    else if field == "avg_days_between_trades" then Some(Num(m.avgDaysBetweenTrades))
    else if field == "buy_indicator" then Some(Text(m.buyIndicator))
    else if field == "sell_indicator" then Some(Text(m.sellIndicator))
    else None
  }

  /** `statistics.get(field)`: every statistics field is a number. */
  function StatisticsField(s: Statistics, field: string): (v: Option<FieldValue>)
    ensures v.Some? <==> field in StatisticsFields
    ensures v.Some? ==> v.value.Num?
  {
    if field == "success_rate" then Some(Num(s.successRate))
    else if field == "avg_trade_frequency" then Some(Num(s.avgTradeFrequency))
    else if field == "total_profit" then Some(Num(s.totalProfit))
    else if field == "total_loss" then Some(Num(s.totalLoss))
    else if field == "avg_profit" then Some(Num(s.avgProfit))
    else if field == "avg_loss" then Some(Num(s.avgLoss))
    else if field == "max_profit" then Some(Num(s.maxProfit))
    else if field == "max_loss" then Some(Num(s.maxLoss))
    else if field == "avg_hold_days" then Some(Num(s.avgHoldDays))
    else None
  }

  /**
   * `summary.get(field) or stats.get(field)`: the summary value when it is
   * truthy, and otherwise whatever the statistics hold, which may be nothing.
   */
  function FieldOf(r: ScanResult, field: string): (v: Option<FieldValue>)
    ensures v.Some? ==> field in SummaryFields || field in StatisticsFields
    ensures field in StatisticsFields ==> v.Some?
  {
    var fromSummary := SummaryField(r.summary, field);
    if fromSummary.Some? && Truthy(fromSummary.value) then fromSummary
    else StatisticsField(r.statistics, field)
  }

  /**
   * The lookup quirk: a field that only the summary has is missing when its
   * value is zero (or an empty name), so no rule on it can see it.
   */
  lemma FalsySummaryOnlyFieldIsMissing(r: ScanResult, field: string)
    requires field in SummaryFields && field !in StatisticsFields
    ensures FieldOf(r, field).None? <==> !Truthy(SummaryField(r.summary, field).value)
    ensures FieldOf(r, field).Some? ==> FieldOf(r, field) == SummaryField(r.summary, field)
  {
  }

  // ---- Exclude rules ----

  type ExcludeRule = Requests.ExcludeRule
  type SortRule = Requests.SortRule

  /**
   * `_evaluate_condition`: the six comparisons of a field value with the rule
   * value; any other operator gives false. A name compared with a number
   * raises for the four orderings (false), is never equal and always unequal.
   */
  function EvaluateCondition(fieldValue: FieldValue, operator: string, value: real): (b: bool)
    ensures operator !in Requests.Operators ==> !b
    ensures fieldValue.Num? ==>
      && (operator == "<" ==> (b <==> fieldValue.x < value))
      && (operator == ">" ==> (b <==> fieldValue.x > value))
      && (operator == "<=" ==> (b <==> fieldValue.x <= value))
      && (operator == ">=" ==> (b <==> fieldValue.x >= value))
      && (operator == "==" ==> (b <==> fieldValue.x == value))
      && (operator == "!=" ==> (b <==> fieldValue.x != value))
    ensures fieldValue.Text? ==> (b <==> operator == "!=")
  {
    match fieldValue
    case Num(x) =>
      if operator == "<" then x < value
      else if operator == ">" then x > value
      else if operator == "<=" then x <= value
      else if operator == ">=" then x >= value
      else if operator == "==" then x == value
      else if operator == "!=" then x != value
      else false
    case Text(_) => operator == "!="
  }

  /**
   * The operators come in complementary pairs on numbers, and equality and
   * inequality are complementary on every field value.
   */
  lemma ComplementaryOperators(v: FieldValue, value: real)
    ensures EvaluateCondition(v, "==", value) == !EvaluateCondition(v, "!=", value)
    ensures v.Num? ==> EvaluateCondition(v, "<", value) == !EvaluateCondition(v, ">=", value)
    ensures v.Num? ==> EvaluateCondition(v, ">", value) == !EvaluateCondition(v, "<=", value)
    ensures v.Text? ==> forall op :: op != "!=" ==> !EvaluateCondition(v, op, value)
  {
  }

  /** Whether a rule fires on a result: its field has a value and the comparison holds. */
  predicate Fires(r: ScanResult, rule: ExcludeRule) {
    var v := FieldOf(r, rule.field);
    v.Some? && EvaluateCondition(v.value, rule.operator, rule.value)
  }

  /** Whether some rule fires on a result. */
  predicate Excluded(r: ScanResult, rules: seq<ExcludeRule>) {
    exists k :: 0 <= k < |rules| && Fires(r, rules[k])
  }

  /** The results no rule fires on, in their original order. */
  function Survivors(results: seq<ScanResult>, rules: seq<ExcludeRule>): (r: seq<ScanResult>)
    ensures |r| <= |results|
  {
    if |results| == 0 then []
    else
      var last := results[|results| - 1];
      Survivors(results[..|results| - 1], rules) + (if Excluded(last, rules) then [] else [last])
  }

  /** A result survives exactly when it was there and no rule fires on it. */
  lemma {:induction false} SurvivorsMembers(results: seq<ScanResult>, rules: seq<ExcludeRule>, x: ScanResult)
    ensures x in Survivors(results, rules) <==> x in results && !Excluded(x, rules)
  {
    if |results| > 0 {
      var init := results[..|results| - 1];
      SurvivorsMembers(init, rules, x);
      assert results == init + [results[|results| - 1]];
    }
  }

  /** Filtering keeps order: the survivors of two runs are the survivors of each, one after the other. */
  lemma {:induction false} SurvivorsAppend(a: seq<ScanResult>, b: seq<ScanResult>, rules: seq<ExcludeRule>)
    ensures Survivors(a + b, rules) == Survivors(a, rules) + Survivors(b, rules)
    decreases |b|
  {
    if |b| == 0 {
      assert a + b == a;
    } else {
      var b' := b[..|b| - 1];
      var x := b[|b| - 1];
      var tail := if Excluded(x, rules) then [] else [x];
      assert (a + b)[..|a + b| - 1] == a + b';
      assert (a + b)[|a + b| - 1] == x;
      SurvivorsAppend(a, b', rules);
      calc {
        Survivors(a + b, rules);
        Survivors(a + b', rules) + tail;
        (Survivors(a, rules) + Survivors(b', rules)) + tail;
        Survivors(a, rules) + (Survivors(b', rules) + tail);
      }
    }
  }

  /** Without rules every result survives. */
  lemma {:induction false} NoRulesKeepAll(results: seq<ScanResult>)
    ensures Survivors(results, []) == results
  {
    if |results| > 0 {
      NoRulesKeepAll(results[..|results| - 1]);
    }
  }

  /**
   * The rule "return_percentage < 10" drops exactly the results whose return
   * is below 10 percent, except a return of exactly zero, which the lookup
   * treats as missing.
   */
  lemma ReturnBelowTenRule(r: ScanResult)
    ensures Excluded(r, [Requests.ExcludeRule("return_percentage", "<", 10.0)]) <==>
      r.summary.returnPercentage < 10.0 && r.summary.returnPercentage != 0.0
  {
    var rule := Requests.ExcludeRule("return_percentage", "<", 10.0);
    assert Excluded(r, [rule]) <==> Fires(r, rule) by {
      if Fires(r, rule) {
        assert [rule][0] == rule;
      }
    }
  }

  /**
   * `_apply_exclude_rules`: for each result, walks the rules until one
   * fires, and keeps the result when none did.
   */
  method ApplyExcludeRules(results: seq<ScanResult>, rules: seq<ExcludeRule>) returns (filtered: seq<ScanResult>)
    ensures filtered == Survivors(results, rules)
  {
    filtered := [];
    for i := 0 to |results|
      invariant filtered == Survivors(results[..i], rules)
    {
      var result := results[i];
      var exclude := false;
      var k := 0;
      while k < |rules|
        invariant 0 <= k <= |rules|
        invariant !exclude
        invariant forall j :: 0 <= j < k ==> !Fires(result, rules[j])
      {
        var rule := rules[k];
        var fieldValue := FieldOf(result, rule.field);
        if fieldValue.Some? && EvaluateCondition(fieldValue.value, rule.operator, rule.value) {
          exclude := true;
          break;
        }
        k := k + 1;
      }
      assert exclude <==> Excluded(result, rules);
      assert results[..i + 1][..i] == results[..i];
      if !exclude {
        filtered := filtered + [result];
      }
    }
    assert results[..|results|] == results;
  }

  // ---- Sorting ----

  /** Python's `<` on strings: code-point order at the first difference, a proper prefix first. */
  predicate TextBefore(a: string, b: string)
    decreases |a|
  {
    |b| > 0 && (|a| == 0 || a[0] < b[0] || (a[0] == b[0] && TextBefore(a[1..], b[1..])))
  }

  lemma {:induction false} TextBeforeIrreflexive(a: string)
    ensures !TextBefore(a, a)
  {
    if |a| > 0 {
      TextBeforeIrreflexive(a[1..]);
    }
  }

  lemma {:induction false} TextBeforeTransitive(a: string, b: string, c: string)
    requires TextBefore(a, b) && TextBefore(b, c)
    ensures TextBefore(a, c)
  {
    if |a| > 0 && a[0] == b[0] && b[0] == c[0] {
      TextBeforeTransitive(a[1..], b[1..], c[1..]);
    }
  }

  lemma {:induction false} TextBeforeTotal(a: string, b: string)
    ensures TextBefore(a, b) || a == b || TextBefore(b, a)
  {
    if |a| > 0 && |b| > 0 && a[0] == b[0] {
      TextBeforeTotal(a[1..], b[1..]);
      if a[1..] == b[1..] {
        assert a == [a[0]] + a[1..] && b == [b[0]] + b[1..];
      }
    }
  }

  /**
   * The order of two sort-key parts: numbers by value, names as Python
   * compares strings, and (where Python would raise) every number before
   * every name.
   */
  predicate ValueBefore(a: FieldValue, b: FieldValue) {
    match (a, b)
    case (Num(x), Num(y)) => x < y
    case (Text(s), Text(t)) => TextBefore(s, t)
    case (Num(_), Text(_)) => true
    case (Text(_), Num(_)) => false
  }

  lemma ValueBeforeIrreflexive(a: FieldValue)
    ensures !ValueBefore(a, a)
  {
    if a.Text? {
      TextBeforeIrreflexive(a.s);
    }
  }

  lemma ValueBeforeTransitive(a: FieldValue, b: FieldValue, c: FieldValue)
    requires ValueBefore(a, b) && ValueBefore(b, c)
    ensures ValueBefore(a, c)
  {
    if a.Text? && b.Text? && c.Text? {
      TextBeforeTransitive(a.s, b.s, c.s);
    }
  }

  lemma ValueBeforeTotal(a: FieldValue, b: FieldValue)
    ensures ValueBefore(a, b) || a == b || ValueBefore(b, a)
  {
    if a.Text? && b.Text? {
      TextBeforeTotal(a.s, b.s);
    }
  }

  /** Python's `<` on two key tuples of the same length: lexicographic. */
  predicate KeyBefore(a: seq<FieldValue>, b: seq<FieldValue>)
    decreases |a|
  {
    |a| > 0 && |b| > 0 && (ValueBefore(a[0], b[0]) || (a[0] == b[0] && KeyBefore(a[1..], b[1..])))
  }

  /** Key `a` may come before key `b`: it is smaller or equal. */
  predicate KeyAtMost(a: seq<FieldValue>, b: seq<FieldValue>) {
    a == b || KeyBefore(a, b)
  }

  lemma {:induction false} KeyBeforeIrreflexive(a: seq<FieldValue>)
    ensures !KeyBefore(a, a)
  {
    if |a| > 0 {
      ValueBeforeIrreflexive(a[0]);
      KeyBeforeIrreflexive(a[1..]);
    }
  }

  lemma {:induction false} KeyBeforeTransitive(a: seq<FieldValue>, b: seq<FieldValue>, c: seq<FieldValue>)
    requires KeyBefore(a, b) && KeyBefore(b, c)
    ensures KeyBefore(a, c)
  {
    if ValueBefore(a[0], b[0]) && ValueBefore(b[0], c[0]) {
      ValueBeforeTransitive(a[0], b[0], c[0]);
    } else if a[0] == b[0] && b[0] == c[0] {
      KeyBeforeTransitive(a[1..], b[1..], c[1..]);
    }
  }

  lemma {:induction false} KeyBeforeTotal(a: seq<FieldValue>, b: seq<FieldValue>)
    requires |a| == |b|
    ensures KeyBefore(a, b) || a == b || KeyBefore(b, a)
  {
    if |a| > 0 {
      ValueBeforeTotal(a[0], b[0]);
      if a[0] == b[0] {
        KeyBeforeTotal(a[1..], b[1..]);
        if a[1..] == b[1..] {
          assert a == [a[0]] + a[1..] && b == [b[0]] + b[1..];
        }
      }
    }
  }

  lemma KeyAtMostTransitive(a: seq<FieldValue>, b: seq<FieldValue>, c: seq<FieldValue>)
    requires KeyAtMost(a, b) && KeyAtMost(b, c)
    ensures KeyAtMost(a, c)
  {
    if KeyBefore(a, b) && KeyBefore(b, c) {
      KeyBeforeTransitive(a, b, c);
    }
  }

  /** The default rule list: return percentage, descending. */
  const DefaultSortRules: seq<SortRule> := [Requests.SortRule("return_percentage", "desc")]

  /** The rules in force: the given ones, or the default when there are none. */
  function EffectiveRules(sortRules: Option<seq<SortRule>>): (r: seq<SortRule>)
    ensures |r| > 0
    ensures sortRules.Some? && sortRules.value != [] ==> r == sortRules.value
    ensures sortRules.None? || sortRules.value == [] ==> r == [Requests.SortRule("return_percentage", "desc")]
  {
    if sortRules.None? || sortRules.value == [] then DefaultSortRules else sortRules.value
  }

  /** `summary.get(field) or stats.get(field) or 0`: the looked-up value when truthy, else zero. */
  function SortBase(r: ScanResult, field: string): (v: FieldValue)
    ensures Truthy(v) || v == Num(0.0)
    ensures FieldOf(r, field).Some? && Truthy(FieldOf(r, field).value) ==> v == FieldOf(r, field).value
    ensures !(FieldOf(r, field).Some? && Truthy(FieldOf(r, field).value)) ==> v == Num(0.0)
  {
    var v := FieldOf(r, field);
    if v.Some? && Truthy(v.value) then v.value else Num(0.0)
  }

  /** One part of the sort key: the base value, negated when the lower-cased order is "desc" and it is a number. */
  function SortPart(r: ScanResult, rule: SortRule): (v: FieldValue)
  {
    var base := SortBase(r, rule.field);
    if Strings.Lower(rule.order) == "desc" && base.Num? then Num(-base.x) else base
  }

  /** `get_sort_key`: one part per rule, in rule order. */
  function SortKey(r: ScanResult, rules: seq<SortRule>): (k: seq<FieldValue>)
    ensures |k| == |rules|
    ensures forall j :: 0 <= j < |rules| ==> k[j] == SortPart(r, rules[j])
  {
    seq(|rules|, j requires 0 <= j < |rules| => SortPart(r, rules[j]))
  }

  /** Whether `x` may precede `y` in the sorted output. */
  predicate InOrder(x: ScanResult, y: ScanResult, rules: seq<SortRule>) {
    KeyAtMost(SortKey(x, rules), SortKey(y, rules))
  }

  predicate SortedBy(xs: seq<ScanResult>, rules: seq<SortRule>) {
    forall i, j :: 0 <= i < j < |xs| ==> InOrder(xs[i], xs[j], rules)
  }

  /** Inserts `x` before the first element whose key is not smaller than its own. */
  function Insert(x: ScanResult, xs: seq<ScanResult>, rules: seq<SortRule>): (r: seq<ScanResult>)
    ensures |r| == |xs| + 1 && multiset(r) == multiset(xs) + multiset{x}
  {
    if |xs| == 0 then [x]
    else if InOrder(x, xs[0], rules) then [x] + xs
    else
      assert xs == [xs[0]] + xs[1..];
      [xs[0]] + Insert(x, xs[1..], rules)
  }

  /** `sorted(results, key=get_sort_key)`: a stable insertion sort. */
  function SortResults(xs: seq<ScanResult>, rules: seq<SortRule>): (r: seq<ScanResult>)
    ensures |r| == |xs| && multiset(r) == multiset(xs)
  {
    if |xs| == 0 then []
    else
      assert xs == [xs[0]] + xs[1..];
      Insert(xs[0], SortResults(xs[1..], rules), rules)
  }

  lemma {:induction false} InsertSorted(x: ScanResult, xs: seq<ScanResult>, rules: seq<SortRule>)
    requires SortedBy(xs, rules)
    ensures SortedBy(Insert(x, xs, rules), rules)
  {
    if |xs| > 0 {
      if InOrder(x, xs[0], rules) {
        forall j | 0 < j < |xs| ensures InOrder(x, xs[j], rules) {
          KeyAtMostTransitive(SortKey(x, rules), SortKey(xs[0], rules), SortKey(xs[j], rules));
        }
      } else {
        var rest := Insert(x, xs[1..], rules);
        InsertSorted(x, xs[1..], rules);
        KeyBeforeTotal(SortKey(x, rules), SortKey(xs[0], rules));
        forall j | 0 <= j < |rest| ensures InOrder(xs[0], rest[j], rules) {
          assert rest[j] in multiset(rest);
          if rest[j] != x {
            assert rest[j] in multiset(xs[1..]);
            var k :| 0 <= k < |xs[1..]| && xs[1..][k] == rest[j];
            assert xs[k + 1] == rest[j];
          }
        }
      }
    }
  }

  /** The results whose key is `k`, in order. */
  function WithKey(xs: seq<ScanResult>, rules: seq<SortRule>, k: seq<FieldValue>): seq<ScanResult> {
    if |xs| == 0 then []
    else (if SortKey(xs[0], rules) == k then [xs[0]] else []) + WithKey(xs[1..], rules, k)
  }

  lemma {:induction false} InsertStable(x: ScanResult, xs: seq<ScanResult>, rules: seq<SortRule>, k: seq<FieldValue>)
    ensures WithKey(Insert(x, xs, rules), rules, k) ==
      (if SortKey(x, rules) == k then [x] else []) + WithKey(xs, rules, k)
  {
    if |xs| > 0 {
      if InOrder(x, xs[0], rules) {
        assert ([x] + xs)[1..] == xs;
      } else {
        InsertStable(x, xs[1..], rules, k);
        var r := Insert(x, xs, rules);
        assert r[0] == xs[0] && r[1..] == Insert(x, xs[1..], rules);
        var head := if SortKey(xs[0], rules) == k then [xs[0]] else [];
        assert WithKey(r, rules, k) == head + WithKey(Insert(x, xs[1..], rules), rules, k);
        assert WithKey(xs, rules, k) == head + WithKey(xs[1..], rules, k);
        assert SortKey(x, rules) != SortKey(xs[0], rules);
      }
    }
  }

  /**
   * The sort is correct and stable: its output is a permutation of its
   * input, ordered by the rule keys, and the results sharing a key appear in
   * their input order.
   */
  lemma {:induction false} SortCorrect(xs: seq<ScanResult>, rules: seq<SortRule>)
    ensures multiset(SortResults(xs, rules)) == multiset(xs)
    ensures SortedBy(SortResults(xs, rules), rules)
    ensures forall k :: WithKey(SortResults(xs, rules), rules, k) == WithKey(xs, rules, k)
  {
    if |xs| > 0 {
      SortCorrect(xs[1..], rules);
      InsertSorted(xs[0], SortResults(xs[1..], rules), rules);
      forall k ensures WithKey(SortResults(xs, rules), rules, k) == WithKey(xs, rules, k) {
        InsertStable(xs[0], SortResults(xs[1..], rules), rules, k);
      }
    }
  }

  /** `_apply_sorting`: the empty list as is, otherwise sorted by the rules in force. */
  function ApplySorting(results: seq<ScanResult>, sortRules: Option<seq<SortRule>>): (r: seq<ScanResult>)
    ensures |r| == |results| && multiset(r) == multiset(results)
  {
    if |results| == 0 then results else SortResults(results, EffectiveRules(sortRules))
  }

  /** The number a result is sorted by for a numeric field: the looked-up value, zero when falsy. */
  function NumberOf(r: ScanResult, field: string): real
    requires field in StatisticsFields
  {
    SortBase(r, field).x
  }

  /** A descending rule on a field with a numeric value sorts by the negated value. */
  lemma DescendingPart(r: ScanResult, field: string)
    requires SortBase(r, field).Num?
    ensures SortPart(r, Requests.SortRule(field, "desc")) == Num(-SortBase(r, field).x)
  {
    assert Strings.Lower("desc") == "desc";
  }

  /** Two keys of two parts in order: the first parts are in order, and on a tie so are the second. */
  lemma TwoPartOrder(a: seq<FieldValue>, b: seq<FieldValue>)
    requires |a| == 2 && |b| == 2 && KeyAtMost(a, b)
    ensures a[0] == b[0] || ValueBefore(a[0], b[0])
    ensures a[0] == b[0] ==> a[1] == b[1] || ValueBefore(a[1], b[1])
  {
    if a != b && a[0] == b[0] {
      ValueBeforeIrreflexive(a[0]);
      assert KeyBefore(a[1..], b[1..]);
      assert a[1..][0] == a[1] && b[1..][0] == b[1];
    }
  }

  /**
   * With the rules "success_rate desc, return_percentage desc", the output
   * runs by decreasing success rate, and results with equal success rates by
   * decreasing return.
   */
  lemma SuccessThenReturnDescending(results: seq<ScanResult>, i: nat, j: nat)
    requires i < j < |results|
    ensures var rules := [Requests.SortRule("success_rate", "desc"), Requests.SortRule("return_percentage", "desc")];
      var out := ApplySorting(results, Some(rules));
      && NumberOf(out[i], "success_rate") >= NumberOf(out[j], "success_rate")
      && (NumberOf(out[i], "success_rate") == NumberOf(out[j], "success_rate") ==>
            SortBase(out[i], "return_percentage").x >= SortBase(out[j], "return_percentage").x)
  {
    var rules := [Requests.SortRule("success_rate", "desc"), Requests.SortRule("return_percentage", "desc")];
    var out := SortResults(results, rules);
    SortCorrect(results, rules);
    var x, y := out[i], out[j];
    assert InOrder(x, y, rules);
    var a, b := SortKey(x, rules), SortKey(y, rules);
    ReturnIsNumber(x);
    ReturnIsNumber(y);
    DescendingPart(x, "success_rate");
    DescendingPart(y, "success_rate");
    DescendingPart(x, "return_percentage");
    DescendingPart(y, "return_percentage");
    TwoPartOrder(a, b);
  }

  lemma ReturnIsNumber(r: ScanResult)
    ensures SortBase(r, "return_percentage").Num? && SortBase(r, "success_rate").Num?
  {
  }

  // ---- Top-N and the response ----

  /** `results[:top_n]` when `top_n` is positive; everything otherwise. */
  function TopN(results: seq<ScanResult>, topN: int): (r: seq<ScanResult>)
    ensures topN > 0 ==> |r| == if topN < |results| then topN else |results|
    ensures topN <= 0 ==> r == results
    ensures r == results[..|r|]
  {
    if topN > 0 && topN < |results| then results[..topN] else results
  }

  /** `[r["stock"] for r in results]` */
  function StocksOf(results: seq<ScanResult>): (r: seq<string>)
    ensures |r| == |results| && forall i :: 0 <= i < |results| ==> r[i] == results[i].stock
  {
    seq(|results|, i requires 0 <= i < |results| => results[i].stock)
  }

  datatype ScanCriteria = ScanCriteria(buyIndicator: string, sellIndicator: string, period: string,
                                       interval: string, minTrades: int)

  datatype ScanSummary = ScanSummary(totalStocksScanned: nat, successfulScans: nat, failedScans: nat,
                                     stocksAfterFilters: nat, criteria: ScanCriteria)

  /** What `scan` returns without an error. */
  datatype ScanResponse = ScanResponse(summary: ScanSummary, topStocks: seq<string>, topResults: seq<ScanResult>)

  // ---- Pacing tiers ----

  const DefaultRateLimitDelay: real := 0.1
  const DefaultMaxWorkers: nat := 20
  const DefaultBatchSize: nat := 50

  /** The three pacing settings: the delay before each request, the worker count and the batch size. */
  datatype Pacing = Pacing(rateLimitDelay: real, maxWorkers: nat, batchSize: nat)

  /** The settings `_adjust_rate_limiting` picks for a scan of `numStocks` symbols. */
  function TierFor(numStocks: int): (p: Pacing)
    ensures p.batchSize > 0 && p.maxWorkers > 0 && p.rateLimitDelay > 0.0
    ensures numStocks > 1000 ==> p == Pacing(0.2, 10, 25)
    ensures 500 < numStocks <= 1000 ==> p == Pacing(0.15, 15, 35)
    ensures numStocks <= 500 ==> p == Pacing(DefaultRateLimitDelay, DefaultMaxWorkers, DefaultBatchSize)
  {
    if numStocks > 1000 then Pacing(0.2, 10, 25)
    else if numStocks > 500 then Pacing(0.15, 15, 35)
    else Pacing(DefaultRateLimitDelay, DefaultMaxWorkers, DefaultBatchSize)
  }

  /** A larger scan is never paced more eagerly: no shorter delay, no more workers, no larger batches. */
  lemma TierMonotone(m: int, n: int)
    requires m <= n
    ensures TierFor(m).rateLimitDelay <= TierFor(n).rateLimitDelay
    ensures TierFor(m).maxWorkers >= TierFor(n).maxWorkers
    ensures TierFor(m).batchSize >= TierFor(n).batchSize
  {
  }

  // ---- Batches ----

  /** `stocks[i:i + size]` for `i` in `range(0, len(stocks), size)`. */
  function Batches(stocks: seq<string>, size: nat): seq<seq<string>>
    requires size > 0
  {
    BatchesFrom(stocks, size, 0)
  }

  /** The batches that start at `from`, `from + size`, ... */
  function BatchesFrom(stocks: seq<string>, size: nat, from: nat): seq<seq<string>>
    requires size > 0 && from <= |stocks|
    decreases |stocks| - from
  {
    if from == |stocks| then []
    else
      var end := if from + size < |stocks| then from + size else |stocks|;
      [stocks[from..end]] + BatchesFrom(stocks, size, end)
  }

  function Concat(batches: seq<seq<string>>): seq<string> {
    if |batches| == 0 then [] else batches[0] + Concat(batches[1..])
  }

  /**
   * The batches cover the symbols exactly once and in order; each holds at
   * least one and at most `size` symbols, and all but the last exactly `size`.
   */
  lemma BatchesPartition(stocks: seq<string>, size: nat)
    requires size > 0
    ensures Concat(Batches(stocks, size)) == stocks
    ensures forall k :: 0 <= k < |Batches(stocks, size)| ==> 0 < |Batches(stocks, size)[k]| <= size
    ensures forall k :: 0 <= k < |Batches(stocks, size)| - 1 ==> |Batches(stocks, size)[k]| == size
  {
    BatchesFromPartition(stocks, size, 0);
  }

  lemma {:induction false} BatchesFromPartition(stocks: seq<string>, size: nat, from: nat)
    requires size > 0 && from <= |stocks|
    ensures Concat(BatchesFrom(stocks, size, from)) == stocks[from..]
    ensures forall k :: 0 <= k < |BatchesFrom(stocks, size, from)| ==> 0 < |BatchesFrom(stocks, size, from)[k]| <= size
    ensures forall k :: 0 <= k < |BatchesFrom(stocks, size, from)| - 1 ==> |BatchesFrom(stocks, size, from)[k]| == size
    decreases |stocks| - from
  {
    if from < |stocks| {
      var end := if from + size < |stocks| then from + size else |stocks|;
      var rest := BatchesFrom(stocks, size, end);
      BatchesFromPartition(stocks, size, end);
      var b := BatchesFrom(stocks, size, from);
      assert b == [stocks[from..end]] + rest;
      assert b[1..] == rest;
      assert stocks[from..] == stocks[from..end] + stocks[end..];
      if end == |stocks| {
        assert rest == [];
      }
      forall k | 0 < k < |b| ensures 0 < |b[k]| <= size && (k < |b| - 1 ==> |b[k]| == size) {
        assert b[k] == rest[k - 1];
      }
    }
  }

  // ---- One symbol: fetch with retry, then simulate ----

  /** A bar series whose opening and closing prices are positive, as the data source delivers them. */
  type PricedBars = bars: seq<Bar> | PositivePrices(bars)

  /** What one fetch attempt yields: the bars, or the message of the exception it raised. */
  datatype Fetch = Fetched(bars: PricedBars) | Raised(message: string)

  /** The data source: symbol, period, interval and attempt number to what that attempt yields. */
  type Source = (string, string, string, nat) -> Fetch

  /**
   * What every symbol of one scan shares: the data source, the EMA of the
   * indicator engine, the strategy parameters, and which per-symbol tasks
   * outlive the thirty-second timeout.
   */
  datatype ScanConfig = ScanConfig(
    source: Source, ema: Ema, buyIndicator: string, sellIndicator: string, period: string, interval: string,
    buyThreshold: Option<real>, sellThreshold: Option<real>, timedOut: string -> bool)

  datatype ScanError =
    | InsufficientData
    | SimulationFailed(message: string)
    | FetchFailed(message: string)
    | AttemptsExhausted

  /** The result of `_scan_single_stock`: a result without its trade log, or an error. */
  datatype Outcome = Scanned(result: ScanResult) | Failed(error: ScanError)

  /** An exception message that reads like upstream throttling. */
  predicate IsThrottle(message: string) {
    var low := Strings.Lower(message);
    Strings.Contains(low, "rate limit") || Strings.Contains(low, "too many requests")
  }

  function FetchAt(cfg: ScanConfig, symbol: string, attempt: nat): Fetch {
    cfg.source(symbol, cfg.period, cfg.interval, attempt)
  }

  /** The outcome of the fetched bars: too few, a failed simulation, or the result under the upper-cased symbol. */
  function Evaluate(cfg: ScanConfig, symbol: string, bars: PricedBars): Outcome
    requires LengthPreserving(cfg.ema)
  {
    if |bars| < MinBars then Failed(InsufficientData)
    else
      match SimulationOf(bars, cfg.ema, cfg.buyIndicator, cfg.sellIndicator, cfg.buyThreshold, cfg.sellThreshold)
      case Err(e) => Failed(SimulationFailed(e))
      case Ok(sim) => Scanned(ScanResult(Strings.Upper(symbol), sim.summary, sim.statistics))
  }

  /** Where the retry loop stops: with fetched bars, with an error, or (never, in fact) out of attempts. */
  datatype Settlement = Data(bars: PricedBars) | Error(message: string) | Exhausted

  /** The retry loop from attempt `attempt` on: a throttle before the last attempt tries again. */
  function Settle(cfg: ScanConfig, maxRetries: nat, symbol: string, attempt: nat): Settlement
    decreases maxRetries - attempt
  {
    if attempt >= maxRetries then Exhausted
    else
      match FetchAt(cfg, symbol, attempt)
      case Raised(message) =>
        if IsThrottle(message) && attempt < maxRetries - 1 then Settle(cfg, maxRetries, symbol, attempt + 1)
        else Error(message)
      case Fetched(bars) => Data(bars)
  }

  /** What the stop of the retry loop makes of the symbol. */
  function OutcomeOf(cfg: ScanConfig, symbol: string, s: Settlement): Outcome
    requires LengthPreserving(cfg.ema)
  {
    match s
    case Data(bars) => Evaluate(cfg, symbol, bars)
    case Error(message) => Failed(FetchFailed(message))
    case Exhausted => Failed(AttemptsExhausted)
  }

  /** `_scan_single_stock` as a function of the source. */
  function SingleStockOutcome(cfg: ScanConfig, maxRetries: nat, symbol: string): Outcome
    requires LengthPreserving(cfg.ema)
  {
    OutcomeOf(cfg, symbol, Settle(cfg, maxRetries, symbol, 0))
  }

  /** Attempts `from` up to `upto` (excluded) all raised a throttling error. */
  predicate ThrottledFrom(cfg: ScanConfig, symbol: string, from: nat, upto: nat) {
    forall a :: from <= a < upto ==> FetchAt(cfg, symbol, a).Raised? && IsThrottle(FetchAt(cfg, symbol, a).message)
  }

  /**
   * The loop may stop at attempt `a` with `s`: the attempt fetched those
   * bars, or it raised that error and the error is not a throttle or the
   * attempt is the last one.
   */
  predicate StopsAt(cfg: ScanConfig, maxRetries: nat, symbol: string, a: nat, s: Settlement) {
    match FetchAt(cfg, symbol, a)
    case Fetched(bars) => s == Data(bars)
    case Raised(message) => s == Error(message) && (!IsThrottle(message) || a == maxRetries - 1)
  }

  /**
   * Throttled attempts are skipped: after a run of them the loop goes on at
   * the next attempt, as long as it is within the attempt cap.
   */
  lemma {:induction false} ThrottlesRetried(cfg: ScanConfig, maxRetries: nat, symbol: string, attempt: nat, next: nat)
    requires attempt <= next < maxRetries && ThrottledFrom(cfg, symbol, attempt, next)
    ensures Settle(cfg, maxRetries, symbol, attempt) == Settle(cfg, maxRetries, symbol, next)
    decreases next - attempt
  {
    if attempt < next {
      ThrottlesRetried(cfg, maxRetries, symbol, attempt + 1, next);
    }
  }

  /**
   * The loop stops at the first attempt within the cap that is not a
   * retryable throttle, every attempt before it having been throttled; so the
   * attempt cap itself never ends it (the source's final "failed after all
   * attempts" return is dead code).
   */
  lemma {:induction false} SettleStops(cfg: ScanConfig, maxRetries: nat, symbol: string, attempt: nat)
    requires attempt < maxRetries
    ensures Settle(cfg, maxRetries, symbol, attempt) != Exhausted
    ensures exists a :: (attempt <= a < maxRetries && ThrottledFrom(cfg, symbol, attempt, a) &&
      StopsAt(cfg, maxRetries, symbol, a, Settle(cfg, maxRetries, symbol, attempt)))
    decreases maxRetries - attempt
  {
    var s := Settle(cfg, maxRetries, symbol, attempt);
    match FetchAt(cfg, symbol, attempt)
    case Raised(message) =>
      if IsThrottle(message) && attempt < maxRetries - 1 {
        SettleStops(cfg, maxRetries, symbol, attempt + 1);
        var a :| attempt + 1 <= a < maxRetries && ThrottledFrom(cfg, symbol, attempt + 1, a) &&
          StopsAt(cfg, maxRetries, symbol, a, s);
        assert ThrottledFrom(cfg, symbol, attempt, a);
      } else {
        assert StopsAt(cfg, maxRetries, symbol, attempt, s);
      }
    case Fetched(bars) =>
      assert StopsAt(cfg, maxRetries, symbol, attempt, s);
  }

  /** A scanned symbol's result is its simulation under the upper-cased symbol. */
  lemma ScannedResult(cfg: ScanConfig, maxRetries: nat, symbol: string)
    requires LengthPreserving(cfg.ema)
    requires SingleStockOutcome(cfg, maxRetries, symbol).Scanned?
    ensures var s := Settle(cfg, maxRetries, symbol, 0);
      && s.Data? && |s.bars| >= MinBars
      && var sim := SimulationOf(s.bars, cfg.ema, cfg.buyIndicator, cfg.sellIndicator, cfg.buyThreshold, cfg.sellThreshold);
      && sim.Ok?
      && SingleStockOutcome(cfg, maxRetries, symbol).result ==
           ScanResult(Strings.Upper(symbol), sim.value.summary, sim.value.statistics)
  {
  }

  /** Whether a symbol's task ends in a kept result: no timeout, no error, and enough trades. */
  function Verdict(cfg: ScanConfig, maxRetries: nat, minTrades: int, symbol: string): (v: Option<ScanResult>)
    requires LengthPreserving(cfg.ema)
  {
    if cfg.timedOut(symbol) then None
    else
      match SingleStockOutcome(cfg, maxRetries, symbol)
      case Scanned(r) => if r.summary.totalTrades >= minTrades then Some(r) else None
      case Failed(_) => None
  }

  /** The kept results of a run of symbols, in symbol order. */
  function Kept(cfg: ScanConfig, maxRetries: nat, minTrades: int, stocks: seq<string>): (r: seq<ScanResult>)
    requires LengthPreserving(cfg.ema)
    ensures |r| <= |stocks|
  {
    Collect(symbol => Verdict(cfg, maxRetries, minTrades, symbol), stocks)
  }

  /** Scanning a prefix and then the next slice keeps what scanning the longer prefix keeps. */
  lemma KeptStep(cfg: ScanConfig, maxRetries: nat, minTrades: int, stocks: seq<string>, i: nat, end: nat)
    requires LengthPreserving(cfg.ema) && i <= end <= |stocks|
    ensures Kept(cfg, maxRetries, minTrades, stocks[..end])
         == Kept(cfg, maxRetries, minTrades, stocks[..i]) + Kept(cfg, maxRetries, minTrades, stocks[i..end])
  {
    assert stocks[..end] == stocks[..i] + stocks[i..end];
    KeptAppend(cfg, maxRetries, minTrades, stocks[..i], stocks[i..end]);
  }

  /** Keeping is symbol by symbol: the kept results of two runs are those of each, in order. */
  lemma KeptAppend(cfg: ScanConfig, maxRetries: nat, minTrades: int, a: seq<string>, b: seq<string>)
    requires LengthPreserving(cfg.ema)
    ensures Kept(cfg, maxRetries, minTrades, a + b) == Kept(cfg, maxRetries, minTrades, a) + Kept(cfg, maxRetries, minTrades, b)
  {
    CollectAppend(symbol => Verdict(cfg, maxRetries, minTrades, symbol), a, b);
  }

  /**
   * Every kept result comes from a symbol of the run whose task did not time
   * out and was scanned without error, and it has at least `minTrades` trades.
   */
  lemma KeptMembers(cfg: ScanConfig, maxRetries: nat, minTrades: int, stocks: seq<string>, x: ScanResult)
    requires LengthPreserving(cfg.ema)
    requires x in Kept(cfg, maxRetries, minTrades, stocks)
    ensures x.summary.totalTrades >= minTrades
    ensures exists k :: (0 <= k < |stocks| && !cfg.timedOut(stocks[k]) &&
      SingleStockOutcome(cfg, maxRetries, stocks[k]) == Scanned(x))
  {
    var verdict := symbol => Verdict(cfg, maxRetries, minTrades, symbol);
    CollectMembers(verdict, stocks, x);
    var k :| 0 <= k < |stocks| && verdict(stocks[k]) == Some(x);
    assert Verdict(cfg, maxRetries, minTrades, stocks[k]) == Some(x);
  }


  /**
   * Conversely, a symbol of the run whose task did not time out, was scanned
   * without error and has at least `minTrades` trades has its result kept.
   */
  lemma KeptComplete(cfg: ScanConfig, maxRetries: nat, minTrades: int, stocks: seq<string>, k: nat)
    requires LengthPreserving(cfg.ema) && k < |stocks| && !cfg.timedOut(stocks[k])
    requires SingleStockOutcome(cfg, maxRetries, stocks[k]).Scanned?
    requires SingleStockOutcome(cfg, maxRetries, stocks[k]).result.summary.totalTrades >= minTrades
    ensures SingleStockOutcome(cfg, maxRetries, stocks[k]).result in Kept(cfg, maxRetries, minTrades, stocks)
  {
    var verdict := symbol => Verdict(cfg, maxRetries, minTrades, symbol);
    var x := SingleStockOutcome(cfg, maxRetries, stocks[k]).result;
    assert verdict(stocks[k]) == Some(x);
    CollectMembers(verdict, stocks, x);
  }

  /** A single symbol keeps its result exactly when it qualifies, and nothing otherwise. */
  lemma KeptOne(cfg: ScanConfig, maxRetries: nat, minTrades: int, symbol: string)
    requires LengthPreserving(cfg.ema)
    ensures var o := SingleStockOutcome(cfg, maxRetries, symbol);
      Kept(cfg, maxRetries, minTrades, [symbol]) ==
        if !cfg.timedOut(symbol) && o.Scanned? && o.result.summary.totalTrades >= minTrades then [o.result] else []
  {
    assert [symbol][..0] == [];
  }

  // ---- The whole scan as a function ----

  const InvalidBuyIndicator: string := "Invalid buy indicator. Must be one of: ['macd', 'kdj']"
  const InvalidSellIndicator: string := "Invalid sell indicator. Must be one of: ['macd', 'kdj']"
  const NoStocksToScan: string := "No stocks to scan"

  /** `_get_stocks_to_scan`: the explicit list if non-empty, else the requested categories, else the large caps. */
  function StocksToScan(db: StockFetcher.Database, stockList: Option<seq<string>>, marketCap: Option<seq<string>>): seq<string> {
    if stockList.Some? && stockList.value != [] then stockList.value
    else if marketCap.Some? && marketCap.value != [] then StockFetcher.Dedup(StockFetcher.Requested(db, marketCap.value))
    else StockFetcher.LargeCapStocks(db)
  }

  /** The exclude step, applied only when there are rules. */
  function Filtered(results: seq<ScanResult>, excludeRules: Option<seq<ExcludeRule>>): seq<ScanResult> {
    if excludeRules.Some? && excludeRules.value != [] then Survivors(results, excludeRules.value) else results
  }

  /** `scan` over the candidate set: validation, the scan of every symbol, then exclude, sort and top-N. */
  function ScanOf(db: StockFetcher.Database, cfg: ScanConfig, maxRetries: nat, minTrades: int,
                  stockList: Option<seq<string>>, marketCap: Option<seq<string>>, topN: int,
                  excludeRules: Option<seq<ExcludeRule>>, sortRules: Option<seq<SortRule>>): (r: Result<ScanResponse>)
    requires LengthPreserving(cfg.ema)
  {
    if Strings.Lower(cfg.buyIndicator) !in Requests.Indicators then Err(InvalidBuyIndicator)
    else if Strings.Lower(cfg.sellIndicator) !in Requests.Indicators then Err(InvalidSellIndicator)
    else
      var stocks := StocksToScan(db, stockList, marketCap);
      if |stocks| == 0 then Err(NoStocksToScan)
      else
        Ok(Respond(cfg, minTrades, stocks, Kept(cfg, maxRetries, minTrades, stocks), topN, excludeRules, sortRules))
  }

  /** The response once the candidates are scanned: filter, sort, truncate, count. */
  function Respond(cfg: ScanConfig, minTrades: int, stocks: seq<string>, kept: seq<ScanResult>, topN: int,
                   excludeRules: Option<seq<ExcludeRule>>, sortRules: Option<seq<SortRule>>): ScanResponse
    requires |kept| <= |stocks|
  {
    var top := TopN(ApplySorting(Filtered(kept, excludeRules), sortRules), topN);
    var criteria := ScanCriteria(cfg.buyIndicator, cfg.sellIndicator, cfg.period, cfg.interval, minTrades);
    ScanResponse(ScanSummary(|stocks|, |kept|, |stocks| - |kept|, |top|, criteria), StocksOf(top), top)
  }

  /**
   * What a scan promises: an error exactly for an unknown indicator or an
   * empty candidate set; otherwise every candidate is counted once as a
   * success or a failure, the returned results are kept results no exclude
   * rule fires on, ordered by the rules in force, at most `top_n` of them,
   * and the listed stocks are their symbols in the same order.
   */
  lemma ScanPromises(db: StockFetcher.Database, cfg: ScanConfig, maxRetries: nat, minTrades: int,
                     stockList: Option<seq<string>>, marketCap: Option<seq<string>>, topN: int,
                     excludeRules: Option<seq<ExcludeRule>>, sortRules: Option<seq<SortRule>>)
    requires LengthPreserving(cfg.ema)
    ensures var r := ScanOf(db, cfg, maxRetries, minTrades, stockList, marketCap, topN, excludeRules, sortRules);
      && (r.Err? <==>
            Strings.Lower(cfg.buyIndicator) !in Requests.Indicators ||
            Strings.Lower(cfg.sellIndicator) !in Requests.Indicators ||
            StocksToScan(db, stockList, marketCap) == [])
      && (r.Ok? ==>
            var m := r.value.summary;
            && m.totalStocksScanned == |StocksToScan(db, stockList, marketCap)|
            && m.successfulScans + m.failedScans == m.totalStocksScanned
            && m.stocksAfterFilters == |r.value.topResults|
            && r.value.topStocks == StocksOf(r.value.topResults)
            && (topN > 0 ==> |r.value.topResults| <= topN)
            && SortedBy(r.value.topResults, EffectiveRules(sortRules))
            && (forall x :: x in r.value.topResults ==>
                  x.summary.totalTrades >= minTrades &&
                  x in Kept(cfg, maxRetries, minTrades, StocksToScan(db, stockList, marketCap)) &&
                  (excludeRules.Some? ==> !Excluded(x, excludeRules.value)))
            && var left := Filtered(Kept(cfg, maxRetries, minTrades, StocksToScan(db, stockList, marketCap)), excludeRules);
               var rules := EffectiveRules(sortRules);
               && |r.value.topResults| == (if topN > 0 && topN < |left| then topN else |left|)
               && multiset(r.value.topResults) <= multiset(left)
               && (forall x, y :: x in r.value.topResults && y in left && y !in r.value.topResults ==>
                     !KeyBefore(SortKey(y, rules), SortKey(x, rules))))
  {
    var r := ScanOf(db, cfg, maxRetries, minTrades, stockList, marketCap, topN, excludeRules, sortRules);
    if r.Ok? {
      var stocks := StocksToScan(db, stockList, marketCap);
      var kept := Kept(cfg, maxRetries, minTrades, stocks);
      assert r.value == Respond(cfg, minTrades, stocks, kept, topN, excludeRules, sortRules);
      RespondPromises(cfg, minTrades, stocks, kept, topN, excludeRules, sortRules);
      forall x | x in r.value.topResults
        ensures x.summary.totalTrades >= minTrades
      {
        KeptMembers(cfg, maxRetries, minTrades, stocks, x);
      }
    }
  }

  /**
   * In a sorted list, an element past a prefix never sorts strictly before an
   * element of the prefix.
   */
  lemma NotBeforeReturned(sorted: seq<ScanResult>, top: seq<ScanResult>, rules: seq<SortRule>, x: ScanResult, y: ScanResult)
    requires SortedBy(sorted, rules) && |top| <= |sorted| && top == sorted[..|top|]
    requires x in top && y in sorted && y !in top
    ensures !KeyBefore(SortKey(y, rules), SortKey(x, rules))
  {
    var i :| 0 <= i < |top| && top[i] == x;
    var j :| 0 <= j < |sorted| && sorted[j] == y;
    assert forall t :: 0 <= t < |top| ==> top[t] == sorted[t];
    assert j >= |top|;
    assert InOrder(sorted[i], sorted[j], rules);
    var kx, ky := SortKey(x, rules), SortKey(y, rules);
    if KeyBefore(ky, kx) {
      if kx != ky {
        KeyBeforeTransitive(kx, ky, kx);
      }
      KeyBeforeIrreflexive(kx);
    }
  }

  /**
   * The selection is complete: `top_n` of the survivors (all when there are
   * fewer, or when `top_n` is not positive), drawn from them, and no survivor
   * left out sorts strictly before one that was returned.
   */
  lemma SelectionComplete(left: seq<ScanResult>, topN: int, sortRules: Option<seq<SortRule>>)
    ensures var top := TopN(ApplySorting(left, sortRules), topN);
      var rules := EffectiveRules(sortRules);
      && |top| == (if topN > 0 && topN < |left| then topN else |left|)
      && multiset(top) <= multiset(left)
      && (forall x, y :: x in top && y in left && y !in top ==>
            !KeyBefore(SortKey(y, rules), SortKey(x, rules)))
  {
    var sorted := ApplySorting(left, sortRules);
    var top := TopN(sorted, topN);
    var rules := EffectiveRules(sortRules);
    ApplySortingSorted(left, sortRules);
    assert sorted == top + sorted[|top|..];
    forall x, y | x in top && y in left && y !in top
      ensures !KeyBefore(SortKey(y, rules), SortKey(x, rules))
    {
      assert y in multiset(sorted);
      NotBeforeReturned(sorted, top, rules, x, y);
    }
  }

  /** The sorted results are in order under the rules in force. */
  lemma ApplySortingSorted(left: seq<ScanResult>, sortRules: Option<seq<SortRule>>)
    ensures SortedBy(ApplySorting(left, sortRules), EffectiveRules(sortRules))
  {
    if |left| > 0 {
      SortCorrect(left, EffectiveRules(sortRules));
    }
  }

  /** The response over any kept results: counts that add up, and a sorted, filtered, truncated selection of them. */
  lemma RespondPromises(cfg: ScanConfig, minTrades: int, stocks: seq<string>, kept: seq<ScanResult>, topN: int,
                        excludeRules: Option<seq<ExcludeRule>>, sortRules: Option<seq<SortRule>>)
    requires |kept| <= |stocks|
    ensures var r := Respond(cfg, minTrades, stocks, kept, topN, excludeRules, sortRules);
      && r.summary.totalStocksScanned == |stocks|
      && r.summary.successfulScans == |kept|
      && r.summary.successfulScans + r.summary.failedScans == |stocks|
      && r.summary.stocksAfterFilters == |r.topResults|
      && r.topStocks == StocksOf(r.topResults)
      && (topN > 0 ==> |r.topResults| <= topN)
      && SortedBy(r.topResults, EffectiveRules(sortRules))
      && (forall x :: x in r.topResults ==>
            x in kept && (excludeRules.Some? ==> !Excluded(x, excludeRules.value)))
      && var left := Filtered(kept, excludeRules);
         var rules := EffectiveRules(sortRules);
         && |r.topResults| == (if topN > 0 && topN < |left| then topN else |left|)
         && multiset(r.topResults) <= multiset(left)
         && (forall x, y :: x in r.topResults && y in left && y !in r.topResults ==>
               !KeyBefore(SortKey(y, rules), SortKey(x, rules)))
  {
    var filtered := Filtered(kept, excludeRules);
    var sorted := ApplySorting(filtered, sortRules);
    var top := TopN(sorted, topN);
    if |filtered| > 0 {
      SortCorrect(filtered, EffectiveRules(sortRules));
    }
    assert SortedBy(sorted, EffectiveRules(sortRules));
    SelectionComplete(filtered, topN, sortRules);
    forall x | x in top
      ensures x in kept
      ensures excludeRules.Some? ==> !Excluded(x, excludeRules.value)
    {
      assert x in multiset(sorted);
      assert x in filtered;
      if excludeRules.Some? && excludeRules.value != [] {
        SurvivorsMembers(kept, excludeRules.value, x);
      }
    }
  }

  // ---- The criteria vocabulary ----

  const CriteriaIndicators: seq<string> := ["macd", "kdj"]
  const CriteriaPeriods: seq<string> := ["1mo", "3mo", "6mo", "1y", "2y"]
  const CriteriaIntervals: seq<string> := ["1d", "1wk"]
  const CriteriaMarketCaps: seq<string> := ["mega_cap", "large_cap", "mid_cap", "small_cap", "micro_cap", "all"]
  const SortableFields: seq<string> := [
    "return_percentage", "success_rate", "total_trades", "avg_days_between_trades", "final_balance",
    "total_return", "avg_profit", "avg_loss", "max_profit", "max_loss"]
  const ExcludeOperators: seq<string> := ["<", ">", "<=", ">=", "==", "!="]

  /**
   * The advertised vocabulary against the request validators: indicators,
   * market caps and operators agree, but the validators also accept the
   * period "5y" and the interval "1mo", which the advertised lists lack. Every
   * advertised sortable field is one the lookup knows.
   */
  lemma VocabularyAgainstValidators()
    ensures CriteriaIndicators == Requests.Indicators && CriteriaMarketCaps == Requests.MarketCaps
    ensures ExcludeOperators == Requests.Operators
    ensures forall p :: p in CriteriaPeriods ==> p in Requests.Periods
    ensures forall i :: i in CriteriaIntervals ==> i in Requests.Intervals
    ensures "5y" in Requests.Periods && "5y" !in CriteriaPeriods
    ensures "1mo" in Requests.Intervals && "1mo" !in CriteriaIntervals
    ensures forall f :: f in SortableFields ==> f in SummaryFields || f in StatisticsFields
  {
  }

  // ---- The scanner object ----

  /** The scanner: its pacing settings, which `scan` adjusts to the size of each scan, and its retry policy. */
  class Scanner {
    var maxWorkers: nat
    var batchSize: nat
    var rateLimitDelay: real
    const timeout: nat := 30
    const maxRetries: nat := 3
    const retryDelay: real := 2.0

    function PacingOf(): Pacing
      reads this
    {
      Pacing(rateLimitDelay, maxWorkers, batchSize)
    }

    ghost predicate Valid()
      reads this
    {
      batchSize > 0 && maxWorkers > 0
    }

    /** The settings defaults: 0.1 seconds between requests, 20 workers, batches of 50. */
    constructor ()
      ensures Valid() && PacingOf() == Pacing(DefaultRateLimitDelay, DefaultMaxWorkers, DefaultBatchSize)
    {
      maxWorkers := DefaultMaxWorkers;
      batchSize := DefaultBatchSize;
      rateLimitDelay := DefaultRateLimitDelay;
    }

    /** `_adjust_rate_limiting`: the three settings become those of the size tier, nothing else changes. */
    method AdjustRateLimiting(numStocks: int)
      modifies this
      ensures Valid() && PacingOf() == TierFor(numStocks)
    {
      if numStocks > 1000 {
        rateLimitDelay := 0.2;
        maxWorkers := 10;
        batchSize := 25;
      } else if numStocks > 500 {
        rateLimitDelay := 0.15;
        maxWorkers := 15;
        batchSize := 35;
      } else {
        rateLimitDelay := DefaultRateLimitDelay;
        maxWorkers := DefaultMaxWorkers;
        batchSize := DefaultBatchSize;
      }
    }

    /**
     * `_scan_single_stock`: up to `maxRetries` attempts, retrying only a
     * throttling error before the last attempt; too few bars and every other
     * error end it at once; a simulation is returned under the upper-cased
     * symbol without its trade log. The pacing and backoff sleeps are delays only.
     */
    method ScanSingleStock(symbol: string, cfg: ScanConfig) returns (o: Outcome)
      requires LengthPreserving(cfg.ema)
      ensures o == SingleStockOutcome(cfg, maxRetries, symbol)
    {
      for attempt := 0 to maxRetries
        invariant Settle(cfg, maxRetries, symbol, attempt) == Settle(cfg, maxRetries, symbol, 0)
      {
        var fetched := cfg.source(symbol, cfg.period, cfg.interval, attempt);
        match fetched
        case Raised(message) =>
          var errorMsg := Strings.Lower(message);
          if Strings.Contains(errorMsg, "rate limit") || Strings.Contains(errorMsg, "too many requests") {
            if attempt < maxRetries - 1 {
              continue;
            }
          }
          return Failed(FetchFailed(message));
        case Fetched(bars) =>
          if |bars| == 0 || |bars| < MinBars {
            return Failed(InsufficientData);
          }
          var result := Simulate(bars, cfg.ema, cfg.buyIndicator, cfg.sellIndicator, cfg.buyThreshold, cfg.sellThreshold);
          // enough bars, so the simulation succeeds
          assert result.Ok?;
          return Scanned(ScanResult(Strings.Upper(symbol), result.value.summary, result.value.statistics));
      }
      o := Failed(AttemptsExhausted);
    }

    /**
     * `_scan_batch`, with the worker pool as a fold in symbol order: each
     * symbol adds one to the successes (and its result to the list) when its
     * task finished in time, without error and with at least `minTrades`
     * trades, and one to the failures otherwise.
     */
    method ScanBatch(stocks: seq<string>, cfg: ScanConfig, minTrades: int)
      returns (results: seq<ScanResult>, successful: nat, failed: nat)
      requires LengthPreserving(cfg.ema)
      ensures results == Kept(cfg, maxRetries, minTrades, stocks)
      ensures successful == |results| && successful + failed == |stocks|
    {
      results, successful, failed := [], 0, 0;
      for i := 0 to |stocks|
        invariant results == Kept(cfg, maxRetries, minTrades, stocks[..i])
        invariant successful == |results| && successful + failed == i
      {
        var symbol := stocks[i];
        assert stocks[..i + 1][..i] == stocks[..i];
        var outcome := ScanSingleStock(symbol, cfg);
        if cfg.timedOut(symbol) {
          failed := failed + 1;
        } else if outcome.Scanned? {
          if outcome.result.summary.totalTrades >= minTrades {
            results := results + [outcome.result];
            successful := successful + 1;
          } else {
            failed := failed + 1;
          }
        } else {
          failed := failed + 1;
        }
      }
      assert stocks[..|stocks|] == stocks;
    }

    /**
     * `_scan_stocks`: one batch when the symbols fit, otherwise consecutive
     * batches of `batchSize` with a pause between two batches. The results
     * and counts are those of the symbols in order, whatever the batching.
     */
    method ScanStocks(stocks: seq<string>, cfg: ScanConfig, minTrades: int)
      returns (results: seq<ScanResult>, successful: nat, failed: nat, ghost batches: seq<seq<string>>, ghost pauses: nat)
      requires Valid() && LengthPreserving(cfg.ema)
      ensures results == Kept(cfg, maxRetries, minTrades, stocks)
      ensures successful == |results| && successful + failed == |stocks|
      ensures batches == if |stocks| > batchSize then Batches(stocks, batchSize) else [stocks]
      ensures pauses == |batches| - 1
    {
      if |stocks| > batchSize {
        results, successful, failed := [], 0, 0;
        batches, pauses := [], 0;
        var i := 0;
        while i < |stocks|
          invariant 0 <= i <= |stocks|
          invariant batches + BatchesFrom(stocks, batchSize, i) == Batches(stocks, batchSize)
          invariant results == Kept(cfg, maxRetries, minTrades, stocks[..i])
          invariant successful == |results| && successful + failed == i
          invariant i > 0 ==> |batches| > 0
          invariant pauses == if i < |stocks| then |batches| else |batches| - 1
        {
          var end := if i + batchSize < |stocks| then i + batchSize else |stocks|;
          var batch := stocks[i..end];
          var batchResults, batchSuccess, batchFailed := ScanBatch(batch, cfg, minTrades);
          assert results + batchResults == Kept(cfg, maxRetries, minTrades, stocks[..end]) by {
            KeptStep(cfg, maxRetries, minTrades, stocks, i, end);
          }
          assert BatchesFrom(stocks, batchSize, i) == [batch] + BatchesFrom(stocks, batchSize, end);
          results := results + batchResults;
          successful := successful + batchSuccess;
          failed := failed + batchFailed;
          batches := batches + [batch];
          if i + batchSize < |stocks| {
            pauses := pauses + 1;
          }
          i := end;
        }
        assert stocks[..|stocks|] == stocks;
      } else {
        results, successful, failed := ScanBatch(stocks, cfg, minTrades);
        batches, pauses := [stocks], 0;
      }
    }

    /** `_get_stocks_to_scan` over the cached database. */
    method GetStocksToScan(db: StockFetcher.Database, stockList: Option<seq<string>>, marketCap: Option<seq<string>>)
      returns (stocks: seq<string>)
      ensures stocks == StocksToScan(db, stockList, marketCap)
    {
      if stockList.Some? && stockList.value != [] {
        return stockList.value;
      }
      if marketCap.Some? && marketCap.value != [] {
        stocks := StockFetcher.StocksByCategories(db, marketCap.value);
        return;
      }
      return StockFetcher.LargeCapStocks(db);
    }

    /**
     * `scan`: rejects an unknown indicator or an empty candidate set before
     * touching the pacing settings; otherwise sets the pacing tier for the
     * candidate count, scans, filters, sorts and truncates.
     */
    method Scan(db: StockFetcher.Database, cfg: ScanConfig, minTrades: int,
                stockList: Option<seq<string>>, marketCap: Option<seq<string>>, topN: int,
                excludeRules: Option<seq<ExcludeRule>>, sortRules: Option<seq<SortRule>>)
      returns (r: Result<ScanResponse>)
      requires LengthPreserving(cfg.ema)
      modifies this
      ensures r == ScanOf(db, cfg, maxRetries, minTrades, stockList, marketCap, topN, excludeRules, sortRules)
      ensures r.Err? ==> PacingOf() == old(PacingOf())
      ensures r.Ok? ==> Valid() && PacingOf() == TierFor(r.value.summary.totalStocksScanned)
    {
      if Strings.Lower(cfg.buyIndicator) !in Requests.Indicators {
        return Err(InvalidBuyIndicator);
      }
      if Strings.Lower(cfg.sellIndicator) !in Requests.Indicators {
        return Err(InvalidSellIndicator);
      }
      var stocksToScan := GetStocksToScan(db, stockList, marketCap);
      if |stocksToScan| == 0 {
        return Err(NoStocksToScan);
      }
      AdjustRateLimiting(|stocksToScan|);
      var kept, successful, failed, _, _ := ScanStocks(stocksToScan, cfg, minTrades);
      var response := Finish(stocksToScan, kept, successful, failed, cfg, minTrades, topN, excludeRules, sortRules);
      r := Ok(response);
    }

    /** The end of `scan`: filter, sort and truncate the kept results, then count. */
    method Finish(stocksToScan: seq<string>, kept: seq<ScanResult>, successful: nat, failed: nat, cfg: ScanConfig,
                  minTrades: int, topN: int, excludeRules: Option<seq<ExcludeRule>>, sortRules: Option<seq<SortRule>>)
      returns (response: ScanResponse)
      requires successful == |kept| && successful + failed == |stocksToScan|
      ensures response == Respond(cfg, minTrades, stocksToScan, kept, topN, excludeRules, sortRules)
    {
      var results := SelectTop(kept, topN, excludeRules, sortRules);
      var topStocks := StocksOf(results);
      var criteria := ScanCriteria(cfg.buyIndicator, cfg.sellIndicator, cfg.period, cfg.interval, minTrades);
      response := ScanResponse(ScanSummary(|stocksToScan|, successful, failed, |results|, criteria), topStocks, results);
    }

    /** The middle of `scan`: apply the exclude rules when there are any, sort, then keep the first `top_n`. */
    method SelectTop(kept: seq<ScanResult>, topN: int, excludeRules: Option<seq<ExcludeRule>>, sortRules: Option<seq<SortRule>>)
      returns (results: seq<ScanResult>)
      ensures results == TopN(ApplySorting(Filtered(kept, excludeRules), sortRules), topN)
    {
      results := kept;
      if excludeRules.Some? && excludeRules.value != [] {
        results := ApplyExcludeRules(results, excludeRules.value);
      }
      results := ApplySorting(results, sortRules);
      if topN > 0 && topN < |results| {
        results := results[..topN];
      }
    }
  }
}
