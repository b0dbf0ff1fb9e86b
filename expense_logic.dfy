/**
  The aggregation engine of the expense tracker: totals, per-category and
  per-day groupings, and the two insights derived from them.

  A ledger is the sequence of expense rows in the order they were appended.
  Amounts are exact reals; the floating-point rounding of the original is
  not modelled. A Python dict is modelled by a `map` together with the
  sequence of its keys in insertion order.
 */
module ExpenseLogic {

  /** One row of the ledger: the fields `date`, `amount`, `category` and `note`. */
  datatype Expense = Expense(date: string, amount: real, category: string, note: string)

  /** The field a grouping is keyed on. */
  datatype GroupBy = ByCategory | ByDate

  /** One structured insight; the original formats each as a line of text. */
  datatype Insight = MostSpentOn(category: string) | TotalRecorded(total: real)

  function KeyOf(e: Expense, g: GroupBy): string
  {
    match g
    case ByCategory => e.category
    case ByDate => e.date
  }

  // ---------------------------------------------------------------------------
  // Specification functions
  // ---------------------------------------------------------------------------

  /** Sum of the amounts, folded from the left starting at 0 as Python's `sum` does. */
  function TotalSpent(xs: seq<Expense>): (total: real)
    ensures xs == [] ==> total == 0.0
    ensures (forall i :: 0 <= i < |xs| ==> xs[i].amount >= 0.0) ==> total >= 0.0
  {
    if xs == [] then 0.0 else TotalSpent(xs[..|xs| - 1]) + xs[|xs| - 1].amount
  }

  /** `d.get(k, 0)` */
  function Get(m: map<string, real>, k: string): real
  {
    if k in m then m[k] else 0.0
  }

  /** `d[k] = d.get(k, 0) + amount` */
  function Accumulate(m: map<string, real>, k: string, amount: real): map<string, real>
  {
    m[k := Get(m, k) + amount]
  }

  /** The dict a grouping loop builds after reading all of `xs`. */
  function Summary(xs: seq<Expense>, g: GroupBy): map<string, real>
  {
    if xs == [] then map[]
    else
      Accumulate(Summary(xs[..|xs| - 1], g), KeyOf(xs[|xs| - 1], g), xs[|xs| - 1].amount)
  }

  /** The keys of that dict in insertion order: each key where it first occurs. */
  function KeyOrder(xs: seq<Expense>, g: GroupBy): seq<string>
  {
    if xs == [] then []
    else
      var o := KeyOrder(xs[..|xs| - 1], g);
      var k := KeyOf(xs[|xs| - 1], g);
      if k in o then o else o + [k]
  }

  /** The keys occurring in the ledger (reference definition). */
  function Keys(xs: seq<Expense>, g: GroupBy): set<string>
  {
    set i | 0 <= i < |xs| :: KeyOf(xs[i], g)
  }

  /** The rows whose key is `k`, in ledger order (reference definition). */
  function Matching(xs: seq<Expense>, g: GroupBy, k: string): (ys: seq<Expense>)
    ensures forall i :: 0 <= i < |ys| ==> KeyOf(ys[i], g) == k
  {
    if xs == [] then []
    else
      var p := Matching(xs[..|xs| - 1], g, k);
      if KeyOf(xs[|xs| - 1], g) == k then p + [xs[|xs| - 1]] else p
  }

  /** Sum of the values of `m` read in the order `ks`, as `sum(d.values())` does. */
  function SumOver(m: map<string, real>, ks: seq<string>): real
  {
    if ks == [] then 0.0 else SumOver(m, ks[..|ks| - 1]) + Get(m, ks[|ks| - 1])
  }

  predicate Distinct(s: seq<string>)
  {
    forall i, j :: 0 <= i < j < |s| ==> s[i] != s[j]
  }

  /** Some prefix of the ledger already holds key `k1` but not yet key `k2`. */
  ghost predicate AppearsBefore(xs: seq<Expense>, g: GroupBy, k1: string, k2: string)
  {
    exists n :: 0 <= n <= |xs| && k1 in Keys(xs[..n], g) && k2 !in Keys(xs[..n], g)
  }

  /**
    Position `i` of `ks` holds a maximal value, and every earlier position a
    strictly smaller one: the element Python's `max(ks, key=m.get)` returns.
   */
  predicate FirstMaxAt(m: map<string, real>, ks: seq<string>, i: int)
  {
    && 0 <= i < |ks|
    && (forall j :: 0 <= j < |ks| ==> ks[j] in m)
    && (forall j :: 0 <= j < |ks| ==> m[ks[j]] <= m[ks[i]])
    && (forall j :: 0 <= j < i ==> m[ks[j]] < m[ks[i]])
  }

  /**
    `c` is the category `get_insights` names: a key of the category
    summary (so present in the ledger, by SummaryKeys), with a
    summed amount at least that of every category, and the first such
    category in order of first appearance.
   */
  ghost predicate HighestCategory(xs: seq<Expense>, c: string)
  {
    var s := Summary(xs, ByCategory);
    var o := KeyOrder(xs, ByCategory);
    && c in s
    && (forall k :: k in s ==> s[k] <= s[c])
    && exists i :: FirstMaxAt(s, o, i) && o[i] == c
  }

  // ---------------------------------------------------------------------------
  // Lemmas
  // ---------------------------------------------------------------------------

  lemma TotalSpentSnoc(xs: seq<Expense>, e: Expense)
    ensures TotalSpent(xs + [e]) == TotalSpent(xs) + e.amount
  {
  }

  /** Totals of two ledgers add up. */
  lemma {:induction false} TotalSpentAppend(xs: seq<Expense>, ys: seq<Expense>)
    ensures TotalSpent(xs + ys) == TotalSpent(xs) + TotalSpent(ys)
  {
    if ys != [] {
      var p, e := ys[..|ys| - 1], ys[|ys| - 1];
      assert ys == p + [e];
      assert xs + ys == (xs + p) + [e];
      TotalSpentAppend(xs, p);
      TotalSpentSnoc(xs + p, e);
      TotalSpentSnoc(p, e);
    } else {
      assert xs + ys == xs;
    }
  }

  lemma KeysLast(xs: seq<Expense>, g: GroupBy)
    requires xs != []
    ensures Keys(xs, g) == Keys(xs[..|xs| - 1], g) + {KeyOf(xs[|xs| - 1], g)}
  {
  }

  /** The grouping has as keys exactly the keys occurring in the ledger: none is zero-filled. */
  lemma {:induction false} SummaryKeys(xs: seq<Expense>, g: GroupBy)
    ensures Summary(xs, g).Keys == Keys(xs, g)
  {
    if xs != [] {
      SummaryKeys(xs[..|xs| - 1], g);
      KeysLast(xs, g);
    }
  }

  /**
    `summary.get(k, 0)` is the sum of the amounts of the rows keyed `k`, for
    every `k`.
   */
  lemma {:induction false} SummaryValues(xs: seq<Expense>, g: GroupBy)
    ensures forall k :: Get(Summary(xs, g), k) == TotalSpent(Matching(xs, g, k))
  {
    if xs != [] {
      var p, e := xs[..|xs| - 1], xs[|xs| - 1];
      SummaryValues(p, g);
      forall k ensures Get(Summary(xs, g), k) == TotalSpent(Matching(xs, g, k)) {
        if KeyOf(e, g) == k {
          TotalSpentSnoc(Matching(p, g, k), e);
        }
      }
    }
  }

  /** A key that does not occur in the ledger has no rows. */
  lemma {:induction false} MatchingAbsent(xs: seq<Expense>, g: GroupBy, k: string)
    requires k !in Keys(xs, g)
    ensures Matching(xs, g, k) == []
  {
    if xs != [] {
      KeysLast(xs, g);
      MatchingAbsent(xs[..|xs| - 1], g, k);
    }
  }

  /** The insertion order lists every occurring key exactly once, and nothing else. */
  lemma {:induction false} KeyOrderSpec(xs: seq<Expense>, g: GroupBy)
    ensures Distinct(KeyOrder(xs, g))
    ensures forall k :: k in KeyOrder(xs, g) <==> k in Keys(xs, g)
  {
    if xs != [] {
      KeyOrderSpec(xs[..|xs| - 1], g);
      KeysLast(xs, g);
    }
  }

  /** The insertion order is the order of first appearance in the ledger. */
  lemma {:induction false} KeyOrderFirstAppearance(xs: seq<Expense>, g: GroupBy)
    ensures forall a, b :: 0 <= a < b < |KeyOrder(xs, g)| ==>
              AppearsBefore(xs, g, KeyOrder(xs, g)[a], KeyOrder(xs, g)[b])
  {
    if xs != [] {
      var p := xs[..|xs| - 1];
      var o, k := KeyOrder(p, g), KeyOf(xs[|xs| - 1], g);
      KeyOrderFirstAppearance(p, g);
      KeyOrderSpec(p, g);
      var o' := KeyOrder(xs, g);
      forall a, b | 0 <= a < b < |o'| ensures AppearsBefore(xs, g, o'[a], o'[b]) {
        if b < |o| {
          assert AppearsBefore(p, g, o[a], o[b]);
          var n :| 0 <= n <= |p| && o[a] in Keys(p[..n], g) && o[b] !in Keys(p[..n], g);
          assert p[..n] == xs[..n];
        } else {
          assert xs[..|p|] == p;
          assert o'[a] in Keys(xs[..|p|], g) && o'[b] !in Keys(xs[..|p|], g);
        }
      }
    }
  }

  /** Overwriting one key of a dict changes the ordered sum of its values by the difference. */
  lemma {:induction false} SumOverAssign(m: map<string, real>, ks: seq<string>, k: string, v: real)
    requires Distinct(ks)
    ensures SumOver(m[k := v], ks) == SumOver(m, ks) + (if k in ks then v - Get(m, k) else 0.0)
  {
    if ks != [] {
      var p := ks[..|ks| - 1];
      assert Distinct(p);
      SumOverAssign(m, p, k, v);
      assert k in ks <==> k in p || k == ks[|ks| - 1];
      assert k == ks[|ks| - 1] ==> k !in p;
    }
  }

  /** The dict's insertion order and its keys agree. */
  lemma OrderCoversKeys(xs: seq<Expense>, g: GroupBy)
    ensures Distinct(KeyOrder(xs, g))
    ensures forall k :: k in KeyOrder(xs, g) <==> k in Summary(xs, g)
  {
  }

  /** Adding `d` to key `k` of a dict adds `d` to the ordered sum of its values. */
  lemma ConservationStep(m: map<string, real>, o: seq<string>, k: string, d: real)
    requires Distinct(o) && (k in o <==> k in m)
    ensures SumOver(Accumulate(m, k, d), if k in o then o else o + [k]) == SumOver(m, o) + d
  {
    SumOverAssign(m, o, k, Get(m, k) + d);
    if k !in o {
      var o' := o + [k];
      assert o'[..|o'| - 1] == o;
    }
  }

  /** Reading one more row adds its amount to the ordered sum of the grouping. */
  lemma ConservationLast(xs: seq<Expense>, g: GroupBy)
    requires xs != []
    ensures SumOver(Summary(xs, g), KeyOrder(xs, g))
            == SumOver(Summary(xs[..|xs| - 1], g), KeyOrder(xs[..|xs| - 1], g)) + xs[|xs| - 1].amount
  {
    var p, e := xs[..|xs| - 1], xs[|xs| - 1];
    var m, o, k := Summary(p, g), KeyOrder(p, g), KeyOf(e, g);
    assert KeyOrder(xs, g) == if k in o then o else o + [k];
    assert Distinct(o) && (k in o <==> k in m) by {
      OrderCoversKeys(p, g);
    }
    ConservationStep(m, o, k, e.amount);
  }

  /**
    Conservation: the values of a grouping, summed in insertion order,
    equal the ledger's total.
   */
  lemma {:induction false} Conservation(xs: seq<Expense>, g: GroupBy)
    ensures SumOver(Summary(xs, g), KeyOrder(xs, g)) == TotalSpent(xs)
  {
    if xs != [] {
      Conservation(xs[..|xs| - 1], g);
      ConservationLast(xs, g);
    }
  }

  /** With only positive amounts (the caller's guard), every group total is positive. */
  lemma {:induction false} PositiveAmountsPositiveTotals(xs: seq<Expense>, g: GroupBy)
    requires forall i :: 0 <= i < |xs| ==> xs[i].amount > 0.0
    ensures forall k :: k in Summary(xs, g) ==> Summary(xs, g)[k] > 0.0
  {
    if xs != [] {
      PositiveAmountsPositiveTotals(xs[..|xs| - 1], g);
    }
  }

  /** The first maximal position of the insertion order names the highest category. */
  lemma HighestFromFirstMax(xs: seq<Expense>, i: int)
    requires FirstMaxAt(Summary(xs, ByCategory), KeyOrder(xs, ByCategory), i)
    ensures HighestCategory(xs, KeyOrder(xs, ByCategory)[i])
  {
    var s, o := Summary(xs, ByCategory), KeyOrder(xs, ByCategory);
    OrderCoversKeys(xs, ByCategory);
    SummaryKeys(xs, ByCategory);
    forall k | k in s ensures s[k] <= s[o[i]] {
      var j :| 0 <= j < |o| && o[j] == k;
    }
  }

  /** The tie-break is deterministic: at most one category satisfies HighestCategory. */
  lemma HighestCategoryUnique(xs: seq<Expense>, c1: string, c2: string)
    requires HighestCategory(xs, c1) && HighestCategory(xs, c2)
    ensures c1 == c2
  {
  }

  // ---------------------------------------------------------------------------
  // Operations
  // ---------------------------------------------------------------------------

  /**
    The loop shared by `category_summary` and `daily_spending`: for each row,
    `d[k] = d.get(k, 0) + amount`. Returns the dict as its map and its keys in
    insertion order.
   */
  method GroupTotals(xs: seq<Expense>, g: GroupBy) returns (totals: map<string, real>, order: seq<string>)
    ensures totals == Summary(xs, g) && order == KeyOrder(xs, g)
    ensures totals.Keys == Keys(xs, g)
    ensures forall k :: k in totals ==> totals[k] == TotalSpent(Matching(xs, g, k))
    ensures Distinct(order) && forall k :: k in order <==> k in totals
    ensures (order == []) == (xs == [])
    ensures SumOver(totals, order) == TotalSpent(xs)
  {
    totals, order := map[], [];
    for i := 0 to |xs|
      invariant totals == Summary(xs[..i], g)
      invariant order == KeyOrder(xs[..i], g)
      invariant forall k :: k in order <==> k in totals
    {
      var e := xs[i];
      var k := KeyOf(e, g);
      assert xs[..i + 1][..i] == xs[..i];
      if k !in totals {
        order := order + [k];
      }
      totals := Accumulate(totals, k, e.amount);
    }
    assert xs[..|xs|] == xs;
    SummaryKeys(xs, g);
    SummaryValues(xs, g);
    KeyOrderSpec(xs, g);
    Conservation(xs, g);
  }

  /** `category_summary`: amounts summed per category. */
  method CategorySummary(xs: seq<Expense>) returns (summary: map<string, real>, order: seq<string>)
    ensures summary == Summary(xs, ByCategory) && order == KeyOrder(xs, ByCategory)
    ensures summary.Keys == set i | 0 <= i < |xs| :: xs[i].category
    ensures forall c :: c in summary ==> summary[c] == TotalSpent(Matching(xs, ByCategory, c))
    ensures Distinct(order) && forall c :: c in order <==> c in summary
    ensures (order == []) == (xs == [])
  {
    summary, order := GroupTotals(xs, ByCategory);
  }

  /** `daily_spending`: amounts summed per date. */
  method DailySpending(xs: seq<Expense>) returns (daily: map<string, real>, order: seq<string>)
    ensures daily == Summary(xs, ByDate) && order == KeyOrder(xs, ByDate)
    ensures daily.Keys == set i | 0 <= i < |xs| :: xs[i].date
    ensures forall d :: d in daily ==> daily[d] == TotalSpent(Matching(xs, ByDate, d))
    ensures Distinct(order) && forall d :: d in order <==> d in daily
    ensures (order == []) == (xs == [])
  {
    daily, order := GroupTotals(xs, ByDate);
  }

  /**
    Python's `max(ks, key=m.get)`: walks `ks` in order and replaces the
    current best only on a strictly greater value, so the first maximal key
    wins. Returns the key and its position.
   */
  method MaxKey(m: map<string, real>, ks: seq<string>) returns (best: string, at: nat)
    requires ks != []
    requires forall j :: 0 <= j < |ks| ==> ks[j] in m
    ensures FirstMaxAt(m, ks, at) && best == ks[at]
  {
    best, at := ks[0], 0;
    for i := 1 to |ks|
      invariant at < i && best == ks[at]
      invariant forall j :: 0 <= j < i ==> m[ks[j]] <= m[best]
      invariant forall j :: 0 <= j < at ==> m[ks[j]] < m[best]
    {
      if m[ks[i]] > m[best] {
        best, at := ks[i], i;
      }
    }
  }

  /**
    `get_insights`: nothing for an empty ledger; otherwise the category
    spent most on, then the total.
   */
  method GetInsights(xs: seq<Expense>) returns (insights: seq<Insight>)
    ensures xs == [] ==> insights == []
    ensures xs != [] ==>
              && |insights| == 2
              && insights[0].MostSpentOn?
              && HighestCategory(xs, insights[0].category)
              && insights[1] == TotalRecorded(TotalSpent(xs))
  {
    if xs == [] {
      return [];
    }
    var summary, order := CategorySummary(xs);
    forall j | 0 <= j < |order| ensures order[j] in summary {
      assert order[j] in order;
    }
    var highest, at := MaxKey(summary, order);
    HighestFromFirstMax(xs, at);
    insights := [];
    insights := insights + [MostSpentOn(highest)];
    insights := insights + [TotalRecorded(TotalSpent(xs))];
  }
}
