/**
  Worked ledgers: what the aggregation engine yields on two small inputs,
  derived from the contracts in ExpenseLogic.
 */
module ExpenseScenarios {
  import opened ExpenseLogic

  const Day: string := "2024-03-01"

  /** "Food" 100 (note "lunch") then "Travel" 50, both on the same day. */
  function LedgerA(): seq<Expense>
  {
    [Expense(Day, 100.0, "Food", "lunch"), Expense(Day, 50.0, "Travel", "")]
  }

  /** "Food" 200 three times, then "Travel" 10. */
  function LedgerB(): seq<Expense>
  {
    [ Expense(Day, 200.0, "Food", ""), Expense(Day, 200.0, "Food", "")
    , Expense(Day, 200.0, "Food", ""), Expense(Day, 10.0, "Travel", "") ]
  }

  lemma ScenarioA()
    ensures TotalSpent(LedgerA()) == 150.0
    ensures Summary(LedgerA(), ByCategory) == map["Food" := 100.0, "Travel" := 50.0]
    ensures Summary(LedgerA(), ByDate) == map[Day := 150.0]
  {
  }

  lemma SummaryB()
    ensures Summary(LedgerB(), ByCategory) == map["Food" := 600.0, "Travel" := 10.0]
    ensures KeyOrder(LedgerB(), ByCategory) == ["Food", "Travel"]
  {
    var xs := LedgerB();
    assert xs[..4][..3] == xs[..3] && xs[..3][..2] == xs[..2] && xs[..2][..1] == xs[..1];
    assert xs[..1][..0] == [] && xs[..4] == xs;
    assert "Food" != "Travel";
    assert Summary(xs[..1], ByCategory) == map["Food" := 200.0];
    assert Summary(xs[..2], ByCategory) == map["Food" := 400.0];
    assert Summary(xs[..3], ByCategory) == map["Food" := 600.0];
    assert KeyOrder(xs[..1], ByCategory) == ["Food"];
    assert KeyOrder(xs[..2], ByCategory) == ["Food"];
    assert KeyOrder(xs[..3], ByCategory) == ["Food"];
  }

  /** In ledger B the highest category is "Food", and only "Food". */
  lemma ScenarioB(c: string)
    ensures HighestCategory(LedgerB(), c) <==> c == "Food"
    ensures TotalSpent(LedgerB()) == 610.0
  {
    SummaryB();
    var s, o := Summary(LedgerB(), ByCategory), KeyOrder(LedgerB(), ByCategory);
    assert FirstMaxAt(s, o, 0);
    assert KeyOf(LedgerB()[0], ByCategory) == "Food";
    Conservation(LedgerB(), ByCategory);
    assert o[..1] == ["Food"] && o[..1][..0] == [];
  }

  /** What `get_insights` reports for ledger B. */
  method InsightsB() returns (insights: seq<Insight>)
    ensures insights == [MostSpentOn("Food"), TotalRecorded(610.0)]
  {
    insights := GetInsights(LedgerB());
    ScenarioB(insights[0].category);
  }
}
