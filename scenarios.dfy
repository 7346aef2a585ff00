/**
 * A worked example over both route modules: one user with two food costs in
 * June 2025.
 */
module Scenarios {
  import opened Calendar
  import opened CostModel
  import opened Database
  import opened CostRoutes
  import opened UserRoutes

  /** Lunch on June 1 and dinner on June 2, 2025, both owned by user 9999. */
  function JuneCosts(): seq<Cost> {
    [Cost("lunch", "food", 9999, 10, DateTime(2025, 6, 1, 12, 0, 0, 0)),
     Cost("dinner", "food", 9999, 15, DateTime(2025, 6, 2, 19, 30, 0, 0))]
  }

  /** The window of June 2025 runs from June 1, 00:00:00.000 to June 30, 23:59:59.999. */
  lemma JuneWindow()
    ensures WindowStart(2025, 6) == DateTime(2025, 6, 1, 0, 0, 0, 0)
    ensures WindowEnd(2025, 6) == DateTime(2025, 6, 30, 23, 59, 59, 999)
  {
    WindowStartFirstDay(2025, 6);
    WindowEndLastDay(2025, 6);
  }

  /** The user's total is 25, and the June report holds both costs in the food bucket, by day. */
  lemma TwoFoodCostsInJune()
    ensures Total(CostsOf(JuneCosts(), 9999)) == 25
    ensures Grouped(CostsBetween(JuneCosts(), 9999, WindowStart(2025, 6), WindowEnd(2025, 6)))
              == [Group("food", [Item(10, "lunch", 1), Item(15, "dinner", 2)]),
                  Group("health", []), Group("housing", []), Group("sport", []), Group("education", [])]
  {
    var costs := JuneCosts();
    JuneWindow();
    assert costs[1..][1..] == [];
    assert CostsBetween(costs, 9999, WindowStart(2025, 6), WindowEnd(2025, 6)) == costs;
    assert Bucket(costs, "food") == [Item(10, "lunch", 1), Item(15, "dinner", 2)];
    forall k | 1 <= k < |Categories| ensures Bucket(costs, Categories[k]) == [] {
      assert Categories[k] != "food";
    }
    forall k | 0 <= k < |Categories| ensures Grouped(costs)[k] == Group(Categories[k], Bucket(costs, Categories[k])) {
      GroupedAt(costs, Categories, k);
    }
  }
}
