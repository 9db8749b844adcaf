/**
 * The quick-overview card: the dashboard's figures again, with utilisation and
 * budget consumption rounded to whole percentages by `Math.round`, and an
 * empty state when there are no programs.
 */
module QuickOverview {
  import opened Types
  import opened JsNumber
  import opened Store
  import opened Dashboard

  datatype Metrics = Metrics(totalPrograms: nat, activeProjects: nat, utilization: int, budgetConsumed: int)

  /** `whole > 0 ? Math.round(part / whole * 100) : 0`. */
  function RoundedPercent(part: real, whole: real): (k: int)
    ensures whole > 0.0 ==> 100.0 * part - 0.5 * whole < k as real * whole <= 100.0 * part + 0.5 * whole
    ensures whole <= 0.0 ==> k == 0
  {
    if whole > 0.0 then
      var x := GuardedPercent(part, whole);
      var n := RoundReal(x);
      RoundingScales(part, whole, x, n as real);
      n
    else 0
  }

  lemma RoundingScales(part: real, whole: real, x: real, k: real)
    requires whole > 0.0 && x * whole == 100.0 * part && x - 0.5 < k <= x + 0.5
    ensures 100.0 * part - 0.5 * whole < k * whole <= 100.0 * part + 0.5 * whole
  {
    var kw, xw, hw := k * whole, x * whole, 0.5 * whole;
    var lo, hi := k - (x - 0.5), x + 0.5 - k;
    NonNegativeProduct(lo, whole);
    NonNegativeProduct(hi, whole);
    assert lo * whole == kw - xw + hw;
    assert hi * whole == xw + hw - kw;
    assert kw > xw - hw;
    assert kw <= xw + hw;
  }

  lemma NonNegativeProduct(a: real, w: real)
    requires w > 0.0 && a >= 0.0
    ensures a * w >= 0.0
    ensures a > 0.0 ==> a * w > 0.0
  {
  }

  /**
   * The `metrics` computation. `totalAllocated` is accumulated with `+=` over the
   * resources, each adding that resource's allocation total.
   */
  method ComputeMetrics(programs: seq<Program>, projects: seq<Project>, resources: seq<Resource>,
                        allocations: seq<ResourceAllocation>) returns (m: Metrics)
    ensures m.totalPrograms == TotalPrograms(programs)
    ensures m.activeProjects == ActiveProjects(projects)
    ensures m.utilization == RoundedPercent(TotalAllocated(resources, allocations), TotalCapacity(resources))
    ensures m.budgetConsumed == RoundedPercent(TotalSpent(programs), TotalBudget(programs))
  {
    var totalAllocated := 0.0;
    var i := 0;
    while i < |resources|
      invariant 0 <= i <= |resources|
      invariant totalAllocated == TotalAllocated(resources[..i], allocations)
    {
      var resourceTotal := TotalPercent(AllocationsByResource(allocations, resources[i].id));
      TotalAllocatedSnoc(resources[..i], allocations, resources[i]);
      assert resources[..i + 1] == resources[..i] + [resources[i]];
      totalAllocated := totalAllocated + resourceTotal;
      i := i + 1;
    }
    assert resources[..i] == resources;
    var totalCapacity := TotalCapacity(resources);
    var utilization := RoundedPercent(totalAllocated, totalCapacity);
    var budgetConsumed := RoundedPercent(TotalSpent(programs), TotalBudget(programs));
    m := Metrics(|programs|, ActiveProjects(projects), utilization, budgetConsumed);
  }

  /** The rounded figures are `Math.round` of the dashboard's unrounded ones. */
  lemma RoundsDashboardFigures(programs: seq<Program>, resources: seq<Resource>, allocations: seq<ResourceAllocation>)
    ensures RoundedPercent(TotalAllocated(resources, allocations), TotalCapacity(resources))
         == RoundReal(ResourceUtilization(resources, allocations))
    ensures RoundedPercent(TotalSpent(programs), TotalBudget(programs)) == RoundReal(BudgetConsumed(programs))
  {
  }

  /** The seeded portfolio: 580 of 900 capacity allocated shows 64%, 1,270,000 of 7,500,000 spent shows 17%. */
  lemma SeededFigures()
    ensures RoundedPercent(580.0, 900.0) == 64
    ensures RoundedPercent(1270000.0, 7500000.0) == 17
  {
    var u := GuardedPercent(580.0, 900.0);
    assert u * 900.0 == 58000.0;
    assert 64.0 <= u < 64.5;
    var b := GuardedPercent(1270000.0, 7500000.0);
    assert b * 7500000.0 == 127000000.0;
    assert 16.5 <= b < 17.5;
  }

  /** `programs.length > 0`: the card shows its figures, otherwise the empty state. */
  function HasPrograms(programs: seq<Program>): (b: bool)
    ensures b <==> programs != []
  {
    |programs| > 0
  }
}
