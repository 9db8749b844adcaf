/**
 * The portfolio dashboard's key figures: program and active-project counts,
 * resource utilisation and budget consumption (both guarded against a zero
 * denominator), the program-status histogram behind the pie chart, the
 * budget-trend series and the three-program overview.
 */
module Dashboard {
  import opened Wrappers
  import opened Types
  import opened Seqs
  import opened Store

  // ---------------------------------------------------------------------
  // Counts

  /** `programs.length`. */
  function TotalPrograms(programs: seq<Program>): nat
  {
    |programs|
  }

  /** A project the dashboard counts as active: in progress or not yet started. */
  predicate IsActiveProject(p: Project)
  {
    p.status == ProjectStatus.InProgress || p.status == NotStarted
  }

  /** The number of active projects. */
  function ActiveProjects(projects: seq<Project>): (n: nat)
    ensures n <= |projects|
  {
    |Filter(projects, IsActiveProject)|
  }

  /**
   * Active projects are counted exactly: every project is either counted or
   * not active, so the count plus the inactive count is the number of projects,
   * and it equals that number iff every project is active.
   */
  lemma ActiveProjectsMeaning(projects: seq<Project>)
    ensures ActiveProjects(projects) + |Filter(projects, (p: Project) => !IsActiveProject(p))| == |projects|
    ensures ActiveProjects(projects) == |projects| <==> forall i :: 0 <= i < |projects| ==> IsActiveProject(projects[i])
    ensures ActiveProjects(projects) == 0 <==> forall i :: 0 <= i < |projects| ==> !IsActiveProject(projects[i])
  {
    var notActive := (p: Project) => !IsActiveProject(p);
    FilterPartition(projects, IsActiveProject, notActive);
    var active := Filter(projects, IsActiveProject);
    var inactive := Filter(projects, notActive);
    assert |multiset(active)| + |multiset(inactive)| == |multiset(projects)|;
    FilterMembers(projects, IsActiveProject);
    FilterMembers(projects, notActive);
    if ActiveProjects(projects) == |projects| {
      assert |inactive| == 0;
    }
    if forall i :: 0 <= i < |projects| ==> IsActiveProject(projects[i]) {
      FilterAll(projects, IsActiveProject);
    }
    if forall i :: 0 <= i < |projects| ==> !IsActiveProject(projects[i]) {
      FilterNone(projects, IsActiveProject);
    }
  }

  // ---------------------------------------------------------------------
  // Resource utilisation

  function Capacity(r: Resource): real
  {
    r.capacity
  }

  /** `resources.reduce((sum, r) => sum + r.capacity, 0)`. */
  function TotalCapacity(resources: seq<Resource>): real
  {
    Sum(resources, Capacity)
  }

  /** The allocation percentages the store lists for one resource, added up. */
  function AllocatedTo(allocations: seq<ResourceAllocation>, r: Resource): real
  {
    TotalPercent(AllocationsByResource(allocations, r.id))
  }

  /** The per-resource allocation totals, added up over the listed resources. */
  function TotalAllocated(resources: seq<Resource>, allocations: seq<ResourceAllocation>): real
  {
    Sum(resources, r => AllocatedTo(allocations, r))
  }

  lemma {:induction false} TotalAllocatedSnoc(resources: seq<Resource>, allocations: seq<ResourceAllocation>, r: Resource)
    ensures TotalAllocated(resources + [r], allocations) == TotalAllocated(resources, allocations) + AllocatedTo(allocations, r)
  {
    if resources == [] {
      assert [r][1..] == [];
    } else {
      assert (resources + [r])[0] == resources[0];
      assert (resources + [r])[1..] == resources[1..] + [r];
      TotalAllocatedSnoc(resources[1..], allocations, r);
    }
  }

  /** `part / whole * 100` when `whole > 0`, otherwise 0: the dashboard's guarded percentage. */
  function GuardedPercent(part: real, whole: real): (r: real)
    ensures whole > 0.0 ==> r * whole == 100.0 * part
    ensures whole <= 0.0 ==> r == 0.0
    ensures whole > 0.0 && 0.0 <= part <= whole ==> 0.0 <= r <= 100.0
  {
    if whole > 0.0 then
      var q := part / whole;
      assert q * whole == part;
      assert 0.0 <= part <= whole ==> 0.0 <= q <= 1.0 by {
        if 0.0 <= part <= whole {
          QuotientBounds(part, whole, q);
        }
      }
      q * 100.0
    else 0.0
  }

  lemma QuotientBounds(part: real, whole: real, q: real)
    requires whole > 0.0 && 0.0 <= part <= whole && q * whole == part
    ensures 0.0 <= q <= 1.0
  {
  }

  /** The dashboard's resource utilisation percentage. */
  function ResourceUtilization(resources: seq<Resource>, allocations: seq<ResourceAllocation>): (u: real)
    ensures TotalCapacity(resources) > 0.0 ==> u * TotalCapacity(resources) == 100.0 * TotalAllocated(resources, allocations)
    ensures TotalCapacity(resources) <= 0.0 ==> u == 0.0
  {
    GuardedPercent(TotalAllocated(resources, allocations), TotalCapacity(resources))
  }

  /** With no resources the utilisation is 0 whatever is allocated. */
  lemma NoResourcesNoUtilization(allocations: seq<ResourceAllocation>)
    ensures ResourceUtilization([], allocations) == 0.0
  {
    assert TotalCapacity([]) == 0.0;
  }

  /**
   * An allocation whose resource is not listed adds nothing to the total: the
   * total is taken over the listed resources, not over the allocations.
   */
  lemma {:induction false} UnlistedAllocationIgnored(resources: seq<Resource>, allocations: seq<ResourceAllocation>, a: ResourceAllocation)
    requires forall i :: 0 <= i < |resources| ==> resources[i].id != a.resourceId
    ensures TotalAllocated(resources, allocations + [a]) == TotalAllocated(resources, allocations)
    ensures ResourceUtilization(resources, allocations + [a]) == ResourceUtilization(resources, allocations)
  {
    if resources != [] {
      var r := resources[0];
      AllocationsByOtherResource(allocations, a, r.id);
      UnlistedAllocationIgnored(resources[1..], allocations, a);
    }
  }

  // ---------------------------------------------------------------------
  // Budget consumption

  function ProgramBudget(p: Program): real
  {
    p.budget
  }

  function ProgramSpent(p: Program): real
  {
    p.spent
  }

  /** `programs.reduce((sum, p) => sum + p.budget, 0)`. */
  function TotalBudget(programs: seq<Program>): real
  {
    Sum(programs, ProgramBudget)
  }

  /** `programs.reduce((sum, p) => sum + p.spent, 0)`. */
  function TotalSpent(programs: seq<Program>): real
  {
    Sum(programs, ProgramSpent)
  }

  /** The dashboard's budget-consumed percentage. */
  function BudgetConsumed(programs: seq<Program>): (b: real)
    ensures TotalBudget(programs) > 0.0 ==> b * TotalBudget(programs) == 100.0 * TotalSpent(programs)
    ensures TotalBudget(programs) <= 0.0 ==> b == 0.0
  {
    GuardedPercent(TotalSpent(programs), TotalBudget(programs))
  }

  /** Spending within every program's budget keeps consumption in [0, 100]. */
  lemma {:induction false} BudgetConsumedBounded(programs: seq<Program>)
    requires forall i :: 0 <= i < |programs| ==> 0.0 <= programs[i].spent <= programs[i].budget
    ensures 0.0 <= TotalSpent(programs) <= TotalBudget(programs)
    ensures 0.0 <= BudgetConsumed(programs) <= 100.0
  {
    if programs != [] {
      BudgetConsumedBounded(programs[1..]);
    }
  }

  // ---------------------------------------------------------------------
  // Program status histogram

  /** One entry of the `Record<string, number>` the status histogram builds. */
  datatype StatusCount = StatusCount(status: ProgramStatus, count: nat)

  /** How many of `programs` have status `s`. */
  function CountStatus(programs: seq<Program>, s: ProgramStatus): (n: nat)
    ensures n <= |programs|
  {
    if programs == [] then 0
    else CountStatus(programs[..|programs| - 1], s) + (if programs[|programs| - 1].status == s then 1 else 0)
  }

  /** The status counts agree with filtering the programs by status. */
  lemma {:induction false} CountStatusIsFilter(programs: seq<Program>, s: ProgramStatus)
    ensures CountStatus(programs, s) == |Filter(programs, (p: Program) => p.status == s)|
  {
    if programs != [] {
      var init := programs[..|programs| - 1];
      CountStatusIsFilter(init, s);
      assert init + [programs[|programs| - 1]] == programs;
      FilterSnoc(init, programs[|programs| - 1], (p: Program) => p.status == s);
    }
  }

  function Statuses(acc: seq<StatusCount>): set<ProgramStatus>
  {
    set e | e in acc :: e.status
  }

  function SumCounts(acc: seq<StatusCount>): nat
  {
    if acc == [] then 0 else acc[0].count + SumCounts(acc[1..])
  }

  /**
   * `acc` is the status histogram of `programs`: one entry per status that
   * occurs, no status twice, and each count is the number of programs with it.
   */
  ghost predicate HistogramOf(acc: seq<StatusCount>, programs: seq<Program>)
  {
    && (forall i, j :: 0 <= i < j < |acc| ==> acc[i].status != acc[j].status)
    && (forall i :: 0 <= i < |acc| ==> acc[i].count == CountStatus(programs, acc[i].status))
    && (forall i :: 0 <= i < |acc| ==> acc[i].count > 0)
    && (forall k :: 0 <= k < |programs| ==> programs[k].status in Statuses(acc))
  }

  lemma {:induction false} SumCountsSnoc(acc: seq<StatusCount>, e: StatusCount)
    ensures SumCounts(acc + [e]) == SumCounts(acc) + e.count
  {
    if acc != [] {
      assert (acc + [e])[1..] == acc[1..] + [e];
      SumCountsSnoc(acc[1..], e);
    } else {
      assert [e][1..] == [];
    }
  }

  lemma {:induction false} SumCountsUpdate(acc: seq<StatusCount>, j: nat, e: StatusCount)
    requires j < |acc|
    ensures SumCounts(acc[j := e]) + acc[j].count == SumCounts(acc) + e.count
  {
    if j > 0 {
      assert acc[j := e][1..] == acc[1..][j - 1 := e];
      SumCountsUpdate(acc[1..], j - 1, e);
    } else {
      assert acc[j := e][1..] == acc[1..];
    }
  }

  /** The position of status `s` among the histogram's keys, if it has one yet. */
  function KeyIndex(acc: seq<StatusCount>, s: ProgramStatus): (r: Option<nat>)
    ensures r.Some? ==> r.value < |acc| && acc[r.value].status == s
    ensures r.None? ==> forall i :: 0 <= i < |acc| ==> acc[i].status != s
  {
    if acc == [] then None
    else if acc[|acc| - 1].status == s then Some(|acc| - 1)
    else KeyIndex(acc[..|acc| - 1], s)
  }

  lemma {:induction false} CountStatusSnoc(programs: seq<Program>, x: Program, s: ProgramStatus)
    ensures CountStatus(programs + [x], s) == CountStatus(programs, s) + (if x.status == s then 1 else 0)
  {
    assert (programs + [x])[..|programs|] == programs;
  }

  /**
   * The program count is the sum of the per-status counts: every program has
   * exactly one of the five statuses, so the pie chart's slices add up to the
   * total card.
   */
  lemma {:induction false} TotalProgramsByStatus(programs: seq<Program>)
    ensures TotalPrograms(programs)
      == CountStatus(programs, Planning) + CountStatus(programs, Active) + CountStatus(programs, ProgramStatus.OnHold)
       + CountStatus(programs, ProgramStatus.Completed) + CountStatus(programs, ProgramStatus.Cancelled)
  {
    if programs != [] {
      TotalProgramsByStatus(programs[..|programs| - 1]);
    }
  }

  lemma {:induction false} CountStatusAbsent(programs: seq<Program>, s: ProgramStatus)
    requires forall k :: 0 <= k < |programs| ==> programs[k].status != s
    ensures CountStatus(programs, s) == 0
  {
    if programs != [] {
      CountStatusAbsent(programs[..|programs| - 1], s);
    }
  }

  /** Counting one more program whose status already has an entry increments that entry. */
  lemma HistogramIncrement(acc: seq<StatusCount>, programs: seq<Program>, x: Program, j: nat)
    requires HistogramOf(acc, programs)
    requires j < |acc| && acc[j].status == x.status
    ensures HistogramOf(acc[j := StatusCount(x.status, acc[j].count + 1)], programs + [x])
  {
    var acc' := acc[j := StatusCount(x.status, acc[j].count + 1)];
    forall i | 0 <= i < |acc'|
      ensures acc'[i].count == CountStatus(programs + [x], acc'[i].status)
    {
      CountStatusSnoc(programs, x, acc'[i].status);
    }
    assert Statuses(acc') == Statuses(acc) by {
      assert forall i :: 0 <= i < |acc| ==> acc'[i].status == acc[i].status;
      assert forall e :: e in acc' ==> exists i :: 0 <= i < |acc| && e == acc'[i];
      assert forall e :: e in acc ==> exists i :: 0 <= i < |acc| && e == acc[i];
    }
    forall k | 0 <= k < |programs + [x]|
      ensures (programs + [x])[k].status in Statuses(acc')
    {
      if k == |programs| {
        assert acc'[j] in acc';
      }
    }
  }

  /** Counting one more program whose status has no entry yet appends that status with count 1. */
  lemma HistogramAppend(acc: seq<StatusCount>, programs: seq<Program>, x: Program)
    requires HistogramOf(acc, programs)
    requires forall i :: 0 <= i < |acc| ==> acc[i].status != x.status
    ensures HistogramOf(acc + [StatusCount(x.status, 1)], programs + [x])
  {
    var acc' := acc + [StatusCount(x.status, 1)];
    assert x.status !in Statuses(acc);
    CountStatusAbsent(programs, x.status);
    forall i | 0 <= i < |acc'|
      ensures acc'[i].count == CountStatus(programs + [x], acc'[i].status)
    {
      CountStatusSnoc(programs, x, acc'[i].status);
    }
    assert Statuses(acc') == Statuses(acc) + {x.status};
  }

  /**
   * The histogram loop: for each program, `acc[status] = (acc[status] || 0) + 1`.
   * A new status is appended as a key with count 1, as a fresh property of a
   * JavaScript object is; the counts add up to the number of programs.
   */
  method ProgramStatusData(programs: seq<Program>) returns (acc: seq<StatusCount>)
    ensures HistogramOf(acc, programs)
    ensures SumCounts(acc) == TotalPrograms(programs)
  {
    acc := [];
    var i := 0;
    while i < |programs|
      invariant 0 <= i <= |programs|
      invariant HistogramOf(acc, programs[..i])
      invariant SumCounts(acc) == i
    {
      var s := programs[i].status;
      HistogramStep(acc, programs, i);
      match KeyIndex(acc, s) {
        case Some(j) => acc := acc[j := StatusCount(s, acc[j].count + 1)];
        case None => acc := acc + [StatusCount(s, 1)];
      }
      i := i + 1;
    }
    assert programs[..i] == programs;
  }

  /** One step of the loop: bumping the program's entry, or adding one, extends the histogram by that program. */
  lemma HistogramStep(acc: seq<StatusCount>, programs: seq<Program>, i: nat)
    requires i < |programs|
    requires HistogramOf(acc, programs[..i]) && SumCounts(acc) == i
    ensures var s := programs[i].status;
      match KeyIndex(acc, s)
      case Some(j) =>
        HistogramOf(acc[j := StatusCount(s, acc[j].count + 1)], programs[..i + 1])
        && SumCounts(acc[j := StatusCount(s, acc[j].count + 1)]) == i + 1
      case None =>
        HistogramOf(acc + [StatusCount(s, 1)], programs[..i + 1])
        && SumCounts(acc + [StatusCount(s, 1)]) == i + 1
  {
    var s := programs[i].status;
    assert programs[..i + 1] == programs[..i] + [programs[i]];
    match KeyIndex(acc, s) {
      case Some(j) =>
        HistogramIncrement(acc, programs[..i], programs[i], j);
        SumCountsUpdate(acc, j, StatusCount(s, acc[j].count + 1));
      case None =>
        HistogramAppend(acc, programs[..i], programs[i]);
        SumCountsSnoc(acc, StatusCount(s, 1));
    }
  }

  /** Every program is counted exactly once in some histogram entry. */
  lemma HistogramCovers(acc: seq<StatusCount>, programs: seq<Program>, k: nat)
    requires HistogramOf(acc, programs)
    requires k < |programs|
    ensures exists i :: 0 <= i < |acc| && acc[i].status == programs[k].status && acc[i].count >= 1
  {
    assert programs[k].status in Statuses(acc);
    var e :| e in acc && e.status == programs[k].status;
    var i :| 0 <= i < |acc| && acc[i] == e;
  }

  // ---------------------------------------------------------------------
  // Budget trend and overview

  /** `name.split(' ')[0]`: the text before the first space. */
  function FirstWord(name: string): (w: string)
    ensures |w| <= |name| && w == name[..|w|]
    ensures ' ' !in w
    ensures |w| < |name| ==> name[|w|] == ' '
  {
    if name == [] || name[0] == ' ' then []
    else [name[0]] + FirstWord(name[1..])
  }

  /** One point of the budget-trend chart, in thousands. */
  datatype TrendPoint = TrendPoint(name: string, planned: real, actual: real)

  function TrendPointOf(p: Program): TrendPoint
  {
    TrendPoint(FirstWord(p.name), p.budget / 1000.0, p.spent / 1000.0)
  }

  function BudgetTrendData(programs: seq<Program>): seq<TrendPoint>
  {
    Map(programs, TrendPointOf)
  }

  /** One trend point per program, in program order, labelled with the name's first word, with amounts scaled to thousands. */
  lemma BudgetTrendDataMeaning(programs: seq<Program>)
    ensures |BudgetTrendData(programs)| == |programs|
    ensures forall i :: 0 <= i < |programs| ==>
      && BudgetTrendData(programs)[i].planned * 1000.0 == programs[i].budget
      && BudgetTrendData(programs)[i].actual * 1000.0 == programs[i].spent
      && BudgetTrendData(programs)[i].name == FirstWord(programs[i].name)
  {
  }

  /** The programs shown in the overview card: `programs.slice(0, 3)`. */
  function OverviewPrograms(programs: seq<Program>): seq<Program>
  {
    Take(programs, 3)
  }

  /** The overview shows the first min(3, n) programs, in order. */
  lemma OverviewShowsFirstThree(programs: seq<Program>)
    ensures |programs| <= 3 ==> OverviewPrograms(programs) == programs
    ensures |programs| > 3 ==> OverviewPrograms(programs) == programs[..3]
  {
  }
}
