/**
 * The portfolio alerts panel: upcoming milestones, over-allocated resources,
 * budget overruns and programs behind schedule, ordered critical first and
 * cut to `maxAlerts`.
 */
module Alerts {
  import opened Wrappers
  import opened Types
  import opened Seqs
  import opened JsNumber
  import Store

  datatype AlertKind = MilestoneKind | ResourceKind | BudgetKind | ProgressKind
  datatype Severity = Info | Warning | Critical

  /** An alert without its translated title, description and action label. */
  datatype Alert = Alert(id: string, kind: AlertKind, severity: Severity, actionUrl: string)

  /** The component's default for `maxAlerts`. */
  const DefaultMaxAlerts := 3

  /** `severityOrder`: critical 0, warning 1, info 2. */
  function SeverityRank(s: Severity): (k: nat)
    ensures k <= 2
    ensures s == Severity.Critical <==> k == 0
    ensures s == Warning <==> k == 1
    ensures s == Info <==> k == 2
  {
    match s
    case Critical => 0
    case Warning => 1
    case Info => 2
  }

  // ---------------------------------------------------------------------
  // Milestones. Days are whole days; `daysUntil` is the due day minus today.
  // ---------------------------------------------------------------------

  /**
   * `new Date(m.dueDate)` as written: a milestone record has no `dueDate`
   * field (its day is `date`), so the value is undefined and the date invalid.
   */
  function AsWrittenDue(m: Milestone): Option<Date>
  {
    None
  }

  /** The due day the check evidently means: the milestone's `date`. */
  function MilestoneDue(m: Milestone): Option<Date>
  {
    Some(m.date)
  }

  /** Due between today and a week from today, both inclusive; an invalid date compares false both ways. */
  predicate IsUpcoming(m: Milestone, today: Date, due: Milestone -> Option<Date>)
  {
    due(m).Some? && today <= due(m).value <= today + 7
  }

  function UpcomingAlert(m: Milestone, today: Date, due: Milestone -> Option<Date>): Option<Alert>
  {
    if IsUpcoming(m, today, due) then
      var daysUntil := due(m).value - today;
      Some(Alert("milestone-" + m.id, MilestoneKind, if daysUntil <= 3 then Severity.Critical else Warning, "/ppms/schedule"))
    else None
  }

  /** `upcomingMilestones.slice(0, 2)`: the first two upcoming milestones. */
  function FirstUpcoming(milestones: seq<Milestone>, today: Date, due: Milestone -> Option<Date>): seq<Milestone>
  {
    Take(Filter(milestones, (m: Milestone) => IsUpcoming(m, today, due)), 2)
  }

  function MilestoneAlerts(milestones: seq<Milestone>, today: Date, due: Milestone -> Option<Date>): seq<Alert>
  {
    Collect(FirstUpcoming(milestones, today, due), (m: Milestone) => UpcomingAlert(m, today, due))
  }

  /**
   * At most two milestone alerts, one per upcoming milestone in store order;
   * each is critical iff the milestone is due within three days.
   */
  lemma MilestoneAlertsMeaning(milestones: seq<Milestone>, today: Date, due: Milestone -> Option<Date>)
    ensures var alerts := MilestoneAlerts(milestones, today, due);
      var first := FirstUpcoming(milestones, today, due);
      && |alerts| == |first| <= 2
      && forall i :: 0 <= i < |first| ==>
           && IsUpcoming(first[i], today, due)
           && alerts[i].id == "milestone-" + first[i].id
           && (alerts[i].severity == Severity.Critical <==> due(first[i]).value - today <= 3)
           && (alerts[i].severity != Severity.Critical ==> alerts[i].severity == Warning)
  {
    var first := FirstUpcoming(milestones, today, due);
    var upcoming := Filter(milestones, (m: Milestone) => IsUpcoming(m, today, due));
    FilterMembers(milestones, (m: Milestone) => IsUpcoming(m, today, due));
    assert forall i :: 0 <= i < |first| ==> first[i] == upcoming[i];
    CollectTotal(first, (m: Milestone) => UpcomingAlert(m, today, due));
  }

  /** As written, no milestone is ever upcoming, so no milestone alert is ever raised. */
  lemma AsWrittenMilestoneAlertsNeverFire(milestones: seq<Milestone>, today: Date)
    ensures MilestoneAlerts(milestones, today, AsWrittenDue) == []
  {
    FilterNone(milestones, (m: Milestone) => IsUpcoming(m, today, AsWrittenDue));
  }

  /** A milestone due tomorrow: the intended check raises a critical alert, the code as written raises none. */
  lemma MilestoneDueTomorrow(m: Milestone, today: Date)
    requires m.date == today + 1
    ensures MilestoneAlerts([m], today, MilestoneDue) == [Alert("milestone-" + m.id, MilestoneKind, Severity.Critical, "/ppms/schedule")]
    ensures MilestoneAlerts([m], today, AsWrittenDue) == []
  {
    assert [m][1..] == [];
    var f := (x: Milestone) => IsUpcoming(x, today, MilestoneDue);
    assert Filter([m], f) == [m];
    assert FirstUpcoming([m], today, MilestoneDue) == [m];
    AsWrittenMilestoneAlertsNeverFire([m], today);
  }

  // ---------------------------------------------------------------------
  // Resources.
  // ---------------------------------------------------------------------

  /** Over 100 % allocated is critical, over 80 % a warning, otherwise no alert. */
  function ResourceAlert(r: Resource, allocations: seq<ResourceAllocation>): (a: Option<Alert>)
    ensures var total := Store.TotalPercent(Store.AllocationsByResource(allocations, r.id));
      && (a.Some? <==> total > 80.0)
      && (a.Some? ==> a.value == Alert("resource-" + r.id, ResourceKind, if total > 100.0 then Severity.Critical else Warning, "/ppms/resources"))
  {
    var total := Store.TotalPercent(Store.AllocationsByResource(allocations, r.id));
    if total > 100.0 then Some(Alert("resource-" + r.id, ResourceKind, Severity.Critical, "/ppms/resources"))
    else if total > 80.0 then Some(Alert("resource-" + r.id, ResourceKind, Warning, "/ppms/resources"))
    else None
  }

  // ---------------------------------------------------------------------
  // Budgets.
  // ---------------------------------------------------------------------

  /** `(p.spent / p.budget) * 100`, unguarded. */
  function BudgetUsed(p: Program): Num
  {
    Times(Div(p.spent, p.budget), 100.0)
  }

  function BudgetAlert(p: Program): Option<Alert>
  {
    var used := BudgetUsed(p);
    if Greater(used, 100.0) then Some(Alert("budget-" + p.id, BudgetKind, Severity.Critical, "/ppms"))
    else if Greater(used, 90.0) then Some(Alert("budget-" + p.id, BudgetKind, Warning, "/ppms"))
    else None
  }

  /**
   * With a positive budget: an alert iff more than 90 % is spent, critical
   * iff more than all of it. With a zero budget the division gives Infinity
   * (critical as soon as anything is spent) or NaN (no alert when nothing is).
   */
  lemma BudgetAlertMeaning(p: Program)
    ensures p.budget > 0.0 ==> (BudgetAlert(p).Some? <==> p.spent * 100.0 > 90.0 * p.budget)
    ensures p.budget > 0.0 ==> (BudgetAlert(p).Some? && BudgetAlert(p).value.severity == Severity.Critical <==> p.spent > p.budget)
    ensures p.budget == 0.0 ==> (BudgetAlert(p).Some? <==> p.spent > 0.0)
    ensures p.budget == 0.0 && BudgetAlert(p).Some? ==> BudgetAlert(p).value.severity == Severity.Critical
    ensures BudgetAlert(p).Some? ==> BudgetAlert(p).value.kind == BudgetKind && BudgetAlert(p).value.id == "budget-" + p.id
  {
    if p.budget > 0.0 {
      var q := p.spent / p.budget;
      assert q * p.budget == p.spent;
      assert BudgetUsed(p) == Finite(q * 100.0);
      var over, warn := q - 1.0, q - 0.9;
      SignOfProduct(over, p.budget);
      SignOfProduct(warn, p.budget);
      assert over * p.budget == p.spent - p.budget;
      assert warn * p.budget == p.spent - 0.9 * p.budget;
      assert BudgetAlert(p).Some? <==> warn > 0.0;
      assert BudgetAlert(p).Some? && BudgetAlert(p).value.severity == Severity.Critical <==> over > 0.0;
    }
  }

  /** Multiplying by a positive number keeps the sign. */
  lemma SignOfProduct(x: real, c: real)
    requires c > 0.0
    ensures x > 0.0 <==> x * c > 0.0
  {
  }

  // ---------------------------------------------------------------------
  // Progress.
  // ---------------------------------------------------------------------

  /** `(daysSinceStart / totalDurationInDays) * 100`, unguarded. */
  function ExpectedProgress(p: Program, today: Date): Num
  {
    Times(Div((today - p.startDate) as real, (p.endDate - p.startDate) as real), 100.0)
  }

  /** An active program under 30 % that is more than 20 points behind the time elapsed. */
  function ProgressAlert(p: Program, today: Date): Option<Alert>
  {
    if p.status == ProgramStatus.Active && p.progress < 30.0
       && Less(p.progress, MinusConst(ExpectedProgress(p, today), 20.0)) then
      Some(Alert("progress-" + p.id, ProgressKind, Info, "/ppms"))
    else None
  }

  /**
   * For a program with a positive duration the alert fires iff it is active,
   * under 30 % and its progress plus 20 points is below the elapsed share of
   * the duration; for a zero duration, iff it is active, under 30 % and today
   * is after its start. Progress alerts are only ever informational.
   */
  lemma ProgressAlertMeaning(p: Program, today: Date)
    ensures ProgressAlert(p, today).Some? ==>
      p.status == ProgramStatus.Active && p.progress < 30.0 && ProgressAlert(p, today).value.severity == Info
    ensures p.endDate > p.startDate ==>
      (ProgressAlert(p, today).Some? <==>
        p.status == ProgramStatus.Active && p.progress < 30.0
        && (p.progress + 20.0) * (p.endDate - p.startDate) as real < (today - p.startDate) as real * 100.0)
    ensures p.endDate == p.startDate ==>
      (ProgressAlert(p, today).Some? <==> p.status == ProgramStatus.Active && p.progress < 30.0 && today > p.startDate)
  {
    if p.endDate > p.startDate {
      var d := (p.endDate - p.startDate) as real;
      var e := (today - p.startDate) as real;
      var q := e / d;
      assert q * d == e;
      assert p.progress + 20.0 < q * 100.0 <==> (p.progress + 20.0) * d < q * 100.0 * d;
    }
  }

  // ---------------------------------------------------------------------
  // All alerts, sorted and cut.
  // ---------------------------------------------------------------------

  /** Every candidate alert in the order the source pushes them. */
  function AllAlerts(programs: seq<Program>, resources: seq<Resource>, milestones: seq<Milestone>,
                     allocations: seq<ResourceAllocation>, today: Date, due: Milestone -> Option<Date>): seq<Alert>
  {
    MilestoneAlerts(milestones, today, due) + ResourceAlerts(resources, allocations)
    + BudgetAlerts(programs) + ProgressAlerts(programs, today)
  }

  function ResourceAlerts(resources: seq<Resource>, allocations: seq<ResourceAllocation>): seq<Alert>
  {
    Collect(resources, (r: Resource) => ResourceAlert(r, allocations))
  }

  function BudgetAlerts(programs: seq<Program>): seq<Alert>
  {
    Collect(programs, BudgetAlert)
  }

  function ProgressAlerts(programs: seq<Program>, today: Date): seq<Alert>
  {
    Collect(programs, (p: Program) => ProgressAlert(p, today))
  }

  predicate IsCritical(a: Alert) { a.severity == Severity.Critical }
  predicate IsWarning(a: Alert) { a.severity == Warning }
  predicate IsInfo(a: Alert) { a.severity == Info }

  /** The stable sort by severity rank: the critical alerts, then the warnings, then the rest, each in list order. */
  function SortBySeverity(alerts: seq<Alert>): seq<Alert>
  {
    Blocks3(alerts, IsCritical, IsWarning, IsInfo)
  }

  predicate SortedBySeverity(alerts: seq<Alert>)
  {
    forall i, j :: 0 <= i < j < |alerts| ==> SeverityRank(alerts[i].severity) <= SeverityRank(alerts[j].severity)
  }

  /** Every alert has exactly one severity. */
  lemma SeveritiesPartition(alerts: seq<Alert>)
    ensures Partitions3(alerts, IsCritical, IsWarning, IsInfo)
  {
  }

  /** Ordered by rank is the same as: nothing before a critical alert is less severe, and no info before a warning. */
  lemma SortedIsBlockOrdered(alerts: seq<Alert>)
    ensures SortedBySeverity(alerts) <==> BlockOrdered(alerts, IsCritical, IsWarning, IsInfo)
  {
  }

  /** The result is ordered by rank and is a rearrangement of the input that keeps each severity's own order. */
  lemma SortBySeverityCorrect(alerts: seq<Alert>)
    ensures SortedBySeverity(SortBySeverity(alerts))
    ensures multiset(SortBySeverity(alerts)) == multiset(alerts)
    ensures Filter(SortBySeverity(alerts), IsCritical) == Filter(alerts, IsCritical)
    ensures Filter(SortBySeverity(alerts), IsWarning) == Filter(alerts, IsWarning)
    ensures Filter(SortBySeverity(alerts), IsInfo) == Filter(alerts, IsInfo)
  {
    SeveritiesPartition(alerts);
    Blocks3Ordered(alerts, IsCritical, IsWarning, IsInfo);
    SortedIsBlockOrdered(SortBySeverity(alerts));
    Blocks3Permutation(alerts, IsCritical, IsWarning, IsInfo);
    Blocks3Stable(alerts, IsCritical, IsWarning, IsInfo);
  }

  /**
   * The stable sort is the only ordering by rank that keeps each severity's
   * order: `Array.prototype.sort` with this comparator can return nothing else.
   */
  lemma SortBySeverityUnique(alerts: seq<Alert>, other: seq<Alert>)
    requires SortedBySeverity(other)
    requires Filter(other, IsCritical) == Filter(alerts, IsCritical)
    requires Filter(other, IsWarning) == Filter(alerts, IsWarning)
    requires Filter(other, IsInfo) == Filter(alerts, IsInfo)
    ensures other == SortBySeverity(alerts)
  {
    SeveritiesPartition(other);
    SortedIsBlockOrdered(other);
    BlockOrderedIsBlocks3(other, IsCritical, IsWarning, IsInfo);
  }

  /**
   * `alertList.sort(...)`: the alerts are dealt into three lists by severity
   * and the lists joined, which is the stable sort by rank.
   */
  method SortAlerts(alertList: seq<Alert>) returns (sorted: seq<Alert>)
    ensures sorted == SortBySeverity(alertList)
  {
    var critical, warning, info := [], [], [];
    var i := 0;
    while i < |alertList|
      invariant 0 <= i <= |alertList|
      invariant critical == Filter(alertList[..i], IsCritical)
      invariant warning == Filter(alertList[..i], IsWarning)
      invariant info == Filter(alertList[..i], IsInfo)
    {
      var a := alertList[i];
      assert alertList[..i + 1] == alertList[..i] + [a];
      FilterSnoc(alertList[..i], a, IsCritical);
      FilterSnoc(alertList[..i], a, IsWarning);
      FilterSnoc(alertList[..i], a, IsInfo);
      match a.severity {
        case Critical => critical := critical + [a];
        case Warning => warning := warning + [a];
        case Info => info := info + [a];
      }
      i := i + 1;
    }
    assert alertList[..i] == alertList;
    sorted := critical + warning + info;
  }

  /** `items.forEach(x => { if (...) alertList.push(...) })`: push the alert of each item that has one. */
  method PushAlerts<T>(alertList: seq<Alert>, items: seq<T>, alertOf: T -> Option<Alert>) returns (pushed: seq<Alert>)
    ensures pushed == alertList + Collect(items, alertOf)
  {
    pushed := alertList;
    var i := 0;
    while i < |items|
      invariant 0 <= i <= |items|
      invariant pushed == alertList + Collect(items[..i], alertOf)
    {
      assert items[..i + 1] == items[..i] + [items[i]];
      CollectSnoc(items[..i], items[i], alertOf);
      var a := alertOf(items[i]);
      if a.Some? {
        pushed := pushed + [a.value];
      }
      i := i + 1;
    }
    assert items[..i] == items;
  }

  /** The panel's list, for a given reading of each milestone's due day. */
  function Panel(programs: seq<Program>, resources: seq<Resource>, milestones: seq<Milestone>,
                 allocations: seq<ResourceAllocation>, today: Date, due: Milestone -> Option<Date>, maxAlerts: int): seq<Alert>
  {
    Take(SortBySeverity(AllAlerts(programs, resources, milestones, allocations, today, due)), maxAlerts)
  }

  /**
   * The `alerts` memo: push the milestone, resource, budget and progress
   * alerts in that order, sort them by severity, keep the first `maxAlerts`.
   * `due` is how the milestone check reads the due day: `AsWrittenDue` is the
   * code as written, `MilestoneDue` the corrected reading.
   */
  method ComputeAlerts(programs: seq<Program>, resources: seq<Resource>, milestones: seq<Milestone>,
                       allocations: seq<ResourceAllocation>, today: Date, due: Milestone -> Option<Date>, maxAlerts: int)
    returns (alerts: seq<Alert>)
    ensures alerts == Panel(programs, resources, milestones, allocations, today, due, maxAlerts)
  {
    var alertList: seq<Alert> := [];
    var upcoming := FirstUpcoming(milestones, today, due);
    alertList := PushAlerts(alertList, upcoming, (m: Milestone) => UpcomingAlert(m, today, due));
    assert alertList == MilestoneAlerts(milestones, today, due);
    var m := alertList;
    alertList := PushAlerts(alertList, resources, (r: Resource) => ResourceAlert(r, allocations));
    assert alertList == m + ResourceAlerts(resources, allocations);
    var mr := alertList;
    alertList := PushAlerts(alertList, programs, BudgetAlert);
    assert alertList == mr + BudgetAlerts(programs);
    var mrb := alertList;
    alertList := PushAlerts(alertList, programs, (p: Program) => ProgressAlert(p, today));
    assert alertList == mrb + ProgressAlerts(programs, today);
    assert alertList == AllAlerts(programs, resources, milestones, allocations, today, due);
    var sorted := SortAlerts(alertList);
    alerts := Take(sorted, maxAlerts);
  }

  /**
   * The panel as written: the candidates are only the resource, budget and
   * progress alerts, and no milestone alert is ever shown.
   */
  lemma AsWrittenPanelHasNoMilestoneAlerts(programs: seq<Program>, resources: seq<Resource>, milestones: seq<Milestone>,
                                           allocations: seq<ResourceAllocation>, today: Date, maxAlerts: int)
    ensures AllAlerts(programs, resources, milestones, allocations, today, AsWrittenDue)
         == ResourceAlerts(resources, allocations) + BudgetAlerts(programs) + ProgressAlerts(programs, today)
    ensures forall a :: a in Panel(programs, resources, milestones, allocations, today, AsWrittenDue, maxAlerts) ==>
      a.kind != MilestoneKind
  {
    AsWrittenMilestoneAlertsNeverFire(milestones, today);
    var rest := ResourceAlerts(resources, allocations) + BudgetAlerts(programs) + ProgressAlerts(programs, today);
    assert AllAlerts(programs, resources, milestones, allocations, today, AsWrittenDue) == [] + rest;
    assert [] + rest == rest;
    OtherAlertsAreNotMilestones(programs, resources, allocations, today);
    forall a | a in Panel(programs, resources, milestones, allocations, today, AsWrittenDue, maxAlerts)
      ensures a.kind != MilestoneKind
    {
      ShownIsCandidate(rest, maxAlerts, a);
    }
  }

  /** An alert shown is one of the candidates. */
  lemma ShownIsCandidate(all: seq<Alert>, maxAlerts: int, a: Alert)
    requires a in Take(SortBySeverity(all), maxAlerts)
    ensures a in all
  {
    ShownAlertsAreCandidates(all, maxAlerts);
    assert multiset(Take(SortBySeverity(all), maxAlerts))[a] > 0;
  }

  /** The resource, budget and progress alerts are never milestone alerts. */
  lemma OtherAlertsAreNotMilestones(programs: seq<Program>, resources: seq<Resource>,
                                    allocations: seq<ResourceAllocation>, today: Date)
    ensures forall a :: a in ResourceAlerts(resources, allocations) ==> a.kind == ResourceKind
    ensures forall a :: a in BudgetAlerts(programs) ==> a.kind == BudgetKind
    ensures forall a :: a in ProgressAlerts(programs, today) ==> a.kind == ProgressKind
  {
    CollectAll(resources, (r: Resource) => ResourceAlert(r, allocations), (a: Alert) => a.kind == ResourceKind);
    CollectAll(programs, BudgetAlert, (a: Alert) => a.kind == BudgetKind);
    CollectAll(programs, (p: Program) => ProgressAlert(p, today), (a: Alert) => a.kind == ProgressKind);
  }

  /**
   * One milestone due tomorrow and nothing else: the corrected panel shows one
   * critical milestone alert, the panel as written shows nothing.
   */
  lemma PanelForMilestoneDueTomorrow(m: Milestone, today: Date)
    requires m.date == today + 1
    ensures Panel([], [], [m], [], today, MilestoneDue, DefaultMaxAlerts)
         == [Alert("milestone-" + m.id, MilestoneKind, Severity.Critical, "/ppms/schedule")]
    ensures Panel([], [], [m], [], today, AsWrittenDue, DefaultMaxAlerts) == []
  {
    var a := Alert("milestone-" + m.id, MilestoneKind, Severity.Critical, "/ppms/schedule");
    MilestoneDueTomorrow(m, today);
    assert AllAlerts([], [], [m], [], today, MilestoneDue) == [a];
    assert AllAlerts([], [], [m], [], today, AsWrittenDue) == [];
    assert [a][1..] == [];
    assert Filter([a], IsCritical) == [a];
    assert Filter([a], IsWarning) == [];
    assert Filter([a], IsInfo) == [];
    assert SortBySeverity([a]) == [a];
  }

  /**
   * The panel shows at most `maxAlerts` alerts (for a non-negative limit),
   * ordered by severity.
   */
  lemma ShownAlertsSorted(all: seq<Alert>, maxAlerts: int)
    ensures maxAlerts >= 0 ==> |Take(SortBySeverity(all), maxAlerts)| <= maxAlerts
    ensures SortedBySeverity(Take(SortBySeverity(all), maxAlerts))
  {
    var sorted := SortBySeverity(all);
    SortBySeverityCorrect(all);
    SortedPrefix(sorted, SliceEnd(|sorted|, maxAlerts));
  }

  /** Cutting a severity-ordered list short keeps it ordered. */
  lemma SortedPrefix(alerts: seq<Alert>, k: nat)
    requires SortedBySeverity(alerts) && k <= |alerts|
    ensures SortedBySeverity(alerts[..k])
  {
    var prefix := alerts[..k];
    forall i, j | 0 <= i < j < |prefix|
      ensures SeverityRank(prefix[i].severity) <= SeverityRank(prefix[j].severity)
    {
      assert prefix[i] == alerts[i] && prefix[j] == alerts[j];
    }
  }

  /** Every alert shown is one of the candidates, and none is shown more often than it was raised. */
  lemma ShownAlertsAreCandidates(all: seq<Alert>, maxAlerts: int)
    ensures multiset(Take(SortBySeverity(all), maxAlerts)) <= multiset(all)
  {
    var sorted := SortBySeverity(all);
    SortBySeverityCorrect(all);
    var k := SliceEnd(|sorted|, maxAlerts);
    assert sorted == sorted[..k] + sorted[k..];
    assert multiset(sorted) == multiset(sorted[..k]) + multiset(sorted[k..]);
  }

  /** Whenever some candidate is critical and anything is shown, the first alert shown is critical. */
  lemma CriticalAlertsComeFirst(all: seq<Alert>, maxAlerts: int, i: nat)
    requires i < |all| && IsCritical(all[i])
    requires |Take(SortBySeverity(all), maxAlerts)| > 0
    ensures IsCritical(Take(SortBySeverity(all), maxAlerts)[0])
  {
    FilterMembers(all, IsCritical);
    var critical := Filter(all, IsCritical);
    assert |critical| > 0;
    assert SortBySeverity(all)[0] == critical[0];
  }

  /** With the default limit at most three alerts are shown. */
  lemma DefaultLimitShowsAtMostThree(all: seq<Alert>)
    ensures |Take(SortBySeverity(all), DefaultMaxAlerts)| <= 3
  {
  }
}
