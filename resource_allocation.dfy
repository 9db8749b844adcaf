/**
 * The resource-allocation board: resource cards with their availability
 * status, skill chips and allocation preview; project drop zones holding the
 * resources allocated to them; the average utilisation figure; and the drag
 * handler, which only requests an assignment.
 */
module ResourceBoard {
  import opened Wrappers
  import opened Types
  import opened Seqs
  import opened JsNumber
  import opened Store
  import opened StatusBadge

  // ---------------------------------------------------------------------
  // Availability status of a card

  datatype AvailabilityStatus = Overallocated | Available | Allocated

  /** `available < 0 ? 'overallocated' : available > 0 ? 'available' : 'allocated'` with `available = capacity - total`. */
  function AvailabilityStatusOf(capacity: real, total: real): (s: AvailabilityStatus)
    ensures s == Overallocated <==> capacity - total < 0.0
    ensures s == AvailabilityStatus.Available <==> capacity - total > 0.0
    ensures s == Allocated <==> capacity - total == 0.0
  {
    var available := capacity - total;
    if available < 0.0 then Overallocated else if available > 0.0 then AvailabilityStatus.Available else Allocated
  }

  /** The badge colour of each availability status. */
  function AvailabilityVariant(s: AvailabilityStatus): (v: Variant)
    ensures v == Success <==> s == AvailabilityStatus.Available
    ensures v == Info <==> s == Allocated
    ensures v == Danger <==> s == Overallocated
  {
    match s
    case Available => Success
    case Allocated => Info
    case Overallocated => Danger
  }

  /**
   * The card's status and the store's availability buckets disagree at exactly
   * one point: a resource with nothing left is "allocated" on the card but
   * "over-allocated" in `filterResources`. Otherwise an over-allocated card is
   * in the over-allocated bucket and an available card in one of the other two.
   */
  lemma CardStatusAgainstBuckets(capacity: real, total: real)
    ensures AvailabilityStatusOf(capacity, total) == Overallocated ==> InBucket(OverAllocated, capacity - total)
    ensures AvailabilityStatusOf(capacity, total) == Allocated ==> InBucket(OverAllocated, capacity - total)
    ensures AvailabilityStatusOf(capacity, total) == AvailabilityStatus.Available <==>
      InBucket(AvailabilityBucket.Available, capacity - total) || InBucket(FullyAllocated, capacity - total)
  {
  }

  // ---------------------------------------------------------------------
  // Resource cards

  /** An allocation with the project it names; `None` where `getProjectById` finds nothing. */
  datatype EnrichedAllocation = EnrichedAllocation(allocation: ResourceAllocation, project: Option<Project>)

  /** A resource together with its allocations. */
  datatype ResourceCard = ResourceCard(resource: Resource, allocations: seq<EnrichedAllocation>)

  function Enrich(projects: seq<Project>, a: ResourceAllocation): EnrichedAllocation
  {
    EnrichedAllocation(a, ProjectById(projects, a.projectId))
  }

  function CardOf(projects: seq<Project>, allocations: seq<ResourceAllocation>, r: Resource): ResourceCard
  {
    ResourceCard(r, Map(AllocationsByResource(allocations, r.id), a => Enrich(projects, a)))
  }

  /** `resourcesWithAllocations`. */
  function ResourcesWithAllocations(resources: seq<Resource>, allocations: seq<ResourceAllocation>, projects: seq<Project>): seq<ResourceCard>
  {
    Map(resources, r => CardOf(projects, allocations, r))
  }

  /** One card per resource, in order, listing that resource's allocations in store order with their projects. */
  lemma ResourcesWithAllocationsMeaning(resources: seq<Resource>, allocations: seq<ResourceAllocation>, projects: seq<Project>, i: nat)
    requires i < |resources|
    ensures var cards := ResourcesWithAllocations(resources, allocations, projects);
      && |cards| == |resources|
      && cards[i].resource == resources[i]
      && |cards[i].allocations| == |AllocationsByResource(allocations, resources[i].id)|
      && forall k :: 0 <= k < |cards[i].allocations| ==>
           && cards[i].allocations[k].allocation == AllocationsByResource(allocations, resources[i].id)[k]
           && cards[i].allocations[k].project == ProjectById(projects, cards[i].allocations[k].allocation.projectId)
  {
  }

  function EnrichedPercent(e: EnrichedAllocation): real
  {
    e.allocation.allocationPercent
  }

  /** The card's `totalAllocation`. */
  function CardTotal(c: ResourceCard): real
  {
    Sum(c.allocations, EnrichedPercent)
  }

  lemma {:induction false} SumEnriched(projects: seq<Project>, allocations: seq<ResourceAllocation>)
    ensures Sum(Map(allocations, a => Enrich(projects, a)), EnrichedPercent) == TotalPercent(allocations)
  {
    if allocations != [] {
      var f := a => Enrich(projects, a);
      assert Map(allocations, f) == [f(allocations[0])] + Map(allocations[1..], f);
      SumEnriched(projects, allocations[1..]);
    }
  }

  /**
   * A card's total is the store's allocation total for that resource, so its
   * `capacity - total` is the store's `getResourceAvailability` whenever the
   * resource is the one the store finds under its id.
   */
  lemma CardAvailabilityIsStoreAvailability(resources: seq<Resource>, allocations: seq<ResourceAllocation>, projects: seq<Project>, r: Resource)
    requires ResourceById(resources, r.id) == Some(r)
    ensures CardTotal(CardOf(projects, allocations, r)) == TotalPercent(AllocationsByResource(allocations, r.id))
    ensures r.capacity - CardTotal(CardOf(projects, allocations, r)) == ResourceAvailability(resources, allocations, r.id)
  {
    SumEnriched(projects, AllocationsByResource(allocations, r.id));
  }

  /**
   * Deleting a project leaves its allocations in the store, and their cards then
   * carry no project: the allocation preview dereferences `allocation.project.name`
   * on such an entry.
   */
  lemma DeletedProjectLeavesAllocationUnresolved(projects: seq<Project>, a: ResourceAllocation)
    ensures Enrich(ProjectsWithout(projects, a.projectId), a).project == None
  {
    FilterMembers(projects, (p: Project) => p.id != a.projectId);
  }

  // ---------------------------------------------------------------------
  // Chips and preview lines

  const MaxSkillChips: nat := 3
  const MaxAllocationLines: nat := 2

  /** The first `limit` items, and the `+n` overflow label when more exist. */
  datatype Preview<T> = Preview(shown: seq<T>, overflow: Option<nat>)

  function PreviewOf<T>(items: seq<T>, limit: nat): (p: Preview<T>)
    ensures |p.shown| <= limit && |p.shown| <= |items| && p.shown == items[..|p.shown|]
    ensures p.overflow.Some? <==> |items| > limit
    ensures p.overflow.Some? ==> p.overflow.value > 0
    ensures |p.shown| + p.overflow.GetOr(0) == |items|
  {
    Preview(Take(items, limit), if |items| > limit then Some(|items| - limit) else None)
  }

  /** The skill chips: at most three, then `+{skills.length - 3}`. */
  function SkillChips(r: Resource): Preview<string>
  {
    PreviewOf(r.skills, MaxSkillChips)
  }

  /** The allocation preview: shown only when the resource has allocations; at most two lines, then `+{length - 2}`. */
  function AllocationLines(c: ResourceCard): (p: Option<Preview<EnrichedAllocation>>)
    ensures p.Some? <==> |c.allocations| > 0
  {
    if |c.allocations| > 0 then Some(PreviewOf(c.allocations, MaxAllocationLines)) else None
  }

  /** Chips and lines never exceed their limits and, with the overflow count, account for every item. */
  lemma PreviewLimits(r: Resource, c: ResourceCard)
    ensures |SkillChips(r).shown| <= 3 && |SkillChips(r).shown| + SkillChips(r).overflow.GetOr(0) == |r.skills|
    ensures AllocationLines(c).Some? ==>
      |AllocationLines(c).value.shown| <= 2 && |AllocationLines(c).value.shown| + AllocationLines(c).value.overflow.GetOr(0) == |c.allocations|
  {
  }

  // ---------------------------------------------------------------------
  // Project drop zones

  function ForProject(projectId: string): EnrichedAllocation -> bool
  {
    (e: EnrichedAllocation) => e.allocation.projectId == projectId
  }

  /** `r.allocations.some((a) => a.projectId === project.id)`. */
  predicate AllocatesTo(c: ResourceCard, projectId: string)
  {
    Any(c.allocations, ForProject(projectId))
  }

  datatype DropZone = DropZone(project: Project, resources: seq<ResourceCard>)

  function ZoneOf(cards: seq<ResourceCard>, p: Project): DropZone
  {
    DropZone(p, Filter(cards, c => AllocatesTo(c, p.id)))
  }

  /** `projectsWithResources`. */
  function ProjectsWithResources(projects: seq<Project>, cards: seq<ResourceCard>): (zones: seq<DropZone>)
    ensures |zones| == |projects|
    ensures forall i :: 0 <= i < |projects| ==> zones[i] == ZoneOf(cards, projects[i])
  {
    Map(projects, p => ZoneOf(cards, p))
  }

  /** A card is in a project's zone iff it has an allocation to that project; the zone keeps card order. */
  lemma ZoneMembers(cards: seq<ResourceCard>, p: Project)
    ensures forall c :: c in ZoneOf(cards, p).resources <==> c in cards && AllocatesTo(c, p.id)
    ensures IsSubsequence(ZoneOf(cards, p).resources, cards)
  {
    FilterMembers(cards, c => AllocatesTo(c, p.id));
    FilterIsSubsequence(cards, c => AllocatesTo(c, p.id));
  }

  /** Enriching the allocations does not change which projects they are for. */
  lemma {:induction false} AnyEnriched(projects: seq<Project>, mine: seq<ResourceAllocation>, projectId: string)
    ensures Any(Map(mine, a => Enrich(projects, a)), ForProject(projectId)) ==
      Any(mine, (a: ResourceAllocation) => a.projectId == projectId)
  {
    if mine != [] {
      var f := a => Enrich(projects, a);
      assert Map(mine, f)[1..] == Map(mine[1..], f);
      AnyEnriched(projects, mine[1..], projectId);
    }
  }

  /** On the board's own cards, a resource allocates to a project iff the store holds an allocation linking the two. */
  lemma AllocatesToIffStoreAllocation(allocations: seq<ResourceAllocation>, projects: seq<Project>, r: Resource, projectId: string)
    ensures AllocatesTo(CardOf(projects, allocations, r), projectId) <==>
      exists k :: 0 <= k < |allocations| && allocations[k].resourceId == r.id && allocations[k].projectId == projectId
  {
    var link := (a: ResourceAllocation) => a.resourceId == r.id && a.projectId == projectId;
    AnyEnriched(projects, AllocationsByResource(allocations, r.id), projectId);
    AnyFilter(allocations, (a: ResourceAllocation) => a.resourceId == r.id, (a: ResourceAllocation) => a.projectId == projectId, link);
    AnyMeaning(allocations, link);
  }

  /** What one resource contributes to a zone's total: its allocations to that project, added up. */
  function ProjectShare(c: ResourceCard, projectId: string): real
  {
    Sum(Filter(c.allocations, ForProject(projectId)), EnrichedPercent)
  }

  /** The zone's `totalAllocation`. */
  function ZoneTotal(z: DropZone): real
  {
    Sum(z.resources, c => ProjectShare(c, z.project.id))
  }

  /**
   * The zone total counts every resource's allocations to the project: the
   * resources the zone leaves out contribute nothing.
   */
  lemma ZoneTotalCountsAllCards(cards: seq<ResourceCard>, p: Project)
    ensures ZoneTotal(ZoneOf(cards, p)) == Sum(cards, c => ProjectShare(c, p.id))
  {
    var share := c => ProjectShare(c, p.id);
    forall i | 0 <= i < |cards| && !AllocatesTo(cards[i], p.id)
      ensures share(cards[i]) == 0.0
    {
      FilterNone(cards[i].allocations, ForProject(p.id));
    }
    SumFilterZeros(cards, c => AllocatesTo(c, p.id), share);
  }

  // ---------------------------------------------------------------------
  // Average utilisation

  /** `(totalAllocation / r.capacity) * 100` with the division unguarded. */
  function UtilizationOf(allocations: seq<ResourceAllocation>, r: Resource): Num
  {
    Times(Div(TotalPercent(AllocationsByResource(allocations, r.id)), r.capacity), 100.0)
  }

  /** The `reduce` over the resources, left to right from 0. */
  function UtilizationSum(resources: seq<Resource>, allocations: seq<ResourceAllocation>): Num
  {
    if resources == [] then Finite(0.0)
    else Plus(UtilizationSum(resources[..|resources| - 1], allocations), UtilizationOf(allocations, resources[|resources| - 1]))
  }

  /** `averageUtilization`: 0 with no resources, otherwise the sum divided by their number. */
  function AverageUtilization(resources: seq<Resource>, allocations: seq<ResourceAllocation>): (a: Num)
    ensures resources == [] ==> a == Finite(0.0)
    ensures resources != [] ==> (a.Finite? <==> UtilizationSum(resources, allocations).Finite?)
  {
    if |resources| > 0 then
      var total := UtilizationSum(resources, allocations);
      var n := |resources| as real;
      DivPositive(total, n)
    else Finite(0.0)
  }

  /** `total / capacity * 100` for a resource with non-zero capacity. */
  function Utilization(allocations: seq<ResourceAllocation>, r: Resource): real
    requires r.capacity != 0.0
  {
    TotalPercent(AllocationsByResource(allocations, r.id)) / r.capacity * 100.0
  }

  /** With every capacity non-zero the average is the mean of the per-resource utilisations. */
  lemma {:induction false} UtilizationSumFinite(resources: seq<Resource>, allocations: seq<ResourceAllocation>)
    requires forall i :: 0 <= i < |resources| ==> resources[i].capacity != 0.0
    ensures UtilizationSum(resources, allocations) == Finite(SumUtilization(resources, allocations))
  {
    if resources != [] {
      UtilizationSumFinite(resources[..|resources| - 1], allocations);
    }
  }

  function SumUtilization(resources: seq<Resource>, allocations: seq<ResourceAllocation>): real
    requires forall i :: 0 <= i < |resources| ==> resources[i].capacity != 0.0
  {
    if resources == [] then 0.0
    else SumUtilization(resources[..|resources| - 1], allocations) + Utilization(allocations, resources[|resources| - 1])
  }

  lemma AverageIsMean(resources: seq<Resource>, allocations: seq<ResourceAllocation>)
    requires resources != []
    requires forall i :: 0 <= i < |resources| ==> resources[i].capacity != 0.0
    ensures AverageUtilization(resources, allocations).Finite?
    ensures AverageUtilization(resources, allocations).v * |resources| as real == SumUtilization(resources, allocations)
  {
    UtilizationSumFinite(resources, allocations);
    var total := UtilizationSum(resources, allocations);
    assert AverageUtilization(resources, allocations) == DivPositive(total, |resources| as real);
  }

  /**
   * There is no capacity guard: a resource with capacity 0 and nothing
   * allocated contributes `0 / 0`, and the average is NaN.
   */
  lemma {:induction false} IdleZeroCapacityGivesNaN(resources: seq<Resource>, allocations: seq<ResourceAllocation>, k: nat)
    requires k < |resources| && resources[k].capacity == 0.0
    requires TotalPercent(AllocationsByResource(allocations, resources[k].id)) == 0.0
    ensures UtilizationSum(resources, allocations).NaN?
    ensures AverageUtilization(resources, allocations).NaN?
  {
    var init := resources[..|resources| - 1];
    if k < |resources| - 1 {
      assert init[k] == resources[k];
      IdleZeroCapacityGivesNaN(init, allocations, k);
    }
  }

  // ---------------------------------------------------------------------
  // Drag and drop

  /** What dropping a card does: nothing, or the (unimplemented) request to assign. */
  datatype DragOutcome = Ignored | AssignRequested(resourceId: string, projectId: string)

  /**
   * `handleDragEnd`: returns early without a drop target or when dropped on
   * itself; otherwise it only logs the request. It takes no store, so no store
   * state changes either way.
   */
  function HandleDragEnd(activeId: string, overId: Option<string>): (o: DragOutcome)
    ensures o == Ignored <==> overId.None? || overId.value == activeId
    ensures o.AssignRequested? ==> o.resourceId == activeId && Some(o.projectId) == overId
  {
    match overId
    case None => Ignored
    case Some(target) => if activeId == target then Ignored else AssignRequested(activeId, target)
  }
}
