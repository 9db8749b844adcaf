/**
 * The PPMS entity store: eight collections, three selection ids, a loading
 * flag and an error, updated only by whole-field replacement (zustand `set`).
 *
 * The query actions (`get...ById`, `get...By...`, `filter...`,
 * `getResourceAvailability`) read the current collections and nothing else, so
 * they are functions of those collections, declared at module level; the
 * mutators are methods of `PpmsStore` whose `modifies` clauses name exactly the
 * fields the source's `set` call replaces.
 */
module Store {
  import opened Wrappers
  import opened Types
  import opened Seqs
  import opened Patches

  // ---------------------------------------------------------------------
  // Lookups by id: `find`, so the FIRST element with that id, or undefined.
  // ---------------------------------------------------------------------

  function ProgramById(programs: seq<Program>, id: string): (r: Option<Program>)
    ensures r.Some? ==> r.value in programs && r.value.id == id
    ensures r.None? <==> forall i :: 0 <= i < |programs| ==> programs[i].id != id
  {
    Find(programs, (p: Program) => p.id == id)
  }

  function ProjectById(projects: seq<Project>, id: string): (r: Option<Project>)
    ensures r.Some? ==> r.value in projects && r.value.id == id
    ensures r.None? <==> forall i :: 0 <= i < |projects| ==> projects[i].id != id
  {
    Find(projects, (p: Project) => p.id == id)
  }

  function TaskById(tasks: seq<Task>, id: string): (r: Option<Task>)
    ensures r.Some? ==> r.value in tasks && r.value.id == id
    ensures r.None? <==> forall i :: 0 <= i < |tasks| ==> tasks[i].id != id
  {
    Find(tasks, (t: Task) => t.id == id)
  }

  function ResourceById(resources: seq<Resource>, id: string): (r: Option<Resource>)
    ensures r.Some? ==> r.value in resources && r.value.id == id
    ensures r.None? <==> forall i :: 0 <= i < |resources| ==> resources[i].id != id
  {
    Find(resources, (x: Resource) => x.id == id)
  }

  // ---------------------------------------------------------------------
  // Children by foreign key: `filter`, in collection order.
  // ---------------------------------------------------------------------

  function ProjectsByProgram(projects: seq<Project>, programId: string): seq<Project>
  {
    Filter(projects, (p: Project) => p.programId == programId)
  }

  function TasksByProject(tasks: seq<Task>, projectId: string): seq<Task>
  {
    Filter(tasks, (t: Task) => t.projectId == projectId)
  }

  function AllocationsByResource(allocations: seq<ResourceAllocation>, resourceId: string): seq<ResourceAllocation>
  {
    Filter(allocations, (a: ResourceAllocation) => a.resourceId == resourceId)
  }

  function AllocationsByProject(allocations: seq<ResourceAllocation>, projectId: string): seq<ResourceAllocation>
  {
    Filter(allocations, (a: ResourceAllocation) => a.projectId == projectId)
  }

  function BudgetsByProject(budgets: seq<Budget>, projectId: string): seq<Budget>
  {
    Filter(budgets, (b: Budget) => b.projectId == projectId)
  }

  function RisksByProject(risks: seq<Risk>, projectId: string): seq<Risk>
  {
    Filter(risks, (r: Risk) => r.projectId == projectId)
  }

  function MilestonesByProject(milestones: seq<Milestone>, projectId: string): seq<Milestone>
  {
    Filter(milestones, (m: Milestone) => m.projectId == projectId)
  }

  /** The summand of every allocation total: `a.allocationPercent`. */
  function AllocationPercent(a: ResourceAllocation): real
  {
    a.allocationPercent
  }

  /** `allocations.reduce((sum, a) => sum + a.allocationPercent, 0)`. */
  function TotalPercent(allocations: seq<ResourceAllocation>): real
  {
    Sum(allocations, AllocationPercent)
  }

  // ---------------------------------------------------------------------
  // The three filter actions: criteria applied one after another.
  // ---------------------------------------------------------------------

  predicate InDateRange(p: Program, range: DateRange)
  {
    p.startDate >= range.start && p.endDate <= range.end
  }

  predicate MatchesProgramFilter(p: Program, f: ProgramFilter)
  {
    && (f.status.Some? ==> p.status == f.status.value)
    && (Truthy(f.ownerId) ==> p.ownerId == f.ownerId.value)
    && (f.dateRange.Some? ==> InDateRange(p, f.dateRange.value))
  }

  /** `filterPrograms`: status, then owner, then the date range (start and end both inside). */
  function FilterPrograms(programs: seq<Program>, f: ProgramFilter): seq<Program>
  {
    var byStatus := FilterIf(programs, f.status.Some?, (p: Program) => Some(p.status) == f.status);
    var byOwner := FilterIf(byStatus, Truthy(f.ownerId), (p: Program) => Some(p.ownerId) == f.ownerId);
    FilterIf(byOwner, f.dateRange.Some?, (p: Program) => f.dateRange.Some? && InDateRange(p, f.dateRange.value))
  }

  /**
   * The chained filters are one filter by the conjunction of the present
   * criteria: the result is the order-preserving subsequence of matching
   * programs, and an absent or empty criterion filters nothing.
   */
  lemma FilterProgramsIsConjunction(programs: seq<Program>, f: ProgramFilter)
    ensures FilterPrograms(programs, f) == Filter(programs, (p: Program) => MatchesProgramFilter(p, f))
    ensures IsSubsequence(FilterPrograms(programs, f), programs)
  {
    var r1 := (p: Program) => f.status.Some? ==> p.status == f.status.value;
    var r2 := (p: Program) => r1(p) && (Truthy(f.ownerId) ==> p.ownerId == f.ownerId.value);
    var r3 := (p: Program) => MatchesProgramFilter(p, f);
    FilterIfCongruent(programs, f.status.Some?, (p: Program) => Some(p.status) == f.status, r1);
    FilterIfStep(programs, r1, Truthy(f.ownerId), (p: Program) => Some(p.ownerId) == f.ownerId, r2);
    FilterIfStep(programs, r2, f.dateRange.Some?, (p: Program) => f.dateRange.Some? && InDateRange(p, f.dateRange.value), r3);
    FilterIsSubsequence(programs, r3);
  }

  predicate MatchesProjectFilter(p: Project, f: ProjectFilter)
  {
    && (Truthy(f.programId) ==> p.programId == f.programId.value)
    && (f.status.Some? ==> p.status == f.status.value)
    && (f.priority.Some? ==> p.priority == f.priority.value)
    && (Truthy(f.managerId) ==> p.managerId == f.managerId.value)
  }

  /** `filterProjects`: program, status, priority, then manager. */
  function FilterProjects(projects: seq<Project>, f: ProjectFilter): seq<Project>
  {
    var s1 := FilterIf(projects, Truthy(f.programId), (p: Project) => Some(p.programId) == f.programId);
    var s2 := FilterIf(s1, f.status.Some?, (p: Project) => Some(p.status) == f.status);
    var s3 := FilterIf(s2, f.priority.Some?, (p: Project) => Some(p.priority) == f.priority);
    FilterIf(s3, Truthy(f.managerId), (p: Project) => Some(p.managerId) == f.managerId)
  }

  lemma FilterProjectsIsConjunction(projects: seq<Project>, f: ProjectFilter)
    ensures FilterProjects(projects, f) == Filter(projects, (p: Project) => MatchesProjectFilter(p, f))
    ensures IsSubsequence(FilterProjects(projects, f), projects)
  {
    var r1 := (p: Project) => Truthy(f.programId) ==> p.programId == f.programId.value;
    var r2 := (p: Project) => r1(p) && (f.status.Some? ==> p.status == f.status.value);
    var r3 := (p: Project) => r2(p) && (f.priority.Some? ==> p.priority == f.priority.value);
    var r4 := (p: Project) => MatchesProjectFilter(p, f);
    FilterIfCongruent(projects, Truthy(f.programId), (p: Project) => Some(p.programId) == f.programId, r1);
    FilterIfStep(projects, r1, f.status.Some?, (p: Project) => Some(p.status) == f.status, r2);
    FilterIfStep(projects, r2, f.priority.Some?, (p: Project) => Some(p.priority) == f.priority, r3);
    FilterIfStep(projects, r3, Truthy(f.managerId), (p: Project) => Some(p.managerId) == f.managerId, r4);
    FilterIsSubsequence(projects, r4);
  }

  /**
   * `getResourceAvailability`: the capacity of the first resource with that id
   * minus the sum of all allocations to that id; 0 when no resource has it.
   */
  function ResourceAvailability(resources: seq<Resource>, allocations: seq<ResourceAllocation>, resourceId: string): real
  {
    match ResourceById(resources, resourceId)
    case None => 0.0
    case Some(r) => r.capacity - TotalPercent(AllocationsByResource(allocations, resourceId))
  }

  /** Adding an allocation lowers its resource's availability by exactly its percentage. */
  lemma {:induction false} AvailabilityAfterAllocation(resources: seq<Resource>, allocations: seq<ResourceAllocation>, a: ResourceAllocation)
    requires ResourceById(resources, a.resourceId).Some?
    ensures ResourceAvailability(resources, allocations + [a], a.resourceId)
         == ResourceAvailability(resources, allocations, a.resourceId) - a.allocationPercent
  {
    var p := (x: ResourceAllocation) => x.resourceId == a.resourceId;
    FilterConcat(allocations, [a], p);
    assert [a][1..] == [];
    assert Filter([a], p) == [a];
    SumConcat(Filter(allocations, p), [a], AllocationPercent);
  }

  /** An allocation for another resource does not show up in a resource's allocations. */
  lemma AllocationsByOtherResource(allocations: seq<ResourceAllocation>, a: ResourceAllocation, resourceId: string)
    requires a.resourceId != resourceId
    ensures AllocationsByResource(allocations + [a], resourceId) == AllocationsByResource(allocations, resourceId)
  {
    FilterSnoc(allocations, a, (x: ResourceAllocation) => x.resourceId == resourceId);
  }

  /** Unknown resources have availability 0 whatever the allocations say. */
  lemma UnknownResourceHasNoAvailability(resources: seq<Resource>, allocations: seq<ResourceAllocation>, resourceId: string)
    requires forall i :: 0 <= i < |resources| ==> resources[i].id != resourceId
    ensures ResourceAvailability(resources, allocations, resourceId) == 0.0
  {
  }

  /** The availability buckets of `filterResources`. */
  predicate InBucket(b: AvailabilityBucket, availability: real)
  {
    match b
    case Available => availability > 20.0
    case FullyAllocated => availability > 0.0 && availability <= 20.0
    case OverAllocated => availability <= 0.0
  }

  /** The buckets partition the availability values: every value lies in exactly one of them. */
  function BucketOf(availability: real): (b: AvailabilityBucket)
    ensures InBucket(b, availability)
    ensures forall c: AvailabilityBucket :: InBucket(c, availability) ==> c == b
  {
    if availability > 20.0 then Available
    else if availability > 0.0 then FullyAllocated
    else OverAllocated
  }

  predicate MatchesResourceFilter(r: Resource, f: ResourceFilter, resources: seq<Resource>, allocations: seq<ResourceAllocation>)
  {
    && (Truthy(f.department) ==> r.department == f.department.value)
    && (Truthy(f.skill) ==> f.skill.value in r.skills)
    && (f.availability.Some? ==> InBucket(f.availability.value, ResourceAvailability(resources, allocations, r.id)))
  }

  /**
   * `filterResources`: department, skill, then availability bucket. The
   * availability is looked up by id in the whole store, not in the partly
   * filtered list.
   */
  function FilterResources(resources: seq<Resource>, allocations: seq<ResourceAllocation>, f: ResourceFilter): seq<Resource>
  {
    var s1 := FilterIf(resources, Truthy(f.department), (r: Resource) => Some(r.department) == f.department);
    var s2 := FilterIf(s1, Truthy(f.skill), (r: Resource) => f.skill.Some? && f.skill.value in r.skills);
    FilterIf(s2, f.availability.Some?,
      (r: Resource) => f.availability.Some? && InBucket(f.availability.value, ResourceAvailability(resources, allocations, r.id)))
  }

  lemma FilterResourcesIsConjunction(resources: seq<Resource>, allocations: seq<ResourceAllocation>, f: ResourceFilter)
    ensures FilterResources(resources, allocations, f)
         == Filter(resources, (r: Resource) => MatchesResourceFilter(r, f, resources, allocations))
    ensures IsSubsequence(FilterResources(resources, allocations, f), resources)
  {
    var r1 := (r: Resource) => Truthy(f.department) ==> r.department == f.department.value;
    var r2 := (r: Resource) => r1(r) && (Truthy(f.skill) ==> f.skill.value in r.skills);
    var r3 := (r: Resource) => MatchesResourceFilter(r, f, resources, allocations);
    FilterIfCongruent(resources, Truthy(f.department), (r: Resource) => Some(r.department) == f.department, r1);
    FilterIfStep(resources, r1, Truthy(f.skill), (r: Resource) => f.skill.Some? && f.skill.value in r.skills, r2);
    FilterIfStep(resources, r2, f.availability.Some?,
      (r: Resource) => f.availability.Some? && InBucket(f.availability.value, ResourceAvailability(resources, allocations, r.id)), r3);
    FilterIsSubsequence(resources, r3);
  }

  // ---------------------------------------------------------------------
  // The new collections the mutators install.
  // ---------------------------------------------------------------------

  function UpdatedPrograms(programs: seq<Program>, id: string, u: ProgramPatch, now: Date): seq<Program>
  {
    MapWhere(programs, (p: Program) => p.id == id, (p: Program) => ApplyProgramPatch(p, u, now))
  }

  function UpdatedProjects(projects: seq<Project>, id: string, u: ProjectPatch, now: Date): seq<Project>
  {
    MapWhere(projects, (p: Project) => p.id == id, (p: Project) => ApplyProjectPatch(p, u, now))
  }

  function UpdatedTasks(tasks: seq<Task>, id: string, u: TaskPatch, now: Date): seq<Task>
  {
    MapWhere(tasks, (t: Task) => t.id == id, (t: Task) => ApplyTaskPatch(t, u, now))
  }

  function UpdatedResources(resources: seq<Resource>, id: string, u: ResourcePatch, now: Date): seq<Resource>
  {
    MapWhere(resources, (r: Resource) => r.id == id, (r: Resource) => ApplyResourcePatch(r, u, now))
  }

  function UpdatedAllocations(allocations: seq<ResourceAllocation>, id: string, u: AllocationPatch, now: Date): seq<ResourceAllocation>
  {
    MapWhere(allocations, (a: ResourceAllocation) => a.id == id, (a: ResourceAllocation) => ApplyAllocationPatch(a, u, now))
  }

  function UpdatedBudgets(budgets: seq<Budget>, id: string, u: BudgetPatch, now: Date): seq<Budget>
  {
    MapWhere(budgets, (b: Budget) => b.id == id, (b: Budget) => ApplyBudgetPatch(b, u, now))
  }

  function UpdatedRisks(risks: seq<Risk>, id: string, u: RiskPatch, now: Date): seq<Risk>
  {
    MapWhere(risks, (r: Risk) => r.id == id, (r: Risk) => ApplyRiskPatch(r, u, now))
  }

  function UpdatedMilestones(milestones: seq<Milestone>, id: string, u: MilestonePatch, now: Date): seq<Milestone>
  {
    MapWhere(milestones, (m: Milestone) => m.id == id, (m: Milestone) => ApplyMilestonePatch(m, u, now))
  }

  function ProgramsWithout(programs: seq<Program>, id: string): seq<Program>
  {
    Filter(programs, (p: Program) => p.id != id)
  }

  function ProjectsOutsideProgram(projects: seq<Project>, programId: string): seq<Project>
  {
    Filter(projects, (p: Project) => p.programId != programId)
  }

  function ProjectsWithout(projects: seq<Project>, id: string): seq<Project>
  {
    Filter(projects, (p: Project) => p.id != id)
  }

  function TasksOutsideProject(tasks: seq<Task>, projectId: string): seq<Task>
  {
    Filter(tasks, (t: Task) => t.projectId != projectId)
  }

  function ResourcesWithout(resources: seq<Resource>, id: string): seq<Resource>
  {
    Filter(resources, (r: Resource) => r.id != id)
  }

  function AllocationsOutsideResource(allocations: seq<ResourceAllocation>, resourceId: string): seq<ResourceAllocation>
  {
    Filter(allocations, (a: ResourceAllocation) => a.resourceId != resourceId)
  }

  // ---------------------------------------------------------------------
  // Properties of the actions.
  // ---------------------------------------------------------------------

  /** `addProgram` then `getProgramById`: the added program comes back unless an earlier one has its id. */
  lemma AddThenGetProgram(programs: seq<Program>, p: Program)
    ensures ProgramById(programs + [p], p.id)
         == if ProgramById(programs, p.id).Some? then ProgramById(programs, p.id) else Some(p)
    ensures (forall i :: 0 <= i < |programs| ==> programs[i].id != p.id) ==> ProgramById(programs + [p], p.id) == Some(p)
  {
    FindAppend(programs, p, (q: Program) => q.id == p.id);
  }

  /**
   * `updateProgram` then `getProgramById`: when the patch leaves the id as it
   * is (omits it or repeats it), the lookup returns the first matching program with the patch applied.
   * (Every program with that id is patched, as the update contract says.)
   */
  lemma UpdateThenGetProgram(programs: seq<Program>, id: string, u: ProgramPatch, now: Date)
    requires u.id.None? || u.id == Some(id)
    ensures ProgramById(UpdatedPrograms(programs, id, u, now), id)
         == match ProgramById(programs, id)
            case None => None
            case Some(p) => Some(ApplyProgramPatch(p, u, now))
  {
    var r := UpdatedPrograms(programs, id, u, now);
    var sel := (p: Program) => p.id == id;
    if ProgramById(programs, id).Some? {
      var i := FindIndex(programs, sel);
      assert r[i] == ApplyProgramPatch(programs[i], u, now);
      FindFirst(r, sel, i);
    } else {
      MapWhereNoneSelected(programs, sel, (p: Program) => ApplyProgramPatch(p, u, now));
    }
  }

  /** An update with an unknown id leaves the programs exactly as they were. */
  lemma UpdateUnknownProgram(programs: seq<Program>, id: string, u: ProgramPatch, now: Date)
    requires ProgramById(programs, id).None?
    ensures UpdatedPrograms(programs, id, u, now) == programs
  {
    MapWhereNoneSelected(programs, (p: Program) => p.id == id, (p: Program) => ApplyProgramPatch(p, u, now));
  }

  /**
   * `deleteProgram(id)` removes the program and its projects, keeps the other
   * programs' projects exactly, and loses nothing else from either collection.
   */
  lemma DeleteProgramCascade(programs: seq<Program>, projects: seq<Project>, id: string, other: string)
    requires other != id
    ensures ProgramById(ProgramsWithout(programs, id), id).None?
    ensures ProjectsByProgram(ProjectsOutsideProgram(projects, id), id) == []
    ensures ProjectsByProgram(ProjectsOutsideProgram(projects, id), other) == ProjectsByProgram(projects, other)
  {
    FilterMembers(programs, (p: Program) => p.id != id);
    FilterMembers(projects, (p: Project) => p.programId != id);
    FilterNone(ProjectsOutsideProgram(projects, id), (p: Project) => p.programId == id);
    FilterFilterCongruent(projects, (p: Project) => p.programId != id, (p: Project) => p.programId == other,
      (p: Project) => p.programId == other);
  }

  /** The projects `deleteProgram` keeps and the ones it drops are together exactly the old projects. */
  lemma DeleteProgramLosesNothingElse(projects: seq<Project>, id: string)
    ensures multiset(ProjectsOutsideProgram(projects, id)) + multiset(ProjectsByProgram(projects, id)) == multiset(projects)
  {
    FilterPartition(projects, (p: Project) => p.programId == id, (p: Project) => p.programId != id);
  }

  /**
   * The cascade is one level deep: a task of a deleted program's project stays
   * in the store (the tasks are not touched) but its project can no longer be
   * found, provided every project with that id belonged to the deleted program.
   */
  lemma DeleteProgramOrphansTasks(projects: seq<Project>, tasks: seq<Task>, id: string, t: Task)
    requires t in tasks
    requires forall i :: 0 <= i < |projects| && projects[i].id == t.projectId ==> projects[i].programId == id
    ensures ProjectById(ProjectsOutsideProgram(projects, id), t.projectId).None?
  {
    FilterMembers(projects, (p: Project) => p.programId != id);
  }

  /** `deleteProject(id)` removes the project and its tasks; the other projects' tasks are kept exactly. */
  lemma DeleteProjectCascade(projects: seq<Project>, tasks: seq<Task>, id: string, other: string)
    requires other != id
    ensures ProjectById(ProjectsWithout(projects, id), id).None?
    ensures TasksByProject(TasksOutsideProject(tasks, id), id) == []
    ensures TasksByProject(TasksOutsideProject(tasks, id), other) == TasksByProject(tasks, other)
  {
    FilterMembers(projects, (p: Project) => p.id != id);
    FilterMembers(tasks, (t: Task) => t.projectId != id);
    FilterNone(TasksOutsideProject(tasks, id), (t: Task) => t.projectId == id);
    FilterFilterCongruent(tasks, (t: Task) => t.projectId != id, (t: Task) => t.projectId == other,
      (t: Task) => t.projectId == other);
  }

  /** `deleteResource(id)` removes the resource and its allocations; other resources' allocations are kept exactly. */
  lemma DeleteResourceCascade(resources: seq<Resource>, allocations: seq<ResourceAllocation>, id: string, other: string)
    requires other != id
    ensures ResourceById(ResourcesWithout(resources, id), id).None?
    ensures AllocationsByResource(AllocationsOutsideResource(allocations, id), id) == []
    ensures AllocationsByResource(AllocationsOutsideResource(allocations, id), other) == AllocationsByResource(allocations, other)
  {
    FilterMembers(resources, (r: Resource) => r.id != id);
    FilterMembers(allocations, (a: ResourceAllocation) => a.resourceId != id);
    FilterNone(AllocationsOutsideResource(allocations, id), (a: ResourceAllocation) => a.resourceId == id);
    FilterFilterCongruent(allocations, (a: ResourceAllocation) => a.resourceId != id,
      (a: ResourceAllocation) => a.resourceId == other, (a: ResourceAllocation) => a.resourceId == other);
  }

  // ---------------------------------------------------------------------
  // The store object.
  // ---------------------------------------------------------------------

  class PpmsStore {
    var programs: seq<Program>
    var projects: seq<Project>
    var tasks: seq<Task>
    var resources: seq<Resource>
    var allocations: seq<ResourceAllocation>
    var budgets: seq<Budget>
    var risks: seq<Risk>
    var milestones: seq<Milestone>

    var selectedProgramId: Option<string>
    var selectedProjectId: Option<string>
    var selectedResourceId: Option<string>

    var loading: bool
    var error: Option<string>

    /** Every collection of the store is empty. */
    ghost predicate NoData()
      reads this
    {
      && programs == [] && projects == [] && tasks == [] && resources == []
      && allocations == [] && budgets == [] && risks == [] && milestones == []
    }

    /** Nothing selected, not loading, no error. */
    ghost predicate Idle()
      reads this
    {
      && selectedProgramId == None && selectedProjectId == None && selectedResourceId == None
      && !loading && error == None
    }

    /** Empty collections, nothing selected, not loading, no error: the store's initial state and what `reset` restores. */
    ghost predicate IsInitial()
      reads this
    {
      NoData() && Idle()
    }

    constructor ()
      ensures IsInitial()
    {
      programs, projects, tasks, resources := [], [], [], [];
      allocations, budgets, risks, milestones := [], [], [], [];
      selectedProgramId, selectedProjectId, selectedResourceId := None, None, None;
      loading, error := false, None;
    }

    // Programs

    method SetPrograms(ps: seq<Program>)
      modifies this`programs
      ensures programs == ps
    {
      programs := ps;
    }

    method AddProgram(p: Program)
      modifies this`programs
      ensures programs == old(programs) + [p]
    {
      programs := programs + [p];
    }

    method UpdateProgram(id: string, u: ProgramPatch, now: Date)
      modifies this`programs
      ensures programs == UpdatedPrograms(old(programs), id, u, now)
      ensures |programs| == |old(programs)|
    {
      programs := UpdatedPrograms(programs, id, u, now);
    }

    /** Removes the program and its projects; tasks and every other collection are left as they were. */
    method DeleteProgram(id: string)
      modifies this`programs, this`projects
      ensures programs == ProgramsWithout(old(programs), id)
      ensures projects == ProjectsOutsideProgram(old(projects), id)
      ensures tasks == old(tasks) && allocations == old(allocations)
    {
      programs := ProgramsWithout(programs, id);
      projects := ProjectsOutsideProgram(projects, id);
    }

    // Projects

    method SetProjects(ps: seq<Project>)
      modifies this`projects
      ensures projects == ps
    {
      projects := ps;
    }

    method AddProject(p: Project)
      modifies this`projects
      ensures projects == old(projects) + [p]
    {
      projects := projects + [p];
    }

    method UpdateProject(id: string, u: ProjectPatch, now: Date)
      modifies this`projects
      ensures projects == UpdatedProjects(old(projects), id, u, now)
    {
      projects := UpdatedProjects(projects, id, u, now);
    }

    /** Removes the project and its tasks; its allocations, budgets, risks and milestones stay. */
    method DeleteProject(id: string)
      modifies this`projects, this`tasks
      ensures projects == ProjectsWithout(old(projects), id)
      ensures tasks == TasksOutsideProject(old(tasks), id)
      ensures allocations == old(allocations) && budgets == old(budgets)
      ensures risks == old(risks) && milestones == old(milestones)
    {
      projects := ProjectsWithout(projects, id);
      tasks := TasksOutsideProject(tasks, id);
    }

    // Tasks

    method SetTasks(ts: seq<Task>)
      modifies this`tasks
      ensures tasks == ts
    {
      tasks := ts;
    }

    method AddTask(t: Task)
      modifies this`tasks
      ensures tasks == old(tasks) + [t]
    {
      tasks := tasks + [t];
    }

    method UpdateTask(id: string, u: TaskPatch, now: Date)
      modifies this`tasks
      ensures tasks == UpdatedTasks(old(tasks), id, u, now)
    {
      tasks := UpdatedTasks(tasks, id, u, now);
    }

    method DeleteTask(id: string)
      modifies this`tasks
      ensures tasks == Filter(old(tasks), (t: Task) => t.id != id)
    {
      tasks := Filter(tasks, (t: Task) => t.id != id);
    }

    // Resources

    method SetResources(rs: seq<Resource>)
      modifies this`resources
      ensures resources == rs
    {
      resources := rs;
    }

    method AddResource(r: Resource)
      modifies this`resources
      ensures resources == old(resources) + [r]
    {
      resources := resources + [r];
    }

    method UpdateResource(id: string, u: ResourcePatch, now: Date)
      modifies this`resources
      ensures resources == UpdatedResources(old(resources), id, u, now)
    {
      resources := UpdatedResources(resources, id, u, now);
    }

    /** Removes the resource and its allocations; nothing else changes. */
    method DeleteResource(id: string)
      modifies this`resources, this`allocations
      ensures resources == ResourcesWithout(old(resources), id)
      ensures allocations == AllocationsOutsideResource(old(allocations), id)
      ensures projects == old(projects) && tasks == old(tasks)
    {
      resources := ResourcesWithout(resources, id);
      allocations := AllocationsOutsideResource(allocations, id);
    }

    // Allocations

    method SetAllocations(as_: seq<ResourceAllocation>)
      modifies this`allocations
      ensures allocations == as_
    {
      allocations := as_;
    }

    method AddAllocation(a: ResourceAllocation)
      modifies this`allocations
      ensures allocations == old(allocations) + [a]
    {
      allocations := allocations + [a];
    }

    method UpdateAllocation(id: string, u: AllocationPatch, now: Date)
      modifies this`allocations
      ensures allocations == UpdatedAllocations(old(allocations), id, u, now)
    {
      allocations := UpdatedAllocations(allocations, id, u, now);
    }

    method DeleteAllocation(id: string)
      modifies this`allocations
      ensures allocations == Filter(old(allocations), (a: ResourceAllocation) => a.id != id)
    {
      allocations := Filter(allocations, (a: ResourceAllocation) => a.id != id);
    }

    // Budgets

    method SetBudgets(bs: seq<Budget>)
      modifies this`budgets
      ensures budgets == bs
    {
      budgets := bs;
    }

    method AddBudget(b: Budget)
      modifies this`budgets
      ensures budgets == old(budgets) + [b]
    {
      budgets := budgets + [b];
    }

    method UpdateBudget(id: string, u: BudgetPatch, now: Date)
      modifies this`budgets
      ensures budgets == UpdatedBudgets(old(budgets), id, u, now)
    {
      budgets := UpdatedBudgets(budgets, id, u, now);
    }

    method DeleteBudget(id: string)
      modifies this`budgets
      ensures budgets == Filter(old(budgets), (b: Budget) => b.id != id)
    {
      budgets := Filter(budgets, (b: Budget) => b.id != id);
    }

    // Risks

    method SetRisks(rs: seq<Risk>)
      modifies this`risks
      ensures risks == rs
    {
      risks := rs;
    }

    method AddRisk(r: Risk)
      modifies this`risks
      ensures risks == old(risks) + [r]
    {
      risks := risks + [r];
    }

    method UpdateRisk(id: string, u: RiskPatch, now: Date)
      modifies this`risks
      ensures risks == UpdatedRisks(old(risks), id, u, now)
    {
      risks := UpdatedRisks(risks, id, u, now);
    }

    method DeleteRisk(id: string)
      modifies this`risks
      ensures risks == Filter(old(risks), (r: Risk) => r.id != id)
    {
      risks := Filter(risks, (r: Risk) => r.id != id);
    }

    // Milestones

    method SetMilestones(ms: seq<Milestone>)
      modifies this`milestones
      ensures milestones == ms
    {
      milestones := ms;
    }

    method AddMilestone(m: Milestone)
      modifies this`milestones
      ensures milestones == old(milestones) + [m]
    {
      milestones := milestones + [m];
    }

    method UpdateMilestone(id: string, u: MilestonePatch, now: Date)
      modifies this`milestones
      ensures milestones == UpdatedMilestones(old(milestones), id, u, now)
    {
      milestones := UpdatedMilestones(milestones, id, u, now);
    }

    method DeleteMilestone(id: string)
      modifies this`milestones
      ensures milestones == Filter(old(milestones), (m: Milestone) => m.id != id)
    {
      milestones := Filter(milestones, (m: Milestone) => m.id != id);
    }

    // Selection, loading and error

    method SetSelectedProgram(id: Option<string>)
      modifies this`selectedProgramId
      ensures selectedProgramId == id
    {
      selectedProgramId := id;
    }

    method SetSelectedProject(id: Option<string>)
      modifies this`selectedProjectId
      ensures selectedProjectId == id
    {
      selectedProjectId := id;
    }

    method SetSelectedResource(id: Option<string>)
      modifies this`selectedResourceId
      ensures selectedResourceId == id
    {
      selectedResourceId := id;
    }

    /** Clears the three selection ids and touches nothing else. */
    method ClearSelections()
      modifies this`selectedProgramId, this`selectedProjectId, this`selectedResourceId
      ensures selectedProgramId.None? && selectedProjectId.None? && selectedResourceId.None?
      ensures programs == old(programs) && loading == old(loading) && error == old(error)
    {
      selectedProgramId, selectedProjectId, selectedResourceId := None, None, None;
    }

    method SetLoading(b: bool)
      modifies this`loading
      ensures loading == b
    {
      loading := b;
    }

    method SetError(e: Option<string>)
      modifies this`error
      ensures error == e
    {
      error := e;
    }

    /** Back to the initial state: every collection empty, no selection, not loading, no error. */
    method Reset()
      modifies this`programs, this`projects, this`tasks, this`resources
      modifies this`allocations, this`budgets, this`risks, this`milestones
      modifies this`selectedProgramId, this`selectedProjectId, this`selectedResourceId
      modifies this`loading, this`error
      ensures IsInitial()
    {
      ClearData();
      selectedProgramId, selectedProjectId, selectedResourceId := None, None, None;
      loading, error := false, None;
    }

    /** Empties every collection; the selection and status fields are left to the caller. */
    method ClearData()
      modifies this`programs, this`projects, this`tasks, this`resources
      modifies this`allocations, this`budgets, this`risks, this`milestones
      ensures NoData()
    {
      programs, projects, tasks, resources := [], [], [], [];
      allocations, budgets, risks, milestones := [], [], [], [];
    }
  }
}
