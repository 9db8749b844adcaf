/**
 * `Partial<T>` update arguments of the store and the spread merge
 * `{ ...old, ...updates, updatedAt: now }` that applies them: a field present
 * in the patch replaces the old one, an absent field keeps it, and `updatedAt`
 * is always the injected `now`, whatever the patch holds.
 *
 * An optional field of the record (`assigneeId`, `avatar`, `taskId`,
 * `quarter`, `dueDate`) has a patch field of type `Option<Option<T>>`:
 * `None` is a missing key, `Some(None)` a key holding `undefined`, which the
 * spread copies and so clears the field, and `Some(Some(v))` a value.
 */
module Patches {
  import opened Wrappers
  import opened Types

  datatype ProgramPatch = ProgramPatch(
    id: Option<string>, name: Option<string>, description: Option<string>, status: Option<ProgramStatus>,
    startDate: Option<Date>, endDate: Option<Date>, budget: Option<real>, spent: Option<real>,
    progress: Option<real>, ownerId: Option<string>, createdAt: Option<Date>, updatedAt: Option<Date>)

  function ApplyProgramPatch(p: Program, u: ProgramPatch, now: Date): Program
  {
    Program(u.id.GetOr(p.id), u.name.GetOr(p.name), u.description.GetOr(p.description),
      u.status.GetOr(p.status), u.startDate.GetOr(p.startDate), u.endDate.GetOr(p.endDate),
      u.budget.GetOr(p.budget), u.spent.GetOr(p.spent), u.progress.GetOr(p.progress),
      u.ownerId.GetOr(p.ownerId), u.createdAt.GetOr(p.createdAt), now)
  }

  /** The patch that carries every field of `p`, which is what the program form passes to an update. */
  function FullProgramPatch(p: Program): ProgramPatch
  {
    ProgramPatch(Some(p.id), Some(p.name), Some(p.description), Some(p.status), Some(p.startDate),
      Some(p.endDate), Some(p.budget), Some(p.spent), Some(p.progress), Some(p.ownerId),
      Some(p.createdAt), Some(p.updatedAt))
  }

  /** A full patch replaces the whole record except `updatedAt`, which becomes `now`. */
  lemma ApplyFullProgramPatch(p: Program, q: Program, now: Date)
    ensures ApplyProgramPatch(p, FullProgramPatch(q), now) == q.(updatedAt := now)
  {
  }

  /** Present fields are overwritten, absent fields kept, `updatedAt` stamped. */
  lemma ApplyProgramPatchFields(p: Program, u: ProgramPatch, now: Date)
    ensures var r := ApplyProgramPatch(p, u, now);
      && r.updatedAt == now
      && (u.id.Some? ==> r.id == u.id.value) && (u.id.None? ==> r.id == p.id)
      && (u.name.Some? ==> r.name == u.name.value) && (u.name.None? ==> r.name == p.name)
      && (u.description.Some? ==> r.description == u.description.value) && (u.description.None? ==> r.description == p.description)
      && (u.status.Some? ==> r.status == u.status.value) && (u.status.None? ==> r.status == p.status)
      && (u.startDate.Some? ==> r.startDate == u.startDate.value) && (u.startDate.None? ==> r.startDate == p.startDate)
      && (u.endDate.Some? ==> r.endDate == u.endDate.value) && (u.endDate.None? ==> r.endDate == p.endDate)
      && (u.budget.Some? ==> r.budget == u.budget.value) && (u.budget.None? ==> r.budget == p.budget)
      && (u.spent.Some? ==> r.spent == u.spent.value) && (u.spent.None? ==> r.spent == p.spent)
      && (u.progress.Some? ==> r.progress == u.progress.value) && (u.progress.None? ==> r.progress == p.progress)
      && (u.ownerId.Some? ==> r.ownerId == u.ownerId.value) && (u.ownerId.None? ==> r.ownerId == p.ownerId)
      && (u.createdAt.Some? ==> r.createdAt == u.createdAt.value) && (u.createdAt.None? ==> r.createdAt == p.createdAt)
  {
  }

  datatype ProjectPatch = ProjectPatch(
    id: Option<string>, programId: Option<string>, name: Option<string>, description: Option<string>,
    status: Option<ProjectStatus>, startDate: Option<Date>, endDate: Option<Date>, budget: Option<real>,
    spent: Option<real>, progress: Option<real>, priority: Option<Priority>, managerId: Option<string>,
    createdAt: Option<Date>, updatedAt: Option<Date>)

  function ApplyProjectPatch(p: Project, u: ProjectPatch, now: Date): Project
  {
    Project(u.id.GetOr(p.id), u.programId.GetOr(p.programId), u.name.GetOr(p.name),
      u.description.GetOr(p.description), u.status.GetOr(p.status), u.startDate.GetOr(p.startDate),
      u.endDate.GetOr(p.endDate), u.budget.GetOr(p.budget), u.spent.GetOr(p.spent),
      u.progress.GetOr(p.progress), u.priority.GetOr(p.priority), u.managerId.GetOr(p.managerId),
      u.createdAt.GetOr(p.createdAt), now)
  }

  datatype TaskPatch = TaskPatch(
    id: Option<string>, projectId: Option<string>, name: Option<string>, description: Option<string>,
    status: Option<TaskStatus>, startDate: Option<Date>, endDate: Option<Date>, progress: Option<real>,
    priority: Option<Priority>, assigneeId: Option<Option<string>>, dependencies: Option<seq<TaskDependency>>,
    createdAt: Option<Date>, updatedAt: Option<Date>)

  function ApplyTaskPatch(t: Task, u: TaskPatch, now: Date): Task
  {
    Task(u.id.GetOr(t.id), u.projectId.GetOr(t.projectId), u.name.GetOr(t.name),
      u.description.GetOr(t.description), u.status.GetOr(t.status), u.startDate.GetOr(t.startDate),
      u.endDate.GetOr(t.endDate), u.progress.GetOr(t.progress), u.priority.GetOr(t.priority),
      u.assigneeId.GetOr(t.assigneeId),
      u.dependencies.GetOr(t.dependencies), u.createdAt.GetOr(t.createdAt), now)
  }

  datatype ResourcePatch = ResourcePatch(
    id: Option<string>, name: Option<string>, email: Option<string>, role: Option<string>,
    department: Option<string>, skills: Option<seq<string>>, capacity: Option<real>,
    hourlyRate: Option<real>, avatar: Option<Option<string>>, createdAt: Option<Date>, updatedAt: Option<Date>)

  function ApplyResourcePatch(r: Resource, u: ResourcePatch, now: Date): Resource
  {
    Resource(u.id.GetOr(r.id), u.name.GetOr(r.name), u.email.GetOr(r.email), u.role.GetOr(r.role),
      u.department.GetOr(r.department), u.skills.GetOr(r.skills), u.capacity.GetOr(r.capacity),
      u.hourlyRate.GetOr(r.hourlyRate), u.avatar.GetOr(r.avatar),
      u.createdAt.GetOr(r.createdAt), now)
  }

  datatype AllocationPatch = AllocationPatch(
    id: Option<string>, resourceId: Option<string>, projectId: Option<string>, taskId: Option<Option<string>>,
    allocationPercent: Option<real>, startDate: Option<Date>, endDate: Option<Date>,
    createdAt: Option<Date>, updatedAt: Option<Date>)

  function ApplyAllocationPatch(a: ResourceAllocation, u: AllocationPatch, now: Date): ResourceAllocation
  {
    ResourceAllocation(u.id.GetOr(a.id), u.resourceId.GetOr(a.resourceId), u.projectId.GetOr(a.projectId),
      u.taskId.GetOr(a.taskId), u.allocationPercent.GetOr(a.allocationPercent),
      u.startDate.GetOr(a.startDate), u.endDate.GetOr(a.endDate), u.createdAt.GetOr(a.createdAt), now)
  }

  datatype BudgetPatch = BudgetPatch(
    id: Option<string>, projectId: Option<string>, category: Option<string>, plannedAmount: Option<real>,
    actualAmount: Option<real>, fiscalYear: Option<int>, quarter: Option<Option<int>>,
    createdAt: Option<Date>, updatedAt: Option<Date>)

  function ApplyBudgetPatch(b: Budget, u: BudgetPatch, now: Date): Budget
  {
    Budget(u.id.GetOr(b.id), u.projectId.GetOr(b.projectId), u.category.GetOr(b.category),
      u.plannedAmount.GetOr(b.plannedAmount), u.actualAmount.GetOr(b.actualAmount),
      u.fiscalYear.GetOr(b.fiscalYear), u.quarter.GetOr(b.quarter),
      u.createdAt.GetOr(b.createdAt), now)
  }

  datatype RiskPatch = RiskPatch(
    id: Option<string>, projectId: Option<string>, title: Option<string>, description: Option<string>,
    probability: Option<Level>, impact: Option<Level>, mitigationPlan: Option<string>, owner: Option<string>,
    status: Option<RiskStatus>, identifiedDate: Option<Date>, dueDate: Option<Option<Date>>,
    createdAt: Option<Date>, updatedAt: Option<Date>)

  function ApplyRiskPatch(r: Risk, u: RiskPatch, now: Date): Risk
  {
    Risk(u.id.GetOr(r.id), u.projectId.GetOr(r.projectId), u.title.GetOr(r.title),
      u.description.GetOr(r.description), u.probability.GetOr(r.probability), u.impact.GetOr(r.impact),
      u.mitigationPlan.GetOr(r.mitigationPlan), u.owner.GetOr(r.owner), u.status.GetOr(r.status),
      u.identifiedDate.GetOr(r.identifiedDate), u.dueDate.GetOr(r.dueDate),
      u.createdAt.GetOr(r.createdAt), now)
  }

  datatype MilestonePatch = MilestonePatch(
    id: Option<string>, projectId: Option<string>, name: Option<string>, description: Option<string>,
    date: Option<Date>, status: Option<MilestoneStatus>, createdAt: Option<Date>, updatedAt: Option<Date>)

  function ApplyMilestonePatch(m: Milestone, u: MilestonePatch, now: Date): Milestone
  {
    Milestone(u.id.GetOr(m.id), u.projectId.GetOr(m.projectId), u.name.GetOr(m.name),
      u.description.GetOr(m.description), u.date.GetOr(m.date), u.status.GetOr(m.status),
      u.createdAt.GetOr(m.createdAt), now)
  }

  /**
   * The optional fields follow the spread's three cases: a missing key keeps
   * the old value, a key holding `undefined` clears it, and a value replaces it.
   */
  lemma OptionalFieldPatchRule(t: Task, tu: TaskPatch, r: Resource, ru: ResourcePatch,
                               a: ResourceAllocation, au: AllocationPatch, b: Budget, bu: BudgetPatch,
                               k: Risk, ku: RiskPatch, now: Date)
    ensures tu.assigneeId.None? ==> ApplyTaskPatch(t, tu, now).assigneeId == t.assigneeId
    ensures tu.assigneeId == Some(None) ==> ApplyTaskPatch(t, tu, now).assigneeId.None?
    ensures forall v :: tu.assigneeId == Some(Some(v)) ==> ApplyTaskPatch(t, tu, now).assigneeId == Some(v)
    ensures ru.avatar.None? ==> ApplyResourcePatch(r, ru, now).avatar == r.avatar
    ensures ru.avatar == Some(None) ==> ApplyResourcePatch(r, ru, now).avatar.None?
    ensures forall v :: ru.avatar == Some(Some(v)) ==> ApplyResourcePatch(r, ru, now).avatar == Some(v)
    ensures au.taskId.None? ==> ApplyAllocationPatch(a, au, now).taskId == a.taskId
    ensures au.taskId == Some(None) ==> ApplyAllocationPatch(a, au, now).taskId.None?
    ensures forall v :: au.taskId == Some(Some(v)) ==> ApplyAllocationPatch(a, au, now).taskId == Some(v)
    ensures bu.quarter.None? ==> ApplyBudgetPatch(b, bu, now).quarter == b.quarter
    ensures bu.quarter == Some(None) ==> ApplyBudgetPatch(b, bu, now).quarter.None?
    ensures forall v :: bu.quarter == Some(Some(v)) ==> ApplyBudgetPatch(b, bu, now).quarter == Some(v)
    ensures ku.dueDate.None? ==> ApplyRiskPatch(k, ku, now).dueDate == k.dueDate
    ensures ku.dueDate == Some(None) ==> ApplyRiskPatch(k, ku, now).dueDate.None?
    ensures forall v :: ku.dueDate == Some(Some(v)) ==> ApplyRiskPatch(k, ku, now).dueDate == Some(v)
  {
  }
}
