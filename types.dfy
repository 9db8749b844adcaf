/**
 * The PPMS records and enumerations. Dates are calendar dates written as day
 * numbers (day 0 is 1970-01-01); amounts and percentages are JavaScript
 * numbers, written as reals.
 */
module Types {
  import opened Wrappers

  /** A calendar date as a day number; the store's `Date` timestamps are truncated to days. */
  type Date = int

  datatype ProgramStatus = Planning | Active | OnHold | Completed | Cancelled
  datatype ProjectStatus = NotStarted | InProgress | OnHold | Completed | Cancelled
  datatype TaskStatus = Todo | InProgress | Review | Completed | Blocked
  datatype DependencyType = FinishToStart | StartToStart | FinishToFinish | StartToFinish
  datatype Priority = Low | Medium | High | Critical
  datatype Level = Low | Medium | High
  datatype RiskStatus = Open | Mitigated | Closed
  datatype MilestoneStatus = Pending | Completed | Overdue

  datatype Program = Program(
    id: string, name: string, description: string, status: ProgramStatus,
    startDate: Date, endDate: Date, budget: real, spent: real, progress: real,
    ownerId: string, createdAt: Date, updatedAt: Date)

  datatype Project = Project(
    id: string, programId: string, name: string, description: string, status: ProjectStatus,
    startDate: Date, endDate: Date, budget: real, spent: real, progress: real,
    priority: Priority, managerId: string, createdAt: Date, updatedAt: Date)

  /** Stored with its tasks but never evaluated by any scheduler. */
  datatype TaskDependency = TaskDependency(
    id: string, taskId: string, dependsOnTaskId: string, kind: DependencyType, lag: Option<real>)

  datatype Task = Task(
    id: string, projectId: string, name: string, description: string, status: TaskStatus,
    startDate: Date, endDate: Date, progress: real, priority: Priority,
    assigneeId: Option<string>, dependencies: seq<TaskDependency>, createdAt: Date, updatedAt: Date)

  datatype Resource = Resource(
    id: string, name: string, email: string, role: string, department: string,
    skills: seq<string>, capacity: real, hourlyRate: real, avatar: Option<string>,
    createdAt: Date, updatedAt: Date)

  datatype ResourceAllocation = ResourceAllocation(
    id: string, resourceId: string, projectId: string, taskId: Option<string>,
    allocationPercent: real, startDate: Date, endDate: Date, createdAt: Date, updatedAt: Date)

  datatype Budget = Budget(
    id: string, projectId: string, category: string, plannedAmount: real, actualAmount: real,
    fiscalYear: int, quarter: Option<int>, createdAt: Date, updatedAt: Date)

  datatype Risk = Risk(
    id: string, projectId: string, title: string, description: string,
    probability: Level, impact: Level, mitigationPlan: string, owner: string,
    status: RiskStatus, identifiedDate: Date, dueDate: Option<Date>, createdAt: Date, updatedAt: Date)

  datatype Milestone = Milestone(
    id: string, projectId: string, name: string, description: string, date: Date,
    status: MilestoneStatus, createdAt: Date, updatedAt: Date)

  /** Query criteria; an absent field does not filter. */
  datatype DateRange = DateRange(start: Date, end: Date)
  datatype ProgramFilter = ProgramFilter(status: Option<ProgramStatus>, ownerId: Option<string>, dateRange: Option<DateRange>)
  datatype ProjectFilter = ProjectFilter(
    programId: Option<string>, status: Option<ProjectStatus>, priority: Option<Priority>, managerId: Option<string>)
  datatype AvailabilityBucket = Available | FullyAllocated | OverAllocated
  datatype ResourceFilter = ResourceFilter(department: Option<string>, skill: Option<string>, availability: Option<AvailabilityBucket>)

  /** The string literal each enumeration value stands for. */
  function ProgramStatusText(s: ProgramStatus): string
  {
    match s
    case Planning => "planning"
    case Active => "active"
    case OnHold => "on-hold"
    case Completed => "completed"
    case Cancelled => "cancelled"
  }

  function ProjectStatusText(s: ProjectStatus): string
  {
    match s
    case NotStarted => "not-started"
    case InProgress => "in-progress"
    case OnHold => "on-hold"
    case Completed => "completed"
    case Cancelled => "cancelled"
  }

  function TaskStatusText(s: TaskStatus): string
  {
    match s
    case Todo => "todo"
    case InProgress => "in-progress"
    case Review => "review"
    case Completed => "completed"
    case Blocked => "blocked"
  }

  function PriorityText(p: Priority): string
  {
    match p
    case Low => "low"
    case Medium => "medium"
    case High => "high"
    case Critical => "critical"
  }

  /** JavaScript truthiness of an optional string criterion: absent and `""` are both falsy. */
  predicate Truthy(s: Option<string>)
  {
    s.Some? && s.value != ""
  }
}
