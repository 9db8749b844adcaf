# PPMS core in Dafny

A model of the Project & Portfolio Management (PPMS) part of the application.
It covers the entity store (`usePPMSStore`) and the components that compute
something from the store:

- the alert panel
- the schedule (Gantt) view
- the portfolio dashboard and the quick-overview card
- the resource allocation board
- the program list and the program form
- the progress bar and the status badge

Each is modelled in its own form:

- **Store.** The store is a class `Store.PpmsStore` whose fields are the
  collections and the selection and status fields. Each action is a method that
  states the whole new state in terms of pure functions on sequences, such as
  `UpdatedPrograms` and `ProjectsOutsideProgram`. Lemmas relate those functions
  to the lookups: add then get, update then get, and the delete cascades.
- **Component state.** The schedule view (`currentDate`, `zoomLevel`) and the
  program list (`statusFilter`, `menuOpen`) are classes with that state.
- **Computations.** The other components' derived values are functions, each
  with lemmas stating what it means. Where the source loops and accumulates (the
  alert list, the status histogram, the quick overview's `totalAllocated`), the
  model is a method with a loop, proved against a specification function.

Conventions:

- **Dates** are whole day numbers, with day 0 being 1970-01-01, a Thursday.
- **The schedule's anchor date** is a civil date (year, month, day) with
  proleptic Gregorian arithmetic. `AddDays`, `AddMonths` and the end-of-month
  clamp of `addMonths`/`subMonths` are written out.
- **JavaScript numbers** are reals. Where a division is unguarded in the source,
  the result is an extended number (`Finite`, `PosInf`, `NegInf`, `NaN`) rather
  than a precondition.
- **`Array.prototype.sort`** (stable since ES2019) with the severity comparator
  is modelled by its specification: the critical alerts, then the warnings, then
  the infos, each tier in list order. A lemma shows this is the only sorted
  arrangement that keeps each tier's order. **`slice(0, n)`** follows JavaScript's
  end-index rules, so a negative `n` counts from the back.
- **Clock values** (`new Date()`, `Date.now()`) are explicit parameters: `today`,
  `now`, `stamp`. **The confirmation dialog's answer** is a `confirmed`
  parameter.

Two places in the code do not do what the surrounding code evidently means.
The model states both the code as written and a corrected reading:

- **Milestone alerts.** The alert panel looks for milestones due within the
  next 7 days (components/ppms/PPMSAlerts.tsx:42-62), but it reads
  `m.dueDate`. A milestone's date field is `date` (types.ts:149), and that is
  the field the schedule view reads (components/ppms/ScheduleView.tsx:328-331).
  `Alerts.ComputeAlerts` takes the due-date reading as a parameter.
  `Alerts.AsWrittenDue` is the code as written: with it the panel never holds a
  milestone alert (`Alerts.AsWrittenPanelHasNoMilestoneAlerts`).
  `Alerts.MilestoneDue` reads `date`: with it a milestone due tomorrow is shown
  as a critical alert (`Alerts.PanelForMilestoneDueTomorrow`).
- **Timeline bars.** The schedule clips a bar's left offset at the window start
  with `Math.max(0, …)` (components/ppms/ScheduleView.tsx:133-139), yet its
  width still counts the days before the window. `Schedule.ItemPosition` is
  the code as written. `Schedule.ClippedItemPosition` counts only the days
  inside the window.

Both appear under "## Findings".

## Model

| member | source | states |
|---|---|---|
| Store.ProgramById | stores/ppmsStore.ts:158-160 | `find` by id: a found program is in the list and has the id; nothing is found exactly when no program has the id |
| Store.ProjectById | stores/ppmsStore.ts:213-215 | `find` by id: a found project is a member with the id; none exactly when no project has it |
| Store.TaskById | stores/ppmsStore.ts:266-268 | `find` by id: a found task is a member with the id; none exactly when no task has it |
| Store.ResourceById | stores/ppmsStore.ts:295-297 | `find` by id: a found resource is a member with the id; none exactly when no resource has it |
| Store.FilterProgramsIsConjunction | stores/ppmsStore.ts:162-182 | the three chained filters (status, truthy owner, start and end inside the date range) select, in order, exactly the programs matching every present criterion |
| Store.FilterProjectsIsConjunction | stores/ppmsStore.ts:217-237 | the chained project filters (truthy program, status, priority, truthy manager) select, in order, exactly the projects matching every present criterion |
| Store.FilterResourcesIsConjunction | stores/ppmsStore.ts:299-327 | the chained resource filters (truthy department, truthy skill, availability bucket from the whole store) select, in order, exactly the resources matching every present criterion |
| Store.BucketOf | stores/ppmsStore.ts:310-324 | every availability falls in exactly one of the three buckets: above 20, above 0 up to 20, and 0 or below |
| Store.AvailabilityAfterAllocation | stores/ppmsStore.ts:329-340 | a new allocation for a known resource lowers that resource's availability by exactly its percentage |
| Store.AllocationsByOtherResource | stores/ppmsStore.ts:365-367 | an allocation for another resource does not change a resource's allocation list |
| Store.UnknownResourceHasNoAvailability | stores/ppmsStore.ts:331 | an id that names no resource has availability 0 |
| Store.AddThenGetProgram | stores/ppmsStore.ts:139-142 | after appending, a lookup of the new id finds the earlier program with that id if there is one, and otherwise the new program |
| Store.UpdateThenGetProgram | stores/ppmsStore.ts:144-149 | after an update whose patch keeps the id, a lookup finds the merged record with a fresh `updatedAt`, or nothing if the id was unknown |
| Store.UpdateUnknownProgram | stores/ppmsStore.ts:144-149 | updating an unknown id leaves the list as it was |
| Store.DeleteProgramCascade | stores/ppmsStore.ts:151-156 | after deleting a program, it and its projects are gone, and every other program's projects are untouched |
| Store.DeleteProgramLosesNothingElse | stores/ppmsStore.ts:151-156 | the projects kept and the projects removed are together exactly the projects before, as a multiset |
| Store.DeleteProgramOrphansTasks | stores/ppmsStore.ts:151-156 | the delete does not cascade to tasks: a task of a removed project stays and names a project that no longer exists |
| Store.DeleteProjectCascade | stores/ppmsStore.ts:202-207 | after deleting a project, it and its tasks are gone, and other projects' tasks are untouched |
| Store.DeleteResourceCascade | stores/ppmsStore.ts:288-293 | after deleting a resource, it and its allocations are gone, and other resources' allocations are untouched |
| Store.PpmsStore.constructor | stores/ppmsStore.ts:116-131 | the initial state: every collection empty, nothing selected, not loading, no error |
| Store.PpmsStore.SetPrograms | stores/ppmsStore.ts:137 | replaces the program list |
| Store.PpmsStore.AddProgram | stores/ppmsStore.ts:139-142 | appends the program; nothing else changes |
| Store.PpmsStore.UpdateProgram | stores/ppmsStore.ts:144-149 | merges the patch into every program with the id and stamps `updatedAt`; the list keeps its length |
| Store.PpmsStore.DeleteProgram | stores/ppmsStore.ts:151-156 | removes the program and its projects, and leaves tasks and allocations as they were |
| Store.PpmsStore.SetProjects | stores/ppmsStore.ts:188 | replaces the project list |
| Store.PpmsStore.AddProject | stores/ppmsStore.ts:190-193 | appends the project |
| Store.PpmsStore.UpdateProject | stores/ppmsStore.ts:195-200 | merges the patch into the project with the id and stamps `updatedAt` |
| Store.PpmsStore.DeleteProject | stores/ppmsStore.ts:202-207 | removes the project and its tasks; allocations, budgets, risks and milestones are left |
| Store.PpmsStore.SetTasks | stores/ppmsStore.ts:243 | replaces the task list |
| Store.PpmsStore.AddTask | stores/ppmsStore.ts:245-248 | appends the task |
| Store.PpmsStore.UpdateTask | stores/ppmsStore.ts:250-255 | merges the patch into the task with the id and stamps `updatedAt` |
| Store.PpmsStore.DeleteTask | stores/ppmsStore.ts:257-260 | keeps exactly the tasks with another id |
| Store.PpmsStore.SetResources | stores/ppmsStore.ts:274 | replaces the resource list |
| Store.PpmsStore.AddResource | stores/ppmsStore.ts:276-279 | appends the resource |
| Store.PpmsStore.UpdateResource | stores/ppmsStore.ts:281-286 | merges the patch into the resource with the id and stamps `updatedAt` |
| Store.PpmsStore.DeleteResource | stores/ppmsStore.ts:288-293 | removes the resource and its allocations; projects and tasks are left |
| Store.PpmsStore.SetAllocations | stores/ppmsStore.ts:346 | replaces the allocation list |
| Store.PpmsStore.AddAllocation | stores/ppmsStore.ts:348-351 | appends the allocation |
| Store.PpmsStore.UpdateAllocation | stores/ppmsStore.ts:353-358 | merges the patch into the allocation with the id and stamps `updatedAt` |
| Store.PpmsStore.DeleteAllocation | stores/ppmsStore.ts:360-363 | keeps exactly the allocations with another id |
| Store.PpmsStore.SetBudgets | stores/ppmsStore.ts:377 | replaces the budget list |
| Store.PpmsStore.AddBudget | stores/ppmsStore.ts:379-382 | appends the budget |
| Store.PpmsStore.UpdateBudget | stores/ppmsStore.ts:384-389 | merges the patch into the budget with the id and stamps `updatedAt` |
| Store.PpmsStore.DeleteBudget | stores/ppmsStore.ts:391-394 | keeps exactly the budgets with another id |
| Store.PpmsStore.SetRisks | stores/ppmsStore.ts:404 | replaces the risk list |
| Store.PpmsStore.AddRisk | stores/ppmsStore.ts:406-409 | appends the risk |
| Store.PpmsStore.UpdateRisk | stores/ppmsStore.ts:411-416 | merges the patch into the risk with the id and stamps `updatedAt` |
| Store.PpmsStore.DeleteRisk | stores/ppmsStore.ts:418-421 | keeps exactly the risks with another id |
| Store.PpmsStore.SetMilestones | stores/ppmsStore.ts:431 | replaces the milestone list |
| Store.PpmsStore.AddMilestone | stores/ppmsStore.ts:433-436 | appends the milestone |
| Store.PpmsStore.UpdateMilestone | stores/ppmsStore.ts:438-443 | merges the patch into the milestone with the id and stamps `updatedAt` |
| Store.PpmsStore.DeleteMilestone | stores/ppmsStore.ts:445-448 | keeps exactly the milestones with another id |
| Store.PpmsStore.SetSelectedProgram | stores/ppmsStore.ts:458 | sets the selected program id, or clears it with `null` |
| Store.PpmsStore.SetSelectedProject | stores/ppmsStore.ts:460 | sets the selected project id, or clears it |
| Store.PpmsStore.SetSelectedResource | stores/ppmsStore.ts:462 | sets the selected resource id, or clears it |
| Store.PpmsStore.ClearSelections | stores/ppmsStore.ts:464-469 | clears all three selections and keeps the data, loading flag and error |
| Store.PpmsStore.SetLoading | stores/ppmsStore.ts:475 | sets the loading flag |
| Store.PpmsStore.SetError | stores/ppmsStore.ts:477 | sets or clears the error message |
| Store.PpmsStore.Reset | stores/ppmsStore.ts:479-494 | returns the store to exactly its initial state |
| Store.PpmsStore.ClearData | stores/ppmsStore.ts:481-488 | empties the eight collections |
| Patches.ApplyFullProgramPatch | stores/ppmsStore.ts:147 | a patch carrying every field replaces the whole record, except that `updatedAt` becomes the update's own time |
| Patches.ApplyProgramPatchFields | stores/ppmsStore.ts:147 | in the spread merge each of the eleven patchable fields (id, name, description, status, dates, budget, spent, progress, owner, creation time) takes the patch's value when present and keeps the old value when absent, and `updatedAt` is always the update's time |
| Patches.OptionalFieldPatchRule | stores/ppmsStore.ts:250-416 | for the optional fields (a task's assignee, a resource's avatar, an allocation's task, a budget's quarter, a risk's due date) a missing key keeps the old value, a key holding `undefined` clears it and a value replaces it |
| Calendar.DaysInMonth | components/ppms/ScheduleView.tsx:90-91 | a month has 28 to 31 days, and 29 exactly for February of a leap year |
| Calendar.AddDaysNumber | components/ppms/ScheduleView.tsx:107-110 | `setDate(getDate() + k)` moves the date by exactly k days, across month and year ends |
| Calendar.AddDaysRoundTrip | components/ppms/ScheduleView.tsx:107-110 | moving k days and then back k days returns the same date |
| Calendar.DayNumberInjective | components/ppms/ScheduleView.tsx:107-110 | two valid dates with the same day number are the same date |
| Calendar.AddMonths | components/ppms/ScheduleView.tsx:113-117 | `addMonths` moves the month by k and clamps the day to the new month's length |
| Calendar.AddMonthsRoundTrip | components/ppms/ScheduleView.tsx:113-117 | moving k months and back returns the date whenever its day exists in the target month, so no end-of-month clamp happened |
| Calendar.AddMonthsClampsToMonthEnd | components/ppms/ScheduleView.tsx:113-117 | 31 January plus one month is 28 February, and going back gives 28 January, not the 31st |
| Schedule.GetDateRange | components/ppms/ScheduleView.tsx:70-98 | the window contains the current date: a single day, a 7-day week, or the whole calendar month |
| Schedule.WeekStartsOnSunday | components/ppms/ScheduleView.tsx:79-82 | the week window starts on the Sunday on or before the current date |
| Schedule.MonthWindowIsMonth | components/ppms/ScheduleView.tsx:88-96 | a date is inside the month window exactly when it has the current date's year and month |
| Schedule.Days | components/ppms/ScheduleView.tsx:86 | `eachDayOfInterval` lists each day of the window once, in order, from its start |
| Schedule.Navigated | components/ppms/ScheduleView.tsx:103-120 | navigation always yields a valid date |
| Schedule.NavigateShiftsWindow | components/ppms/ScheduleView.tsx:103-111 | in day and week zoom, navigating shifts the whole window by one day or seven days, forwards or back |
| Schedule.NavigateMonthIsContiguous | components/ppms/ScheduleView.tsx:113-117 | in month zoom, the next window starts the day after the current one ends, and the previous one ends the day before it starts |
| Schedule.NavigateRoundTrip | components/ppms/ScheduleView.tsx:103-120 | next then previous returns to the same anchor date, in month zoom when the day is at most 28 |
| Schedule.VisibleIffOverlaps | components/ppms/ScheduleView.tsx:148-170 | for a well-ordered item, the visibility test holds exactly when its span overlaps the window |
| Schedule.VisibleProjects | components/ppms/ScheduleView.tsx:165-170 | a project is listed exactly when it is one of the input projects and visible, and the list keeps the input order |
| Schedule.PercentFacts | components/ppms/ScheduleView.tsx:142-143 | `part / whole * 100` scales back to the part and lies in [0, 100] for a part within the whole |
| Schedule.ItemPositionInWindow | components/ppms/ScheduleView.tsx:123-145 | a visible item's bar starts at the left edge when the item starts on or before the window and at its start day's fraction otherwise, has positive width and does not run past the right edge |
| Schedule.ItemPositionFullSpan | components/ppms/ScheduleView.tsx:123-145 | an item spanning exactly the window gets left 0% and width 100% |
| Schedule.ItemPositionOverstatesEarlyStart | components/ppms/ScheduleView.tsx:143 | as written, in the month view of a 30-day month an item from 5 days before the 1st to the 1st is drawn 20% wide (6/30), where its one visible day is 1/30 |
| Schedule.ClippedItemPositionInWindow | components/ppms/ScheduleView.tsx:123-145 | with the width clipped at the window start too, a visible bar still lies inside the timeline |
| Schedule.ClippedItemPositionCountsDays | components/ppms/ScheduleView.tsx:123-145 | the clipped width is the share of window days the item covers |
| Schedule.ItemPositionAgreesWhenStartInside | components/ppms/ScheduleView.tsx:123-145 | for an item starting inside the window, the written and the clipped positions agree |
| Schedule.MarkersInsideTimeline | components/ppms/ScheduleView.tsx:327-334 | every milestone marker drawn has a day index inside the window, naming that day, at a left offset in [0, 100) |
| Schedule.ScheduleView.constructor | components/ppms/ScheduleView.tsx:66-67 | the view opens on today in week zoom |
| Schedule.ScheduleView.DateRange | components/ppms/ScheduleView.tsx:100 | the window drawn is well formed and contains the current date |
| Schedule.ScheduleView.NavigateDate | components/ppms/ScheduleView.tsx:103-120 | the anchor moves as `navigateDate` moves it, and the zoom stays |
| Schedule.ScheduleView.GoToToday | components/ppms/ScheduleView.tsx:198 | the Today button sets the anchor to today |
| Schedule.ScheduleView.SetZoomLevel | components/ppms/ScheduleView.tsx:223 | a zoom button changes the zoom and keeps the anchor |
| Alerts.SeverityRank | components/ppms/PPMSAlerts.tsx:152 | critical, warning and info rank 0, 1 and 2, and each rank belongs to exactly one severity |
| Alerts.MilestoneAlertsMeaning | components/ppms/PPMSAlerts.tsx:42-62 | at most two milestone alerts, one for each of the first upcoming milestones, critical exactly when at most 3 days remain, otherwise a warning |
| Alerts.AsWrittenMilestoneAlertsNeverFire | components/ppms/PPMSAlerts.tsx:42-48 | as written, reading `m.dueDate` yields no milestone alert for any milestone list |
| Alerts.MilestoneDueTomorrow | components/ppms/PPMSAlerts.tsx:42-62 | a milestone due tomorrow raises one critical alert when its date is read, and none as written |
| Alerts.ResourceAlert | components/ppms/PPMSAlerts.tsx:65-94 | a resource alerts exactly when its allocations total more than 80%, critically above 100% |
| Alerts.BudgetAlertMeaning | components/ppms/PPMSAlerts.tsx:97-125 | with a positive budget, an alert exactly when more than 90% is spent, critical exactly when overspent; with budget 0, any spending divides by zero and raises a critical alert |
| Alerts.ProgressAlertMeaning | components/ppms/PPMSAlerts.tsx:128-148 | only active programs below 30% progress alert, and only as info; exactly when progress trails the elapsed share of the duration by more than 20 points |
| Alerts.SeveritiesPartition | components/ppms/PPMSAlerts.tsx:152 | every alert is in exactly one severity tier |
| Alerts.SortedIsBlockOrdered | components/ppms/PPMSAlerts.tsx:152-154 | ordered by rank means the critical block, then the warnings, then the infos |
| Alerts.SortBySeverityCorrect | components/ppms/PPMSAlerts.tsx:152-154 | the sorted list is ordered by rank, is a permutation of the input, and keeps each tier in list order |
| Alerts.SortBySeverityUnique | components/ppms/PPMSAlerts.tsx:152-154 | any rank-ordered list with the same tiers in the same order is the sorted list, so the stable sort has one result |
| Alerts.SortAlerts | components/ppms/PPMSAlerts.tsx:152-154 | dealing the alerts into the three tiers and joining them yields exactly the stable severity sort |
| Alerts.PushAlerts | components/ppms/PPMSAlerts.tsx:47-148 | a `forEach` with `push` appends, in order, the alert of every item that has one |
| Alerts.ComputeAlerts | components/ppms/PPMSAlerts.tsx:36-156 | for a given reading of a milestone's due date, the panel's list is the first `maxAlerts` of the milestone, resource, budget and progress alerts, stably sorted by severity |
| Alerts.AsWrittenPanelHasNoMilestoneAlerts | components/ppms/PPMSAlerts.tsx:42-48 | as written, the candidate list is only the resource, budget and progress alerts, and no shown alert is a milestone alert |
| Alerts.OtherAlertsAreNotMilestones | components/ppms/PPMSAlerts.tsx:65-148 | the resource, budget and progress passes produce alerts of their own kind only |
| Alerts.PanelForMilestoneDueTomorrow | components/ppms/PPMSAlerts.tsx:42-62 | with one milestone due tomorrow and nothing else, reading its date shows one critical milestone alert linking to the schedule; as written the panel is empty |
| Alerts.ShownAlertsSorted | components/ppms/PPMSAlerts.tsx:154-155 | the shown alerts are at most `maxAlerts` and are ordered by severity |
| Alerts.ShownAlertsAreCandidates | components/ppms/PPMSAlerts.tsx:154-155 | every shown alert is one of the generated alerts, counted with multiplicity |
| Alerts.CriticalAlertsComeFirst | components/ppms/PPMSAlerts.tsx:152-155 | if any alert is critical and any is shown, the first shown alert is critical |
| Alerts.DefaultLimitShowsAtMostThree | components/ppms/PPMSAlerts.tsx:26 | with the default limit, at most three alerts are shown |
| Dashboard.TotalProgramsByStatus | components/ppms/PortfolioDashboard.tsx:56-85 | the program count is the sum of the five per-status counts, so the status chart's slices add up to the total card |
| Dashboard.ActiveProjectsMeaning | components/ppms/PortfolioDashboard.tsx:57-59 | the active count and the inactive count add up to all projects; all are active, or none is, exactly when the count says so |
| Dashboard.TotalAllocatedSnoc | components/ppms/PortfolioDashboard.tsx:63-72 | the nested reduce adds each resource's own allocation total once |
| Dashboard.GuardedPercent | components/ppms/PortfolioDashboard.tsx:73 | a positive whole gives `part / whole * 100`, lying in [0, 100] for a part within the whole; otherwise 0 |
| Dashboard.ResourceUtilization | components/ppms/PortfolioDashboard.tsx:62-73 | utilisation is total allocated over total capacity as a percentage, 0 when there is no capacity |
| Dashboard.NoResourcesNoUtilization | components/ppms/PortfolioDashboard.tsx:73 | with no resources the utilisation is 0 |
| Dashboard.UnlistedAllocationIgnored | components/ppms/PortfolioDashboard.tsx:63-72 | an allocation whose resource is not listed changes neither the total nor the utilisation |
| Dashboard.BudgetConsumed | components/ppms/PortfolioDashboard.tsx:76-78 | consumption is total spent over total budget as a percentage, 0 when the budget total is not positive |
| Dashboard.BudgetConsumedBounded | components/ppms/PortfolioDashboard.tsx:76-78 | if no program is overspent, the totals are ordered and consumption lies in [0, 100] |
| Dashboard.CountStatusIsFilter | components/ppms/PortfolioDashboard.tsx:81-85 | a status count is the number of programs with that status |
| Dashboard.ProgramStatusData | components/ppms/PortfolioDashboard.tsx:81-85 | the reduce builds one entry per status that occurs, none twice, each counting its programs, with counts summing to the program count |
| Dashboard.HistogramCovers | components/ppms/PortfolioDashboard.tsx:81-85 | every program's status has an entry with a count of at least one |
| Dashboard.FirstWord | components/ppms/PortfolioDashboard.tsx:94 | `split(' ')[0]` is the longest prefix without a space |
| Dashboard.BudgetTrendDataMeaning | components/ppms/PortfolioDashboard.tsx:93-97 | one point per program, in order, budget and spent in thousands, labelled with the first word of the program's name |
| Dashboard.OverviewShowsFirstThree | components/ppms/PortfolioDashboard.tsx:288 | the overview lists the first three programs, or all when there are fewer |
| QuickOverview.RoundedPercent | components/ppms/PPMSQuickOverview.tsx:35-40 | the rounded percentage is within half a point of the exact one when the whole is positive, and 0 otherwise |
| QuickOverview.ComputeMetrics | components/ppms/PPMSQuickOverview.tsx:21-48 | the card's figures are the program count, the active project count and the dashboard's utilisation and budget figures, each rounded |
| QuickOverview.RoundsDashboardFigures | components/ppms/PPMSQuickOverview.tsx:34-40 | the card's percentages are `Math.round` of the dashboard's |
| QuickOverview.SeededFigures | components/ppms/PPMSQuickOverview.tsx:34-40 | 580 of 900 capacity shows 64%, and 1,270,000 of 7,500,000 spent shows 17% |
| QuickOverview.HasPrograms | components/ppms/PPMSQuickOverview.tsx:50 | the figures are shown exactly when there is a program |
| ResourceBoard.AvailabilityStatusOf | components/ppms/ResourceAllocation.tsx:89-96 | overallocated, available or allocated exactly as the remaining capacity is negative, positive or zero |
| ResourceBoard.AvailabilityVariant | components/ppms/ResourceAllocation.tsx:121-129 | available is green, allocated blue, overallocated red, and nothing else |
| ResourceBoard.CardStatusAgainstBuckets | components/ppms/ResourceAllocation.tsx:94-96 | the card's status is coarser than the store filter's buckets: available on the card is the filter's available or fully allocated |
| ResourceBoard.ResourcesWithAllocationsMeaning | components/ppms/ResourceAllocation.tsx:299-308 | one card per resource, holding its allocations in store order, each paired with the project its id finds |
| ResourceBoard.SumEnriched | components/ppms/ResourceAllocation.tsx:90-93 | attaching projects does not change the allocation percentages' total |
| ResourceBoard.CardAvailabilityIsStoreAvailability | components/ppms/ResourceAllocation.tsx:90-94 | a card's remaining capacity equals the store's `getResourceAvailability` |
| ResourceBoard.DeletedProjectLeavesAllocationUnresolved | components/ppms/ResourceAllocation.tsx:306 | after its project is deleted, an allocation finds no project, so the card's `project!` has nothing to dereference |
| ResourceBoard.PreviewOf | components/ppms/ResourceAllocation.tsx:149-160 | a preview shows at most the limit from the front, with an overflow count exactly when there are more, and shown plus overflow is all |
| ResourceBoard.AllocationLines | components/ppms/ResourceAllocation.tsx:165-187 | the allocation block appears exactly when the card has allocations |
| ResourceBoard.PreviewLimits | components/ppms/ResourceAllocation.tsx:149-184 | at most three skills and two allocation lines are shown, with the rest counted |
| ResourceBoard.ProjectsWithResources | components/ppms/ResourceAllocation.tsx:311-316 | one drop zone per project, in order |
| ResourceBoard.ZoneMembers | components/ppms/ResourceAllocation.tsx:311-316 | a zone holds, in card order, exactly the cards with an allocation to its project |
| ResourceBoard.AllocatesToIffStoreAllocation | components/ppms/ResourceAllocation.tsx:311-316 | a card is in a project's zone exactly when the store has an allocation of that resource to that project |
| ResourceBoard.ZoneTotalCountsAllCards | components/ppms/ResourceAllocation.tsx:204-211 | a zone's total is the sum over all cards of their share in the project |
| ResourceBoard.AverageUtilization | components/ppms/ResourceAllocation.tsx:320-332 | no resources give 0; otherwise the average is finite exactly when the per-resource sum is |
| ResourceBoard.UtilizationSumFinite | components/ppms/ResourceAllocation.tsx:322-330 | with no zero capacity the per-resource sum is the finite sum of the utilisations |
| ResourceBoard.AverageIsMean | components/ppms/ResourceAllocation.tsx:320-332 | with no zero capacity the average is the arithmetic mean of the utilisations |
| ResourceBoard.IdleZeroCapacityGivesNaN | components/ppms/ResourceAllocation.tsx:322-330 | an idle resource of capacity 0 makes the sum and the average NaN |
| ResourceBoard.HandleDragEnd | components/ppms/ResourceAllocation.tsx:334-343 | a drop onto another target asks to assign the dragged resource to that project; no target or the same id does nothing |
| ProgramListView.FilteredProgramsMeaning | components/ppms/ProgramList.tsx:78-82 | 'all' shows every program; a status shows, in order, exactly the programs with that status |
| ProgramListView.ProjectCount | components/ppms/ProgramList.tsx:195 | a card's project count never exceeds the number of projects |
| ProgramListView.ProjectCountMeaning | components/ppms/ProgramList.tsx:195 | the count is zero exactly when no project names the program, and a new project of the program adds one |
| ProgramListView.ProjectCountAfterDelete | components/ppms/ProgramList.tsx:195 | after `deleteProgram` the program counts no projects |
| ProgramListView.ProgramList.constructor | components/ppms/ProgramList.tsx:75-76 | the list opens on 'all' with no menu open |
| ProgramListView.ProgramList.SetStatusFilter | components/ppms/ProgramList.tsx:136-166 | a filter button sets the status filter |
| ProgramListView.ProgramList.ToggleMenu | components/ppms/ProgramList.tsx:196-215 | the menu button closes its own open menu or opens its card's menu; at most that card's menu is open afterwards |
| ProgramListView.ProgramList.CloseMenu | components/ppms/ProgramList.tsx:226 | the overlay closes the menu |
| ProgramListView.ProgramList.Choose | components/ppms/ProgramList.tsx:230-243 | view and edit hand the choice to the parent and close the menu |
| ProgramListView.ProgramList.HandleDelete | components/ppms/ProgramList.tsx:103-114 | a confirmed delete removes the program and its projects; a declined one changes nothing; the menu is closed either way, and tasks and allocations stay |
| ProgramForm.FieldErrors | components/ppms/forms/ProgramFormModal.tsx:176-327 | each field reports at most one error, and only about itself |
| ProgramForm.Errors | components/ppms/forms/ProgramFormModal.tsx:176-327 | the form library's rules pass exactly when name and description are filled, both dates are set with the end after the start, budget and spent are not negative and progress is in [0, 100] |
| ProgramForm.NativeValidLeavesTextAndDateRules | components/ppms/forms/ProgramFormModal.tsx:295-330 | once the browser's min, max and step checks pass, only the required and date messages can appear, and the form's rules pass exactly when the text and date fields do |
| ProgramForm.OffStepBudgetIsBlocked | components/ppms/forms/ProgramFormModal.tsx:297-298 | a budget of 1500 passes the form's rules but is off the `step="1000"` grid, so the browser sends nothing |
| ProgramForm.FractionalProgressIsBlocked | components/ppms/forms/ProgramFormModal.tsx:328-329 | a progress of 50.5 passes the form's rules but is off the default step of 1, so the browser sends nothing |
| ProgramForm.ErrorsByField | components/ppms/forms/ProgramFormModal.tsx:176-327 | an error is reported exactly when its own field's rules report it |
| ProgramForm.ErrorsMeaning | components/ppms/forms/ProgramFormModal.tsx:176-327 | name, description and end date are required; the end date must come after the start date; progress above 100 is refused, each as an if-and-only-if |
| ProgramForm.NewFormNeedsNameAndDescription | components/ppms/forms/ProgramFormModal.tsx:116-128 | a new form starts with exactly the name and description missing, passes the browser's number checks, and passes the form's rules once both are filled |
| ProgramForm.EditFormStartsValidIff | components/ppms/forms/ProgramFormModal.tsx:104-115 | an edit form starts valid exactly when the program itself meets the field rules |
| ProgramForm.BuildProgram | components/ppms/forms/ProgramFormModal.tsx:133-146 | the record takes every field from the form; its id is the edited program's, or `prog-` and a stamp when that id is missing or empty; `createdAt` is kept on edit; `updatedAt` is now |
| ProgramForm.UnchangedEditRoundTrip | components/ppms/forms/ProgramFormModal.tsx:104-146 | submitting an unchanged edit form rebuilds the program with only `updatedAt` renewed |
| ProgramForm.Submit | components/ppms/forms/ProgramFormModal.tsx:131-159 | a number input off its native min, max or step sends nothing; a form failing its rules shows their messages and changes nothing; otherwise the edited program is updated or the new one appended, and the built program is returned |
| ProgramForm.EditThenGet | components/ppms/forms/ProgramFormModal.tsx:148-149 | after an edit, looking the program up finds exactly the record the form built |
| ProgramForm.CreateThenGet | components/ppms/forms/ProgramFormModal.tsx:150-151 | after a create, looking up the new id finds the built program, unless an earlier program already had that id |
| ProgressBar.Percentage | components/ppms/common/Progress.tsx:36 | the fill is NaN exactly when value and max are both 0, and otherwise lies in [0, 100] |
| ProgressBar.Clamp | components/ppms/common/Progress.tsx:36 | `min(max(x, 0), 100)` is x inside [0, 100], 0 below it and 100 above it |
| ProgressBar.PercentageIsClamp | components/ppms/common/Progress.tsx:36 | for a non-zero max, the fill is the clamped percentage of value over max |
| ProgressBar.PercentageOfPositiveMax | components/ppms/common/Progress.tsx:36 | for a positive max: empty at or below 0, full at or above max, proportional between |
| ProgressBar.PercentageMonotone | components/ppms/common/Progress.tsx:36 | a larger value never gives a shorter bar |
| ProgressBar.DefaultMaxClamps | components/ppms/common/Progress.tsx:29-36 | with the default max of 100, the bar shows the value clamped to [0, 100] |
| JsNumber.Div | components/ppms/common/Progress.tsx:36 | a JavaScript division is finite exactly when the divisor is not 0, and then scales back to the dividend |
| JsNumber.Max | components/ppms/common/Progress.tsx:36 | `Math.max` with a number is NaN exactly for NaN, and never negative infinity |
| JsNumber.Min | components/ppms/common/Progress.tsx:36 | `Math.min` with a number is NaN exactly for NaN, and never positive infinity |
| JsNumber.RoundReal | components/ppms/PPMSQuickOverview.tsx:35 | `Math.round` gives the integer within half a unit, rounding halves up |
| StatusBadge.BadgeStyle | components/ppms/common/Badge.tsx:35-40 | an absent variant is gray and an absent size medium; given ones are kept |
| StatusBadge.StatusBadgeVariant | components/ppms/common/Badge.tsx:51-72 | the lookup answers gray for any string that is not a key of the map |
| StatusBadge.OwnEntryIffKey | components/ppms/common/Badge.tsx:54-70 | the map has an entry exactly for its fifteen keys |
| StatusBadge.ListedVariants | components/ppms/common/Badge.tsx:54-70 | each of the fifteen keys gets the colour the map lists for it |
| StatusBadge.EveryEnumLiteralListed | components/ppms/common/Badge.tsx:54-70 | every program, project and task status and every priority is a key of the map |
| StatusBadge.AsWrittenLookup | components/ppms/common/Badge.tsx:72 | as written, the lookup returns an inherited member exactly for a non-key that names an `Object.prototype` property |
| StatusBadge.AsWrittenAgreesOffPrototype | components/ppms/common/Badge.tsx:72 | off the prototype's names, the lookup as written agrees with the intended one |
| StatusBadge.ConstructorIsNotGray | components/ppms/common/Badge.tsx:72 | `'constructor'` yields the `Object` constructor, where gray is intended |

## Left out

- Time of day and time zones. Dates are whole days, and `new Date()`, `Date.now()` and
  `getTime()` are replaced by day-number parameters. The millisecond `Math.ceil`/`Math.floor`
  divisions in the alert and schedule code are therefore exact day differences.
- Alerts.MilestoneAlertsMeaning: the `Math.ceil` of a time-of-day difference is the whole-day
  difference `date - today`, so the "within 7 days" window is stated on whole days.
- Floating-point rounding and signed zero. Numbers are exact reals. Only the NaN and infinity
  outcomes of unguarded divisions are kept (`JsNumber`).
- Rendering, styling, translations (`lang`), icons, `toFixed`/`Intl` formatting, and navigation
  targets other than the alert's link string. These compute nothing about the data.
- Alerts.SortAlerts: the engine's sorting algorithm is not modelled. The result is stated as the
  unique stable ordering, which is what a stable sort must produce.
- The alert panel's empty render (`null` when there are no alerts) and its click handlers.
- The dashboard's pie data (`Object.entries` of the status histogram). Dashboard.ProgramStatusData
  states the entries and their counts, not the key order `Object.entries` would give.
- The schedule's `isToday`, and its per-project task lists, which are fetched but not drawn.
- The `console.log` in the drag handler and the drag library's sensors and overlay.
  ResourceBoard.HandleDragEnd returns the requested assignment instead of logging it.
- ProgramListView.ProgramList.HandleDelete: the two language branches ask the same question,
  so the dialog's answer is one parameter. Its wording is not modelled.
- ProgramForm.Submit: the modal's closing and form reset after a submit, the `try`/`catch`
  around it, and the form library's rendering of messages. Number fields are only checked for
  their bounds, because a cleared field (`NaN` under `valueAsNumber`) is not representable with
  reals. An empty date input is modelled as an absent date.
- A `Partial<T>` key holding `undefined` for a required field. The spread would write
  `undefined` into a field the record type requires, which the model's records cannot hold. The
  optional fields do model that case (Patches.OptionalFieldPatchRule).
- ProgramForm.Submit: the native check covers only the number inputs' `min`, `max` and `step`.
  `common/Button` is not part of this model; Save is taken to render a native submit button. The
  browser's own message bubbles are not modelled, only that nothing is sent.
- The generative-AI chat and video client, authentication, routing, and the mock data service.
  The seeded figures are used in QuickOverview.SeededFigures only as totals.
- Concurrency. The store's actions are single synchronous state replacements, which the
  methods model one call at a time.

## Findings

| source | as written | input that shows it | evidently intended | confidence | as-written member | corrected member |
|---|---|---|---|---|---|---|
| components/ppms/PPMSAlerts.tsx:43 | upcoming milestones are found by reading `m.dueDate`, a field milestones do not have (their date is `date`), so `new Date(undefined)` is an invalid date and no milestone is ever upcoming | any milestone, e.g. one due tomorrow | milestones due within the next 7 days raise an alert, critical when at most 3 days remain | high; not executed | Alerts.AsWrittenMilestoneAlertsNeverFire | Alerts.MilestoneAlertsMeaning |
| components/ppms/ScheduleView.tsx:143 | the bar's width is the item's whole duration, capped only by the days left after its offset; the offset is clipped at 0 but the days before the window are still counted | the month view of a 30-day month and an item from 5 days before the 1st to the 1st: width 6/30 (20%) instead of 1/30 | the width counts only the days of the item inside the window | high; not executed | Schedule.ItemPositionOverstatesEarlyStart | Schedule.ClippedItemPositionCountsDays |
| components/ppms/common/Badge.tsx:72 | `statusMap[status] \|\| 'gray'` looks the status up on a plain object literal, so inherited `Object.prototype` members are found and, being truthy, returned | `getStatusBadgeVariant('constructor')` returns the `Object` function; `'toString'` returns a function | any status that is not a key of the map gets `'gray'`; the components in this model pass only their status enums, whose literals are all keys (StatusBadge.EveryEnumLiteralListed), so only a caller of the exported `string` signature can reach it | low; not executed | StatusBadge.ConstructorIsNotGray | StatusBadge.StatusBadgeVariant |

A related hazard, stated but not claimed as a finding: `deleteProject` does not remove the
project's allocations. Afterwards the resource board pairs such an allocation with no project,
and the card dereferences it with `project!` (ResourceBoard.DeletedProjectLeavesAllocationUnresolved).
