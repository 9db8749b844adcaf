/**
 * The schedule (Gantt) view: the visible window of days for the zoom level,
 * navigation, the position of a bar inside the window, which projects are
 * shown and where milestone markers sit.
 */
module Schedule {
  import opened Wrappers
  import opened Types
  import opened Seqs
  import opened Calendar
  import Store

  datatype Zoom = Day | Week | Month
  datatype Direction = Prev | Next

  /** The visible days, `start` to `end` inclusive, as day numbers. */
  datatype Window = Window(start: int, end: int)

  predicate WellFormed(w: Window)
  {
    w.start <= w.end
  }

  /** `dateRange.days.length`. */
  function RangeDays(w: Window): (n: int)
    requires WellFormed(w)
    ensures n >= 1
  {
    w.end - w.start + 1
  }

  /** `eachDayOfInterval({start, end})`: every day of the window, in order. */
  function Days(w: Window): (days: seq<int>)
    requires WellFormed(w)
    ensures |days| == RangeDays(w)
    ensures forall i :: 0 <= i < |days| ==> days[i] == w.start + i
  {
    seq(w.end - w.start + 1, i requires 0 <= i => w.start + i)
  }

  /**
   * `getDateRange`: the day itself; the Sunday-to-Saturday week holding it;
   * or the calendar month holding it.
   */
  function GetDateRange(current: CivilDate, zoom: Zoom): (w: Window)
    requires Valid(current)
    ensures WellFormed(w)
    ensures w.start <= DayNumber(current) <= w.end
    ensures zoom == Day ==> w.start == w.end
    ensures zoom == Week ==> w.end == w.start + 6 && w.start <= DayNumber(current) < w.start + 7
    ensures zoom == Month ==> RangeDays(w) == DaysInMonth(current.year, current.month)
  {
    var n := DayNumber(current);
    match zoom
    case Day => Window(n, n)
    case Week => Window(n - Weekday(n), n - Weekday(n) + 6)
    case Month =>
      var first := CivilDate(current.year, current.month, 1);
      var last := CivilDate(current.year, current.month, DaysInMonth(current.year, current.month));
      Window(DayNumber(first), DayNumber(last))
  }

  /** The week window starts on a Sunday. */
  lemma WeekStartsOnSunday(current: CivilDate)
    requires Valid(current)
    ensures Weekday(GetDateRange(current, Week).start) == 0
  {
    var n := DayNumber(current);
    var w := Weekday(n);
    assert (n - w + 4) % 7 == 0 by {
      assert n + 4 == 7 * ((n + 4) / 7) + w;
    }
  }

  /** The month window holds exactly the days of `current`'s month: a valid date is inside iff it is in that month. */
  lemma MonthWindowIsMonth(current: CivilDate, c: CivilDate)
    requires Valid(current) && Valid(c)
    ensures var w := GetDateRange(current, Month);
      w.start <= DayNumber(c) <= w.end <==> (c.year == current.year && c.month == current.month)
  {
    var first := CivilDate(current.year, current.month, 1);
    var last := CivilDate(current.year, current.month, DaysInMonth(current.year, current.month));
    if c.year < current.year || (c.year == current.year && c.month < current.month) {
      DayNumberStrictlyMonotone(c, first);
    } else if c.year > current.year || (c.year == current.year && c.month > current.month) {
      DayNumberStrictlyMonotone(last, c);
    }
  }

  /** `navigateDate`: one day, seven days, or one calendar month (date-fns clamping) either way. */
  function Navigated(d: CivilDate, zoom: Zoom, dir: Direction): (r: CivilDate)
    requires Valid(d)
    ensures Valid(r)
  {
    var amount := if dir == Next then 1 else -1;
    match zoom
    case Day => AddDays(d, amount)
    case Week => AddDays(d, amount * 7)
    case Month => AddMonths(d, amount)
  }

  /** Day and week navigation shift the whole window by one day or one week. */
  lemma NavigateShiftsWindow(d: CivilDate, zoom: Zoom, dir: Direction)
    requires Valid(d) && zoom != Month
    ensures var step := (if zoom == Day then 1 else 7) * (if dir == Next then 1 else -1);
      GetDateRange(Navigated(d, zoom, dir), zoom) == Window(GetDateRange(d, zoom).start + step, GetDateRange(d, zoom).end + step)
  {
    match (zoom, dir)
    case (Day, Next) => DayShift(d, 1);
    case (Day, Prev) => DayShift(d, -1);
    case (Week, Next) => WeekShift(d, 7);
    case (Week, Prev) => WeekShift(d, -7);
  }

  lemma DayShift(d: CivilDate, k: int)
    requires Valid(d)
    ensures GetDateRange(AddDays(d, k), Day) == Window(DayNumber(d) + k, DayNumber(d) + k)
  {
    AddDaysNumber(d, k);
  }

  /** Seven days later or earlier the weekday is the same, so the week window moves by exactly `k`. */
  lemma WeekShift(d: CivilDate, k: int)
    requires Valid(d) && (k == 7 || k == -7)
    ensures var n := DayNumber(d) - Weekday(DayNumber(d));
      GetDateRange(AddDays(d, k), Week) == Window(n + k, n + 6 + k)
  {
    var r := AddDays(d, k);
    var n := DayNumber(d);
    AddDaysNumber(d, k);
    WeekdayPeriodic(n, k);
    WeekWindow(r);
  }

  /** The week window in terms of the anchor's day number and weekday. */
  lemma WeekWindow(current: CivilDate)
    requires Valid(current)
    ensures GetDateRange(current, Week)
      == Window(DayNumber(current) - Weekday(DayNumber(current)), DayNumber(current) - Weekday(DayNumber(current)) + 6)
  {
  }

  lemma WeekdayPeriodic(n: int, k: int)
    requires k == 7 || k == -7
    ensures Weekday(n + k) == Weekday(n)
  {
    if k == 7 {
      assert (n + 7 + 4) % 7 == (n + 4) % 7;
    } else {
      assert (n - 7 + 4) % 7 == (n + 4) % 7;
    }
  }

  /** Month navigation moves to the adjacent month: the new window starts the day after the old one ends, or ends the day before it starts. */
  lemma NavigateMonthIsContiguous(d: CivilDate, dir: Direction)
    requires Valid(d)
    ensures dir == Next ==> GetDateRange(Navigated(d, Month, dir), Month).start == GetDateRange(d, Month).end + 1
    ensures dir == Prev ==> GetDateRange(Navigated(d, Month, dir), Month).end == GetDateRange(d, Month).start - 1
  {
    var r := Navigated(d, Month, dir);
    var last := CivilDate(d.year, d.month, DaysInMonth(d.year, d.month));
    var first := CivilDate(d.year, d.month, 1);
    if dir == Next {
      assert r.year == d.year + 1 || r.year == d.year;
      NextDayNumber(last);
      assert NextDay(last) == CivilDate(r.year, r.month, 1);
    } else {
      assert r.year == d.year - 1 || r.year == d.year;
      PrevDayNumber(first);
      assert PrevDay(first) == CivilDate(r.year, r.month, DaysInMonth(r.year, r.month));
    }
  }

  /** Next then previous comes back to the same date for day and week zoom, and for month zoom up to the 28th. */
  lemma NavigateRoundTrip(d: CivilDate, zoom: Zoom)
    requires Valid(d)
    requires zoom == Month ==> d.day <= 28
    ensures Navigated(Navigated(d, zoom, Next), zoom, Prev) == d
  {
    match zoom
    case Day => AddDaysRoundTrip(d, 1);
    case Week => AddDaysRoundTrip(d, 7);
    case Month => AddMonthsRoundTripEarlyDays(d, 1);
  }

  /** `isDateInRange`: both ends inclusive. */
  predicate InRange(w: Window, n: int)
  {
    w.start <= n && n <= w.end
  }

  /** The `visibleProjects` test: an end inside the window, or a span over all of it. */
  predicate Visible(w: Window, start: int, end: int)
  {
    InRange(w, start) || InRange(w, end) || (start < w.start && end > w.end)
  }

  /** For a well-ordered span the visibility test is exactly "overlaps the window"; a reversed span is visible iff an end is inside. */
  lemma VisibleIffOverlaps(w: Window, start: int, end: int)
    requires WellFormed(w)
    ensures start <= end ==> (Visible(w, start, end) <==> start <= w.end && end >= w.start)
    ensures start > end ==> (Visible(w, start, end) <==> InRange(w, start) || InRange(w, end))
  {
  }

  /** The `visibleProjects` filter: exactly the visible input projects, in their order. */
  function VisibleProjects(projects: seq<Project>, w: Window): (r: seq<Project>)
    ensures forall i :: 0 <= i < |r| ==> Visible(w, r[i].startDate, r[i].endDate)
    ensures forall i :: 0 <= i < |projects| && Visible(w, projects[i].startDate, projects[i].endDate) ==> projects[i] in r
    ensures forall p :: p in r <==> p in projects && Visible(w, p.startDate, p.endDate)
    ensures IsSubsequence(r, projects)
  {
    FilterMembers(projects, (p: Project) => Visible(w, p.startDate, p.endDate));
    FilterIsSubsequence(projects, (p: Project) => Visible(w, p.startDate, p.endDate));
    Filter(projects, (p: Project) => Visible(w, p.startDate, p.endDate))
  }

  /** `(part / whole) * 100`. */
  function Percent(part: int, whole: int): real
    requires whole > 0
  {
    part as real / whole as real * 100.0
  }

  lemma PercentFacts(part: int, whole: int)
    requires whole > 0
    ensures Percent(part, whole) * whole as real == 100.0 * part as real
    ensures 0 <= part ==> 0.0 <= Percent(part, whole)
    ensures 0 < part ==> 0.0 < Percent(part, whole)
    ensures part <= whole ==> Percent(part, whole) <= 100.0
    ensures part < whole ==> Percent(part, whole) < 100.0
    ensures part == whole ==> Percent(part, whole) == 100.0
  {
    var q := part as real / whole as real;
    assert q * whole as real == part as real;
    assert Percent(part, whole) == q * 100.0;
    if part <= whole {
      assert q <= 1.0;
    }
    if part < whole {
      assert q < 1.0;
    }
  }

  lemma PercentSum(a: int, b: int, whole: int)
    requires whole > 0
    ensures Percent(a, whole) + Percent(b, whole) == Percent(a + b, whole)
  {
  }

  /** A bar's `left` and `width`, in percent of the timeline's width. */
  datatype Position = Position(left: real, width: real)

  /** `calculateItemPosition` as written: the width counts the whole span, including days before the window. */
  function ItemPosition(w: Window, start: int, end: int): Position
    requires WellFormed(w)
  {
    var rangeDays := RangeDays(w);
    var totalDays := end - start + 1;
    var startOffset := if start - w.start > 0 then start - w.start else 0;
    var shown := if totalDays < rangeDays - startOffset then totalDays else rangeDays - startOffset;
    Position(Percent(startOffset, rangeDays), Percent(shown, rangeDays))
  }

  /**
   * A visible bar starts at the left edge when its span starts on or before the
   * window, at its own day's fraction otherwise, and never runs past the right edge.
   */
  lemma ItemPositionInWindow(w: Window, start: int, end: int)
    requires WellFormed(w) && start <= end && Visible(w, start, end)
    ensures var pos := ItemPosition(w, start, end);
      0.0 <= pos.left < 100.0 && pos.width > 0.0 && pos.left + pos.width <= 100.0
    ensures start <= w.start ==> ItemPosition(w, start, end).left == 0.0
    ensures start > w.start ==> ItemPosition(w, start, end).left == Percent(start - w.start, RangeDays(w))
  {
    var off := if start - w.start > 0 then start - w.start else 0;
    var total := end - start + 1;
    var shown := if total < RangeDays(w) - off then total else RangeDays(w) - off;
    PercentFacts(off, RangeDays(w));
    PercentFacts(shown, RangeDays(w));
    PercentSum(off, shown, RangeDays(w));
    PercentFacts(off + shown, RangeDays(w));
  }

  /** A span covering exactly the window fills the whole bar. */
  lemma ItemPositionFullSpan(w: Window)
    requires WellFormed(w)
    ensures ItemPosition(w, w.start, w.end) == Position(0.0, 100.0)
  {
    PercentFacts(0, RangeDays(w));
    PercentFacts(RangeDays(w), RangeDays(w));
  }

  /**
   * As written, a span that starts before the window is drawn as wide as its
   * whole length: in the month view of a 30-day month, a task running from five
   * days before the 1st to the 1st shows one day but gets six days' width.
   */
  lemma ItemPositionOverstatesEarlyStart(d: CivilDate)
    requires Valid(d) && DaysInMonth(d.year, d.month) == 30
    ensures var w := GetDateRange(d, Month);
      ItemPosition(w, w.start - 5, w.start) == Position(0.0, 20.0)
    ensures var w := GetDateRange(d, Month);
      ClippedItemPosition(w, w.start - 5, w.start) == Position(0.0, 10.0 / 3.0)
  {
    var w := GetDateRange(d, Month);
    assert RangeDays(w) == 30;
    assert Percent(0, 30) == 0.0;
    assert Percent(6, 30) == 20.0;
    assert Percent(1, 30) == 10.0 / 3.0;
  }

  /** The intended position: the part of the span inside the window. */
  function ClippedItemPosition(w: Window, start: int, end: int): Position
    requires WellFormed(w)
  {
    var first := if start > w.start then start else w.start;
    var last := if end < w.end then end else w.end;
    Position(Percent(first - w.start, RangeDays(w)), Percent(last - first + 1, RangeDays(w)))
  }

  /** The corrected bar stays inside the timeline. */
  lemma ClippedItemPositionInWindow(w: Window, start: int, end: int)
    requires WellFormed(w) && start <= end && Visible(w, start, end)
    ensures var pos := ClippedItemPosition(w, start, end);
      0.0 <= pos.left < 100.0 && pos.width > 0.0 && pos.left + pos.width <= 100.0
  {
    var first := if start > w.start then start else w.start;
    var last := if end < w.end then end else w.end;
    PercentFacts(first - w.start, RangeDays(w));
    PercentFacts(last - first + 1, RangeDays(w));
    PercentSum(first - w.start, last - first + 1, RangeDays(w));
    PercentFacts(last - w.start + 1, RangeDays(w));
  }

  /** The corrected bar's width, in days, is the number of window days the span covers. */
  lemma ClippedItemPositionCountsDays(w: Window, start: int, end: int)
    requires WellFormed(w) && start <= end && Visible(w, start, end)
    ensures ClippedItemPosition(w, start, end).width * RangeDays(w) as real
         == 100.0 * CoveredDays(w, start, end) as real
  {
    var first := if start > w.start then start else w.start;
    var last := if end < w.end then end else w.end;
    CountInInterval(w, start, end);
    PercentFacts(last - first + 1, RangeDays(w));
  }

  /** How many days of the window lie in `[start, end]`. */
  function CoveredDays(w: Window, start: int, end: int): nat
    requires WellFormed(w)
  {
    |Filter(Days(w), (n: int) => start <= n <= end)|
  }

  /** The as-written bar is right for every span that starts inside the window or after it. */
  lemma ItemPositionAgreesWhenStartInside(w: Window, start: int, end: int)
    requires WellFormed(w) && w.start <= start <= end
    ensures ItemPosition(w, start, end) == ClippedItemPosition(w, start, end)
  {
  }

  /** The days of the window inside `[start, end]` are the `min(end, w.end) - max(start, w.start) + 1` days of the overlap. */
  lemma CountInInterval(w: Window, start: int, end: int)
    requires WellFormed(w) && start <= end && start <= w.end && end >= w.start
    ensures CoveredDays(w, start, end)
         == (if end < w.end then end else w.end) - (if start > w.start then start else w.start) + 1
  {
    var first := if start > w.start then start else w.start;
    var last := if end < w.end then end else w.end;
    FilterBlock(Days(w), (n: int) => start <= n <= end, first - w.start, last - w.start + 1);
  }

  /** A milestone marker: its day inside the window and its `left` offset in percent. */
  datatype Marker = Marker(milestoneId: string, dayIndex: int, left: real)

  function MarkerFor(w: Window, m: Milestone): Marker
    requires WellFormed(w)
  {
    var dayIndex := m.date - w.start;
    Marker(m.id, dayIndex, Percent(dayIndex, RangeDays(w)))
  }

  /** The markers of one project: its milestones whose date is in the window, in order. */
  function Markers(milestones: seq<Milestone>, projectId: string, w: Window): seq<Marker>
    requires WellFormed(w)
  {
    Map(Filter(Store.MilestonesByProject(milestones, projectId), (m: Milestone) => InRange(w, m.date)),
      (m: Milestone) => MarkerFor(w, m))
  }

  /** The marker of a milestone dated inside the window. */
  lemma MarkerForInside(w: Window, m: Milestone)
    requires WellFormed(w) && InRange(w, m.date)
    ensures var mk := MarkerFor(w, m);
      && 0 <= mk.dayIndex < RangeDays(w)
      && Days(w)[mk.dayIndex] == w.start + mk.dayIndex
      && mk.left == Percent(mk.dayIndex, RangeDays(w))
      && 0.0 <= mk.left < 100.0
  {
    PercentFacts(m.date - w.start, RangeDays(w));
  }

  /** Every marker sits on a day of the window, at the matching fraction of the timeline, left of its right edge. */
  lemma MarkersInsideTimeline(milestones: seq<Milestone>, projectId: string, w: Window)
    requires WellFormed(w)
    ensures forall mk :: mk in Markers(milestones, projectId, w) ==>
      && 0 <= mk.dayIndex < RangeDays(w)
      && Days(w)[mk.dayIndex] == w.start + mk.dayIndex
      && mk.left == Percent(mk.dayIndex, RangeDays(w))
      && 0.0 <= mk.left < 100.0
  {
    var shown := Filter(Store.MilestonesByProject(milestones, projectId), (m: Milestone) => InRange(w, m.date));
    FilterMembers(Store.MilestonesByProject(milestones, projectId), (m: Milestone) => InRange(w, m.date));
    var markers := Markers(milestones, projectId, w);
    forall mk | mk in markers
      ensures 0 <= mk.dayIndex < RangeDays(w)
      ensures Days(w)[mk.dayIndex] == w.start + mk.dayIndex
      ensures mk.left == Percent(mk.dayIndex, RangeDays(w))
      ensures 0.0 <= mk.left < 100.0
    {
      var k :| 0 <= k < |markers| && markers[k] == mk;
      assert shown[k] in shown;
      MarkerForInside(w, shown[k]);
    }
  }

  /** The view's own state: the anchor date and the zoom level. */
  class ScheduleView {
    var currentDate: CivilDate
    var zoomLevel: Zoom

    ghost predicate Valid()
      reads this
    {
      Calendar.Valid(currentDate)
    }

    /** Opens on today, zoomed to a week. */
    constructor (today: CivilDate)
      requires Calendar.Valid(today)
      ensures Valid() && currentDate == today && zoomLevel == Week
    {
      currentDate := today;
      zoomLevel := Week;
    }

    function DateRange(): (w: Window)
      reads this
      requires Valid()
      ensures WellFormed(w) && InRange(w, DayNumber(currentDate))
    {
      GetDateRange(currentDate, zoomLevel)
    }

    method NavigateDate(dir: Direction)
      requires Valid()
      modifies this`currentDate
      ensures Valid()
      ensures currentDate == Navigated(old(currentDate), zoomLevel, dir)
    {
      currentDate := Navigated(currentDate, zoomLevel, dir);
    }

    /** The Today button. */
    method GoToToday(today: CivilDate)
      requires Calendar.Valid(today)
      modifies this`currentDate
      ensures Valid() && currentDate == today
    {
      currentDate := today;
    }

    method SetZoomLevel(zoom: Zoom)
      modifies this`zoomLevel
      ensures zoomLevel == zoom && currentDate == old(currentDate)
    {
      zoomLevel := zoom;
    }
  }
}
