/**
 * The program create/edit form: its default values, its validation rules,
 * the program it builds from valid input and the store call it makes.
 * Dates are day numbers; an empty date input is `None`.
 */
module ProgramForm {
  import opened Wrappers
  import opened Types
  import opened Seqs
  import opened Patches
  import opened Store

  /** The values the form holds. */
  datatype FormData = FormData(
    name: string, description: string, status: ProgramStatus,
    startDate: Option<Date>, endDate: Option<Date>,
    budget: real, spent: real, progress: real, ownerId: string)

  datatype Field = Name | Description | StartDate | EndDate | Budget | Spent | ProgressField

  /** The messages the form can show, one per failing field. */
  datatype FieldError = Required(field: Field) | InvalidDate | TooSmall(field: Field) | TooLarge(field: Field)

  /** Days added to today for a new program's end date. */
  const DefaultDurationDays := 90
  const DefaultOwner := "user-1"

  /** The constraints a submittable form meets, stated rule by rule. */
  predicate Valid(d: FormData)
  {
    && d.name != "" && d.description != ""
    && d.startDate.Some? && d.endDate.Some? && d.startDate.value < d.endDate.value
    && 0.0 <= d.budget && 0.0 <= d.spent
    && 0.0 <= d.progress <= 100.0
  }

  /** The field a message is shown under. */
  function FieldOf(e: FieldError): Field
  {
    match e
    case Required(f) => f
    case InvalidDate => EndDate
    case TooSmall(f) => f
    case TooLarge(f) => f
  }

  /**
   * The message of one field, if any. A required field that is empty reports
   * only that; the end date is otherwise checked to be strictly later than the
   * start date, which an empty start date never is.
   */
  function FieldErrors(d: FormData, f: Field): (r: seq<FieldError>)
    ensures |r| <= 1
    ensures forall e :: e in r ==> FieldOf(e) == f
  {
    match f
    case Name => if d.name == "" then [Required(Name)] else []
    case Description => if d.description == "" then [Required(Description)] else []
    case StartDate => if d.startDate.None? then [Required(StartDate)] else []
    case EndDate =>
      if d.endDate.None? then [Required(EndDate)]
      else if !(d.startDate.Some? && d.endDate.value > d.startDate.value) then [InvalidDate]
      else []
    case Budget => if d.budget < 0.0 then [TooSmall(Field.Budget)] else []
    case Spent => if d.spent < 0.0 then [TooSmall(Spent)] else []
    case ProgressField =>
      if d.progress < 0.0 then [TooSmall(ProgressField)]
      else if d.progress > 100.0 then [TooLarge(ProgressField)]
      else []
  }

  /** The validation messages, in field order. */
  function Errors(d: FormData): (r: seq<FieldError>)
    ensures r == [] <==> Valid(d)
    ensures |r| <= 7
  {
    FieldErrors(d, Name) + FieldErrors(d, Description) + FieldErrors(d, StartDate)
    + FieldErrors(d, EndDate) + FieldErrors(d, Field.Budget) + FieldErrors(d, Spent)
    + FieldErrors(d, ProgressField)
  }

  /** A message appears exactly when its own field's rule produces it. */
  lemma ErrorsByField(d: FormData, e: FieldError)
    ensures e in Errors(d) <==> e in FieldErrors(d, FieldOf(e))
  {
  }

  /** Which message each rule produces. */
  lemma ErrorsMeaning(d: FormData)
    ensures Required(Name) in Errors(d) <==> d.name == ""
    ensures Required(Description) in Errors(d) <==> d.description == ""
    ensures Required(EndDate) in Errors(d) <==> d.endDate.None?
    ensures InvalidDate in Errors(d) <==> d.endDate.Some? && !(d.startDate.Some? && d.endDate.value > d.startDate.value)
    ensures TooLarge(ProgressField) in Errors(d) <==> d.progress > 100.0
  {
    ErrorsByField(d, Required(Name));
    ErrorsByField(d, Required(Description));
    ErrorsByField(d, Required(EndDate));
    ErrorsByField(d, InvalidDate);
    ErrorsByField(d, TooLarge(ProgressField));
  }

  // ---------------------------------------------------------------------
  // The browser's own constraint check

  /** `x` is a whole number of `step`s above the step base 0 (the inputs' `min`). */
  predicate WholeSteps(x: real, step: real)
    requires step > 0.0
  {
    (x / step).Floor as real == x / step
  }

  /**
   * The number inputs' native attributes: budget and spent carry `min="0"
   * step="1000"`, progress carries `min="0" max="100"` with the default step 1.
   * The form has no `noValidate`, so a value outside these never reaches the
   * form library: the browser blocks the `submit` event.
   */
  predicate NativeValid(d: FormData)
  {
    && 0.0 <= d.budget && WholeSteps(d.budget, 1000.0)
    && 0.0 <= d.spent && WholeSteps(d.spent, 1000.0)
    && 0.0 <= d.progress <= 100.0 && WholeSteps(d.progress, 1.0)
  }

  /** Once the browser lets a form through, no number-field message can appear: only the required and date rules remain. */
  lemma NativeValidLeavesTextAndDateRules(d: FormData)
    requires NativeValid(d)
    ensures forall e :: e in Errors(d) ==> e.Required? || e.InvalidDate?
    ensures Valid(d) <==>
      (d.name != "" && d.description != "" && d.startDate.Some? && d.endDate.Some? && d.startDate.value < d.endDate.value)
  {
    forall e | e in Errors(d)
      ensures e.Required? || e.InvalidDate?
    {
      ErrorsByField(d, e);
    }
  }

  /** A budget off the 1000 grid passes the form's own rules but is stopped by the browser. */
  lemma OffStepBudgetIsBlocked(d: FormData)
    requires Valid(d) && d.budget == 1500.0
    ensures !NativeValid(d)
  {
    assert (d.budget / 1000.0).Floor == 1;
  }

  /** A fractional progress passes the form's own rules but is stopped by the browser. */
  lemma FractionalProgressIsBlocked(d: FormData)
    requires Valid(d) && d.progress == 50.5
    ensures !NativeValid(d)
  {
    assert (d.progress / 1.0).Floor == 50;
  }

  /** The form's defaults: the program's own values when editing, a blank planning program otherwise. */
  function DefaultValues(program: Option<Program>, today: Date): FormData
  {
    match program
    case Some(p) =>
      FormData(p.name, p.description, p.status, Some(p.startDate), Some(p.endDate),
        p.budget, p.spent, p.progress, p.ownerId)
    case None =>
      FormData("", "", Planning, Some(today), Some(today + DefaultDurationDays), 0.0, 0.0, 0.0, DefaultOwner)
  }

  /** A blank form can be submitted once it has a name and a description, and not before; its zero amounts pass the browser's check. */
  lemma NewFormNeedsNameAndDescription(today: Date)
    ensures Errors(DefaultValues(None, today)) == [Required(Name), Required(Description)]
    ensures forall n, s :: n != "" && s != "" ==>
      Valid(DefaultValues(None, today).(name := n, description := s))
    ensures NativeValid(DefaultValues(None, today))
  {
    assert (0.0 / 1000.0).Floor == 0;
    assert (0.0 / 1.0).Floor == 0;
  }

  /** An edit form starts valid exactly when the program's own fields meet the rules. */
  lemma EditFormStartsValidIff(p: Program, today: Date)
    ensures Valid(DefaultValues(Some(p), today)) <==>
      p.name != "" && p.description != "" && p.startDate < p.endDate
      && 0.0 <= p.budget && 0.0 <= p.spent && 0.0 <= p.progress <= 100.0
  {
  }

  /**
   * The program built from valid input: an edit keeps the program's id
   * (unless it is empty) and creation time; a new program gets the id
   * `"prog-"` followed by the clock reading `stamp` and is created now.
   */
  function BuildProgram(program: Option<Program>, d: FormData, now: Date, stamp: string): (r: Program)
    requires Valid(d)
    ensures r.name == d.name && r.description == d.description && r.status == d.status
    ensures r.startDate == d.startDate.value && r.endDate == d.endDate.value
    ensures r.budget == d.budget && r.spent == d.spent && r.progress == d.progress && r.ownerId == d.ownerId
    ensures program.Some? && program.value.id != "" ==> r.id == program.value.id
    ensures (program.None? || program.value.id == "") ==> r.id == "prog-" + stamp
    ensures r.createdAt == (if program.Some? then program.value.createdAt else now)
    ensures r.updatedAt == now
    ensures r.startDate < r.endDate
  {
    Program(
      if program.Some? && program.value.id != "" then program.value.id else "prog-" + stamp,
      d.name, d.description, d.status, d.startDate.value, d.endDate.value,
      d.budget, d.spent, d.progress, d.ownerId,
      if program.Some? then program.value.createdAt else now,
      now)
  }

  /** Opening a valid program for editing and submitting it unchanged only refreshes its update time. */
  lemma UnchangedEditRoundTrip(p: Program, today: Date, now: Date, stamp: string)
    requires p.id != ""
    requires Valid(DefaultValues(Some(p), today))
    ensures BuildProgram(Some(p), DefaultValues(Some(p), today), now, stamp) == p.(updatedAt := now)
  {
  }

  /** What pressing Save leads to. */
  datatype SubmitOutcome = NotSent | Rejected(errors: seq<FieldError>) | Saved(program: Program)

  /**
   * Pressing Save. The browser first checks the number inputs' native
   * constraints and, if one fails, fires no `submit` event at all. Otherwise
   * the form library runs its rules: invalid input shows its messages and
   * leaves the store alone; valid input replaces the edited program's fields
   * (every field is sent) or appends the new program.
   */
  method Submit(store: PpmsStore, program: Option<Program>, d: FormData, now: Date, stamp: string)
    returns (outcome: SubmitOutcome)
    modifies store`programs
    ensures !NativeValid(d) ==> outcome == NotSent && store.programs == old(store.programs)
    ensures NativeValid(d) && !Valid(d) ==> outcome == Rejected(Errors(d)) && store.programs == old(store.programs)
    ensures NativeValid(d) && Valid(d) ==> outcome == Saved(BuildProgram(program, d, now, stamp))
    ensures NativeValid(d) && Valid(d) && program.Some? ==>
      store.programs == UpdatedPrograms(old(store.programs), program.value.id,
        FullProgramPatch(BuildProgram(program, d, now, stamp)), now)
    ensures NativeValid(d) && Valid(d) && program.None? ==>
      store.programs == old(store.programs) + [BuildProgram(program, d, now, stamp)]
  {
    if !NativeValid(d) {
      return NotSent;
    }
    var errors := Errors(d);
    if errors != [] {
      return Rejected(errors);
    }
    var built := BuildProgram(program, d, now, stamp);
    outcome := Saved(built);
    match program
    case Some(p) => store.UpdateProgram(p.id, FullProgramPatch(built), now);
    case None => store.AddProgram(built);
  }

  /** After a valid edit of a stored program with a non-empty id, looking it up gives the submitted values. */
  lemma EditThenGet(programs: seq<Program>, p: Program, d: FormData, now: Date, stamp: string)
    requires Valid(d) && p.id != ""
    requires ProgramById(programs, p.id).Some?
    ensures var built := BuildProgram(Some(p), d, now, stamp);
      ProgramById(UpdatedPrograms(programs, p.id, FullProgramPatch(built), now), p.id) == Some(built)
  {
    var built := BuildProgram(Some(p), d, now, stamp);
    UpdateThenGetProgram(programs, p.id, FullProgramPatch(built), now);
    ApplyFullProgramPatch(ProgramById(programs, p.id).value, built, now);
  }

  /** A created program can be looked up by its id unless an earlier program already holds that id. */
  lemma CreateThenGet(programs: seq<Program>, d: FormData, now: Date, stamp: string)
    requires Valid(d)
    ensures var built := BuildProgram(None, d, now, stamp);
      ProgramById(programs + [built], built.id)
        == if ProgramById(programs, built.id).Some? then ProgramById(programs, built.id) else Some(built)
  {
    var built := BuildProgram(None, d, now, stamp);
    FindAppend(programs, built, (q: Program) => q.id == built.id);
  }
}
