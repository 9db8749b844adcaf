/**
 * The program list: the status filter buttons, the per-card project count,
 * the card menu (at most one open at a time) and the confirmed delete.
 */
module ProgramListView {
  import opened Wrappers
  import opened Types
  import opened Seqs
  import opened Store

  /** The list's status filter: `'all'`, or one program status. */
  datatype StatusFilter = All | Only(status: ProgramStatus)

  /** `statusFilter === 'all' ? programs : filterPrograms({ status: statusFilter })`. */
  function FilteredPrograms(programs: seq<Program>, f: StatusFilter): seq<Program>
  {
    match f
    case All => programs
    case Only(s) => FilterPrograms(programs, ProgramFilter(Some(s), None, None))
  }

  /** 'all' shows every program; a status shows exactly the programs with it, in order. */
  lemma FilteredProgramsMeaning(programs: seq<Program>, f: StatusFilter)
    ensures f.All? ==> FilteredPrograms(programs, f) == programs
    ensures f.Only? ==> FilteredPrograms(programs, f) == Filter(programs, (p: Program) => p.status == f.status)
    ensures f.Only? ==> forall p :: p in FilteredPrograms(programs, f) <==> p in programs && p.status == f.status
  {
    if f.Only? {
      var pf := ProgramFilter(Some(f.status), None, None);
      FilterProgramsIsConjunction(programs, pf);
      FilterCongruent(programs, (p: Program) => MatchesProgramFilter(p, pf), (p: Program) => p.status == f.status);
      FilterMembers(programs, (p: Program) => p.status == f.status);
    }
  }

  /** `getProjectsByProgram(program.id).length`. */
  function ProjectCount(projects: seq<Project>, programId: string): (n: nat)
    ensures n <= |projects|
  {
    |ProjectsByProgram(projects, programId)|
  }

  /** The count is zero iff no project names the program, and adding a project of the program adds one. */
  lemma ProjectCountMeaning(projects: seq<Project>, programId: string, q: Project)
    ensures ProjectCount(projects, programId) == 0 <==> forall i :: 0 <= i < |projects| ==> projects[i].programId != programId
    ensures ProjectCount(projects + [q], programId) == ProjectCount(projects, programId) + (if q.programId == programId then 1 else 0)
  {
    var sel := (p: Project) => p.programId == programId;
    FilterMembers(projects, sel);
    FilterSnoc(projects, q, sel);
    if forall i :: 0 <= i < |projects| ==> projects[i].programId != programId {
      FilterNone(projects, sel);
    }
  }

  /** After `deleteProgram`, the program's card would count no projects. */
  lemma ProjectCountAfterDelete(projects: seq<Project>, programId: string)
    ensures ProjectCount(ProjectsOutsideProgram(projects, programId), programId) == 0
  {
    FilterMembers(projects, (p: Project) => p.programId != programId);
    FilterNone(ProjectsOutsideProgram(projects, programId), (p: Project) => p.programId == programId);
  }

  /** A menu entry chosen on an open card. */
  datatype MenuChoice = ViewDetails(programId: string) | EditProgram(program: Program)

  /** The list's own state: the active filter and the id whose card menu is open. */
  class ProgramList {
    var statusFilter: StatusFilter
    var menuOpen: Option<string>

    constructor ()
      ensures statusFilter == All && menuOpen == None
    {
      statusFilter := All;
      menuOpen := None;
    }

    /** Whether the card of `programId` shows its menu. */
    predicate IsMenuOpen(programId: string)
      reads this
    {
      menuOpen == Some(programId)
    }

    method SetStatusFilter(f: StatusFilter)
      modifies this`statusFilter
      ensures statusFilter == f
    {
      statusFilter := f;
    }

    /**
     * The menu button of a card: closes that card's menu if it is open,
     * otherwise opens it (closing any other). Afterwards at most that card's
     * menu is open.
     */
    method ToggleMenu(programId: string)
      modifies this`menuOpen
      ensures old(IsMenuOpen(programId)) ==> menuOpen == None
      ensures !old(IsMenuOpen(programId)) ==> menuOpen == Some(programId)
      ensures forall q :: IsMenuOpen(q) ==> q == programId
    {
      menuOpen := if IsMenuOpen(programId) then None else Some(programId);
    }

    /** The overlay behind an open menu: a click anywhere closes it. */
    method CloseMenu()
      modifies this`menuOpen
      ensures menuOpen == None
    {
      menuOpen := None;
    }

    /** View details or edit: hands the choice to the parent, then closes the menu. */
    method Choose(choice: MenuChoice) returns (handedOver: MenuChoice)
      modifies this`menuOpen
      ensures handedOver == choice
      ensures menuOpen == None
    {
      handedOver := choice;
      menuOpen := None;
    }

    /**
     * `handleDelete`: the program (and its projects) are deleted only when the
     * confirmation returns true; the menu is closed either way.
     */
    method HandleDelete(store: PpmsStore, programId: string, confirmed: bool)
      modifies this`menuOpen, store`programs, store`projects
      ensures menuOpen == None
      ensures confirmed ==> store.programs == ProgramsWithout(old(store.programs), programId)
      ensures confirmed ==> store.projects == ProjectsOutsideProgram(old(store.projects), programId)
      ensures !confirmed ==> store.programs == old(store.programs) && store.projects == old(store.projects)
      ensures store.tasks == old(store.tasks) && store.allocations == old(store.allocations)
    {
      if confirmed {
        store.DeleteProgram(programId);
      }
      menuOpen := None;
    }
  }
}
