/**
 * The server-side project actions: a table of project rows keyed by id, with
 * creation, field updates and the status transitions complete / reactivate /
 * archive / delete.
 */
module ProjectActions {
  import opened Common

  /** A row of the project table. */
  datatype ProjectRow = ProjectRow(
    id: nat,
    owner: string,
    name: string,
    progress: int,
    startDate: Day,
    deadline: Day,
    status: ProjectStatus,
    completedDate: Option<Day>)

  /** The status argument of `updateProjectStatus`. */
  datatype StatusChange = ToActive | ToCompleted | ToArchived | ToDeleted

  /** A date string sent by the client: the empty string, or a day. */
  datatype DateField = EmptyDate | OnDay(day: Day)

  /**
   * The optional fields of `updateProject`; an absent field is left as it is. An empty
   * deadline string is falsy, so it is not converted and reaches the database as it is.
   */
  datatype ProjectPatch = ProjectPatch(name: Option<string>, progress: Option<int>, deadline: Option<DateField>)

  /** The patch carries a deadline the database can store. */
  predicate StorableDeadline(patch: ProjectPatch)
  {
    patch.deadline != Some(EmptyDate)
  }

  /** The deadline a patch writes, if any. */
  function PatchDeadline(patch: ProjectPatch): Option<Day>
  {
    match patch.deadline
    case Some(OnDay(d)) => Some(d)
    case _ => None
  }

  /**
   * The `data` object `updateProjectStatus` sends: the new status, then possibly a
   * `completedDate` (`Some(None)` stands for `null`) and a `progress`.
   */
  datatype StatusData = StatusData(status: ProjectStatus, completedDate: Option<Option<Day>>, progress: Option<int>)

  /** `updateProject`: writes exactly the supplied fields; progress is written as given, unclamped. */
  function Patched(p: ProjectRow, patch: ProjectPatch): (r: ProjectRow)
    ensures r.name == patch.name.GetOr(p.name)
    ensures r.progress == patch.progress.GetOr(p.progress)
    ensures patch.deadline.Some? && patch.deadline.value.OnDay? ==> r.deadline == patch.deadline.value.day
    ensures !(patch.deadline.Some? && patch.deadline.value.OnDay?) ==> r.deadline == p.deadline
    ensures r == p.(name := r.name, progress := r.progress, deadline := r.deadline)
  {
    p.(name := patch.name.GetOr(p.name),
       progress := patch.progress.GetOr(p.progress),
       deadline := PatchDeadline(patch).GetOr(p.deadline))
  }

  /** Writes a `StatusData` object into a row. */
  function ApplyData(p: ProjectRow, data: StatusData): ProjectRow
  {
    p.(status := data.status,
       completedDate := data.completedDate.GetOr(p.completedDate),
       progress := data.progress.GetOr(p.progress))
  }

  /** The row `updateProjectStatus` leaves behind for any status other than `'deleted'`. */
  function Restatus(p: ProjectRow, status: ProjectStatus, now: Day): (r: ProjectRow)
    ensures r.status == status
    ensures r.(status := p.status, progress := p.progress, completedDate := p.completedDate) == p
    ensures status == Completed ==> r.progress == 100 && r.completedDate == Some(now)
    ensures status == Active ==> r.progress == p.progress && r.completedDate == None
    ensures status == Archived ==> r == p.(status := Archived)
  {
    match status
    case Completed => p.(status := Completed, completedDate := Some(now), progress := 100)
    case Active => p.(status := Active, completedDate := None)
    case Archived => p.(status := Archived)
  }

  /** A completion date survives every transition except reactivation. */
  lemma CompletedDateClearedOnlyByReactivation(p: ProjectRow, status: ProjectStatus, now: Day)
    requires p.completedDate.Some? && status != Active
    ensures Restatus(p, status, now).completedDate.Some?
  {
  }

  /** Field updates never touch the status or the completion date. */
  lemma PatchKeepsStatus(p: ProjectRow, patch: ProjectPatch)
    ensures Patched(p, patch).status == p.status
    ensures Patched(p, patch).completedDate == p.completedDate
  {
  }

  /** Completing and then reactivating leaves the progress at 100 and no completion date. */
  lemma CompleteThenReactivate(p: ProjectRow, now: Day, later: Day)
    ensures Restatus(Restatus(p, Completed, now), Active, later)
         == p.(status := Active, progress := 100, completedDate := None)
  {
  }

  class ProjectTable {
    var rows: map<nat, ProjectRow>
    var users: set<string>
    /** The id the database hands out next; ids are never reused. */
    var nextId: nat

    ghost predicate Valid()
      reads this
    {
      forall k :: k in rows ==> k < nextId && rows[k].id == k
    }

    constructor (users: set<string>)
      ensures Valid() && rows == map[] && this.users == users
    {
      rows := map[];
      this.users := users;
      nextId := 0;
    }

    /**
     * `createProject`: all four inputs must be present (an absent date stands for an
     * empty date string); the new project is active, at progress 0, not completed.
     */
    method CreateProject(email: string, name: string, startDate: Option<Day>, deadline: Option<Day>)
      returns (reply: Reply<ProjectRow>)
      requires Valid()
      modifies this`rows, this`nextId
      ensures Valid()
      ensures email == [] || name == [] || startDate.None? || deadline.None? ==>
        reply == Error(MissingData) && rows == old(rows)
      ensures email != [] && name != [] && startDate.Some? && deadline.Some? && email !in users ==>
        reply == Error(Failed) && rows == old(rows)
      ensures email != [] && name != [] && startDate.Some? && deadline.Some? && email in users ==>
        var created := ProjectRow(old(nextId), email, name, 0, startDate.value, deadline.value, Active, None);
        && reply == SuccessWith(created)
        && old(nextId) !in old(rows)
        && rows == old(rows)[old(nextId) := created]
    {
      if email == [] || name == [] || startDate.None? || deadline.None? {
        return Error(MissingData);
      }
      if email !in users {
        return Error(Failed);
      }
      var project := ProjectRow(nextId, email, name, 0, startDate.value, deadline.value, Active, None);
      rows := rows[nextId := project];
      nextId := nextId + 1;
      reply := SuccessWith(project);
    }

    /**
     * `updateProject`: only the supplied fields change. The database client's input
     * validation refuses an empty deadline string for a date column, which the action
     * reports as `'Failed'`.
     */
    method UpdateProject(id: nat, patch: ProjectPatch) returns (reply: Reply<ProjectRow>)
      requires Valid()
      modifies this`rows
      ensures Valid()
      ensures id !in old(rows) || !StorableDeadline(patch) ==> reply == Error(Failed) && rows == old(rows)
      ensures id in old(rows) && StorableDeadline(patch) ==>
        && rows == old(rows)[id := Patched(old(rows)[id], patch)]
        && reply == SuccessWith(rows[id])
    {
      if id !in rows || !StorableDeadline(patch) {
        return Error(Failed);
      }
      var project := Patched(rows[id], patch);
      rows := rows[id := project];
      reply := SuccessWith(project);
    }

    /** `updateProjectStatus`: delete the row, or build the `data` object and write it. */
    method UpdateProjectStatus(id: nat, change: StatusChange, now: Day) returns (reply: Reply<ProjectRow>)
      requires Valid()
      modifies this`rows
      ensures Valid()
      ensures id !in old(rows) ==> reply == Error(Failed) && rows == old(rows)
      ensures id in old(rows) && change == ToDeleted ==> reply == Success && rows == old(rows) - {id}
      ensures id in old(rows) && change != ToDeleted ==>
        var status := match change
          case ToActive => Active
          case ToCompleted => Completed
          case _ => Archived;
        && rows == old(rows)[id := Restatus(old(rows)[id], status, now)]
        && reply == SuccessWith(rows[id])
    {
      if id !in rows {
        return Error(Failed);
      }
      if change == ToDeleted {
        rows := rows - {id};
        return Success;
      }
      var status := match change
        case ToActive => Active
        case ToCompleted => Completed
        case _ => Archived;
      var data := StatusData(status, None, None);
      if status == Completed {
        data := data.(completedDate := Some(Some(now)), progress := Some(100));
      } else if status == Active {
        data := data.(completedDate := Some(None));
      }
      var project := ApplyData(rows[id], data);
      rows := rows[id := project];
      reply := SuccessWith(project);
    }
  }
}
