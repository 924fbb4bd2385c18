/**
 * The browser-local habit and project store: legacy-record defaulting when the
 * lists are loaded, and the daily rollover that clears each habit's `completed`
 * flag and keeps or breaks its streak.
 */
module Storage {
  import opened Common

  /** A habit as the rest of the store sees it once loaded. */
  datatype Habit = Habit(
    id: string,
    name: string,
    kind: HabitType,
    completed: bool,
    streak: int,
    history: seq<Day>,
    lastChecked: Day)

  /** A habit as it may sit in storage: records written by older versions lack some fields. */
  datatype StoredHabit = StoredHabit(
    id: string,
    name: string,
    kind: Option<HabitType>,
    completed: Option<bool>,
    streak: Option<int>,
    history: Option<seq<Day>>,
    lastChecked: Option<Day>)

  /** A project once loaded; `status` is always present after loading. */
  datatype Project = Project(
    id: string,
    name: string,
    progress: int,
    lastUpdated: string,
    startDate: Day,
    deadline: Day,
    completedDate: Option<Day>,
    status: ProjectStatus)

  /** A project as it may sit in storage. */
  datatype StoredProject = StoredProject(
    id: string,
    name: string,
    progress: Option<int>,
    lastUpdated: Option<string>,
    startDate: Option<Day>,
    deadline: Option<Day>,
    completedDate: Option<Day>,
    status: Option<ProjectStatus>)

  datatype HabitLists = HabitLists(positive: seq<Habit>, negative: seq<Habit>)

  // ---------------------------------------------------------------------------
  // Loading: legacy defaulting

  /** Fills in the fields a legacy record lacks; `kind` is the list the record was found in. */
  function Migrate(h: StoredHabit, kind: HabitType, today: Day): (r: Habit)
    ensures r.id == h.id && r.name == h.name
    ensures h.kind.Some? ==> r.kind == h.kind.value
    ensures h.kind.None? ==> r.kind == kind
    ensures r.completed <==> h.completed == Some(true)
    ensures h.streak.Some? ==> r.streak == h.streak.value
    ensures h.streak.None? ==> r.streak == 0
    ensures h.history.Some? ==> r.history == h.history.value
    ensures h.history.None? ==> r.history == []
    ensures h.lastChecked.Some? ==> r.lastChecked == h.lastChecked.value
    ensures h.lastChecked.None? ==> r.lastChecked == today
  {
    Habit(h.id, h.name, h.kind.GetOr(kind), h.completed.GetOr(false),
          h.streak.GetOr(0), h.history.GetOr([]), h.lastChecked.GetOr(today))
  }

  function MigrateAll(hs: seq<StoredHabit>, kind: HabitType, today: Day): (r: seq<Habit>)
    ensures |r| == |hs|
    ensures forall i :: 0 <= i < |hs| ==> r[i] == Migrate(hs[i], kind, today)
  {
    if hs == [] then [] else [Migrate(hs[0], kind, today)] + MigrateAll(hs[1..], kind, today)
  }

  /** The record `saveHabits` writes: every field present. */
  function Store(h: Habit): (r: StoredHabit)
    ensures r.kind.Some? && r.completed.Some? && r.streak.Some? && r.history.Some? && r.lastChecked.Some?
  {
    StoredHabit(h.id, h.name, Some(h.kind), Some(h.completed), Some(h.streak),
                Some(h.history), Some(h.lastChecked))
  }

  function StoreAll(hs: seq<Habit>): (r: seq<StoredHabit>)
    ensures |r| == |hs|
    ensures forall i :: 0 <= i < |hs| ==> r[i] == Store(hs[i])
  {
    if hs == [] then [] else [Store(hs[0])] + StoreAll(hs[1..])
  }

  /** Loading what was saved gives back the saved habit, whichever list it is loaded from. */
  lemma MigrateStore(h: Habit, kind: HabitType, today: Day)
    ensures Migrate(Store(h), kind, today) == h
  {
  }

  lemma MigrateAllStoreAll(hs: seq<Habit>, kind: HabitType, today: Day)
    ensures MigrateAll(StoreAll(hs), kind, today) == hs
  {
  }

  /** `p.status || (p.completedDate ? 'completed' : 'active')` */
  function DefaultStatus(p: StoredProject): (s: ProjectStatus)
    ensures p.status.Some? ==> s == p.status.value
    ensures p.status.None? && p.completedDate.Some? ==> s == Completed
    ensures p.status.None? && p.completedDate.None? ==> s == Active
  {
    match p.status
    case Some(s) => s
    case None => if p.completedDate.Some? then Completed else Active
  }

  /** `p.lastUpdated || 'Recently'`: an empty string is falsy too. */
  function DefaultLastUpdated(p: StoredProject): (s: string)
    ensures s != []
    ensures p.lastUpdated.Some? && p.lastUpdated.value != [] ==> s == p.lastUpdated.value
    ensures p.lastUpdated.None? || p.lastUpdated == Some([]) ==> s == "Recently"
  {
    match p.lastUpdated
    case Some(u) => if u == [] then "Recently" else u
    case None => "Recently"
  }

  /** One element of `getProjects`: defaults for progress, dates and status. */
  function LoadProject(p: StoredProject, today: Day, nextMonth: Day): (r: Project)
    ensures r.id == p.id && r.name == p.name
    ensures r.progress == p.progress.GetOr(0)
    ensures r.startDate == p.startDate.GetOr(today) && r.deadline == p.deadline.GetOr(nextMonth)
    ensures r.completedDate == p.completedDate
    ensures r.status == DefaultStatus(p)
    ensures r.lastUpdated == DefaultLastUpdated(p)
  {
    Project(p.id, p.name, p.progress.GetOr(0), DefaultLastUpdated(p), p.startDate.GetOr(today),
            p.deadline.GetOr(nextMonth), p.completedDate, DefaultStatus(p))
  }

  function LoadProjects(ps: seq<StoredProject>, today: Day, nextMonth: Day): (r: seq<Project>)
    ensures |r| == |ps|
    ensures forall i :: 0 <= i < |ps| ==> r[i] == LoadProject(ps[i], today, nextMonth)
  {
    if ps == [] then [] else [LoadProject(ps[0], today, nextMonth)] + LoadProjects(ps[1..], today, nextMonth)
  }

  /** The record `saveProjects` writes: every field present except an unset completion date. */
  function StoreProject(p: Project): (r: StoredProject)
    ensures r.progress.Some? && r.lastUpdated.Some? && r.startDate.Some? && r.deadline.Some? && r.status.Some?
    ensures r.completedDate == p.completedDate
  {
    StoredProject(p.id, p.name, Some(p.progress), Some(p.lastUpdated), Some(p.startDate),
                  Some(p.deadline), p.completedDate, Some(p.status))
  }

  /** A saved project loads back unchanged, unless its `lastUpdated` was the empty string. */
  lemma LoadStoreProject(p: Project, today: Day, nextMonth: Day)
    ensures p.lastUpdated != [] ==> LoadProject(StoreProject(p), today, nextMonth) == p
    ensures p.lastUpdated == [] ==> LoadProject(StoreProject(p), today, nextMonth).lastUpdated == "Recently"
  {
  }

  // ---------------------------------------------------------------------------
  // The daily rollover (`updateHabitStreakPreserve`)

  /**
   * Brings a habit up to `today`. A habit already checked today is left alone; one
   * completed yesterday keeps its streak; any other habit loses it. Either way the
   * new day starts uncompleted.
   */
  function Rollover(h: Habit, today: Day): (r: Habit)
    ensures r.lastChecked == today
    ensures r.id == h.id && r.name == h.name && r.kind == h.kind && r.history == h.history
    ensures r.streak == h.streak || r.streak == 0
    ensures h.lastChecked != today ==> !r.completed
  {
    if h.lastChecked == today then h
    else if h.lastChecked == today - 1 && h.completed then h.(completed := false, lastChecked := today)
    else h.(completed := false, streak := 0, lastChecked := today)
  }

  lemma RolloverSameDay(h: Habit, today: Day)
    requires h.lastChecked == today
    ensures Rollover(h, today) == h
  {
  }

  lemma RolloverKeepsStreak(h: Habit, today: Day)
    requires h.lastChecked == today - 1 && h.completed
    ensures Rollover(h, today) == h.(completed := false, lastChecked := today)
  {
  }

  /** Missed yesterday, last seen earlier, or last seen on a later day: the streak is broken. */
  lemma RolloverBreaksStreak(h: Habit, today: Day)
    requires h.lastChecked != today
    requires h.lastChecked != today - 1 || !h.completed
    ensures Rollover(h, today) == h.(completed := false, streak := 0, lastChecked := today)
  {
  }

  lemma RolloverIdempotent(h: Habit, today: Day)
    ensures Rollover(Rollover(h, today), today) == Rollover(h, today)
  {
  }

  lemma RolloverNeverIncreases(h: Habit, today: Day)
    requires h.streak >= 0
    ensures 0 <= Rollover(h, today).streak <= h.streak
  {
  }

  /** `list.map(updateHabitStreakPreserve)` */
  function RolloverAll(hs: seq<Habit>, today: Day): (r: seq<Habit>)
    ensures |r| == |hs|
    ensures forall i :: 0 <= i < |hs| ==> r[i] == Rollover(hs[i], today)
  {
    if hs == [] then [] else [Rollover(hs[0], today)] + RolloverAll(hs[1..], today)
  }

  lemma RolloverAllIdempotent(hs: seq<Habit>, today: Day)
    ensures RolloverAll(RolloverAll(hs, today), today) == RolloverAll(hs, today)
  {
  }

  /** A legacy record without `lastChecked` is stamped with today, so the same day's rollover keeps it as loaded. */
  lemma LegacyRecordNotReset(h: StoredHabit, kind: HabitType, today: Day)
    requires h.lastChecked.None?
    ensures Rollover(Migrate(h, kind, today), today) == Migrate(h, kind, today)
  {
  }

  /** What `checkDailyReset` does to one stored list: load it, roll every habit over, save it. */
  function ResetList(stored: seq<StoredHabit>, kind: HabitType, today: Day): (r: seq<StoredHabit>)
    ensures |r| == |stored|
    ensures forall i :: 0 <= i < |r| ==> r[i].lastChecked == Some(today)
    ensures forall i :: 0 <= i < |r| ==>
      Migrate(r[i], kind, today) == Rollover(Migrate(stored[i], kind, today), today)
  {
    StoreAll(RolloverAll(MigrateAll(stored, kind, today), today))
  }

  /** Running the daily reset twice on one day leaves the store as one run did. */
  lemma ResetListIdempotent(stored: seq<StoredHabit>, kind: HabitType, today: Day)
    ensures ResetList(ResetList(stored, kind, today), kind, today) == ResetList(stored, kind, today)
  {
  }

  // ---------------------------------------------------------------------------
  // The store itself

  /** The three lists kept in browser storage under `positiveHabits`, `badHabits` and `projects`. */
  class LocalStore {
    var positiveHabits: seq<StoredHabit>
    var badHabits: seq<StoredHabit>
    var projects: seq<StoredProject>

    constructor ()
      ensures positiveHabits == [] && badHabits == [] && projects == []
    {
      positiveHabits, badHabits, projects := [], [], [];
    }

    /** `getHabits`: both lists, legacy records filled in; a record's list supplies its missing type. */
    function GetHabits(today: Day): (r: HabitLists)
      reads this
      ensures |r.positive| == |positiveHabits| && |r.negative| == |badHabits|
      ensures forall i :: 0 <= i < |positiveHabits| ==> r.positive[i] == Migrate(positiveHabits[i], Positive, today)
      ensures forall i :: 0 <= i < |badHabits| ==> r.negative[i] == Migrate(badHabits[i], Negative, today)
    {
      HabitLists(MigrateAll(positiveHabits, Positive, today), MigrateAll(badHabits, Negative, today))
    }

    method SaveHabits(positive: seq<Habit>, negative: seq<Habit>)
      modifies this`positiveHabits, this`badHabits
      ensures positiveHabits == StoreAll(positive) && badHabits == StoreAll(negative)
      ensures forall today :: GetHabits(today) == HabitLists(positive, negative)
    {
      positiveHabits := StoreAll(positive);
      badHabits := StoreAll(negative);
      forall today: Day ensures GetHabits(today) == HabitLists(positive, negative) {
        MigrateAllStoreAll(positive, Positive, today);
        MigrateAllStoreAll(negative, Negative, today);
      }
    }

    /** `getProjects`: every stored project with its defaults filled in, in stored order. */
    function GetProjects(today: Day, nextMonth: Day): (r: seq<Project>)
      reads this
      ensures |r| == |projects|
      ensures forall i :: 0 <= i < |projects| ==> r[i] == LoadProject(projects[i], today, nextMonth)
    {
      LoadProjects(projects, today, nextMonth)
    }

    method SaveProjects(ps: seq<Project>)
      modifies this`projects
      ensures |projects| == |ps|
      ensures forall i :: 0 <= i < |ps| ==> projects[i] == StoreProject(ps[i])
    {
      projects := seq(|ps|, i requires 0 <= i < |ps| => StoreProject(ps[i]));
    }

    /** `checkDailyReset`: the rollover applied to every habit of both lists, in place and in order. */
    method CheckDailyReset(today: Day)
      modifies this`positiveHabits, this`badHabits
      ensures positiveHabits == ResetList(old(positiveHabits), Positive, today)
      ensures badHabits == ResetList(old(badHabits), Negative, today)
      ensures GetHabits(today).positive == RolloverAll(old(GetHabits(today)).positive, today)
      ensures GetHabits(today).negative == RolloverAll(old(GetHabits(today)).negative, today)
    {
      var lists := GetHabits(today);
      var updatedPositive := RolloverAll(lists.positive, today);
      var updatedNegative := RolloverAll(lists.negative, today);
      SaveHabits(updatedPositive, updatedNegative);
    }
  }
}
