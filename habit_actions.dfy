/**
 * The server-side habit actions: a table of habit rows keyed by id, each with the
 * list of days on which it was completed and a streak counter.
 */
module HabitActions {
  import opened Common
  import Seqs
  import Text

  datatype HabitStatus = Active | Archived

  /** A row of the habit table. */
  datatype HabitRow = HabitRow(
    id: nat,
    owner: string,
    name: string,
    kind: HabitType,
    completedDates: seq<Day>,
    streak: int,
    status: HabitStatus)

  /** A row as listed to the client, with `completed` worked out for today. */
  datatype HabitView = HabitView(row: HabitRow, completed: bool)

  datatype HabitListing = HabitListing(positive: seq<HabitView>, negative: seq<HabitView>)

  /** The status argument of `updateHabitStatus`. */
  datatype StatusChange = SetActive | SetArchived | Delete

  // ---------------------------------------------------------------------------
  // Listing

  function IsKind(kind: HabitType): HabitRow -> bool
  {
    (h: HabitRow) => h.kind == kind
  }

  function View(h: HabitRow, today: Day): HabitView
  {
    HabitView(h, today in h.completedDates)
  }

  function Views(hs: seq<HabitRow>, today: Day): (r: seq<HabitView>)
    ensures |r| == |hs|
    ensures forall i :: 0 <= i < |hs| ==> r[i].row == hs[i]
  {
    seq(|hs|, i requires 0 <= i < |hs| => View(hs[i], today))
  }

  function Rows(vs: seq<HabitView>): (r: seq<HabitRow>)
    ensures |r| == |vs|
  {
    seq(|vs|, i requires 0 <= i < |vs| => vs[i].row)
  }

  /**
   * `getHabits`: `user` is the user's habit rows as the database returns them, or
   * `None` when no user has that email.
   */
  function GetHabits(email: string, user: Option<seq<HabitRow>>, today: Day): (r: HabitListing)
    ensures email == [] || user.None? ==> r == HabitListing([], [])
    ensures email != [] && user.Some? ==>
      && Rows(r.positive) == Seqs.Filter(user.value, IsKind(Positive))
      && Rows(r.negative) == Seqs.Filter(user.value, IsKind(Negative))
    ensures forall v :: v in r.positive + r.negative ==> v.completed == (today in v.row.completedDates)
  {
    if email == [] then HabitListing([], [])
    else match user
      case None => HabitListing([], [])
      case Some(hs) =>
        var r := HabitListing(Views(Seqs.Filter(hs, IsKind(Positive)), today),
                            Views(Seqs.Filter(hs, IsKind(Negative)), today));
        assert Rows(r.positive) == Seqs.Filter(hs, IsKind(Positive));
        assert Rows(r.negative) == Seqs.Filter(hs, IsKind(Negative));
        r
  }

  /** Each of the user's habits is listed exactly once, in one of the two lists. */
  lemma GetHabitsPartitions(email: string, hs: seq<HabitRow>, today: Day)
    requires email != []
    ensures var r := GetHabits(email, Some(hs), today);
      multiset(Rows(r.positive)) + multiset(Rows(r.negative)) == multiset(hs)
  {
    var pos := Seqs.Filter(hs, IsKind(Positive));
    var neg := Seqs.Filter(hs, IsKind(Negative));
    forall h: HabitRow ensures (multiset(pos) + multiset(neg))[h] == multiset(hs)[h] {
      Seqs.FilterCounts(hs, IsKind(Positive), h);
      Seqs.FilterCounts(hs, IsKind(Negative), h);
    }
    assert multiset(pos) + multiset(neg) == multiset(hs);
  }

  /** Every habit listed as positive has type `'positive'`, and likewise for negative. */
  lemma GetHabitsKinds(email: string, hs: seq<HabitRow>, today: Day)
    requires email != []
    ensures var r := GetHabits(email, Some(hs), today);
      && (forall v :: v in r.positive ==> v.row.kind == Positive)
      && (forall v :: v in r.negative ==> v.row.kind == Negative)
  {
    var r := GetHabits(email, Some(hs), today);
    forall v | v in r.positive ensures v.row.kind == Positive {
      RowOfView(r.positive, v);
      assert IsKind(Positive)(v.row);
    }
    forall v | v in r.negative ensures v.row.kind == Negative {
      RowOfView(r.negative, v);
      assert IsKind(Negative)(v.row);
    }
  }

  lemma RowOfView(vs: seq<HabitView>, v: HabitView)
    requires v in vs
    ensures v.row in Rows(vs)
  {
    var i :| 0 <= i < |vs| && vs[i] == v;
    assert Rows(vs)[i] == v.row;
  }

  // ---------------------------------------------------------------------------
  // Toggling today's completion

  function IsNot(d: Day): Day -> bool
  {
    (x: Day) => x != d
  }

  /** `completedDates.filter(d => d !== today)` */
  function WithoutDay(dates: seq<Day>, d: Day): (r: seq<Day>)
    ensures d !in r
    ensures forall x :: x != d ==> (x in r <==> x in dates)
  {
    Seqs.Filter(dates, IsNot(d))
  }

  /** The row `toggleHabit` writes back: today's date and the streak move together. */
  function Toggled(h: HabitRow, today: Day): (r: HabitRow)
    ensures r == h.(completedDates := r.completedDates, streak := r.streak)
    ensures today in h.completedDates ==> r.streak == if h.streak > 1 then h.streak - 1 else 0
    ensures today !in h.completedDates ==> r.streak == h.streak + 1
    ensures today in r.completedDates <==> today !in h.completedDates
    ensures today in h.completedDates ==> r.completedDates == WithoutDay(h.completedDates, today)
    ensures today !in h.completedDates ==> r.completedDates == h.completedDates + [today]
  {
    if today in h.completedDates then
      h.(completedDates := WithoutDay(h.completedDates, today),
         streak := if 0 > h.streak - 1 then 0 else h.streak - 1)
    else
      h.(completedDates := h.completedDates + [today], streak := h.streak + 1)
  }

  /** Apart from today, the dates are the same ones, in the same order, as often as before. */
  lemma ToggleKeepsOtherDates(h: HabitRow, today: Day)
    ensures WithoutDay(Toggled(h, today).completedDates, today) == WithoutDay(h.completedDates, today)
  {
    var cd := h.completedDates;
    if today in cd {
      Seqs.FilterIdempotent(cd, IsNot(today));
    } else {
      Seqs.FilterConcat(cd, [today], IsNot(today));
      assert Seqs.Filter([today], IsNot(today)) == [];
    }
  }

  /** A non-negative streak stays non-negative, whichever way the habit is toggled. */
  lemma ToggleStreakNonNegative(h: HabitRow, today: Day)
    requires h.streak >= 0
    ensures Toggled(h, today).streak >= 0
  {
  }

  /** A date list without duplicates, the set of completion days, stays one under a toggle. */
  lemma ToggleNoDup(h: HabitRow, today: Day)
    requires Seqs.NoDup(h.completedDates)
    ensures Seqs.NoDup(Toggled(h, today).completedDates)
  {
    if today in h.completedDates {
      Seqs.FilterNoDup(h.completedDates, IsNot(today));
    } else {
      Seqs.AppendNoDup(h.completedDates, today);
    }
  }

  /**
   * Toggling twice on one day restores whether today is recorded; when today was
   * not recorded it restores the dates, and the whole row when the streak was not negative.
   */
  lemma ToggleTwice(h: HabitRow, today: Day)
    ensures var r := Toggled(Toggled(h, today), today);
      (today in r.completedDates <==> today in h.completedDates)
    ensures today !in h.completedDates ==> Toggled(Toggled(h, today), today).completedDates == h.completedDates
    ensures today !in h.completedDates && h.streak >= 0 ==> Toggled(Toggled(h, today), today) == h
  {
    if today !in h.completedDates {
      Seqs.FilterConcat(h.completedDates, [today], IsNot(today));
      assert Seqs.Filter([today], IsNot(today)) == [];
      Seqs.FilterKeepsAll(h.completedDates, IsNot(today));
    }
  }

  /** A stored row: the streak is never negative and no completion day is recorded twice. */
  ghost predicate WellFormed(h: HabitRow)
  {
    h.streak >= 0 && Seqs.NoDup(h.completedDates)
  }

  // ---------------------------------------------------------------------------
  // The table

  class HabitTable {
    var rows: map<nat, HabitRow>
    var users: set<string>
    /** The id the database hands out next; ids are never reused. */
    var nextId: nat

    /** Ids are keys below the next id to hand out, and every row is well formed. */
    ghost predicate Valid()
      reads this
    {
      forall k :: k in rows ==> k < nextId && rows[k].id == k && WellFormed(rows[k])
    }

    constructor (users: set<string>)
      ensures Valid() && rows == map[] && this.users == users
    {
      rows := map[];
      this.users := users;
      nextId := 0;
    }

    /** `createHabit`: a new row with no completion dates, owned by an existing user. */
    method CreateHabit(email: string, name: string, kind: HabitType) returns (reply: Reply<HabitRow>)
      requires Valid()
      modifies this`rows, this`nextId
      ensures Valid()
      ensures email == [] || name == [] ==> reply == Error(MissingData) && rows == old(rows)
      ensures email != [] && name != [] && email !in users ==> reply == Error(Failed) && rows == old(rows)
      ensures email != [] && name != [] && email in users ==>
        && reply == Success
        && old(nextId) !in old(rows)
        && rows == old(rows)[old(nextId) := HabitRow(old(nextId), email, name, kind, [], 0, HabitStatus.Active)]
    {
      if email == [] || name == [] {
        return Error(MissingData);
      }
      if email !in users {
        return Error(Failed);
      }
      rows := rows[nextId := HabitRow(nextId, email, name, kind, [], 0, HabitStatus.Active)];
      nextId := nextId + 1;
      reply := Success;
    }

    /** `toggleHabit`: read the row, flip today's completion, write it back. */
    method ToggleHabit(id: nat, today: Day) returns (reply: Reply<HabitRow>)
      requires Valid()
      modifies this`rows
      ensures Valid()
      ensures id !in old(rows) ==> reply == Error(Failed) && rows == old(rows)
      ensures id in old(rows) ==> reply == Success && rows == old(rows)[id := Toggled(old(rows)[id], today)]
    {
      if id !in rows {
        return Error(Failed);
      }
      var habit := rows[id];
      var isCompletedToday := today in habit.completedDates;
      var newHistory := if isCompletedToday then WithoutDay(habit.completedDates, today)
                        else habit.completedDates + [today];
      var streak := 0;
      if !isCompletedToday {
        streak := habit.streak + 1;
      } else {
        streak := if 0 > habit.streak - 1 then 0 else habit.streak - 1;
      }
      ToggleNoDup(habit, today);
      ToggleStreakNonNegative(habit, today);
      rows := rows[id := habit.(completedDates := newHistory, streak := streak)];
      reply := Success;
    }

    /** `updateHabitName`: a blank name is ignored; any other name is stored as given, untrimmed. */
    method UpdateHabitName(id: nat, name: string) returns (reply: Reply<HabitRow>)
      requires Valid()
      modifies this`rows
      ensures Valid()
      ensures Text.IsBlank(name) ==> reply == NoReply && rows == old(rows)
      ensures !Text.IsBlank(name) && id !in old(rows) ==> reply == Error(Failed) && rows == old(rows)
      ensures !Text.IsBlank(name) && id in old(rows) ==>
        reply == Success && rows == old(rows)[id := old(rows)[id].(name := name)]
    {
      if Text.Trim(name) == [] {
        return NoReply;
      }
      if id !in rows {
        return Error(Failed);
      }
      var renamed := rows[id].(name := name);
      assert WellFormed(renamed) by {
        assert renamed.streak == rows[id].streak && renamed.completedDates == rows[id].completedDates;
      }
      rows := rows[id := renamed];
      reply := Success;
    }

    /** `updateHabitStatus`: deleting removes the row; archiving or reactivating sets only `status`. */
    method UpdateHabitStatus(id: nat, change: StatusChange) returns (reply: Reply<HabitRow>)
      requires Valid()
      modifies this`rows
      ensures Valid()
      ensures id !in old(rows) ==> reply == Error(Failed) && rows == old(rows)
      ensures id in old(rows) ==> reply == Success
      ensures id in old(rows) && change == Delete ==> rows == old(rows) - {id}
      ensures id in old(rows) && change == SetActive ==>
        rows == old(rows)[id := old(rows)[id].(status := HabitStatus.Active)]
      ensures id in old(rows) && change == SetArchived ==>
        rows == old(rows)[id := old(rows)[id].(status := HabitStatus.Archived)]
    {
      if id !in rows {
        return Error(Failed);
      }
      if change == Delete {
        rows := rows - {id};
      } else {
        var status := if change == SetActive then HabitStatus.Active else HabitStatus.Archived;
        rows := rows[id := rows[id].(status := status)];
      }
      reply := Success;
    }
  }
}
