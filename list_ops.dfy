/**
 * The client-side records and the list updates the page components build with
 * spread, `filter` and `map`.
 */
module ListOps {
  import Seqs
  import Text

  /** A habit as the client components keep it. */
  datatype UiHabit = UiHabit(id: string, name: string, completed: bool, streak: int)

  /** A project as the client components keep it. */
  datatype UiProject = UiProject(id: string, name: string, progress: int, lastUpdated: string)

  /** `'positive' | 'bad'`: which of the two habit lists an action applies to. */
  datatype ListKind = PositiveList | BadList

  /** The habit `addHabit` appends: trimmed name, not completed, no streak. */
  function NewHabit(id: string, input: string): (h: UiHabit)
    ensures h.id == id && h.name == Text.Trim(input) && !h.completed && h.streak == 0
  {
    UiHabit(id, Text.Trim(input), false, 0)
  }

  /** The project `addProject` appends: trimmed name, progress 0, freshly created. */
  function NewProject(id: string, input: string): (p: UiProject)
    ensures p.id == id && p.name == Text.Trim(input) && p.progress == 0 && p.lastUpdated == "Just created"
  {
    UiProject(id, Text.Trim(input), 0, "Just created")
  }

  // ---------------------------------------------------------------------------
  // Deleting by id

  function HabitIdIsNot(id: string): UiHabit -> bool
  {
    (h: UiHabit) => h.id != id
  }

  /** `habits.filter(h => h.id !== id)` */
  function DropHabit(hs: seq<UiHabit>, id: string): (r: seq<UiHabit>)
    ensures forall h :: h in r <==> h in hs && h.id != id
  {
    Seqs.Filter(hs, HabitIdIsNot(id))
  }

  /** Exactly the habits with that id go; every other habit stays, as often as before. */
  lemma DropHabitExact(hs: seq<UiHabit>, id: string, h: UiHabit)
    ensures multiset(DropHabit(hs, id))[h] == if h.id == id then 0 else multiset(hs)[h]
  {
    Seqs.FilterCounts(hs, HabitIdIsNot(id), h);
  }

  /** The habits that stay keep their order: deleting from a concatenation deletes from each part. */
  lemma DropHabitKeepsOrder(a: seq<UiHabit>, b: seq<UiHabit>, id: string)
    ensures DropHabit(a + b, id) == DropHabit(a, id) + DropHabit(b, id)
  {
    Seqs.FilterConcat(a, b, HabitIdIsNot(id));
  }

  /** Deleting an id no habit has leaves the list as it was. */
  lemma DropHabitAbsent(hs: seq<UiHabit>, id: string)
    requires forall h :: h in hs ==> h.id != id
    ensures DropHabit(hs, id) == hs
  {
    Seqs.FilterKeepsAll(hs, HabitIdIsNot(id));
  }

  function ProjectIdIsNot(id: string): UiProject -> bool
  {
    (p: UiProject) => p.id != id
  }

  /** `projects.filter(p => p.id !== id)` */
  function DropProject(ps: seq<UiProject>, id: string): (r: seq<UiProject>)
    ensures forall p :: p in r <==> p in ps && p.id != id
  {
    Seqs.Filter(ps, ProjectIdIsNot(id))
  }

  lemma DropProjectExact(ps: seq<UiProject>, id: string, p: UiProject)
    ensures multiset(DropProject(ps, id))[p] == if p.id == id then 0 else multiset(ps)[p]
  {
    Seqs.FilterCounts(ps, ProjectIdIsNot(id), p);
  }

  lemma DropProjectKeepsOrder(a: seq<UiProject>, b: seq<UiProject>, id: string)
    ensures DropProject(a + b, id) == DropProject(a, id) + DropProject(b, id)
  {
    Seqs.FilterConcat(a, b, ProjectIdIsNot(id));
  }

  // ---------------------------------------------------------------------------
  // Toggling by id

  /** `habits.map(h => h.id === id ? { ...h, completed: !h.completed } : h)` */
  function FlipCompleted(hs: seq<UiHabit>, id: string): (r: seq<UiHabit>)
    ensures |r| == |hs|
    ensures forall i :: 0 <= i < |hs| ==>
      && r[i].id == hs[i].id && r[i].name == hs[i].name && r[i].streak == hs[i].streak
      && (r[i].completed <==> (hs[i].completed != (hs[i].id == id)))
  {
    seq(|hs|, i requires 0 <= i < |hs| =>
      if hs[i].id == id then hs[i].(completed := !hs[i].completed) else hs[i])
  }

  /** Toggling the same id twice restores the list. */
  lemma FlipCompletedTwice(hs: seq<UiHabit>, id: string)
    ensures FlipCompleted(FlipCompleted(hs, id), id) == hs
  {
  }

  // ---------------------------------------------------------------------------
  // Progress

  /** `Math.max(0, Math.min(100, x))` */
  function Clamp(x: int): (r: int)
    ensures 0 <= r <= 100
    ensures 0 <= x <= 100 ==> r == x
    ensures x < 0 ==> r == 0
    ensures x > 100 ==> r == 100
  {
    if 100 < x then 100 else if x < 0 then 0 else x
  }

  /** `updateProgress`: the matching projects move by `delta`, clamped, and are marked just updated. */
  function BumpProgress(ps: seq<UiProject>, id: string, delta: int): (r: seq<UiProject>)
    ensures |r| == |ps|
    ensures forall i :: 0 <= i < |ps| && ps[i].id != id ==> r[i] == ps[i]
    ensures forall i :: 0 <= i < |ps| && ps[i].id == id ==>
      && r[i].id == ps[i].id && r[i].name == ps[i].name
      && r[i].progress == Clamp(ps[i].progress + delta)
      && 0 <= r[i].progress <= 100
      && r[i].lastUpdated == "Just now"
  {
    seq(|ps|, i requires 0 <= i < |ps| =>
      if ps[i].id == id
      then ps[i].(progress := Clamp(ps[i].progress + delta), lastUpdated := "Just now")
      else ps[i])
  }

  /** A matching project within range moves by exactly `delta` when the result stays in range. */
  lemma BumpProgressExact(ps: seq<UiProject>, id: string, delta: int, i: nat)
    requires i < |ps| && ps[i].id == id
    requires 0 <= ps[i].progress + delta <= 100
    ensures BumpProgress(ps, id, delta)[i].progress == ps[i].progress + delta
  {
  }
}
