/** The stand-alone habits component: the same two habit lists as the home page, without projects. */
module HabitsSectionComponent {
  import opened Common
  import opened ListOps
  import Text

  class HabitsSection {
    var positiveHabits: seq<UiHabit>
    var badHabits: seq<UiHabit>
    /** Which list's add form is open, if any. */
    var showAddHabit: Option<ListKind>
    var newHabitName: string

    constructor ()
      ensures positiveHabits == [] && badHabits == [] && showAddHabit == None && newHabitName == []
    {
      positiveHabits, badHabits := [], [];
      showAddHabit, newHabitName := None, [];
    }

    /** `addHabit`: a blank name changes nothing; otherwise the chosen list alone gains the new habit. */
    method AddHabit(kind: ListKind, id: string)
      modifies this`positiveHabits, this`badHabits, this`newHabitName, this`showAddHabit
      ensures Text.IsBlank(old(newHabitName)) ==>
        && positiveHabits == old(positiveHabits) && badHabits == old(badHabits)
        && newHabitName == old(newHabitName) && showAddHabit == old(showAddHabit)
      ensures !Text.IsBlank(old(newHabitName)) ==>
        && positiveHabits == (if kind == PositiveList then old(positiveHabits) + [NewHabit(id, old(newHabitName))]
                              else old(positiveHabits))
        && badHabits == (if kind == BadList then old(badHabits) + [NewHabit(id, old(newHabitName))]
                         else old(badHabits))
        && newHabitName == [] && showAddHabit == None
    {
      if Text.Trim(newHabitName) == [] {
        return;
      }
      var newHabit := NewHabit(id, newHabitName);
      if kind == PositiveList {
        positiveHabits := positiveHabits + [newHabit];
      } else {
        badHabits := badHabits + [newHabit];
      }
      newHabitName := [];
      showAddHabit := None;
    }

    /** `deleteHabit`: the habits with that id leave the chosen list. */
    method DeleteHabit(id: string, kind: ListKind)
      modifies this`positiveHabits, this`badHabits
      ensures positiveHabits == if kind == PositiveList then DropHabit(old(positiveHabits), id) else old(positiveHabits)
      ensures badHabits == if kind == BadList then DropHabit(old(badHabits), id) else old(badHabits)
    {
      if kind == PositiveList {
        positiveHabits := DropHabit(positiveHabits, id);
      } else {
        badHabits := DropHabit(badHabits, id);
      }
    }

    /** `toggleHabit`: flips `completed` on the habits with that id in the chosen list. */
    method ToggleHabit(id: string, kind: ListKind)
      modifies this`positiveHabits, this`badHabits
      ensures positiveHabits == if kind == PositiveList then FlipCompleted(old(positiveHabits), id) else old(positiveHabits)
      ensures badHabits == if kind == BadList then FlipCompleted(old(badHabits), id) else old(badHabits)
    {
      if kind == PositiveList {
        positiveHabits := FlipCompleted(positiveHabits, id);
      } else {
        badHabits := FlipCompleted(badHabits, id);
      }
    }
  }
}
