/**
 * The home page component: two habit lists and a project list held as component
 * state, plus the text fields and toggles of its two "add" forms.
 */
module Page {
  import opened Common
  import opened ListOps
  import Text

  class Home {
    var positiveHabits: seq<UiHabit>
    var badHabits: seq<UiHabit>
    var projects: seq<UiProject>
    var newHabitName: string
    var newProjectName: string
    /** Which habit list's add form is open, if any. */
    var showAddHabit: Option<ListKind>
    var showAddProject: bool

    constructor ()
      ensures positiveHabits == [] && badHabits == [] && projects == []
      ensures newHabitName == [] && newProjectName == [] && showAddHabit == None && !showAddProject
    {
      positiveHabits, badHabits, projects := [], [], [];
      newHabitName, newProjectName := [], [];
      showAddHabit, showAddProject := None, false;
    }

    /**
     * `addHabit`: a blank name changes nothing; otherwise the new habit goes at the end of
     * the chosen list, the other list is untouched, and the form is cleared and closed.
     */
    method AddHabit(kind: ListKind, id: string)
      modifies this`positiveHabits, this`badHabits, this`newHabitName, this`showAddHabit
      ensures Text.IsBlank(old(newHabitName)) ==>
        && positiveHabits == old(positiveHabits) && badHabits == old(badHabits)
        && newHabitName == old(newHabitName) && showAddHabit == old(showAddHabit)
      ensures !Text.IsBlank(old(newHabitName)) ==>
        && positiveHabits == (if kind == PositiveList then old(positiveHabits) + [NewHabit(id, old(newHabitName))]
                              else old(positiveHabits))
        && badHabits == (if kind == BadList then old(badHabits) + [NewHabit(id, old(newHabitName))]
                         else old(badHabits))
        && newHabitName == [] && showAddHabit == None
    {
      if Text.Trim(newHabitName) == [] {
        return;
      }
      var newHabit := NewHabit(id, newHabitName);
      if kind == PositiveList {
        positiveHabits := positiveHabits + [newHabit];
      } else {
        badHabits := badHabits + [newHabit];
      }
      newHabitName := [];
      showAddHabit := None;
    }

    /** `deleteHabit`: the habits with that id leave the chosen list. */
    method DeleteHabit(id: string, kind: ListKind)
      modifies this`positiveHabits, this`badHabits
      ensures positiveHabits == if kind == PositiveList then DropHabit(old(positiveHabits), id) else old(positiveHabits)
      ensures badHabits == if kind == BadList then DropHabit(old(badHabits), id) else old(badHabits)
    {
      if kind == PositiveList {
        positiveHabits := DropHabit(positiveHabits, id);
      } else {
        badHabits := DropHabit(badHabits, id);
      }
    }

    /** `addProject`: a blank name changes nothing; otherwise a new project goes at the end. */
    method AddProject(id: string)
      modifies this`projects, this`newProjectName, this`showAddProject
      ensures Text.IsBlank(old(newProjectName)) ==>
        projects == old(projects) && newProjectName == old(newProjectName) && showAddProject == old(showAddProject)
      ensures !Text.IsBlank(old(newProjectName)) ==>
        && projects == old(projects) + [NewProject(id, old(newProjectName))]
        && newProjectName == [] && !showAddProject
    {
      if Text.Trim(newProjectName) == [] {
        return;
      }
      projects := projects + [NewProject(id, newProjectName)];
      newProjectName := [];
      showAddProject := false;
    }

    /** `deleteProject`: the projects with that id leave the list. */
    method DeleteProject(id: string)
      modifies this`projects
      ensures projects == DropProject(old(projects), id)
    {
      projects := DropProject(projects, id);
    }

    /** `toggleHabit`: flips `completed` on the habits with that id in the chosen list. */
    method ToggleHabit(id: string, kind: ListKind)
      modifies this`positiveHabits, this`badHabits
      ensures positiveHabits == if kind == PositiveList then FlipCompleted(old(positiveHabits), id) else old(positiveHabits)
      ensures badHabits == if kind == BadList then FlipCompleted(old(badHabits), id) else old(badHabits)
    {
      if kind == PositiveList {
        positiveHabits := FlipCompleted(positiveHabits, id);
      } else {
        badHabits := FlipCompleted(badHabits, id);
      }
    }

    /** `updateProgress`: moves the matching projects by `delta`, kept within 0..100. */
    method UpdateProgress(id: string, delta: int)
      modifies this`projects
      ensures projects == BumpProgress(old(projects), id, delta)
    {
      projects := BumpProgress(projects, id, delta);
    }
  }
}
