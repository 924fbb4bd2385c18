/** The stand-alone projects component: one project list and its add form. */
module ProjectsSectionComponent {
  import opened ListOps
  import Text

  class ProjectsSection {
    var projects: seq<UiProject>
    var showAddProject: bool
    var newProjectName: string

    constructor ()
      ensures projects == [] && !showAddProject && newProjectName == []
    {
      projects, showAddProject, newProjectName := [], false, [];
    }

    /** `addProject`: a blank name changes nothing; otherwise a new project goes at the end. */
    method AddProject(id: string)
      modifies this`projects, this`newProjectName, this`showAddProject
      ensures Text.IsBlank(old(newProjectName)) ==>
        projects == old(projects) && newProjectName == old(newProjectName) && showAddProject == old(showAddProject)
      ensures !Text.IsBlank(old(newProjectName)) ==>
        && projects == old(projects) + [NewProject(id, old(newProjectName))]
        && newProjectName == [] && !showAddProject
    {
      if Text.Trim(newProjectName) == [] {
        return;
      }
      projects := projects + [NewProject(id, newProjectName)];
      newProjectName := [];
      showAddProject := false;
    }

    /** `deleteProject`: the projects with that id leave the list. */
    method DeleteProject(id: string)
      modifies this`projects
      ensures projects == DropProject(old(projects), id)
    {
      projects := DropProject(projects, id);
    }

    /** `updateProgress`: moves the matching projects by `delta`, kept within 0..100. */
    method UpdateProgress(id: string, delta: int)
      modifies this`projects
      ensures projects == BumpProgress(old(projects), id, delta)
    {
      projects := BumpProgress(projects, id, delta);
    }
  }
}
