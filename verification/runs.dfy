/**
 The component as an event-driven machine: the user events the rendered page
 can deliver, the handler each one runs, and the invariant every reachable
 state keeps. A page session is a sequence of events applied to `Init`.
 */
module Runs {
  import opened Options
  import opened Categories
  import opened Projects
  import opened Manager

  /** One user interaction with the page. */
  datatype Event =
    | ClickCategory(category: Category)
    | ClickCard(project: Project)
    | ClickAddProject
    | EditTitle(title: string)
    | EditDescription(description: string)
    | ChooseCategory(choice: Category)
    | ClickCancel
    | ClickConfirm

  /**
   The handler an event runs. Each part of the state has its own controls:
   only a confirm touches the project list, and then only by appending; only
   a category button moves the filter; only a card click moves the
   selection; only the modal's inputs and a confirm touch the draft; and the
   modal flag is set by the side panel's "Add Project" button and cleared
   only by Cancel or a confirm.
   */
  function Step(s: State, e: Event): (s': State)
    ensures s.projects <= s'.projects
    ensures !e.ClickConfirm? ==> s'.projects == s.projects
    ensures !e.ClickCategory? ==> s'.selectedCategory == s.selectedCategory
    ensures !e.ClickCard? ==> s'.selectedProject == s.selectedProject
    ensures !(e.EditTitle? || e.EditDescription? || e.ChooseCategory? || e.ClickConfirm?) ==>
      s'.newProject == s.newProject
    ensures e.ClickAddProject? ==> s'.isAddingProject
    ensures e.ClickCancel? ==> !s'.isAddingProject
    ensures !(e.ClickAddProject? || e.ClickCancel? || e.ClickConfirm?) ==>
      s'.isAddingProject == s.isAddingProject
    ensures s'.isAddingProject && !s.isAddingProject ==> e.ClickAddProject?
  {
    match e
    case ClickCategory(c) => SelectCategory(s, c)
    case ClickCard(p) => SelectProject(s, p)
    case ClickAddProject => OpenAddModal(s)
    case EditTitle(t) => SetDraftTitle(s, t)
    case EditDescription(d) => SetDraftDescription(s, d)
    case ChooseCategory(c) => SetDraftCategory(s, c)
    case ClickCancel => CancelAddModal(s)
    case ClickConfirm => AddProject(s)
  }

  /**
   Whether the page rendered from `s` offers the control that delivers `e`:
   every category button and the side panel's "Add Project" button are
   always rendered; a card exists only for a project in the grid; the modal's
   inputs and buttons exist only while the modal is open, and its selector
   offers only the real categories.
   */
  predicate Emittable(s: State, e: Event): (b: bool)
    ensures e.ClickCategory? || e.ClickAddProject? ==> b
    ensures b && e.ClickCard? ==> e.project in s.projects
    ensures b && e.ClickCard? && s.selectedCategory != AllProjects ==> e.project.category == s.selectedCategory
    ensures b && e.ChooseCategory? ==> e.choice != AllProjects
    ensures b && !(e.ClickCategory? || e.ClickCard? || e.ClickAddProject?) ==> s.isAddingProject
  {
    match e
    case ClickCategory(c) => CategoryButtonsComplete(); c in AllCategories
    case ClickCard(p) => p in FilteredProjects(s)
    case ClickAddProject => true
    case EditTitle(_) => s.isAddingProject
    case EditDescription(_) => s.isAddingProject
    case ChooseCategory(c) => s.isAddingProject && c in DraftOptions()
    case ClickCancel => s.isAddingProject
    case ClickConfirm => s.isAddingProject
  }

  /** Applies the events in order. */
  function Run(s: State, events: seq<Event>): State
    decreases |events|
  {
    if events == [] then s else Run(Step(s, events[0]), events[1..])
  }

  /** Every event of the sequence is offered by the page at the moment it happens. */
  predicate Admissible(s: State, events: seq<Event>)
    decreases |events|
  {
    events == [] || (Emittable(s, events[0]) && Admissible(Step(s, events[0]), events[1..]))
  }

  /**
   The invariant of every reachable state: projects are numbered by
   position and well formed, the draft's category is a real one, and the
   selection, if any, is one of the projects.
   */
  ghost predicate Inv(s: State) {
    && IdsArePositions(s.projects)
    && WellFormed(s.projects)
    && s.newProject.category != AllProjects
    && (s.selectedProject.Some? ==> s.selectedProject.value in s.projects)
  }

  lemma InitSatisfiesInv()
    ensures Inv(Init)
  {
    InitialProjectsNumbered();
  }

  /** Every event the page can deliver preserves the invariant. */
  lemma StepPreservesInv(s: State, e: Event)
    requires Inv(s) && Emittable(s, e)
    ensures Inv(Step(s, e))
  {
    match e
    case ChooseCategory(c) =>
      assert c != AllProjects;
    case ClickConfirm =>
      if Committable(s.newProject) {
        AppendKeepsNumbering(s.projects, s.newProject);
        assert s.projects <= AddProject(s).projects;
      }
    case _ =>
  }

  /** No event removes, reorders or changes a project: the list only grows at its end. */
  lemma StepOnlyAppends(s: State, e: Event)
    ensures s.projects <= Step(s, e).projects
    ensures |Step(s, e).projects| <= |s.projects| + 1
  {
  }

  lemma {:induction false} RunPreservesInv(s: State, events: seq<Event>)
    requires Inv(s) && Admissible(s, events)
    ensures Inv(Run(s, events))
    decreases |events|
  {
    if events != [] {
      StepPreservesInv(s, events[0]);
      RunPreservesInv(Step(s, events[0]), events[1..]);
    }
  }

  lemma {:induction false} RunOnlyAppends(s: State, events: seq<Event>)
    ensures s.projects <= Run(s, events).projects
    ensures |Run(s, events).projects| <= |s.projects| + |events|
    decreases |events|
  {
    if events != [] {
      var t := Step(s, events[0]);
      StepOnlyAppends(s, events[0]);
      RunOnlyAppends(t, events[1..]);
      assert s.projects <= t.projects <= Run(t, events[1..]).projects;
    }
  }

  /**
   In every state a session can reach, project ids are pairwise distinct,
   every project has a real category, and a card is highlighted exactly
   when it shows the selected project.
   */
  lemma ReachableStates(events: seq<Event>)
    requires Admissible(Init, events)
    ensures var s := Run(Init, events);
      && (forall i, j :: 0 <= i < |s.projects| && 0 <= j < |s.projects| && s.projects[i].id == s.projects[j].id ==> i == j)
      && (forall p :: p in s.projects ==> p.category != AllProjects)
      && (forall p :: p in s.projects ==> (IsSelected(s, p) <==> s.selectedProject == Some(p)))
  {
    InitSatisfiesInv();
    RunPreservesInv(Init, events);
    var s := Run(Init, events);
    NumberedIdsDistinct(s.projects);
    forall p | p in s.projects
      ensures IsSelected(s, p) <==> s.selectedProject == Some(p)
    {
      IsSelectedIffSelectedProject(s, p);
    }
  }
}
