/**
 The view state of the personal project manager and its transitions. Each
 event handler of the component is one total function from state to state;
 the grid's project list and the card highlight are pure views of a state.
 */
module Manager {
  import opened Options
  import opened Seqs
  import opened Categories
  import opened Projects

  /**
   The five pieces of component state: the project list, the active filter,
   the project shown in the detail panel (if any), whether the add-project
   modal is open, and the modal's draft.
   */
  datatype State = State(
    projects: seq<Project>,
    selectedCategory: Category,
    selectedProject: Option<Project>,
    isAddingProject: bool,
    newProject: Draft)

  /** The state the page starts in. */
  const Init: State := State(InitialProjects, AllProjects, None, false, EmptyDraft)

  /**
   The projects the grid shows: all of them under the pseudo-category,
   otherwise exactly those filed under the active category.
   */
  function FilteredProjects(s: State): (r: seq<Project>)
    ensures s.selectedCategory == AllProjects ==> r == s.projects
    ensures s.selectedCategory != AllProjects ==>
      forall p :: p in r <==> p in s.projects && p.category == s.selectedCategory
    // a summary of the two clauses above, for callers that do not split on the filter
    ensures forall p :: p in r ==> p in s.projects
  {
    if s.selectedCategory == AllProjects then s.projects
    else Filter(s.projects, HasCategory(s.selectedCategory))
  }

  /**
   Whether a grid card is highlighted: some project is selected and it has
   the card's id. With nothing selected no card is highlighted, and the
   selected project's own card always is.
   */
  predicate IsSelected(s: State, p: Project): (b: bool)
    ensures s.selectedProject.None? ==> !b
    ensures s.selectedProject == Some(p) ==> b
    ensures b ==> s.selectedProject.Some? && s.selectedProject.value.id == p.id
  {
    s.selectedProject.Some? && s.selectedProject.value.id == p.id
  }

  /** Clicking a category button: only the active filter changes. */
  function SelectCategory(s: State, c: Category): (s': State)
    ensures s'.selectedCategory == c
    ensures s'.projects == s.projects
    ensures s'.selectedProject == s.selectedProject
    ensures s'.isAddingProject == s.isAddingProject && s'.newProject == s.newProject
  {
    s.(selectedCategory := c)
  }

  /** Clicking a card: the clicked project becomes the selection; nothing else changes. */
  function SelectProject(s: State, p: Project): (s': State)
    ensures s'.selectedProject == Some(p)
    ensures s'.projects == s.projects && s'.selectedCategory == s.selectedCategory
    ensures s'.isAddingProject == s.isAddingProject && s'.newProject == s.newProject
  {
    s.(selectedProject := Some(p))
  }

  /** The "Add Project" button of the side panel: opens the modal, keeping whatever draft it holds. */
  function OpenAddModal(s: State): (s': State)
    ensures s'.isAddingProject
    ensures s'.newProject == s.newProject
    ensures s'.projects == s.projects && s'.selectedCategory == s.selectedCategory
    ensures s'.selectedProject == s.selectedProject
  {
    s.(isAddingProject := true)
  }

  /** The modal's Cancel button: closes the modal and leaves the draft as typed. */
  function CancelAddModal(s: State): (s': State)
    ensures !s'.isAddingProject
    ensures s'.newProject == s.newProject
    ensures s'.projects == s.projects && s'.selectedCategory == s.selectedCategory
    ensures s'.selectedProject == s.selectedProject
  {
    s.(isAddingProject := false)
  }

  /** Typing in the title input: only the draft's title changes. */
  function SetDraftTitle(s: State, t: string): (s': State)
    ensures s'.newProject.title == t
    ensures s'.newProject.description == s.newProject.description
    ensures s'.newProject.category == s.newProject.category
    ensures s'.projects == s.projects && s'.selectedCategory == s.selectedCategory
    ensures s'.selectedProject == s.selectedProject && s'.isAddingProject == s.isAddingProject
  {
    s.(newProject := s.newProject.(title := t))
  }

  /** Typing in the description text area: only the draft's description changes. */
  function SetDraftDescription(s: State, t: string): (s': State)
    ensures s'.newProject.description == t
    ensures s'.newProject.title == s.newProject.title
    ensures s'.newProject.category == s.newProject.category
    ensures s'.projects == s.projects && s'.selectedCategory == s.selectedCategory
    ensures s'.selectedProject == s.selectedProject && s'.isAddingProject == s.isAddingProject
  {
    s.(newProject := s.newProject.(description := t))
  }

  /** Choosing in the category selector: only the draft's category changes. */
  function SetDraftCategory(s: State, c: Category): (s': State)
    ensures s'.newProject.category == c
    ensures s'.newProject.title == s.newProject.title
    ensures s'.newProject.description == s.newProject.description
    ensures s'.projects == s.projects && s'.selectedCategory == s.selectedCategory
    ensures s'.selectedProject == s.selectedProject && s'.isAddingProject == s.isAddingProject
  {
    s.(newProject := s.newProject.(category := c))
  }

  /**
   The modal's "Add Project" button. A draft with an empty title or
   description is refused silently and the state is unchanged. Otherwise the
   draft is appended as a project numbered one past the current count, the
   earlier projects stay in place, the form is reset and the modal closes;
   filter and selection are kept.
   */
  function AddProject(s: State): (s': State)
    ensures !Committable(s.newProject) ==> s' == s
    ensures Committable(s.newProject) ==>
      && |s'.projects| == |s.projects| + 1
      && s'.projects[..|s.projects|] == s.projects
      && s'.projects[|s.projects|].id == |s.projects| + 1
      && s'.projects[|s.projects|].title == s.newProject.title
      && s'.projects[|s.projects|].description == s.newProject.description
      && s'.projects[|s.projects|].category == s.newProject.category
    ensures Committable(s.newProject) ==>
      s'.newProject == EmptyDraft && !s'.isAddingProject
    ensures s'.selectedCategory == s.selectedCategory && s'.selectedProject == s.selectedProject
  {
    var d := s.newProject;
    if Truthy(d.title) && Truthy(d.description) then
      s.(projects := s.projects + [FromDraft(d, |s.projects| + 1)],
         newProject := EmptyDraft,
         isAddingProject := false)
    else
      s
  }

  /**
   Under a real category the grid lists, in list order, the projects at
   exactly the positions whose category matches (see `Seqs.Positions`).
   */
  lemma FilteredIsOrderedSubsequence(s: State)
    requires s.selectedCategory != AllProjects
    ensures PickedAt(FilteredProjects(s), s.projects, Positions(s.projects, HasCategory(s.selectedCategory)))
  {
    FilterPicksPositions(s.projects, HasCategory(s.selectedCategory));
  }

  /** With real categories on every project, each project shows up under its own category. */
  lemma EveryProjectHasAView(s: State, p: Project)
    requires WellFormed(s.projects) && p in s.projects
    ensures p.category != AllProjects
    ensures p in FilteredProjects(SelectCategory(s, p.category))
  {
  }

  /** The last category clicked wins: earlier clicks leave no trace. */
  lemma SelectCategoryLastWins(s: State, a: Category, b: Category)
    ensures SelectCategory(SelectCategory(s, a), b) == SelectCategory(s, b)
  {
  }

  /**
   The selection survives a filter change, whether or not the selected
   project is still in the grid.
   */
  lemma SelectionSurvivesFilter(s: State, p: Project, c: Category)
    ensures SelectCategory(SelectProject(s, p), c).selectedProject == Some(p)
    ensures SelectCategory(SelectProject(s, p), c) == SelectProject(SelectCategory(s, c), p)
  {
  }

  /**
   Cancel is the inverse of opening: opening a closed modal and cancelling
   returns the exact state, draft included, and reopening after a cancel
   shows the draft as it was left.
   */
  lemma CancelUndoesOpen(s: State)
    ensures !s.isAddingProject ==> CancelAddModal(OpenAddModal(s)) == s
    ensures OpenAddModal(CancelAddModal(s)) == OpenAddModal(s)
  {
  }

  /**
   Edits to different draft fields commute, and a later edit of the same
   field overrides an earlier one.
   */
  lemma DraftEditsIndependent(s: State, t: string, d: string, c: Category, t2: string)
    ensures SetDraftTitle(SetDraftDescription(s, d), t) == SetDraftDescription(SetDraftTitle(s, t), d)
    ensures SetDraftTitle(SetDraftCategory(s, c), t) == SetDraftCategory(SetDraftTitle(s, t), c)
    ensures SetDraftDescription(SetDraftCategory(s, c), d) == SetDraftCategory(SetDraftDescription(s, d), c)
    ensures SetDraftTitle(SetDraftTitle(s, t), t2) == SetDraftTitle(s, t2)
  {
  }

  /**
   Pressing "Add Project" a second time adds nothing more: the successful
   first press empties the title, so the second is refused.
   */
  lemma AddProjectAddsOnce(s: State)
    ensures AddProject(AddProject(s)) == AddProject(s)
  {
  }

  /**
   After a successful add, the grid gains the new project at its end exactly
   when the active filter would show it; the cards already shown stay as
   they were.
   */
  lemma AddProjectView(s: State)
    requires Committable(s.newProject)
    ensures var added := FromDraft(s.newProject, |s.projects| + 1);
      FilteredProjects(AddProject(s)) ==
        FilteredProjects(s) +
        (if s.selectedCategory == AllProjects || s.newProject.category == s.selectedCategory then [added] else [])
  {
    var added := FromDraft(s.newProject, |s.projects| + 1);
    if s.selectedCategory != AllProjects {
      FilterSnoc(s.projects, added, HasCategory(s.selectedCategory));
    }
  }

  /**
   The highlight compares ids only, but in a numbered list that holds the
   selection this is the same as comparing projects: a card is highlighted
   exactly when it shows the selected project.
   */
  lemma IsSelectedIffSelectedProject(s: State, p: Project)
    requires IdsArePositions(s.projects)
    requires s.selectedProject.Some? ==> s.selectedProject.value in s.projects
    requires p in s.projects
    ensures IsSelected(s, p) <==> s.selectedProject == Some(p)
  {
    if s.selectedProject.Some? {
      IdLocatesProject(s.projects, s.selectedProject.value, p);
    }
  }
}
