/** Concrete page sessions starting from the seeded projects. */
module Scenarios {
  import opened Options
  import opened Seqs
  import opened Categories
  import opened Projects
  import opened Manager
  import opened Runs

  /** The first four seed projects hold one "GAME DEV" project, at position 2. */
  lemma GameDevFilterFirstHalf(ps: seq<Project>)
    requires |ps| == 8
    requires ps[0].category == Python && ps[1].category == WebDev && ps[2].category == GameDev
    requires ps[3].category == Uncategorized
    ensures Filter(ps[..4], HasCategory(GameDev)) == [ps[2]]
  {
    var keep := HasCategory(GameDev);
    assert Filter(ps[..1], keep) == [] by { assert ps[..0] == []; FilterPrefixStep(ps, 0, keep); }
    assert Filter(ps[..2], keep) == [] by { FilterPrefixStep(ps, 1, keep); }
    assert Filter(ps[..3], keep) == [ps[2]] by { FilterPrefixStep(ps, 2, keep); }
    FilterPrefixStep(ps, 3, keep);
  }

  /** The category-by-position layout of the seed list decides the "GAME DEV" filter. */
  lemma GameDevFilterOfLayout(ps: seq<Project>)
    requires |ps| == 8
    requires ps[0].category == Python && ps[1].category == WebDev && ps[2].category == GameDev
    requires ps[3].category == Uncategorized && ps[4].category == Python && ps[5].category == WebDev
    requires ps[6].category == GameDev && ps[7].category == Uncategorized
    ensures Filter(ps, HasCategory(GameDev)) == [ps[2], ps[6]]
  {
    var keep := HasCategory(GameDev);
    GameDevFilterFirstHalf(ps);
    assert Filter(ps[..5], keep) == [ps[2]] by { FilterPrefixStep(ps, 4, keep); }
    assert Filter(ps[..6], keep) == [ps[2]] by { FilterPrefixStep(ps, 5, keep); }
    assert Filter(ps[..7], keep) == [ps[2], ps[6]] by { FilterPrefixStep(ps, 6, keep); }
    assert Filter(ps[..8], keep) == [ps[2], ps[6]] by { FilterPrefixStep(ps, 7, keep); }
    assert ps[..8] == ps;
  }

  /** Under "GAME DEV" the grid shows "Mobile RPG" then "Augmented Reality Game". */
  lemma GameDevGrid()
    ensures FilteredProjects(SelectCategory(Init, GameDev)) == [InitialProjects[2], InitialProjects[6]]
    ensures InitialProjects[2].title == "Mobile RPG" && InitialProjects[6].title == "Augmented Reality Game"
  {
    GameDevFilterOfLayout(InitialProjects);
  }

  /**
   Opening the modal, filling in "Test", "Desc" and "WEB DEV" and confirming
   appends a ninth project with id 9, resets the form, closes the modal, and
   the unfiltered grid shows the new project last.
   */
  lemma AddNinthProject()
    ensures var events := [ClickAddProject, EditTitle("Test"), EditDescription("Desc"), ChooseCategory(WebDev), ClickConfirm];
      && Admissible(Init, events)
      && var s := Run(Init, events);
      && |s.projects| == 9
      && s.projects[..8] == InitialProjects
      && s.projects[8] == Project(9, "Test", "Desc", WebDev)
      && s.newProject == EmptyDraft && !s.isAddingProject
      && FilteredProjects(s) == s.projects
  {
    InitialProjectsNumbered();
    var events := [ClickAddProject, EditTitle("Test"), EditDescription("Desc"), ChooseCategory(WebDev), ClickConfirm];
    var s1 := OpenAddModal(Init);
    var s2 := SetDraftTitle(s1, "Test");
    var s3 := SetDraftDescription(s2, "Desc");
    var s4 := SetDraftCategory(s3, WebDev);
    var s5 := AddProject(s4);
    DraftOptionsListed();
    assert events[1..][1..][1..][1..][1..] == [];
    assert Run(Init, events) == s5;
    assert Admissible(Init, events);
  }

  /**
   An add with an empty description is refused: the list, the draft and the
   open modal all stay as they were.
   */
  lemma EmptyDescriptionRefused()
    ensures var events := [ClickAddProject, EditTitle("X"), ClickConfirm];
      && Admissible(Init, events)
      && var s := Run(Init, events);
      && s.projects == InitialProjects
      && s.isAddingProject
      && s.newProject == Draft("X", "", Uncategorized)
  {
    var events := [ClickAddProject, EditTitle("X"), ClickConfirm];
    assert events[1..][1..][1..] == [];
  }

  /**
   Selecting "Mobile RPG" and then filtering by "PYTHON" hides its card, but
   the detail panel keeps showing it.
   */
  lemma SelectionOutlivesItsCard()
    ensures var events := [ClickCard(InitialProjects[2]), ClickCategory(Python)];
      && Admissible(Init, events)
      && var s := Run(Init, events);
      && s.selectedProject == Some(InitialProjects[2])
      && InitialProjects[2] !in FilteredProjects(s)
  {
    var events := [ClickCard(InitialProjects[2]), ClickCategory(Python)];
    var s1 := SelectProject(Init, InitialProjects[2]);
    var s2 := SelectCategory(s1, Python);
    CategoryButtonsComplete();
    assert events[0] == ClickCard(InitialProjects[2]) && events[1..][0] == ClickCategory(Python);
    assert events[1..][1..] == [];
    assert Run(Init, events) == Run(s1, events[1..]);
    assert Run(s1, events[1..]) == Run(s2, events[1..][1..]);
    assert InitialProjects[2].category == GameDev;
    assert Admissible(Init, events);
  }
}
