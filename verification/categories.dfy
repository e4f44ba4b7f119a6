/**
 The fixed category list of the project manager. In the component a category
 is one of five label strings compared with `===`; here it is a closed
 datatype, and `LabelInjective` shows that comparing labels is the same as
 comparing categories.
 */
module Categories {
  import opened Seqs

  /** `AllProjects` is the "no filter" pseudo-category; the other four are real. */
  datatype Category = AllProjects | Python | WebDev | GameDev | Uncategorized

  /** The label the component stores and displays for each category. */
  function Label(c: Category): string {
    match c
    case AllProjects => "ALL PROJECTS"
    case Python => "PYTHON"
    case WebDev => "WEB DEV"
    case GameDev => "GAME DEV"
    case Uncategorized => "UNCATEGORIZED"
  }

  /** The category buttons of the side panel, in display order. */
  const AllCategories: seq<Category> := [AllProjects, Python, WebDev, GameDev, Uncategorized]

  /** True for the categories a project may carry. */
  const IsRealCategory: Category -> bool := c => c != AllProjects

  /** The options of the modal's category selector: the button list without the pseudo-category. */
  function DraftOptions(): (r: seq<Category>)
    ensures forall c :: c in r <==> c != AllProjects
  {
    Filter(AllCategories, IsRealCategory)
  }

  /** Two categories have the same label exactly when they are the same category. */
  lemma LabelInjective(a: Category, b: Category)
    ensures Label(a) == Label(b) <==> a == b
  {
    if a != b {
      // the five labels already differ in their first letter
      assert Label(a)[0] != Label(b)[0];
    }
  }

  /** Every category has exactly one button. */
  lemma CategoryButtonsComplete()
    ensures forall c :: c in AllCategories
    ensures forall i, j :: 0 <= i < j < |AllCategories| ==> AllCategories[i] != AllCategories[j]
  {
    forall c
      ensures c in AllCategories
    {
      match c
      case AllProjects => assert AllCategories[0] == c;
      case Python => assert AllCategories[1] == c;
      case WebDev => assert AllCategories[2] == c;
      case GameDev => assert AllCategories[3] == c;
      case Uncategorized => assert AllCategories[4] == c;
    }
  }

  /** The selector offers the four real categories, in button order. */
  lemma DraftOptionsListed()
    ensures DraftOptions() == [Python, WebDev, GameDev, Uncategorized]
  {
    var keep, all := IsRealCategory, AllCategories;
    assert all[..4] == [AllProjects, Python, WebDev, GameDev];
    assert all[..3] == [AllProjects, Python, WebDev];
    assert all[..2] == [AllProjects, Python];
    assert all[..1] == [AllProjects];
    assert Filter(all[..1], keep) == [] by { assert all[..1][..0] == []; }
    assert Filter(all[..2], keep) == [Python] by { assert all[..2][..1] == all[..1]; }
    assert Filter(all[..3], keep) == [Python, WebDev] by { assert all[..3][..2] == all[..2]; }
    assert Filter(all[..4], keep) == [Python, WebDev, GameDev] by { assert all[..4][..3] == all[..3]; }
  }
}
