/**
 Projects, the add-project draft, the seed list, and the numbering of
 projects by position that the append-only project list keeps.
 */
module Projects {
  import opened Seqs
  import opened Categories

  /** A project card. `id` is assigned once, when the project is added. */
  datatype Project = Project(id: nat, title: string, description: string, category: Category)

  /** The fields of the add-project form: a project without its id. */
  datatype Draft = Draft(title: string, description: string, category: Category)

  /** JavaScript truthiness of a string: the empty string is the only falsy one. */
  predicate Truthy(s: string) {
    |s| > 0
  }

  /** A draft the form accepts: both free-text fields are truthy. */
  predicate Committable(d: Draft) {
    Truthy(d.title) && Truthy(d.description)
  }

  /** The draft the form starts from and returns to after a successful add. */
  const EmptyDraft: Draft := Draft("", "", Uncategorized)

  /** The project a draft becomes when it is added as the `n`-th project. */
  function FromDraft(d: Draft, n: nat): (p: Project)
    ensures p.id == n
    ensures Draft(p.title, p.description, p.category) == d
  {
    Project(n, d.title, d.description, d.category)
  }

  /** The eight projects the page starts with. */
  const InitialProjects: seq<Project> := [
    Project(1, "AI Chatbot", "Develop an AI-powered chatbot for customer service", Python),
    Project(2, "E-commerce Platform", "Build a scalable e-commerce website with React", WebDev),
    Project(3, "Mobile RPG", "Create a mobile role-playing game with Unity", GameDev),
    Project(4, "Smart Home App", "Design an app to control smart home devices", Uncategorized),
    Project(5, "Data Visualization Tool", "Develop a tool for creating interactive data visualizations", Python),
    Project(6, "Social Media Dashboard", "Create a dashboard to manage multiple social media accounts", WebDev),
    Project(7, "Augmented Reality Game", "Develop an AR game for mobile devices", GameDev),
    Project(8, "Productivity Tracker", "Build a cross-platform app to track personal and team productivity", Uncategorized)
  ]

  /** Every project's id is its position in the list plus one. */
  ghost predicate IdsArePositions(ps: seq<Project>) {
    forall i :: 0 <= i < |ps| ==> ps[i].id == i + 1
  }

  /** Every project carries a real category and truthy title and description. */
  ghost predicate WellFormed(ps: seq<Project>) {
    forall i :: 0 <= i < |ps| ==> Truthy(ps[i].title) && Truthy(ps[i].description) && ps[i].category != AllProjects
  }

  /** True for the projects filed under category `c`. */
  function HasCategory(c: Category): Project -> bool {
    (p: Project) => p.category == c
  }

  /** The seed list is numbered by position and well formed. */
  lemma InitialProjectsNumbered()
    ensures |InitialProjects| == 8
    ensures IdsArePositions(InitialProjects)
    ensures WellFormed(InitialProjects)
  {
  }

  /** Appending the project made from a committable real-category draft with id `|ps| + 1` keeps both properties. */
  lemma AppendKeepsNumbering(ps: seq<Project>, d: Draft)
    requires IdsArePositions(ps) && WellFormed(ps)
    requires Committable(d) && d.category != AllProjects
    ensures IdsArePositions(ps + [FromDraft(d, |ps| + 1)])
    ensures WellFormed(ps + [FromDraft(d, |ps| + 1)])
  {
  }

  /** Numbering by position makes ids pairwise distinct. */
  lemma NumberedIdsDistinct(ps: seq<Project>)
    requires IdsArePositions(ps)
    ensures forall i, j :: 0 <= i < |ps| && 0 <= j < |ps| && ps[i].id == ps[j].id ==> i == j
  {
  }

  /**
   In a numbered list an id locates its project: the project with id `n`
   is the one at position `n - 1`, so two listed projects with equal ids
   are the same project.
   */
  lemma IdLocatesProject(ps: seq<Project>, p: Project, q: Project)
    requires IdsArePositions(ps)
    requires p in ps && q in ps
    ensures 1 <= p.id <= |ps| && ps[p.id - 1] == p
    ensures p.id == q.id <==> p == q
  {
    var i :| 0 <= i < |ps| && ps[i] == p;
    var j :| 0 <= j < |ps| && ps[j] == q;
  }
}
