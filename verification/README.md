# Personal project manager — a Dafny model of its view state

The personal project manager is a single React component
(`src/PersonalProjectManager.js`). A side panel has one button per category
plus an "Add Project" button. A grid shows a card for each project in the
active category. A detail panel shows the selected project. A modal form
adds new projects. The only logic in the component is its view state and
the event handlers that change it. This project models that state machine
and proves what it promises.

- `seqs.dfy` (`Seqs`): order-preserving filtering, as `Array.prototype.filter`
  does it. `Positions` is an independent description of the result: the
  positions the predicate keeps, in increasing order.
- `options.dfy` (`Options`): `Option`, standing for a reference that may be `null`.
- `categories.dfy` (`Categories`): the five fixed categories as a closed
  datatype. `AllProjects` is the "no filter" pseudo-category. The module also
  has the labels, the button list and the modal selector's options.
- `projects.dfy` (`Projects`): projects, the draft, JavaScript string
  truthiness, the eight seed projects, and ids numbered by position.
- `manager.dfy` (`Manager`): the five-part state (`projects`,
  `selectedCategory`, `selectedProject`, `isAddingProject`, `newProject`).
  It holds one total function per handler, the grid's `FilteredProjects`
  view, the card highlight `IsSelected`, and lemmas relating them.
- `runs.dfy` (`Runs`): user events and the handler each one runs. It also
  defines which events the rendered page can deliver in a given state, runs
  of events, and the invariant that every reachable state keeps.
- `scenarios.dfy` (`Scenarios`): concrete sessions from the seeded state.

Each React handler is one atomic transition on an explicit state record.
The `useState` setters called inside one handler take effect together.

Which events a state can deliver (`Runs.Emittable`) follows what the
component's code renders:
- The category buttons and the side panel's "Add Project" button are always
  rendered.
- A card click can only name a project in the filtered grid.
- The modal's inputs and buttons exist only while `isAddingProject` holds.
- The modal's category selector offers only the four real categories.

The transition functions themselves take any argument, as the handlers do.
The invariant lemmas (`Runs.StepPreservesInv`, `Runs.RunPreservesInv`,
`Runs.ReachableStates`) rest on `Runs.Emittable`. A card click naming a
project outside the list, or a selector delivering ALL PROJECTS, would break
the invariant.

The component keeps `selectedProject` as a reference to the clicked project
object. The model keeps the project value. `Manager.IsSelectedIffSelectedProject`
and `Runs.ReachableStates` show the difference does not matter. In every
reachable state, ids are positions plus one, so comparing ids (what the
highlight does) is the same as comparing projects.

## Model

| member | source | states |
|---|---|---|
| `Categories.LabelInjective` | src/PersonalProjectManager.js:4-10 | The five category labels are pairwise distinct, so comparing labels with `===` is the same as comparing categories. |
| `Categories.CategoryButtonsComplete` | src/PersonalProjectManager.js:124-134 | Every category has exactly one button in the side panel. |
| `Categories.DraftOptions` | src/PersonalProjectManager.js:207-213 | The selector offers a category exactly when it is not the pseudo-category. |
| `Categories.DraftOptionsListed` | src/PersonalProjectManager.js:207-213 | The selector lists PYTHON, WEB DEV, GAME DEV, UNCATEGORIZED, in button order. |
| `Seqs.Filter` | src/PersonalProjectManager.js:94 | An element is in the filter's result exactly when it is in the input and the predicate keeps it; the result is no longer than the input. |
| `Seqs.Positions` | src/PersonalProjectManager.js:94 | Reference description of the filter: the positions whose element is kept, all of them and nothing else, strictly increasing. |
| `Seqs.FilterPicksPositions` | src/PersonalProjectManager.js:94 | The filter's result is read off the input at exactly the kept positions, in increasing order. So it is the order-preserving subsequence of kept elements. |
| `Seqs.FilterSnoc` | src/PersonalProjectManager.js:94 | Appending an element to the input appends it to the filter's result exactly when it is kept. |
| `Projects.FromDraft` | src/PersonalProjectManager.js:98 | An added project carries the draft's title, description and category unchanged, plus the given id. |
| `Projects.InitialProjectsNumbered` | src/PersonalProjectManager.js:28-78 | The seed list has eight projects. Each id is its position plus one. Every title and description is non-empty and every category is a real one. |
| `Projects.AppendKeepsNumbering` | src/PersonalProjectManager.js:98 | Appending a committable draft with a real category, with id `length + 1`, keeps the list numbered by position and well formed. |
| `Projects.NumberedIdsDistinct` | src/PersonalProjectManager.js:98 | In a list numbered by position, two projects with equal ids are at the same position. |
| `Projects.IdLocatesProject` | src/PersonalProjectManager.js:98 | In a numbered list, the project with id `n` sits at position `n - 1`. Two listed projects have equal ids exactly when they are the same project. |
| `Manager.FilteredProjects` | src/PersonalProjectManager.js:91-94 | Under ALL PROJECTS the grid is the project list itself. Under a real category it holds exactly the projects filed there. It never shows anything outside the list. |
| `Manager.FilteredIsOrderedSubsequence` | src/PersonalProjectManager.js:91-94 | Under a real category the grid lists the projects at exactly the matching positions, in list order. |
| `Manager.EveryProjectHasAView` | src/PersonalProjectManager.js:91-94 | In a well-formed list, every project has a real category and appears in the grid when its own category is selected. |
| `Manager.SelectCategory` | src/PersonalProjectManager.js:127 | A category click sets the filter and changes nothing else. The selection is kept. |
| `Manager.SelectCategoryLastWins` | src/PersonalProjectManager.js:127 | Two category clicks in a row leave the same state as the second click alone. |
| `Manager.SelectionSurvivesFilter` | src/PersonalProjectManager.js:127 | After selecting a project, a filter change keeps the selection. Selecting and filtering commute. |
| `Manager.SelectProject` | src/PersonalProjectManager.js:147 | A card click makes that project the selection and changes nothing else. |
| `Manager.OpenAddModal` | src/PersonalProjectManager.js:136 | Opening the modal sets the modal flag. It keeps the draft and all other state. |
| `Manager.CancelAddModal` | src/PersonalProjectManager.js:217 | Cancel clears the modal flag. The draft and all other state are kept. |
| `Manager.CancelUndoesOpen` | src/PersonalProjectManager.js:217 | Cancel undoes opening a closed modal exactly. Reopening after a cancel shows the draft as it was left. |
| `Manager.SetDraftTitle` | src/PersonalProjectManager.js:188-190 | Typing a title changes only the draft's title. |
| `Manager.SetDraftDescription` | src/PersonalProjectManager.js:196-198 | Typing a description changes only the draft's description. |
| `Manager.SetDraftCategory` | src/PersonalProjectManager.js:203-205 | Choosing a category changes only the draft's category. |
| `Manager.DraftEditsIndependent` | src/PersonalProjectManager.js:188-205 | Edits of different draft fields commute. A later edit of the same field overrides an earlier one. |
| `Manager.AddProject` | src/PersonalProjectManager.js:96-102 | An empty title or description leaves the whole state unchanged. Otherwise one project is appended and the earlier ones stay in place. The new project has id `length + 1` and the draft's fields. The form resets to the empty UNCATEGORIZED draft and the modal closes. Filter and selection are kept. |
| `Manager.AddProjectAddsOnce` | src/PersonalProjectManager.js:96-102 | Pressing "Add Project" twice adds at most one project. |
| `Manager.AddProjectView` | src/PersonalProjectManager.js:91-102 | A successful add extends the grid by the new project exactly when the active filter shows its category. The cards already shown do not change. |
| `Manager.IsSelected` | src/PersonalProjectManager.js:152-154 | With nothing selected no card is highlighted. The selected project's own card always is. A highlighted card has the selected project's id. |
| `Manager.IsSelectedIffSelectedProject` | src/PersonalProjectManager.js:152-154 | Take a numbered list that contains the selection. A card is highlighted exactly when it shows the selected project. |
| `Runs.Step` | src/PersonalProjectManager.js:127-223 | Each event runs its control's handler. Only a confirm changes the project list, and only by appending. Only a category button changes the filter, and only a card click changes the selection. Only the modal's inputs and a confirm change the draft. The modal flag is set only by the side panel's "Add Project" button. Cancel clears it, and otherwise only a confirm can. |
| `Runs.Emittable` | src/PersonalProjectManager.js:124-213 | The page's offered controls, which the invariant lemmas assume. Category buttons and the side panel's "Add Project" button are always offered. A card click names a project in the list, filed under the active category unless that is ALL PROJECTS. The selector never delivers ALL PROJECTS. Every other event needs the modal open. |
| `Runs.InitSatisfiesInv` | src/PersonalProjectManager.js:81-89 | The initial state meets the invariant. |
| `Runs.StepPreservesInv` | src/PersonalProjectManager.js:96-217 | Every event the page can deliver preserves the invariant: ids are positions plus one, projects are well formed, the draft's category is real, and the selection is one of the projects. |
| `Runs.StepOnlyAppends` | src/PersonalProjectManager.js:98 | No event removes, reorders or changes a project. An event adds at most one. |
| `Runs.RunPreservesInv` | src/PersonalProjectManager.js:81-102 | Any sequence of deliverable events preserves the invariant. |
| `Runs.RunOnlyAppends` | src/PersonalProjectManager.js:98 | Over any sequence of events, the project list only grows at its end, by at most one per event. |
| `Runs.ReachableStates` | src/PersonalProjectManager.js:96-217 | In every reachable state: ids are pairwise distinct, every project has a real category, and a card is highlighted exactly when it shows the selected project. |
| `Scenarios.GameDevGrid` | src/PersonalProjectManager.js:91-94 | From the seed list, GAME DEV shows "Mobile RPG" then "Augmented Reality Game". |
| `Scenarios.AddNinthProject` | src/PersonalProjectManager.js:96-102 | Adding "Test"/"Desc"/WEB DEV from the seeded state appends project 9 after the original eight. It resets the form and closes the modal, and the unfiltered grid shows the new project. |
| `Scenarios.EmptyDescriptionRefused` | src/PersonalProjectManager.js:97 | Confirming with an empty description keeps the list and the draft as they were, and the modal stays open. |
| `Scenarios.SelectionOutlivesItsCard` | src/PersonalProjectManager.js:127 | Select "Mobile RPG", then filter by PYTHON. Its card leaves the grid but the selection remains. |

## Left out

- Rendering is not modelled: JSX markup, the `ProjectCard` layout, CSS classes and the detail panel's text. This includes the card badge's `category !== 'ALL PROJECTS'` check (line 19), which is presentation only.
- The search input (lines 109-117), the settings button (lines 233-235) and the icons are not modelled. They have no behaviour.
- React's `useState` and re-render scheduling are not modelled. Each handler is one atomic transition.
- DOM event objects are not modelled. A text input delivers a plain string, and the category selector delivers a `Category` from its options.
- The modal overlay covers the page while it is open. Page layout is not modelled, so `Runs.Emittable` keeps the side-panel buttons and cards clickable then, as the code renders them.
- Manager.AddProject: ids are unbounded naturals, while the component computes `projects.length + 1` as a JavaScript number. Precision loss beyond 2^53 projects is not modelled.
