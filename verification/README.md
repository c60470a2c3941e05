# Selected Work — a Dafny model of the portfolio showcase

This project models the "Selected Work" section of a personal portfolio site
(a React single-page application). The section shows two catalogs, six
projects and three code scripts, behind a row of tabs and a search box:

- **Types** (`types.ts`): the `Project` and `Script` records and the three
  project categories, with the label each category carries on screen.
- **Catalog** (`constants.ts`): the `PROJECTS` and `SCRIPTS` arrays, entry by
  entry, with every string as written.
- **Text** and **ArrayOps**: the JavaScript string and array operations the
  filters use. These are `String.prototype.trim`, `toLowerCase` and
  `includes`, and `Array.prototype.filter` and `some`.
- **ShowcaseFilter** (`components/Projects.tsx`, the two `useMemo` filters):
  - The project list is filtered by category unless the tab is "All".
  - If the trimmed query is non-empty, the list is then filtered by text. A
    project passes when its title, description or any technology contains
    the lower-cased query.
  - The script list is filtered by text alone, over title, description,
    language and tags.
  - The filter runs only when the trimmed query is non-empty, but it matches
    the lower-cased query *without* trimming it.
- **Gallery** (`components/ProjectGallery.tsx`): the full-screen viewer, as a
  class.
  - The images are the thumbnail followed by the screenshots.
  - Previous and next wrap around the ends of that list.
  - The index is reset to the first image when the viewer opens or its project
    changes.
  - The viewer shows a counter "k / n" and draws arrows only when there is
    more than one image.
- **Showcase** (`components/Projects.tsx`, the component itself): a class
  with the four pieces of state (`activeCategory`, `searchQuery`,
  `selectedProject`, `selectedScript`) and the event handlers.
  - Each handler overwrites exactly one piece of state.
  - The grid shows script cards on the "Scripts" tab and project cards on
    every other tab.
  - The viewer's props are tied to the selected project by the class
    invariant.
- **Scenarios**: what a visitor sees for concrete searches over the real
  catalog.

Two behaviours of the code are kept as written:

- Selecting a project and selecting a script are independent. The state
  does not keep them exclusive: nothing clears one when the other is set,
  and calling the handlers directly sets both (`Showcase.BothSelectionsOpen`).
  On the page this cannot happen through clicks. Each overlay covers the
  whole page and closes when its backdrop is clicked. Script cards show only
  on the "Scripts" tab and project cards only on the other tabs.
- A query with a trailing space counts as non-blank, but it is matched
  untrimmed. Searching "python " therefore finds nothing, although "python"
  finds one project and one script (`Scenarios.TrailingSpaceFindsNothing`).

## Model

| member | source | states |
|---|---|---|
| Types.Label | types.ts:1 | each category's on-screen label; none is "All" or "Scripts" |
| Types.LabelInjective | types.ts:1 | two categories have the same label iff they are the same category |
| Text.TrimStart | components/Projects.tsx:30 | the result is a suffix of the input that starts with no whitespace and drops only whitespace |
| Text.TrimEnd | components/Projects.tsx:30 | the result is a prefix of the input that ends with no whitespace and drops only whitespace |
| Text.Trim | components/Projects.tsx:30 | `trim()` returns the piece of the input left after dropping whitespace only, and only before and after it; the piece neither starts nor ends with whitespace |
| Text.IsWhitespace | components/Projects.tsx:30 | the characters `trim()` strips; none of them is a letter, so lower-casing leaves them alone |
| Text.TrimEmptyIff | components/Projects.tsx:30 | `trim()` gives the empty string exactly when every character is whitespace |
| Text.TrimKeepsInner | components/Projects.tsx:30 | a string with no whitespace at either end is left unchanged by `trim()` |
| Text.LowerChar | components/Projects.tsx:31 | a capital letter becomes its small letter; every other character is unchanged |
| Text.Lower | components/Projects.tsx:31 | the result has the input's length and no capitals, and lower-cases each character in place |
| Text.LowerIdempotent | components/Projects.tsx:31 | lower-casing twice is lower-casing once |
| Text.LowerAppend | components/Projects.tsx:31 | lower-casing a concatenation is concatenating the lower-cased parts |
| Text.SameLowerSameWhitespace | components/Projects.tsx:30-31 | characters with the same lower-case form are both whitespace or both not |
| Text.SameLowerSameBlank | components/Projects.tsx:30-31 | queries equal up to case both trim to empty or neither does |
| Text.IncludesEmpty | components/Projects.tsx:33 | every text includes the empty query, and the empty text includes only the empty query |
| Text.Includes | components/Projects.tsx:33 | a text includes only queries no longer than itself |
| Text.IncludesInfix | components/Projects.tsx:33 | a text that includes a query includes every slice of that query |
| Text.IncludesExtend | components/Projects.tsx:33 | a query found in a text is still found after text is added on either side |
| Text.OccurrenceHasPair | components/Projects.tsx:33 | an occurrence of a query places each adjacent pair of its characters in the text |
| Text.OccurrenceHasTriple | components/Projects.tsx:33 | an occurrence places each run of three query characters in the text |
| Text.NotIncludesByPair | components/Projects.tsx:33 | a text that never has two adjacent query characters next to each other does not include the query |
| Text.NotIncludesByTriple | components/Projects.tsx:33 | the same with three adjacent characters |
| ArrayOps.Filter | components/Projects.tsx:27 | every kept element is in the list and passes the predicate; every passing element is kept |
| ArrayOps.FilterKeeps | components/Projects.tsx:27 | whatever the filter returns was in the list and passes the predicate |
| ArrayOps.FilterSound | components/Projects.tsx:27 | every element the filter returns was in the list and passes the predicate |
| ArrayOps.Any | components/Projects.tsx:35 | `some` holds exactly when some element passes |
| ArrayOps.AnyMember | components/Projects.tsx:35 | `some` holds exactly when some member of the list passes |
| ArrayOps.FilterIsSubsequence | components/Projects.tsx:27 | the result keeps the list's order |
| ArrayOps.FilterMultiset | components/Projects.tsx:27 | the result invents and duplicates nothing |
| ArrayOps.FilterCount | components/Projects.tsx:27 | a passing element keeps its multiplicity and a failing one drops to zero |
| ArrayOps.FilterAllKept | components/Projects.tsx:27 | when every element passes, the list is returned unchanged |
| ArrayOps.FilterNoneKept | components/Projects.tsx:27 | when no element passes, the result is empty |
| ArrayOps.FilterCongruent | components/Projects.tsx:27 | predicates that agree on the elements give the same result |
| ArrayOps.FilterIdempotent | components/Projects.tsx:27 | filtering twice by one predicate is filtering once |
| ArrayOps.FilterAppend | components/Projects.tsx:27 | filtering distributes over concatenation |
| ArrayOps.FilterCommute | components/Projects.tsx:27-36 | the category filter and the text filter can be applied in either order |
| ArrayOps.FilterFuse | components/Projects.tsx:27-36 | two successive filters are one filter by the conjunction |
| ShowcaseFilter.InCategory | components/Projects.tsx:27 | on a category's tab exactly the projects of that category pass; for "All" and "Scripts" every project is rejected, which is why "All" skips the test; it never accepts two projects of different categories |
| ShowcaseFilter.ProjectMatches | components/Projects.tsx:32-36 | a project matches iff one of its texts (title, description, each technology) contains the query after lower-casing |
| ShowcaseFilter.ScriptMatches | components/Projects.tsx:47-52 | a script matches iff one of its texts (title, description, language, each tag) contains the query after lower-casing |
| ShowcaseFilter.FilterProjects | components/Projects.tsx:23-40 | `filteredProjects` is no longer than the catalog, and every project in it is a catalog project that fits the tab and, for a non-blank query, matches the lower-cased query |
| ShowcaseFilter.FilterScripts | components/Projects.tsx:42-56 | `filteredScripts` is no longer than the catalog, and every script in it is a catalog script that, for a non-blank query, matches the lower-cased query |
| ShowcaseFilter.VisibleGrid | components/Projects.tsx:150 | the grid shows scripts exactly on the "Scripts" tab, and each grid holds only entries of its own catalog |
| ShowcaseFilter.FilterProjectsIsOneFilter | components/Projects.tsx:23-40 | the two-stage project pipeline equals one filter by a direct visibility condition |
| ShowcaseFilter.TextStageIsOneFilter | components/Projects.tsx:26-37 | with a non-blank query, the category stage followed by the text stage is that one filter |
| ShowcaseFilter.BlankStageIsOneFilter | components/Projects.tsx:26-28 | with a blank query, the category stage alone is that one filter |
| ShowcaseFilter.FilterProjectsMembership | components/Projects.tsx:23-40 | a project is shown iff it is in the catalog, fits the tab, and either the query is blank or the project matches it |
| ShowcaseFilter.FilterProjectsOrdered | components/Projects.tsx:23-40 | the shown projects keep the catalog's order and repeat nothing |
| ShowcaseFilter.FilterProjectsByCategory | components/Projects.tsx:26-28 | on a category tab every shown project has that category; with a blank query all of that category are shown |
| ShowcaseFilter.AllTabBlankQueryShowsCatalog | components/Projects.tsx:24-30 | the "All" tab with a blank query shows the whole catalog in order |
| ShowcaseFilter.ScriptsTabHasNoProjects | components/Projects.tsx:26-27 | the "Scripts" tab filters every project out, since no category has that label |
| ShowcaseFilter.CategoryNarrowsAllTab | components/Projects.tsx:23-40 | any tab shows a subsequence of what "All" shows for the same query |
| ShowcaseFilter.SubsequenceReflexive | components/Projects.tsx:24 | a list is a subsequence of itself |
| ShowcaseFilter.QueryCaseInsensitive | components/Projects.tsx:30-31 | queries equal up to case give the same projects and scripts |
| ShowcaseFilter.ProjectMatchesPrefix | components/Projects.tsx:32-36 | a project that matches a query matches each prefix of it |
| ShowcaseFilter.ExtendingQueryNarrows | components/Projects.tsx:23-40 | typing more characters after any query, the empty one included, never brings a project back |
| ShowcaseFilter.FilterScriptsMembership | components/Projects.tsx:42-56 | a script is shown iff it is in the catalog and either the query is blank or the script matches it |
| ShowcaseFilter.ScriptMatchesPrefix | components/Projects.tsx:47-52 | a script that matches a query matches each prefix of it |
| ShowcaseFilter.FilterScriptsOrdered | components/Projects.tsx:42-56 | the shown scripts keep the catalog's order; a blank query shows them all |
| ShowcaseFilter.ScriptsTabBlankQueryShowsAllScripts | components/Projects.tsx:150-160 | the "Scripts" tab with a blank query shows every script card |
| Catalog.ProjectIdsDistinct | constants.ts:60-148 | the six project ids are pairwise distinct |
| Catalog.ScriptIdsDistinct | constants.ts:150-224 | the three script ids are pairwise distinct |
| Catalog.CategoryPartition | constants.ts:60-148 | two projects per category, and which ones |
| Catalog.GallerySizes | constants.ts:60-148 | each project has one to three extra screenshots |
| Gallery.Images | components/ProjectGallery.tsx:28 | the thumbnail first, then the screenshots, one image more than the gallery |
| Gallery.CatalogImageCounts | components/ProjectGallery.tsx:28 | every catalog project has two to four images |
| Gallery.NextIndex | components/ProjectGallery.tsx:30-33 | one step forward stays in range and wraps from the last image to the first |
| Gallery.PrevIndex | components/ProjectGallery.tsx:35-38 | one step back stays in range and wraps from the first image to the last |
| Gallery.PrevUndoesNext | components/ProjectGallery.tsx:30-38 | going back undoes going forward |
| Gallery.NextUndoesPrev | components/ProjectGallery.tsx:30-38 | going forward undoes going back |
| Gallery.SingleImageStays | components/ProjectGallery.tsx:30-38 | with one image both arrows stay on it |
| Gallery.NextTimes | components/ProjectGallery.tsx:30-33 | repeated forward steps stay in range |
| Gallery.NextTimesShift | components/ProjectGallery.tsx:30-33 | up to n forward steps move k images on, wrapping past the end at most once |
| Gallery.FullCycleReturns | components/ProjectGallery.tsx:30-33 | n forward steps return to the starting image |
| Gallery.ProjectGallery.constructor | components/ProjectGallery.tsx:17-18 | the viewer mounts with its props and index 0 |
| Gallery.ProjectGallery.Valid | components/ProjectGallery.tsx:28-38 | while the viewer is open on a project its index is at most the number of screenshots, i.e. on the thumbnail or a screenshot |
| Gallery.ProjectGallery.ReceiveProps | components/ProjectGallery.tsx:21-24 | new props reset the index to 0 iff the viewer is open and it just opened or its project changed; otherwise the index is kept |
| Gallery.ProjectGallery.NextImage | components/ProjectGallery.tsx:30-33 | the index advances cyclically and stays on an image |
| Gallery.ProjectGallery.PrevImage | components/ProjectGallery.tsx:35-38 | the index goes back cyclically and stays on an image |
| Gallery.ProjectGallery.View | components/ProjectGallery.tsx:26-113 | nothing without a project or while closed; otherwise the current image, the counter index + 1 within 1..n, and arrows iff n > 1 |
| Showcase.CategoriesCoverLabels | components/Projects.tsx:14 | the tabs are "All", each category label and "Scripts", each once |
| Showcase.WhitespaceQueryFiltersNothing | components/Projects.tsx:30-45 | a non-empty whitespace-only query leaves both catalogs unfiltered (being non-empty, it is also the kind of query `ShowsClearButton` shows the button for) |
| Showcase.Showcase.constructor | components/Projects.tsx:17-20 | the "All" tab, an empty query, no selection and a closed viewer |
| Showcase.Showcase.HandleCategoryChange | components/Projects.tsx:58-61 | the tab changes and nothing else does |
| Showcase.Showcase.SetSearchQuery | components/Projects.tsx:131 | the query becomes exactly what was typed and nothing else changes |
| Showcase.Showcase.ClearSearch | components/Projects.tsx:79-82 | the query empties and the clear button disappears; nothing else changes |
| Showcase.Showcase.HandleProjectClick | components/Projects.tsx:63-66 | the project is selected and the viewer opens on it, at the first image unless it was already open on that project, in which case the index is kept |
| Showcase.Showcase.CloseProject | components/Projects.tsx:292-296 | the selection clears and the viewer closes, keeping its index |
| Showcase.Showcase.HandleScriptClick | components/Projects.tsx:68-71 | the script is selected; the selected project is untouched |
| Showcase.Showcase.CloseScript | components/Projects.tsx:298-302 | the script selection clears and nothing else changes |
| Showcase.Showcase.HandleCopyScript | components/Projects.tsx:73-77 | the clipboard receives the script's code snippet; no state changes |
| Showcase.Showcase.ShowsClearButton | components/Projects.tsx:135 | the clear button shows iff the query is non-empty, blank or not |
| Showcase.Showcase.VisibleCards | components/Projects.tsx:150-224 | script cards on the "Scripts" tab and project cards elsewhere, each the filtered catalog in order |
| Showcase.BothSelectionsOpen | components/Projects.tsx:63-71 | the state does not keep the selections exclusive: calling both handlers directly sets both, with the viewer open on the project |
| Scenarios.ProjectMisses | components/Projects.tsx:32-36 | a project whose texts all lack some pair of query characters does not match |
| Scenarios.ScriptMisses | components/Projects.tsx:47-52 | the same for a script |
| Scenarios.ProjectMatchesByTechnology | components/Projects.tsx:35 | a project with a technology equal to the query up to case matches |
| Scenarios.ScriptMatchesByLanguage | components/Projects.tsx:50 | a script whose language equals the query up to case matches |
| Scenarios.AllTabQuery | components/Projects.tsx:23-40 | on "All", a non-blank lower-case query is one text filter over the catalog |
| Scenarios.RedisOnAllTab | components/Projects.tsx:23-40 | "redis" on "All" shows Lumina, Chronos and Vortex, in that order |
| Scenarios.UpperCaseRedis | components/Projects.tsx:31 | "REDIS" shows the same three projects |
| Scenarios.ToolsTab | components/Projects.tsx:26-28 | the "Tools" tab with an empty query shows Chronos and DevUtils |
| Scenarios.PythonOnAllTab | components/Projects.tsx:23-40 | "python" on "All" shows only Sentinel |
| Scenarios.PythonOnScriptsTab | components/Projects.tsx:42-56 | "python" on "Scripts" shows only the role assigner |
| Scenarios.TrailingSpaceNotBlank | components/Projects.tsx:30-31 | "python " trims to "python" but is matched with its space |
| Scenarios.TrailingSpaceHidesProjects | components/Projects.tsx:23-40 | "python " on "All" shows no project |
| Scenarios.TrailingSpaceHidesScripts | components/Projects.tsx:42-56 | "python " shows no script |
| Scenarios.TrailingSpaceFindsNothing | components/Projects.tsx:30-52 | a trailing space empties both grids |

## Left out

- The JSX layout, styling, the framer-motion animations and the icons are not
  modelled. Only what the cards, the counter and the arrows show is modelled.
- The click sounds (`useSound`) are left out. They have no effect on state.
- `navigator.clipboard.writeText` is a call into the browser. The model
  returns the text it would receive instead.
- The links to live demos and repositories are not modelled. They open other
  pages and change no state.
- The other components (header, hero, about, experience, contact), the script
  modal's rendering and the other constants are not part of this model.
- React identity: the viewer's effect compares the `project` prop by
  reference. The model compares project records structurally. The catalog
  ids are distinct, so this makes no difference for catalog projects.
- Gallery.ProjectGallery.ReceiveProps: the model applies the index reset in the
  same step as the prop change. It does not capture the one render in which
  the old index is shown against the new project.
- Text.Lower: maps only the ASCII capitals. `toLowerCase` also maps other
  Unicode letters, and none occurs in the catalog or in the queries used
  here.
- Gallery.ProjectGallery.NextImage: the arrows can only be pressed while the
  viewer is open on a project. So the model requires that and does not
  describe presses on a closed viewer.
- Gallery.ProjectGallery.PrevImage: the same.
- Showcase.Showcase.HandleCategoryChange: accepts any string. The tab row only
  ever passes the five entries of `CATEGORIES`.
