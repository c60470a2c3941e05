/**
 * The "Selected Work" section itself (components/Projects.tsx): its four
 * independent pieces of state, the handlers that each overwrite one of them,
 * the grid the state selects and the project viewer it drives.
 */
module Showcase {
  import opened Types
  import opened Text
  import opened ShowcaseFilter
  import Catalog
  import opened Gallery

  /** `CATEGORIES`: the tab row, in display order. */
  const Categories: seq<string> := [AllTab, "Discord Bot", "Tools", "Website", ScriptsTab]

  /** The tab row holds "All", every category label and "Scripts", each once. */
  lemma CategoriesCoverLabels()
    ensures Categories[0] == AllTab && Categories[|Categories| - 1] == ScriptsTab
    ensures forall c: ProjectCategory :: Label(c) in Categories
    ensures forall i, j | 0 <= i < j < |Categories| :: Categories[i] != Categories[j]
  {
    forall c: ProjectCategory ensures Label(c) in Categories {
      match c
      case DiscordBot => assert Categories[1] == Label(c);
      case Tools => assert Categories[2] == Label(c);
      case Website => assert Categories[3] == Label(c);
    }
  }

  /** An all-whitespace query is truthy, so the clear button shows, yet it narrows nothing. */
  lemma WhitespaceQueryFiltersNothing(q: string)
    requires q != [] && AllWhitespace(q)
    ensures FilterProjects(Catalog.Projects, AllTab, q) == Catalog.Projects
    ensures FilterScripts(Catalog.Scripts, q) == Catalog.Scripts
  {
    AllTabBlankQueryShowsCatalog(Catalog.Projects, q);
    FilterScriptsOrdered(Catalog.Scripts, q);
  }

  class Showcase {
    var activeCategory: string
    var searchQuery: string
    var selectedProject: Option<Project>
    var selectedScript: Option<Script>

    /** The `ProjectGallery` child, fed `project={selectedProject}` and `isOpen={!!selectedProject}`. */
    const gallery: ProjectGallery

    ghost predicate Valid()
      reads this, gallery
    {
      gallery.project == selectedProject &&
      gallery.isOpen == selectedProject.Some? &&
      gallery.Valid()
    }

    /** The initial render: the "All" tab, an empty query, nothing selected and a closed viewer at index 0. */
    constructor()
      ensures Valid() && fresh(gallery)
      ensures activeCategory == AllTab && searchQuery == ""
      ensures selectedProject == None && selectedScript == None
      ensures gallery.currentIndex == 0
    {
      activeCategory := AllTab;
      searchQuery := "";
      selectedProject := None;
      selectedScript := None;
      gallery := new ProjectGallery(None, false);
    }

    /** `handleCategoryChange`: a tab click sets the active category and nothing else. */
    method HandleCategoryChange(cat: string)
      requires Valid()
      modifies this
      ensures Valid()
      ensures activeCategory == cat
      ensures searchQuery == old(searchQuery)
      ensures selectedProject == old(selectedProject) && selectedScript == old(selectedScript)
    {
      activeCategory := cat;
    }

    /** The search input's `onChange`: the query becomes exactly what was typed, untrimmed. */
    method SetSearchQuery(value: string)
      requires Valid()
      modifies this
      ensures Valid()
      ensures searchQuery == value
      ensures activeCategory == old(activeCategory)
      ensures selectedProject == old(selectedProject) && selectedScript == old(selectedScript)
    {
      searchQuery := value;
    }

    /** `clearSearch`: empties the query, which hides the clear button again. */
    method ClearSearch()
      requires Valid()
      modifies this
      ensures Valid()
      ensures searchQuery == "" && !ShowsClearButton()
      ensures activeCategory == old(activeCategory)
      ensures selectedProject == old(selectedProject) && selectedScript == old(selectedScript)
    {
      searchQuery := "";
    }

    /**
     * `handleProjectClick`: selects the project, which opens the viewer on
     * it; the viewer starts at the first image unless it was already open on
     * that very project.
     */
    method HandleProjectClick(project: Project)
      requires Valid()
      modifies this, gallery
      ensures Valid()
      ensures selectedProject == Some(project) && gallery.isOpen
      ensures old(selectedProject) != Some(project) ==> gallery.currentIndex == 0
      ensures old(selectedProject) == Some(project) ==> gallery.currentIndex == old(gallery.currentIndex)
      ensures activeCategory == old(activeCategory) && searchQuery == old(searchQuery)
      ensures selectedScript == old(selectedScript)
    {
      selectedProject := Some(project);
      gallery.ReceiveProps(selectedProject, true);
    }

    /** The viewer's `onClose`: clears the selected project; the viewer closes and keeps its index. */
    method CloseProject()
      requires Valid()
      modifies this, gallery
      ensures Valid()
      ensures selectedProject == None && !gallery.isOpen
      ensures gallery.currentIndex == old(gallery.currentIndex)
      ensures activeCategory == old(activeCategory) && searchQuery == old(searchQuery)
      ensures selectedScript == old(selectedScript)
    {
      selectedProject := None;
      gallery.ReceiveProps(None, false);
    }

    /** `handleScriptClick`: selects the script, which opens its modal. The selected project is left as it is. */
    method HandleScriptClick(script: Script)
      requires Valid()
      modifies this
      ensures Valid()
      ensures selectedScript == Some(script)
      ensures activeCategory == old(activeCategory) && searchQuery == old(searchQuery)
      ensures selectedProject == old(selectedProject)
    {
      selectedScript := Some(script);
    }

    /** The script modal's `onClose`: clears the selected script and nothing else. */
    method CloseScript()
      requires Valid()
      modifies this
      ensures Valid()
      ensures selectedScript == None
      ensures activeCategory == old(activeCategory) && searchQuery == old(searchQuery)
      ensures selectedProject == old(selectedProject)
    {
      selectedScript := None;
    }

    /**
     * `handleCopyScript`: the copy button stops the click from reaching the
     * card, so no state changes; the text handed to the clipboard is the
     * script's snippet.
     */
    method HandleCopyScript(script: Script) returns (clipboardText: string)
      requires Valid()
      ensures clipboardText == script.codeSnippet
    {
      clipboardText := script.codeSnippet;
    }

    /** The clear button is shown exactly while the query is non-empty (a truthy string), blank or not. */
    function ShowsClearButton(): (shown: bool)
      reads this
      ensures shown <==> |searchQuery| > 0
    {
      searchQuery != ""
    }

    /**
     * The grid the state selects: the script cards, filtered by the query
     * alone, on the "Scripts" tab; the project cards, filtered by tab and
     * query, on every other tab. Either list keeps the catalog's order.
     */
    function VisibleCards(): (g: Grid)
      reads this
      ensures g.ScriptGrid? <==> activeCategory == ScriptsTab
      ensures g.ProjectGrid? ==> g.projects == FilterProjects(Catalog.Projects, activeCategory, searchQuery)
      ensures g.ProjectGrid? ==> ArrayOps.IsSubsequence(g.projects, Catalog.Projects)
      ensures g.ScriptGrid? ==> g.scripts == FilterScripts(Catalog.Scripts, searchQuery)
      ensures g.ScriptGrid? ==> ArrayOps.IsSubsequence(g.scripts, Catalog.Scripts)
    {
      FilterProjectsOrdered(Catalog.Projects, activeCategory, searchQuery);
      FilterScriptsOrdered(Catalog.Scripts, searchQuery);
      VisibleGrid(Catalog.Projects, Catalog.Scripts, activeCategory, searchQuery)
    }
  }

  /**
   * The two selections are independent slots: nothing in the state or the
   * handlers keeps them exclusive. Called directly, the handlers set both.
   * On the page each overlay covers everything and the script cards show
   * only on the "Scripts" tab, so no sequence of clicks gets here.
   */
  method BothSelectionsOpen() returns (page: Showcase)
    ensures page.Valid()
    ensures page.selectedProject == Some(Catalog.Lumina)
    ensures page.selectedScript == Some(Catalog.AutoRoleAssigner)
    ensures page.gallery.isOpen && page.gallery.currentIndex == 0
  {
    page := new Showcase();
    page.HandleScriptClick(Catalog.AutoRoleAssigner);
    page.HandleProjectClick(Catalog.Lumina);
  }
}
