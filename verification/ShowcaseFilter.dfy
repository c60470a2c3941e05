/**
 * The two memoised filters of the "Selected Work" section
 * (components/Projects.tsx): the visible projects, narrowed by category and
 * then by a case-insensitive text query, and the visible scripts, narrowed
 * by the text query only. `useMemo` is treated as a plain function.
 */
module ShowcaseFilter {
  import opened Types
  import opened Text
  import opened ArrayOps

  /** The pseudo-category that switches the category filter off. */
  const AllTab := "All"

  /** The pseudo-category that switches the grid from projects to scripts. */
  const ScriptsTab := "Scripts"

  /** `p => p.category === activeCategory` */
  function InCategory(activeCategory: string): (keep: Project -> bool)
    ensures activeCategory == AllTab || activeCategory == ScriptsTab ==> forall p :: !keep(p)
    ensures forall p, q :: keep(p) && keep(q) ==> p.category == q.category
    ensures forall c: ProjectCategory, p: Project :: activeCategory == Label(c) ==> (keep(p) <==> p.category == c)
  {
    var keep := (p: Project) => Label(p.category) == activeCategory;
    forall c: ProjectCategory, p: Project | activeCategory == Label(c)
      ensures keep(p) <==> p.category == c
    {
      LabelInjective(p.category, c);
    }
    assert forall p, q :: keep(p) && keep(q) ==> p.category == q.category by {
      forall p: Project, q: Project | keep(p) && keep(q) ensures p.category == q.category {
        LabelInjective(p.category, q.category);
      }
    }
    keep
  }

  /** `t => t.toLowerCase().includes(query)`, for a query that is already lower-cased. */
  function ContainsQuery(query: string): string -> bool {
    (t: string) => Includes(Lower(t), query)
  }

  /** The texts the project search looks at: the title, the description and each technology. */
  function ProjectTexts(p: Project): seq<string> {
    [p.title, p.description] + p.technologies
  }

  /** The project text test: the lower-cased query is in the title, the description or some technology. */
  predicate ProjectMatches(p: Project, query: string)
    ensures ProjectMatches(p, query) <==> exists t | t in ProjectTexts(p) :: Includes(Lower(t), query)
  {
    AnyMember(p.technologies, ContainsQuery(query));
    Includes(Lower(p.title), query) ||
    Includes(Lower(p.description), query) ||
    Any(p.technologies, ContainsQuery(query))
  }

  function MatchesProject(query: string): Project -> bool {
    (p: Project) => ProjectMatches(p, query)
  }

  /** The texts the script search looks at: the title, the description, the language and each tag. */
  function ScriptTexts(s: Script): seq<string> {
    [s.title, s.description, s.language] + s.tags
  }

  /** The script text test: title, description, language or some tag. */
  predicate ScriptMatches(s: Script, query: string)
    ensures ScriptMatches(s, query) <==> exists t | t in ScriptTexts(s) :: Includes(Lower(t), query)
  {
    AnyMember(s.tags, ContainsQuery(query));
    Includes(Lower(s.title), query) ||
    Includes(Lower(s.description), query) ||
    Includes(Lower(s.language), query) ||
    Any(s.tags, ContainsQuery(query))
  }

  function MatchesScript(query: string): Script -> bool {
    (s: Script) => ScriptMatches(s, query)
  }

  /**
   * `filteredProjects`: first the category filter unless the category is
   * "All", then, if the trimmed query is non-empty, the text filter with the
   * lower-cased but UNTRIMMED query.
   */
  function FilterProjects(catalog: seq<Project>, activeCategory: string, searchQuery: string): (r: seq<Project>)
    ensures |r| <= |catalog|
    ensures forall p | p in r ::
              p in catalog &&
              (activeCategory == AllTab || Label(p.category) == activeCategory) &&
              (AllWhitespace(searchQuery) || ProjectMatches(p, Lower(searchQuery)))
  {
    var byCategory := if activeCategory != AllTab then Filter(catalog, InCategory(activeCategory)) else catalog;
    FilterSound(catalog, InCategory(activeCategory));
    TrimEmptyIff(searchQuery);
    FilterSound(byCategory, MatchesProject(Lower(searchQuery)));
    if Trim(searchQuery) != [] then Filter(byCategory, MatchesProject(Lower(searchQuery))) else byCategory
  }

  /** `filteredScripts`: the text filter only; the active category plays no part. */
  function FilterScripts(catalog: seq<Script>, searchQuery: string): (r: seq<Script>)
    ensures |r| <= |catalog|
    ensures forall s | s in r :: s in catalog && (AllWhitespace(searchQuery) || ScriptMatches(s, Lower(searchQuery)))
  {
    TrimEmptyIff(searchQuery);
    FilterSound(catalog, MatchesScript(Lower(searchQuery)));
    if Trim(searchQuery) != [] then Filter(catalog, MatchesScript(Lower(searchQuery))) else catalog
  }

  /** What the grid shows: the script cards on the "Scripts" tab, the project cards on every other tab. */
  datatype Grid = ProjectGrid(projects: seq<Project>) | ScriptGrid(scripts: seq<Script>)

  function VisibleGrid(projects: seq<Project>, scripts: seq<Script>, activeCategory: string, searchQuery: string): (g: Grid)
    ensures g.ScriptGrid? <==> activeCategory == ScriptsTab
    ensures g.ProjectGrid? ==> forall p | p in g.projects :: p in projects
    ensures g.ScriptGrid? ==> forall s | s in g.scripts :: s in scripts
  {
    if activeCategory == ScriptsTab then ScriptGrid(FilterScripts(scripts, searchQuery))
    else ProjectGrid(FilterProjects(projects, activeCategory, searchQuery))
  }

  // ---------------------------------------------------------------------------
  // A one-pass reference definition of the visible projects

  /** The visibility of one project, stated directly from the two conditions. */
  predicate ProjectVisible(p: Project, activeCategory: string, searchQuery: string) {
    (activeCategory == AllTab || Label(p.category) == activeCategory) &&
    (AllWhitespace(searchQuery) || ProjectMatches(p, Lower(searchQuery)))
  }

  function VisibleUnder(activeCategory: string, searchQuery: string): Project -> bool {
    (p: Project) => ProjectVisible(p, activeCategory, searchQuery)
  }

  /** The two-stage pipeline equals a single filter by the combined visibility condition. */
  lemma FilterProjectsIsOneFilter(catalog: seq<Project>, activeCategory: string, searchQuery: string)
    ensures FilterProjects(catalog, activeCategory, searchQuery) == Filter(catalog, VisibleUnder(activeCategory, searchQuery))
  {
    TrimEmptyIff(searchQuery);
    if Trim(searchQuery) != [] {
      TextStageIsOneFilter(catalog, activeCategory, searchQuery);
    } else {
      BlankStageIsOneFilter(catalog, activeCategory, searchQuery);
    }
  }

  /** The pipeline with its text stage: a category filter (unless "All") followed by the text filter. */
  lemma TextStageIsOneFilter(catalog: seq<Project>, activeCategory: string, searchQuery: string)
    requires !AllWhitespace(searchQuery)
    ensures (if activeCategory != AllTab then Filter(Filter(catalog, InCategory(activeCategory)), MatchesProject(Lower(searchQuery)))
             else Filter(catalog, MatchesProject(Lower(searchQuery))))
            == Filter(catalog, VisibleUnder(activeCategory, searchQuery))
  {
    var visible := VisibleUnder(activeCategory, searchQuery);
    var text := MatchesProject(Lower(searchQuery));
    if activeCategory != AllTab {
      var cat := InCategory(activeCategory);
      FilterFuse(catalog, cat, text);
      FilterCongruent(catalog, Both(cat, text), visible);
    } else {
      FilterCongruent(catalog, text, visible);
    }
  }

  /** The pipeline without its text stage: the category filter alone, or the whole catalog on "All". */
  lemma BlankStageIsOneFilter(catalog: seq<Project>, activeCategory: string, searchQuery: string)
    requires AllWhitespace(searchQuery)
    ensures (if activeCategory != AllTab then Filter(catalog, InCategory(activeCategory)) else catalog)
            == Filter(catalog, VisibleUnder(activeCategory, searchQuery))
  {
    var visible := VisibleUnder(activeCategory, searchQuery);
    if activeCategory != AllTab {
      FilterCongruent(catalog, InCategory(activeCategory), visible);
    } else {
      FilterAllKept(catalog, visible);
    }
  }

  /** A project is visible iff it is in the catalog, passes the category test and (for a non-blank query) the text test. */
  lemma FilterProjectsMembership(catalog: seq<Project>, activeCategory: string, searchQuery: string, p: Project)
    ensures p in FilterProjects(catalog, activeCategory, searchQuery) <==>
              p in catalog &&
              (activeCategory == AllTab || Label(p.category) == activeCategory) &&
              (AllWhitespace(searchQuery) || ProjectMatches(p, Lower(searchQuery)))
  {
    FilterProjectsIsOneFilter(catalog, activeCategory, searchQuery);
    var r := Filter(catalog, VisibleUnder(activeCategory, searchQuery));
    if p in r {
      var i :| 0 <= i < |r| && r[i] == p;
    }
    if p in catalog {
      var i :| 0 <= i < |catalog| && catalog[i] == p;
    }
  }

  /** The visible projects keep the catalog's order and repeat or invent nothing. */
  lemma FilterProjectsOrdered(catalog: seq<Project>, activeCategory: string, searchQuery: string)
    ensures IsSubsequence(FilterProjects(catalog, activeCategory, searchQuery), catalog)
    ensures multiset(FilterProjects(catalog, activeCategory, searchQuery)) <= multiset(catalog)
  {
    FilterProjectsIsOneFilter(catalog, activeCategory, searchQuery);
    FilterIsSubsequence(catalog, VisibleUnder(activeCategory, searchQuery));
    FilterMultiset(catalog, VisibleUnder(activeCategory, searchQuery));
  }

  /**
   * Under a specific category every visible project belongs to it, and with a
   * blank query the result is exactly the catalog's projects of that category.
   */
  lemma FilterProjectsByCategory(catalog: seq<Project>, activeCategory: string, searchQuery: string)
    requires activeCategory != AllTab
    ensures forall i | 0 <= i < |FilterProjects(catalog, activeCategory, searchQuery)| ::
              Label(FilterProjects(catalog, activeCategory, searchQuery)[i].category) == activeCategory
    ensures AllWhitespace(searchQuery) ==>
              FilterProjects(catalog, activeCategory, searchQuery) == Filter(catalog, InCategory(activeCategory))
  {
    TrimEmptyIff(searchQuery);
    var byCategory := Filter(catalog, InCategory(activeCategory));
    var r := FilterProjects(catalog, activeCategory, searchQuery);
    forall i | 0 <= i < |r| ensures Label(r[i].category) == activeCategory {
      if Trim(searchQuery) != [] {
        FilterKeeps(byCategory, MatchesProject(Lower(searchQuery)), r[i]);
      }
      FilterKeeps(catalog, InCategory(activeCategory), r[i]);
    }
  }

  /** On the "All" tab with an empty or whitespace-only query every project is shown, in catalog order. */
  lemma AllTabBlankQueryShowsCatalog(catalog: seq<Project>, searchQuery: string)
    requires AllWhitespace(searchQuery)
    ensures FilterProjects(catalog, AllTab, searchQuery) == catalog
  {
    TrimEmptyIff(searchQuery);
  }

  /** No project has the category "Scripts", so the project filter on that tab is always empty. */
  lemma ScriptsTabHasNoProjects(catalog: seq<Project>, searchQuery: string)
    ensures FilterProjects(catalog, ScriptsTab, searchQuery) == []
  {
    FilterNoneKept(catalog, InCategory(ScriptsTab));
  }

  /** For a fixed query, the projects visible under any category are a subsequence of those visible under "All". */
  lemma CategoryNarrowsAllTab(catalog: seq<Project>, activeCategory: string, searchQuery: string)
    ensures IsSubsequence(FilterProjects(catalog, activeCategory, searchQuery), FilterProjects(catalog, AllTab, searchQuery))
  {
    var all := FilterProjects(catalog, AllTab, searchQuery);
    if activeCategory != AllTab {
      var cat := InCategory(activeCategory);
      if Trim(searchQuery) != [] {
        FilterCommute(catalog, cat, MatchesProject(Lower(searchQuery)));
      }
      assert FilterProjects(catalog, activeCategory, searchQuery) == Filter(all, cat);
      FilterIsSubsequence(all, cat);
    } else {
      SubsequenceReflexive(all);
    }
  }

  lemma {:induction false} SubsequenceReflexive<T>(s: seq<T>)
    ensures IsSubsequence(s, s)
  {
    if s != [] {
      SubsequenceReflexive(s[1..]);
    }
  }

  /** Matching ignores case: two queries with the same lower-case form give the same projects and the same scripts. */
  lemma QueryCaseInsensitive(projects: seq<Project>, scripts: seq<Script>, activeCategory: string, q1: string, q2: string)
    requires Lower(q1) == Lower(q2)
    ensures FilterProjects(projects, activeCategory, q1) == FilterProjects(projects, activeCategory, q2)
    ensures FilterScripts(scripts, q1) == FilterScripts(scripts, q2)
  {
    SameLowerSameBlank(q1, q2);
  }

  /** A project that matches a query also matches every prefix of it: typing more characters can only drop projects. */
  lemma ProjectMatchesPrefix(p: Project, query: string, more: string)
    ensures ProjectMatches(p, query + more) ==> ProjectMatches(p, query)
  {
    var longer := query + more;
    assert longer[..|query|] == query;
    if Includes(Lower(p.title), longer) {
      IncludesInfix(Lower(p.title), longer, 0, |query|);
    } else if Includes(Lower(p.description), longer) {
      IncludesInfix(Lower(p.description), longer, 0, |query|);
    } else if Any(p.technologies, ContainsQuery(longer)) {
      var i :| 0 <= i < |p.technologies| && ContainsQuery(longer)(p.technologies[i]);
      IncludesInfix(Lower(p.technologies[i]), longer, 0, |query|);
      assert ContainsQuery(query)(p.technologies[i]);
    }
  }

  /**
   * Extending a query never adds a project: every project visible for the
   * longer query is visible for the shorter one, whether that is blank or not.
   */
  lemma ExtendingQueryNarrows(catalog: seq<Project>, activeCategory: string, query: string, more: string, p: Project)
    ensures p in FilterProjects(catalog, activeCategory, query + more) ==> p in FilterProjects(catalog, activeCategory, query)
  {
    FilterProjectsMembership(catalog, activeCategory, query + more, p);
    FilterProjectsMembership(catalog, activeCategory, query, p);
    if !AllWhitespace(query) {
      var i :| 0 <= i < |query| && !IsWhitespace(query[i]);
      assert (query + more)[i] == query[i];
      LowerAppend(query, more);
      ProjectMatchesPrefix(p, Lower(query), Lower(more));
    }
  }

  // ---------------------------------------------------------------------------
  // Scripts

  /** A script is visible iff it is in the catalog and, for a non-blank query, passes the text test. */
  lemma FilterScriptsMembership(catalog: seq<Script>, searchQuery: string, s: Script)
    ensures s in FilterScripts(catalog, searchQuery) <==>
              s in catalog && (AllWhitespace(searchQuery) || ScriptMatches(s, Lower(searchQuery)))
  {
    TrimEmptyIff(searchQuery);
    if Trim(searchQuery) != [] {
      var r := FilterScripts(catalog, searchQuery);
      if s in r {
        var i :| 0 <= i < |r| && r[i] == s;
      }
      if s in catalog {
        var i :| 0 <= i < |catalog| && catalog[i] == s;
      }
    }
  }

  /** A script that matches a query also matches every prefix of it. */
  lemma ScriptMatchesPrefix(s: Script, query: string, more: string)
    ensures ScriptMatches(s, query + more) ==> ScriptMatches(s, query)
  {
    var longer := query + more;
    assert longer[..|query|] == query;
    if Includes(Lower(s.title), longer) {
      IncludesInfix(Lower(s.title), longer, 0, |query|);
    } else if Includes(Lower(s.description), longer) {
      IncludesInfix(Lower(s.description), longer, 0, |query|);
    } else if Includes(Lower(s.language), longer) {
      IncludesInfix(Lower(s.language), longer, 0, |query|);
    } else if Any(s.tags, ContainsQuery(longer)) {
      var i :| 0 <= i < |s.tags| && ContainsQuery(longer)(s.tags[i]);
      IncludesInfix(Lower(s.tags[i]), longer, 0, |query|);
      assert ContainsQuery(query)(s.tags[i]);
    }
  }

  /** The visible scripts keep the catalog's order and repeat or invent nothing; a blank query shows them all. */
  lemma FilterScriptsOrdered(catalog: seq<Script>, searchQuery: string)
    ensures IsSubsequence(FilterScripts(catalog, searchQuery), catalog)
    ensures multiset(FilterScripts(catalog, searchQuery)) <= multiset(catalog)
    ensures AllWhitespace(searchQuery) ==> FilterScripts(catalog, searchQuery) == catalog
  {
    TrimEmptyIff(searchQuery);
    if Trim(searchQuery) != [] {
      FilterIsSubsequence(catalog, MatchesScript(Lower(searchQuery)));
      FilterMultiset(catalog, MatchesScript(Lower(searchQuery)));
    } else {
      SubsequenceReflexive(catalog);
    }
  }

  /** The "Scripts" tab with a blank query shows the whole script catalog, whatever the projects are. */
  lemma ScriptsTabBlankQueryShowsAllScripts(projects: seq<Project>, scripts: seq<Script>, searchQuery: string)
    requires AllWhitespace(searchQuery)
    ensures VisibleGrid(projects, scripts, ScriptsTab, searchQuery) == ScriptGrid(scripts)
  {
    TrimEmptyIff(searchQuery);
  }
}
