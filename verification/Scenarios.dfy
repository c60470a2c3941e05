/**
 * Concrete runs of the showcase filter over the real catalog: what a
 * visitor sees for a few queries and tabs. A text is shown not to contain a
 * query by a pair or run of three adjacent query characters that the text
 * never has next to each other, in either case.
 */
module Scenarios {
  import opened Types
  import opened Text
  import opened ArrayOps
  import opened ShowcaseFilter
  import opened Catalog

  // ---------------------------------------------------------------------------
  // Generic steps

  /** `t` cannot contain `q`: it is shorter, or it never has `q[i]` followed by `q[i + 1]`. */
  predicate Excludes(t: string, q: string, i: int)
    requires 0 <= i < |q| - 1
  {
    |t| < |q| || NoPair(t, q[i], q[i + 1])
  }

  /** Every text in `texts` excludes `q` by the same pair. */
  predicate ExcludesEach(texts: seq<string>, q: string, i: int)
    requires 0 <= i < |q| - 1
  {
    forall j | 0 <= j < |texts| :: Excludes(texts[j], q, i)
  }

  lemma ExcludedNotIncluded(t: string, q: string, i: int)
    requires 0 <= i < |q| - 1 && Excludes(t, q, i)
    ensures !Includes(Lower(t), q)
  {
    if |t| >= |q| {
      NotIncludesByPair(t, q, i);
    }
  }

  lemma NoTextIncludes(texts: seq<string>, q: string, i: int)
    requires 0 <= i < |q| - 1 && ExcludesEach(texts, q, i)
    ensures !Any(texts, ContainsQuery(q))
  {
    forall j | 0 <= j < |texts| ensures !ContainsQuery(q)(texts[j]) {
      ExcludedNotIncluded(texts[j], q, i);
    }
  }

  /** A project whose title and technologies exclude the query, and whose description lacks it, does not match. */
  lemma ProjectMisses(p: Project, q: string, i: int)
    requires 0 <= i < |q| - 1
    requires Excludes(p.title, q, i)
    requires !Includes(Lower(p.description), q)
    requires ExcludesEach(p.technologies, q, i)
    ensures !ProjectMatches(p, q)
  {
    ExcludedNotIncluded(p.title, q, i);
    NoTextIncludes(p.technologies, q, i);
  }

  /** A script whose title, language and tags exclude the query, and whose description lacks it, does not match. */
  lemma ScriptMisses(s: Script, q: string, i: int)
    requires 0 <= i < |q| - 1
    requires Excludes(s.title, q, i) && Excludes(s.language, q, i)
    requires !Includes(Lower(s.description), q)
    requires ExcludesEach(s.tags, q, i)
    ensures !ScriptMatches(s, q)
  {
    ExcludedNotIncluded(s.title, q, i);
    ExcludedNotIncluded(s.language, q, i);
    NoTextIncludes(s.tags, q, i);
  }

  /** A project with a technology whose lower-case form is the query matches it. */
  lemma ProjectMatchesByTechnology(p: Project, q: string, t: int)
    requires 0 <= t < |p.technologies| && Lower(p.technologies[t]) == q
    ensures ProjectMatches(p, q)
  {
    assert OccursAt(Lower(p.technologies[t]), q, 0);
    assert ContainsQuery(q)(p.technologies[t]);
  }

  /** A script whose language, lower-cased, is the query matches it. */
  lemma ScriptMatchesByLanguage(s: Script, q: string)
    requires Lower(s.language) == q
    ensures ScriptMatches(s, q)
  {
    assert OccursAt(Lower(s.language), q, 0);
  }

  /** `[x]` when `k` holds, `[]` otherwise. */
  function Kept<T>(x: T, k: bool): seq<T> {
    if k then [x] else []
  }

  /** The filter of a list is its head, if kept, before the filter of its tail. */
  lemma FilterCons<T>(x: T, xs: seq<T>, keep: T -> bool)
    ensures Filter([x] + xs, keep) == Kept(x, keep(x)) + Filter(xs, keep)
  {
    var s := [x] + xs;
    assert s[0] == x && s[1..] == xs;
  }

  /** Filtering a three-element list, one element at a time. */
  lemma FilterThree<T>(a: T, b: T, c: T, keep: T -> bool)
    ensures Filter([a, b, c], keep) == Kept(a, keep(a)) + (Kept(b, keep(b)) + (Kept(c, keep(c)) + []))
  {
    var t2 := [c] + [];
    var t1 := [b] + t2;
    assert [a] + t1 == [a, b, c];
    FilterCons(c, [], keep);
    FilterCons(b, t2, keep);
    FilterCons(a, t1, keep);
  }

  /** Filtering a six-element list, one element at a time. */
  lemma FilterSix<T>(a: T, b: T, c: T, d: T, e: T, f: T, keep: T -> bool)
    ensures Filter([a, b, c, d, e, f], keep) ==
              Kept(a, keep(a)) + (Kept(b, keep(b)) + (Kept(c, keep(c)) +
              (Kept(d, keep(d)) + (Kept(e, keep(e)) + (Kept(f, keep(f)) + [])))))
  {
    var t5 := [f] + [];
    var t4 := [e] + t5;
    var t3 := [d] + t4;
    var t2 := [c] + t3;
    var t1 := [b] + t2;
    assert [a] + t1 == [a, b, c, d, e, f];
    FilterCons(f, [], keep);
    FilterCons(e, t5, keep);
    FilterCons(d, t4, keep);
    FilterCons(c, t3, keep);
    FilterCons(b, t2, keep);
    FilterCons(a, t1, keep);
  }

  /** The project filter's predicate, applied. */
  lemma ApplyMatchesProject(p: Project, q: string)
    ensures MatchesProject(q)(p) == ProjectMatches(p, q)
  {
  }

  /** The script filter's predicate, applied. */
  lemma ApplyMatchesScript(s: Script, q: string)
    ensures MatchesScript(q)(s) == ScriptMatches(s, q)
  {
  }

  /** On the "All" tab a non-blank, lower-case query filters the catalog by text alone. */
  lemma AllTabQuery(catalog: seq<Project>, q: string)
    requires Trim(q) != [] && Lower(q) == q
    ensures FilterProjects(catalog, AllTab, q) == Filter(catalog, MatchesProject(q))
  {
  }

  /** A word without capitals is its own lower-case form. */
  lemma LowerKeepsLowerWord(q: string)
    requires forall i | 0 <= i < |q| :: !('A' <= q[i] <= 'Z')
    ensures Lower(q) == q
  {
  }

  // ---------------------------------------------------------------------------
  // "redis"

  lemma RedisNotBlank()
    ensures Trim("redis") != []
  {
    TrimKeepsInner("redis");
  }

  lemma RedisIsLower()
    ensures Lower("redis") == "redis"
  {
    LowerKeepsLowerWord("redis");
  }

  lemma RedisTechnology()
    ensures Lower("Redis") == "redis"
  {
    var t := "Redis";
    assert forall i | 0 <= i < |t| :: Lower(t)[i] == "redis"[i];
  }

  /** Lumina, Chronos and Vortex list Redis among their technologies. */
  lemma RedisUsers()
    ensures ProjectMatches(Lumina, "redis") && ProjectMatches(Chronos, "redis") && ProjectMatches(Vortex, "redis")
  {
    RedisTechnology();
    ProjectMatchesByTechnology(Lumina, "redis", 4);
    ProjectMatchesByTechnology(Chronos, "redis", 3);
    ProjectMatchesByTechnology(Vortex, "redis", 3);
  }

  lemma AestheteMissesRedis()
    ensures !ProjectMatches(Aesthete, "redis")
  {
    AestheteFields();
    AestheteTitleLacksRe();
    AestheteTechnologiesExcludeRedis();
    AestheteDescriptionLacksDis();
    NotIncludesByTriple(AestheteDescription, "redis", 2);
    ProjectMisses(Aesthete, "redis", 0);
  }

  lemma DevUtilsMissesRedis()
    ensures !ProjectMatches(DevUtils, "redis")
  {
    DevUtilsFields();
    DevUtilsTitleLacksRe();
    DevUtilsTechnologiesExcludeRedis();
    DevUtilsDescriptionLacksRe();
    NotIncludesByPair(DevUtilsDescription, "redis", 0);
    ProjectMisses(DevUtils, "redis", 0);
  }

  lemma SentinelMissesRedis()
    ensures !ProjectMatches(Sentinel, "redis")
  {
    SentinelFields();
    SentinelTitleLacksRe();
    SentinelTechnologiesExcludeRedis();
    SentinelDescriptionLacksDi();
    NotIncludesByPair(SentinelDescription, "redis", 2);
    ProjectMisses(Sentinel, "redis", 0);
  }

  /** Searching "redis" on the "All" tab lists the three projects that use Redis, in catalog order. */
  lemma RedisOnAllTab()
    ensures FilterProjects(Projects, AllTab, "redis") == [Lumina, Chronos, Vortex]
  {
    RedisNotBlank();
    RedisIsLower();
    AllTabQuery(Projects, "redis");
    var m := MatchesProject("redis");
    RedisUsers();
    ApplyMatchesProject(Lumina, "redis");
    ApplyMatchesProject(Chronos, "redis");
    ApplyMatchesProject(Vortex, "redis");
    AestheteMissesRedis();
    ApplyMatchesProject(Aesthete, "redis");
    DevUtilsMissesRedis();
    ApplyMatchesProject(DevUtils, "redis");
    SentinelMissesRedis();
    ApplyMatchesProject(Sentinel, "redis");
    FilterSix(Lumina, Chronos, Aesthete, Vortex, DevUtils, Sentinel, m);
    KeepFirstSecondFourth(Lumina, Chronos, Aesthete, Vortex, DevUtils, Sentinel);
  }

  /** The kept elements when the first, second and fourth of six match. */
  lemma KeepFirstSecondFourth<T>(a: T, b: T, c: T, d: T, e: T, f: T)
    ensures Kept(a, true) + (Kept(b, true) + (Kept(c, false) + (Kept(d, true) + (Kept(e, false) + (Kept(f, false) + []))))) == [a, b, d]
  {
  }

  /** The kept elements when the second and fifth of six match. */
  lemma KeepSecondFifth<T>(a: T, b: T, c: T, d: T, e: T, f: T)
    ensures Kept(a, false) + (Kept(b, true) + (Kept(c, false) + (Kept(d, false) + (Kept(e, true) + (Kept(f, false) + []))))) == [b, e]
  {
  }

  /** The kept elements when only the last of six matches. */
  lemma KeepSixth<T>(a: T, b: T, c: T, d: T, e: T, f: T)
    ensures Kept(a, false) + (Kept(b, false) + (Kept(c, false) + (Kept(d, false) + (Kept(e, false) + (Kept(f, true) + []))))) == [f]
  {
  }

  /** Nothing is kept when none of six matches. */
  lemma KeepNoneOfSix<T>(a: T, b: T, c: T, d: T, e: T, f: T)
    ensures Kept(a, false) + (Kept(b, false) + (Kept(c, false) + (Kept(d, false) + (Kept(e, false) + (Kept(f, false) + []))))) == []
  {
  }

  /** The kept elements when only the first of three matches. */
  lemma KeepFirstOfThree<T>(a: T, b: T, c: T)
    ensures Kept(a, true) + (Kept(b, false) + (Kept(c, false) + [])) == [a]
  {
  }

  /** Nothing is kept when none of three matches. */
  lemma KeepNoneOfThree<T>(a: T, b: T, c: T)
    ensures Kept(a, false) + (Kept(b, false) + (Kept(c, false) + [])) == []
  {
  }

  /** The same search typed in capitals gives the same cards. */
  lemma UpperCaseRedis()
    ensures Lower("REDIS") == "redis"
    ensures FilterProjects(Projects, AllTab, "REDIS") == [Lumina, Chronos, Vortex]
  {
    var t := "REDIS";
    assert forall i | 0 <= i < |t| :: Lower(t)[i] == "redis"[i];
    RedisIsLower();
    QueryCaseInsensitive(Projects, Scripts, AllTab, "REDIS", "redis");
    RedisOnAllTab();
  }

  // ---------------------------------------------------------------------------
  // The "Tools" tab

  /** The category filter's predicate, applied. */
  lemma ApplyInCategory(p: Project, activeCategory: string)
    ensures InCategory(activeCategory)(p) == (Label(p.category) == activeCategory)
  {
  }

  /** With an empty query the "Tools" tab lists the two tools, in catalog order. */
  lemma ToolsTab()
    ensures FilterProjects(Projects, "Tools", "") == [Chronos, DevUtils]
  {
    assert Trim("") == [];
    var m := InCategory("Tools");
    ApplyInCategory(Lumina, "Tools");
    ApplyInCategory(Chronos, "Tools");
    ApplyInCategory(Aesthete, "Tools");
    ApplyInCategory(Vortex, "Tools");
    ApplyInCategory(DevUtils, "Tools");
    ApplyInCategory(Sentinel, "Tools");
    FilterSix(Lumina, Chronos, Aesthete, Vortex, DevUtils, Sentinel, m);
    KeepSecondFifth(Lumina, Chronos, Aesthete, Vortex, DevUtils, Sentinel);
  }

  // ---------------------------------------------------------------------------
  // "python", and "python " with a trailing space

  lemma PythonNotBlank()
    ensures Trim("python") != []
  {
    TrimKeepsInner("python");
  }

  lemma PythonIsLower()
    ensures Lower("python") == "python"
  {
    LowerKeepsLowerWord("python");
  }

  lemma PythonWord()
    ensures Lower("Python") == "python"
  {
    var t := "Python";
    assert forall i | 0 <= i < |t| :: Lower(t)[i] == "python"[i];
  }

  lemma LuminaMissesPython()
    ensures !ProjectMatches(Lumina, "python")
  {
    LuminaFields();
    LuminaTitleLacksPy();
    LuminaTechnologiesExcludePython();
    LuminaDescriptionLacksPy();
    NotIncludesByPair(LuminaDescription, "python", 0);
    ProjectMisses(Lumina, "python", 0);
  }

  lemma ChronosMissesPython()
    ensures !ProjectMatches(Chronos, "python")
  {
    ChronosFields();
    ChronosTitleLacksPy();
    ChronosTechnologiesExcludePython();
    ChronosDescriptionLacksPy();
    NotIncludesByPair(ChronosDescription, "python", 0);
    ProjectMisses(Chronos, "python", 0);
  }

  lemma AestheteMissesPython()
    ensures !ProjectMatches(Aesthete, "python")
  {
    AestheteFields();
    AestheteTitleLacksPy();
    AestheteTechnologiesExcludePython();
    AestheteDescriptionLacksPy();
    NotIncludesByPair(AestheteDescription, "python", 0);
    ProjectMisses(Aesthete, "python", 0);
  }

  lemma VortexMissesPython()
    ensures !ProjectMatches(Vortex, "python")
  {
    VortexFields();
    VortexTitleLacksPy();
    VortexTechnologiesExcludePython();
    VortexDescriptionLacksPy();
    NotIncludesByPair(VortexDescription, "python", 0);
    ProjectMisses(Vortex, "python", 0);
  }

  lemma DevUtilsMissesPython()
    ensures !ProjectMatches(DevUtils, "python")
  {
    DevUtilsFields();
    DevUtilsTitleLacksPy();
    DevUtilsTechnologiesExcludePython();
    DevUtilsDescriptionLacksPy();
    NotIncludesByPair(DevUtilsDescription, "python", 0);
    ProjectMisses(DevUtils, "python", 0);
  }

  /** Sentinel is written in Python. */
  lemma SentinelMatchesPython()
    ensures ProjectMatches(Sentinel, "python")
  {
    PythonWord();
    ProjectMatchesByTechnology(Sentinel, "python", 0);
  }

  /** Searching "python" on the "All" tab finds only the Python bot. */
  lemma PythonOnAllTab()
    ensures FilterProjects(Projects, AllTab, "python") == [Sentinel]
  {
    PythonNotBlank();
    PythonIsLower();
    AllTabQuery(Projects, "python");
    var m := MatchesProject("python");
    LuminaMissesPython();
    ApplyMatchesProject(Lumina, "python");
    ChronosMissesPython();
    ApplyMatchesProject(Chronos, "python");
    AestheteMissesPython();
    ApplyMatchesProject(Aesthete, "python");
    VortexMissesPython();
    ApplyMatchesProject(Vortex, "python");
    DevUtilsMissesPython();
    ApplyMatchesProject(DevUtils, "python");
    SentinelMatchesPython();
    ApplyMatchesProject(Sentinel, "python");
    FilterSix(Lumina, Chronos, Aesthete, Vortex, DevUtils, Sentinel, m);
    KeepSixth(Lumina, Chronos, Aesthete, Vortex, DevUtils, Sentinel);
  }

  /** The role assigner is written in Python. */
  lemma AutoRoleAssignerMatchesPython()
    ensures ScriptMatches(AutoRoleAssigner, "python")
  {
    PythonWord();
    ScriptMatchesByLanguage(AutoRoleAssigner, "python");
  }

  lemma ComponentGeneratorMissesPython()
    ensures !ScriptMatches(ComponentGenerator, "python")
  {
    ComponentGeneratorFields();
    ComponentGeneratorTitleLacksPy();
    ComponentGeneratorLanguageAndTagsExcludePython();
    ComponentGeneratorDescriptionLacksPy();
    NotIncludesByPair(ComponentGeneratorDescription, "python", 0);
    ScriptMisses(ComponentGenerator, "python", 0);
  }

  lemma DataSanitizerMissesPython()
    ensures !ScriptMatches(DataSanitizer, "python")
  {
    DataSanitizerFields();
    DataSanitizerTitleLacksPy();
    DataSanitizerLanguageAndTagsExcludePython();
    DataSanitizerDescriptionLacksPy();
    NotIncludesByPair(DataSanitizerDescription, "python", 0);
    ScriptMisses(DataSanitizer, "python", 0);
  }

  /** On the "Scripts" tab, "python" leaves the one Python script. */
  lemma PythonOnScriptsTab()
    ensures VisibleGrid(Projects, Scripts, ScriptsTab, "python") == ScriptGrid([AutoRoleAssigner])
  {
    PythonNotBlank();
    PythonIsLower();
    var m := MatchesScript("python");
    AutoRoleAssignerMatchesPython();
    ApplyMatchesScript(AutoRoleAssigner, "python");
    ComponentGeneratorMissesPython();
    ApplyMatchesScript(ComponentGenerator, "python");
    DataSanitizerMissesPython();
    ApplyMatchesScript(DataSanitizer, "python");
    FilterThree(AutoRoleAssigner, ComponentGenerator, DataSanitizer, m);
    KeepFirstOfThree(AutoRoleAssigner, ComponentGenerator, DataSanitizer);
  }

  /** "python " is not blank: trimming it leaves "python", so the text filter runs. */
  lemma TrailingSpaceNotBlank()
    ensures Trim("python ") == "python"
    ensures Lower("python ") == "python "
  {
    LowerKeepsLowerWord("python ");
    assert TrimEnd("python ") == "python";
    TrimKeepsInner("python");
  }

  /** A project that misses "python" also misses "python ". */
  lemma MissesWithTrailingSpace(p: Project)
    requires !ProjectMatches(p, "python")
    ensures !ProjectMatches(p, "python ")
  {
    assert "python" + " " == "python ";
    ProjectMatchesPrefix(p, "python", " ");
  }

  /** A script that misses "python" also misses "python ". */
  lemma ScriptMissesWithTrailingSpace(s: Script)
    requires !ScriptMatches(s, "python")
    ensures !ScriptMatches(s, "python ")
  {
    assert "python" + " " == "python ";
    ScriptMatchesPrefix(s, "python", " ");
  }

  /** "Python" is one character shorter than "python ", so Sentinel no longer matches. */
  lemma SentinelMissesTrailingSpace()
    ensures !ProjectMatches(Sentinel, "python ")
  {
    SentinelFields();
    SentinelTitleLacksPy();
    SentinelTechnologiesExcludeTrailingSpace();
    SentinelDescriptionLacksPy();
    NotIncludesByPair(SentinelDescription, "python ", 0);
    ProjectMisses(Sentinel, "python ", 0);
  }

  /** Nor does the role assigner, whose language is the only place "python" occurs. */
  lemma AutoRoleAssignerMissesTrailingSpace()
    ensures !ScriptMatches(AutoRoleAssigner, "python ")
  {
    AutoRoleAssignerFields();
    AutoRoleAssignerTitleLacksPy();
    AutoRoleAssignerLanguageAndTagsExcludeTrailingSpace();
    AutoRoleAssignerDescriptionLacksPy();
    NotIncludesByPair(AutoRoleAssignerDescription, "python ", 0);
    ScriptMisses(AutoRoleAssigner, "python ", 0);
  }

  /** With a trailing space the "All" tab shows no project at all. */
  lemma TrailingSpaceHidesProjects()
    ensures FilterProjects(Projects, AllTab, "python ") == []
  {
    TrailingSpaceNotBlank();
    AllTabQuery(Projects, "python ");
    var m := MatchesProject("python ");
    LuminaMissesPython();
    MissesWithTrailingSpace(Lumina);
    ApplyMatchesProject(Lumina, "python ");
    ChronosMissesPython();
    MissesWithTrailingSpace(Chronos);
    ApplyMatchesProject(Chronos, "python ");
    AestheteMissesPython();
    MissesWithTrailingSpace(Aesthete);
    ApplyMatchesProject(Aesthete, "python ");
    VortexMissesPython();
    MissesWithTrailingSpace(Vortex);
    ApplyMatchesProject(Vortex, "python ");
    DevUtilsMissesPython();
    MissesWithTrailingSpace(DevUtils);
    ApplyMatchesProject(DevUtils, "python ");
    SentinelMissesTrailingSpace();
    ApplyMatchesProject(Sentinel, "python ");
    FilterSix(Lumina, Chronos, Aesthete, Vortex, DevUtils, Sentinel, m);
    KeepNoneOfSix(Lumina, Chronos, Aesthete, Vortex, DevUtils, Sentinel);
  }

  /** With a trailing space the "Scripts" tab shows no script at all. */
  lemma TrailingSpaceHidesScripts()
    ensures FilterScripts(Scripts, "python ") == []
  {
    TrailingSpaceNotBlank();
    var n := MatchesScript("python ");
    AutoRoleAssignerMissesTrailingSpace();
    ApplyMatchesScript(AutoRoleAssigner, "python ");
    ComponentGeneratorMissesPython();
    ScriptMissesWithTrailingSpace(ComponentGenerator);
    ApplyMatchesScript(ComponentGenerator, "python ");
    DataSanitizerMissesPython();
    ScriptMissesWithTrailingSpace(DataSanitizer);
    ApplyMatchesScript(DataSanitizer, "python ");
    FilterThree(AutoRoleAssigner, ComponentGenerator, DataSanitizer, n);
    KeepNoneOfThree(AutoRoleAssigner, ComponentGenerator, DataSanitizer);
  }

  /**
   * A trailing space empties both grids: the trimmed query decides that the
   * text filter runs, but the untrimmed one is matched.
   */
  lemma TrailingSpaceFindsNothing()
    ensures Trim("python ") == "python"
    ensures FilterProjects(Projects, AllTab, "python ") == []
    ensures VisibleGrid(Projects, Scripts, ScriptsTab, "python ") == ScriptGrid([])
  {
    TrailingSpaceNotBlank();
    TrailingSpaceHidesProjects();
    TrailingSpaceHidesScripts();
  }

  // ---------------------------------------------------------------------------
  // Character pairs and triples the descriptions lack

  lemma LuminaLacksPy0() ensures forall k | 0 <= k < 20 :: !PairAt(LuminaDescription, 'p', 'y', k) {}
  lemma LuminaLacksPy0b() ensures forall k | 20 <= k < 40 :: !PairAt(LuminaDescription, 'p', 'y', k) {}
  lemma LuminaLacksPy1() ensures forall k | 40 <= k < 80 :: !PairAt(LuminaDescription, 'p', 'y', k) {}
  lemma LuminaLacksPy2() ensures forall k | 80 <= k < 120 :: !PairAt(LuminaDescription, 'p', 'y', k) {}
  lemma LuminaLacksPy3() ensures forall k | 120 <= k < 160 :: !PairAt(LuminaDescription, 'p', 'y', k) {}
  lemma LuminaDescriptionLacksPy() ensures NoPair(LuminaDescription, 'p', 'y') { LuminaLacksPy0(); LuminaLacksPy0b(); LuminaLacksPy1(); LuminaLacksPy2(); LuminaLacksPy3(); }

  lemma ChronosLacksPy0() ensures forall k | 0 <= k < 40 :: !PairAt(ChronosDescription, 'p', 'y', k) {}
  lemma ChronosLacksPy1() ensures forall k | 40 <= k < 80 :: !PairAt(ChronosDescription, 'p', 'y', k) {}
  lemma ChronosLacksPy2() ensures forall k | 80 <= k < 120 :: !PairAt(ChronosDescription, 'p', 'y', k) {}
  lemma ChronosLacksPy3() ensures forall k | 120 <= k < 139 :: !PairAt(ChronosDescription, 'p', 'y', k) {}
  lemma ChronosDescriptionLacksPy() ensures NoPair(ChronosDescription, 'p', 'y') { ChronosLacksPy0(); ChronosLacksPy1(); ChronosLacksPy2(); ChronosLacksPy3(); }

  lemma AestheteLacksPy0() ensures forall k | 0 <= k < 40 :: !PairAt(AestheteDescription, 'p', 'y', k) {}
  lemma AestheteLacksPy1() ensures forall k | 40 <= k < 80 :: !PairAt(AestheteDescription, 'p', 'y', k) {}
  lemma AestheteLacksPy2() ensures forall k | 80 <= k < 120 :: !PairAt(AestheteDescription, 'p', 'y', k) {}
  lemma AestheteLacksPy3() ensures forall k | 120 <= k < 140 :: !PairAt(AestheteDescription, 'p', 'y', k) {}
  lemma AestheteDescriptionLacksPy() ensures NoPair(AestheteDescription, 'p', 'y') { AestheteLacksPy0(); AestheteLacksPy1(); AestheteLacksPy2(); AestheteLacksPy3(); }

  lemma VortexLacksPy0() ensures forall k | 0 <= k < 40 :: !PairAt(VortexDescription, 'p', 'y', k) {}
  lemma VortexLacksPy1() ensures forall k | 40 <= k < 80 :: !PairAt(VortexDescription, 'p', 'y', k) {}
  lemma VortexLacksPy2() ensures forall k | 80 <= k < 120 :: !PairAt(VortexDescription, 'p', 'y', k) {}
  lemma VortexLacksPy3() ensures forall k | 120 <= k < 145 :: !PairAt(VortexDescription, 'p', 'y', k) {}
  lemma VortexDescriptionLacksPy() ensures NoPair(VortexDescription, 'p', 'y') { VortexLacksPy0(); VortexLacksPy1(); VortexLacksPy2(); VortexLacksPy3(); }

  lemma DevUtilsLacksPy0() ensures forall k | 0 <= k < 40 :: !PairAt(DevUtilsDescription, 'p', 'y', k) {}
  lemma DevUtilsLacksPy1() ensures forall k | 40 <= k < 80 :: !PairAt(DevUtilsDescription, 'p', 'y', k) {}
  lemma DevUtilsLacksPy2() ensures forall k | 80 <= k < 120 :: !PairAt(DevUtilsDescription, 'p', 'y', k) {}
  lemma DevUtilsLacksPy3() ensures forall k | 120 <= k < 131 :: !PairAt(DevUtilsDescription, 'p', 'y', k) {}
  lemma DevUtilsDescriptionLacksPy() ensures NoPair(DevUtilsDescription, 'p', 'y') { DevUtilsLacksPy0(); DevUtilsLacksPy1(); DevUtilsLacksPy2(); DevUtilsLacksPy3(); }

  lemma SentinelLacksPy0() ensures forall k | 0 <= k < 40 :: !PairAt(SentinelDescription, 'p', 'y', k) {}
  lemma SentinelLacksPy1() ensures forall k | 40 <= k < 80 :: !PairAt(SentinelDescription, 'p', 'y', k) {}
  lemma SentinelLacksPy2() ensures forall k | 80 <= k < 120 :: !PairAt(SentinelDescription, 'p', 'y', k) {}
  lemma SentinelLacksPy3() ensures forall k | 120 <= k < 133 :: !PairAt(SentinelDescription, 'p', 'y', k) {}
  lemma SentinelDescriptionLacksPy() ensures NoPair(SentinelDescription, 'p', 'y') { SentinelLacksPy0(); SentinelLacksPy1(); SentinelLacksPy2(); SentinelLacksPy3(); }

  lemma AutoRoleAssignerLacksPy0() ensures forall k | 0 <= k < 40 :: !PairAt(AutoRoleAssignerDescription, 'p', 'y', k) {}
  lemma AutoRoleAssignerLacksPy1() ensures forall k | 40 <= k < 80 :: !PairAt(AutoRoleAssignerDescription, 'p', 'y', k) {}
  lemma AutoRoleAssignerLacksPy2() ensures forall k | 80 <= k < 84 :: !PairAt(AutoRoleAssignerDescription, 'p', 'y', k) {}
  lemma AutoRoleAssignerDescriptionLacksPy() ensures NoPair(AutoRoleAssignerDescription, 'p', 'y') { AutoRoleAssignerLacksPy0(); AutoRoleAssignerLacksPy1(); AutoRoleAssignerLacksPy2(); }

  lemma ComponentGeneratorLacksPy0() ensures forall k | 0 <= k < 40 :: !PairAt(ComponentGeneratorDescription, 'p', 'y', k) {}
  lemma ComponentGeneratorLacksPy1() ensures forall k | 40 <= k < 80 :: !PairAt(ComponentGeneratorDescription, 'p', 'y', k) {}
  lemma ComponentGeneratorLacksPy2() ensures forall k | 80 <= k < 96 :: !PairAt(ComponentGeneratorDescription, 'p', 'y', k) {}
  lemma ComponentGeneratorDescriptionLacksPy() ensures NoPair(ComponentGeneratorDescription, 'p', 'y') { ComponentGeneratorLacksPy0(); ComponentGeneratorLacksPy1(); ComponentGeneratorLacksPy2(); }

  lemma DataSanitizerLacksPy0() ensures forall k | 0 <= k < 40 :: !PairAt(DataSanitizerDescription, 'p', 'y', k) {}
  lemma DataSanitizerLacksPy1() ensures forall k | 40 <= k < 72 :: !PairAt(DataSanitizerDescription, 'p', 'y', k) {}
  lemma DataSanitizerDescriptionLacksPy() ensures NoPair(DataSanitizerDescription, 'p', 'y') { DataSanitizerLacksPy0(); DataSanitizerLacksPy1(); }

  lemma AestheteLacksDis0() ensures forall k | 0 <= k < 20 :: !TripleAt(AestheteDescription, 'd', 'i', 's', k) {}
  lemma AestheteLacksDis0b() ensures forall k | 20 <= k < 40 :: !TripleAt(AestheteDescription, 'd', 'i', 's', k) {}
  lemma AestheteLacksDis1() ensures forall k | 40 <= k < 80 :: !TripleAt(AestheteDescription, 'd', 'i', 's', k) {}
  lemma AestheteLacksDis2() ensures forall k | 80 <= k < 120 :: !TripleAt(AestheteDescription, 'd', 'i', 's', k) {}
  lemma AestheteLacksDis3() ensures forall k | 120 <= k < 139 :: !TripleAt(AestheteDescription, 'd', 'i', 's', k) {}
  lemma AestheteDescriptionLacksDis() ensures NoTriple(AestheteDescription, 'd', 'i', 's') { AestheteLacksDis0(); AestheteLacksDis0b(); AestheteLacksDis1(); AestheteLacksDis2(); AestheteLacksDis3(); }

  lemma DevUtilsLacksRe0() ensures forall k | 0 <= k < 40 :: !PairAt(DevUtilsDescription, 'r', 'e', k) {}
  lemma DevUtilsLacksRe1() ensures forall k | 40 <= k < 80 :: !PairAt(DevUtilsDescription, 'r', 'e', k) {}
  lemma DevUtilsLacksRe2() ensures forall k | 80 <= k < 120 :: !PairAt(DevUtilsDescription, 'r', 'e', k) {}
  lemma DevUtilsLacksRe3() ensures forall k | 120 <= k < 131 :: !PairAt(DevUtilsDescription, 'r', 'e', k) {}
  lemma DevUtilsDescriptionLacksRe() ensures NoPair(DevUtilsDescription, 'r', 'e') { DevUtilsLacksRe0(); DevUtilsLacksRe1(); DevUtilsLacksRe2(); DevUtilsLacksRe3(); }

  lemma SentinelLacksDi0() ensures forall k | 0 <= k < 40 :: !PairAt(SentinelDescription, 'd', 'i', k) {}
  lemma SentinelLacksDi1() ensures forall k | 40 <= k < 80 :: !PairAt(SentinelDescription, 'd', 'i', k) {}
  lemma SentinelLacksDi2() ensures forall k | 80 <= k < 120 :: !PairAt(SentinelDescription, 'd', 'i', k) {}
  lemma SentinelLacksDi3() ensures forall k | 120 <= k < 133 :: !PairAt(SentinelDescription, 'd', 'i', k) {}
  lemma SentinelDescriptionLacksDi() ensures NoPair(SentinelDescription, 'd', 'i') { SentinelLacksDi0(); SentinelLacksDi1(); SentinelLacksDi2(); SentinelLacksDi3(); }

  // ---------------------------------------------------------------------------
  // Titles, technologies, languages and tags

  lemma AestheteFields()
    ensures Aesthete.title == "Aesthete CMS" && Aesthete.technologies == ["Node.js", "GraphQL", "MongoDB", "Next.js", "AWS S3"]
  {
  }

  lemma AestheteTitleLacksRe()
    ensures NoPair("Aesthete CMS", 'r', 'e')
  {
  }

  lemma AestheteTechnologiesExcludeRedis()
    ensures ExcludesEach(["Node.js", "GraphQL", "MongoDB", "Next.js", "AWS S3"], "redis", 0)
  {
  }

  lemma DevUtilsFields()
    ensures DevUtils.title == "DevUtils CLI" && DevUtils.technologies == ["Rust", "Clap", "Tokio"]
  {
  }

  lemma DevUtilsTitleLacksRe()
    ensures NoPair("DevUtils CLI", 'r', 'e')
  {
  }

  lemma DevUtilsTechnologiesExcludeRedis()
    ensures ExcludesEach(["Rust", "Clap", "Tokio"], "redis", 0)
  {
  }

  lemma SentinelFields()
    ensures Sentinel.title == "Sentinel Guardian" && Sentinel.technologies == ["Python", "Hikari", "TensorFlow"]
  {
  }

  lemma SentinelTitleLacksRe()
    ensures NoPair("Sentinel Guardian", 'r', 'e')
  {
  }

  lemma SentinelTechnologiesExcludeRedis()
    ensures ExcludesEach(["Python", "Hikari", "TensorFlow"], "redis", 0)
  {
  }

  lemma LuminaFields()
    ensures Lumina.title == "Lumina Finance Platform" && Lumina.technologies == ["React", "TypeScript", "D3.js", "WebSockets", "Redis"]
  {
  }

  lemma LuminaTitleLacksPy()
    ensures NoPair("Lumina Finance Platform", 'p', 'y')
  {
  }

  lemma LuminaTechnologiesExcludePython()
    ensures ExcludesEach(["React", "TypeScript", "D3.js", "WebSockets", "Redis"], "python", 0)
  {
  }

  lemma ChronosFields()
    ensures Chronos.title == "Chronos Task Engine" && Chronos.technologies == ["Go", "gRPC", "PostgreSQL", "Redis", "Docker"]
  {
  }

  lemma ChronosTitleLacksPy()
    ensures NoPair("Chronos Task Engine", 'p', 'y')
  {
  }

  lemma ChronosTechnologiesExcludePython()
    ensures ExcludesEach(["Go", "gRPC", "PostgreSQL", "Redis", "Docker"], "python", 0)
  {
  }

  lemma AestheteTitleLacksPy()
    ensures NoPair("Aesthete CMS", 'p', 'y')
  {
  }

  lemma AestheteTechnologiesExcludePython()
    ensures ExcludesEach(["Node.js", "GraphQL", "MongoDB", "Next.js", "AWS S3"], "python", 0)
  {
  }

  lemma VortexFields()
    ensures Vortex.title == "Vortex Bot" && Vortex.technologies == ["TypeScript", "Discord.js", "PostgreSQL", "Redis"]
  {
  }

  lemma VortexTitleLacksPy()
    ensures NoPair("Vortex Bot", 'p', 'y')
  {
  }

  lemma VortexTechnologiesExcludePython()
    ensures ExcludesEach(["TypeScript", "Discord.js", "PostgreSQL", "Redis"], "python", 0)
  {
  }

  lemma DevUtilsTitleLacksPy()
    ensures NoPair("DevUtils CLI", 'p', 'y')
  {
  }

  lemma DevUtilsTechnologiesExcludePython()
    ensures ExcludesEach(["Rust", "Clap", "Tokio"], "python", 0)
  {
  }

  lemma ComponentGeneratorFields()
    ensures ComponentGenerator.title == "React Component Generator" && ComponentGenerator.language == "Bash" && ComponentGenerator.tags == ["Productivity", "React"]
  {
  }

  lemma ComponentGeneratorTitleLacksPy()
    ensures NoPair("React Component Generator", 'p', 'y')
  {
  }

  lemma ComponentGeneratorLanguageAndTagsExcludePython()
    ensures Excludes("Bash", "python", 0) && ExcludesEach(["Productivity", "React"], "python", 0)
  {
  }

  lemma DataSanitizerFields()
    ensures DataSanitizer.title == "Data Sanitizer Middleware" && DataSanitizer.language == "JavaScript" && DataSanitizer.tags == ["Security", "Node.js"]
  {
  }

  lemma DataSanitizerTitleLacksPy()
    ensures NoPair("Data Sanitizer Middleware", 'p', 'y')
  {
  }

  lemma DataSanitizerLanguageAndTagsExcludePython()
    ensures Excludes("JavaScript", "python", 0) && ExcludesEach(["Security", "Node.js"], "python", 0)
  {
  }

  lemma SentinelTitleLacksPy()
    ensures NoPair("Sentinel Guardian", 'p', 'y')
  {
  }

  lemma SentinelTechnologiesExcludeTrailingSpace()
    ensures ExcludesEach(["Python", "Hikari", "TensorFlow"], "python ", 0)
  {
  }

  lemma AutoRoleAssignerFields()
    ensures AutoRoleAssigner.title == "Auto-Role Assigner" && AutoRoleAssigner.language == "Python" && AutoRoleAssigner.tags == ["Discord", "Automation"]
  {
  }

  lemma AutoRoleAssignerTitleLacksPy()
    ensures NoPair("Auto-Role Assigner", 'p', 'y')
  {
  }

  lemma AutoRoleAssignerLanguageAndTagsExcludeTrailingSpace()
    ensures Excludes("Python", "python ", 0) && ExcludesEach(["Discord", "Automation"], "python ", 0)
  {
  }
}
