/**
 * The record shapes of the portfolio showcase (types.ts): a project, a
 * script and the closed set of project categories.
 */
module Types {

  /** An optional value; stands for a TypeScript optional property (`githubUrl?`). */
  datatype Option<+T> = None | Some(value: T)

  /** `ProjectCategory` is the closed union 'Discord Bot' | 'Tools' | 'Website'. */
  datatype ProjectCategory = DiscordBot | Tools | Website

  /** The string literal TypeScript uses for each category member. */
  function Label(c: ProjectCategory): (s: string)
    ensures s != "All" && s != "Scripts"
  {
    match c
    case DiscordBot => "Discord Bot"
    case Tools => "Tools"
    case Website => "Website"
  }

  /** Distinct categories carry distinct labels, so a label names one category. */
  lemma LabelInjective(c: ProjectCategory, d: ProjectCategory)
    ensures Label(c) == Label(d) <==> c == d
  {
  }

  /**
   * A project card. `imageUrl` is the mandatory thumbnail, `gallery` the
   * additional screenshots (possibly none), `technologies` the ordered stack.
   */
  datatype Project = Project(
    id: string,
    title: string,
    category: ProjectCategory,
    description: string,
    technologies: seq<string>,
    imageUrl: string,
    gallery: seq<string>,
    link: string,
    githubUrl: Option<string>,
    year: string)

  /** A copyable script. Scripts carry no category: only text can narrow them. */
  datatype Script = Script(
    id: string,
    title: string,
    description: string,
    imageUrl: string,
    codeSnippet: string,
    language: string,
    tags: seq<string>)
}
