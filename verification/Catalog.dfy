/**
 * The showcase's data (constants.ts): the six projects and the three
 * scripts, in the order the page lists them, with every string as written.
 */
module Catalog {
  import opened Types

  // Each description is its own constant, its long literal broken over
  // several lines.

  const LuminaDescription: string :=
    "A comprehensive dash" +
    "board for institutio" +
    "nal investors to tra" +
    "ck real-time market " +
    "data and manage dive" +
    "rse portfolios. Buil" +
    "t with precision and" +
    " performance in mind" +
    "."

  const Lumina: Project := Project(
    id := "proj-1",
    title := "Lumina Finance Platform",
    category := Website,
    description := LuminaDescription,
    technologies := ["React", "TypeScript", "D3.js", "WebSockets", "Redis"],
    imageUrl := "https://picsum.photos/800/600?random=1",
    gallery := [
      "https://picsum.photos/1200/800?random=10",
      "https://picsum.photos/1200/800?random=11",
      "https://picsum.photos/1200/800?random=12"
    ],
    link := "#",
    githubUrl := None,
    year := "2023")

  const ChronosDescription: string :=
    "An open-source distr" +
    "ibuted task schedule" +
    "r capable of handlin" +
    "g complex dependency" +
    " graphs. Designed fo" +
    "r high availability " +
    "and fault tolerance."

  const Chronos: Project := Project(
    id := "proj-2",
    title := "Chronos Task Engine",
    category := Tools,
    description := ChronosDescription,
    technologies := ["Go", "gRPC", "PostgreSQL", "Redis", "Docker"],
    imageUrl := "https://picsum.photos/800/600?random=2",
    gallery := [
      "https://picsum.photos/1200/800?random=20",
      "https://picsum.photos/1200/800?random=21"
    ],
    link := "#",
    githubUrl := Some("https://github.com/xgg2/chronos"),
    year := "2022")

  const AestheteDescription: string :=
    "A headless CMS focus" +
    "ed on editorial cont" +
    "ent, providing a ric" +
    "h text editing exper" +
    "ience and structured" +
    " content modeling fo" +
    "r digital publishers" +
    "."

  const Aesthete: Project := Project(
    id := "proj-3",
    title := "Aesthete CMS",
    category := Website,
    description := AestheteDescription,
    technologies := ["Node.js", "GraphQL", "MongoDB", "Next.js", "AWS S3"],
    imageUrl := "https://picsum.photos/800/600?random=3",
    gallery := [
      "https://picsum.photos/1200/800?random=30",
      "https://picsum.photos/1200/800?random=31",
      "https://picsum.photos/1200/800?random=32"
    ],
    link := "#",
    githubUrl := Some("https://github.com/xgg2/aesthete"),
    year := "2021")

  const VortexDescription: string :=
    "A high-performance m" +
    "oderation and utilit" +
    "y bot serving over 5" +
    "0,000 servers. Featu" +
    "res include auto-mod" +
    "eration, leveling sy" +
    "stems, and music pla" +
    "yback."

  const Vortex: Project := Project(
    id := "proj-4",
    title := "Vortex Bot",
    category := DiscordBot,
    description := VortexDescription,
    technologies := ["TypeScript", "Discord.js", "PostgreSQL", "Redis"],
    imageUrl := "https://picsum.photos/800/600?random=4",
    gallery := [
      "https://picsum.photos/1200/800?random=40",
      "https://picsum.photos/1200/800?random=41"
    ],
    link := "#",
    githubUrl := None,
    year := "2023")

  const DevUtilsDescription: string :=
    "A command-line inter" +
    "face tool for develo" +
    "pers to quickly scaf" +
    "fold projects, gener" +
    "ate boilerplate code" +
    ", and manage local e" +
    "nvironments."

  const DevUtils: Project := Project(
    id := "proj-5",
    title := "DevUtils CLI",
    category := Tools,
    description := DevUtilsDescription,
    technologies := ["Rust", "Clap", "Tokio"],
    imageUrl := "https://picsum.photos/800/600?random=5",
    gallery := [
      "https://picsum.photos/1200/800?random=50"
    ],
    link := "#",
    githubUrl := Some("https://github.com/xgg2/devutils"),
    year := "2023")

  const SentinelDescription: string :=
    "Advanced anti-raid a" +
    "nd security bot for " +
    "large communities. I" +
    "mplements heuristic " +
    "analysis to detect a" +
    "nd ban raid accounts" +
    " in real-time."

  const Sentinel: Project := Project(
    id := "proj-6",
    title := "Sentinel Guardian",
    category := DiscordBot,
    description := SentinelDescription,
    technologies := ["Python", "Hikari", "TensorFlow"],
    imageUrl := "https://picsum.photos/800/600?random=6",
    gallery := [
      "https://picsum.photos/1200/800?random=60"
    ],
    link := "#",
    githubUrl := None,
    year := "2022")

  const AutoRoleAssignerDescription: string :=
    "A lightweight script" +
    " to automatically as" +
    "sign roles to new me" +
    "mbers based on join " +
    "date."

  const AutoRoleAssigner: Script := Script(
    id := "script-1",
    title := "Auto-Role Assigner",
    description := AutoRoleAssignerDescription,
    imageUrl := "https://picsum.photos/800/600?random=100",
    codeSnippet :=
      "import discord\n" +
      "from discord.ext import commands\n" +
      "\n" +
      "bot = commands.Bot(command_prefix='!')\n" +
      "\n" +
      "@bot.event\n" +
      "async def on_member_join(member):\n" +
      "    role = discord.utils.get(member.guild.roles, name=\"Member\")\n" +
      "    if role:\n" +
      "        await member.add_roles(role)\n" +
      "        print(f\"Assigned {role.name} to {member.name}\")\n" +
      "\n" +
      "bot.run('YOUR_TOKEN')",
    language := "Python",
    tags := ["Discord", "Automation"])

  const ComponentGeneratorDescription: string :=
    "Shell script to gene" +
    "rate a React compone" +
    "nt structure with Ty" +
    "peScript interfaces " +
    "and SCSS modules."

  const ComponentGenerator: Script := Script(
    id := "script-2",
    title := "React Component Generator",
    description := ComponentGeneratorDescription,
    imageUrl := "https://picsum.photos/800/600?random=101",
    codeSnippet :=
      "#!/bin/bash\n" +
      "NAME=$1\n" +
      "mkdir $NAME\n" +
      "cd $NAME\n" +
      "touch index.ts $NAME.tsx $NAME.module.scss\n" +
      "\n" +
      "echo \"export { default } from './$NAME';\" > index.ts\n" +
      "\n" +
      "echo \"import React from 'react';\n" +
      "import styles from './$NAME.module.scss';\n" +
      "\n" +
      "interface ${NAME}Props {}\n" +
      "\n" +
      "const $NAME: React.FC<${NAME}Props> = () => {\n" +
      "  return <div className={styles.container}>$NAME Component</div>;\n" +
      "};\n" +
      "\n" +
      "export default $NAME;\" > $NAME.tsx",
    language := "Bash",
    tags := ["Productivity", "React"])

  const DataSanitizerDescription: string :=
    "Express.js middlewar" +
    "e to sanitize reques" +
    "t bodies and prevent" +
    " XSS attacks."

  const DataSanitizer: Script := Script(
    id := "script-3",
    title := "Data Sanitizer Middleware",
    description := DataSanitizerDescription,
    imageUrl := "https://picsum.photos/800/600?random=102",
    codeSnippet :=
      "const xss = require('xss');\n" +
      "\n" +
      "const sanitize = (obj) => {\n" +
      "  for (const key in obj) {\n" +
      "    if (typeof obj[key] === 'string') {\n" +
      "      obj[key] = xss(obj[key]);\n" +
      "    } else if (typeof obj[key] === 'object' && obj[key] !== null) {\n" +
      "      sanitize(obj[key]);\n" +
      "    }\n" +
      "  }\n" +
      "};\n" +
      "\n" +
      "module.exports = (req, res, next) => {\n" +
      "  if (req.body) sanitize(req.body);\n" +
      "  if (req.query) sanitize(req.query);\n" +
      "  if (req.params) sanitize(req.params);\n" +
      "  next();\n" +
      "};",
    language := "JavaScript",
    tags := ["Security", "Node.js"])

  /** `PROJECTS`, in display order. */
  const Projects: seq<Project> := [Lumina, Chronos, Aesthete, Vortex, DevUtils, Sentinel]

  /** `SCRIPTS`, in display order. */
  const Scripts: seq<Script> := [AutoRoleAssigner, ComponentGenerator, DataSanitizer]

  /** Project ids are pairwise distinct, so they can key the cards. */
  lemma ProjectIdsDistinct()
    ensures forall i, j | 0 <= i < j < |Projects| :: Projects[i].id != Projects[j].id
  {
  }

  /** Script ids are pairwise distinct. */
  lemma ScriptIdsDistinct()
    ensures forall i, j | 0 <= i < j < |Scripts| :: Scripts[i].id != Scripts[j].id
  {
  }

  /** Each category holds exactly two projects: Website proj-1 and proj-3, Tools proj-2 and proj-5, Discord Bot proj-4 and proj-6. */
  lemma CategoryPartition()
    ensures forall i | 0 <= i < |Projects| ::
              (Projects[i].category == Website <==> i == 0 || i == 2) &&
              (Projects[i].category == Tools <==> i == 1 || i == 4) &&
              (Projects[i].category == DiscordBot <==> i == 3 || i == 5)
  {
  }

  /** Every project has between one and three additional screenshots. */
  lemma GallerySizes()
    ensures forall i | 0 <= i < |Projects| :: 1 <= |Projects[i].gallery| <= 3
  {
  }
}
