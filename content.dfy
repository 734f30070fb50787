/** The view-ready shapes the pages render (the page content types). */
module Content {
  import opened Wrappers

  /** `label` is reserved in Dafny, so the label is called `caption`. */
  datatype Cta = Cta(caption: string, href: string)

  datatype Image = Image(src: string, alt: string)

  datatype Badge = Badge(title: string, subtitle: string)

  datatype HeroStat = HeroStat(caption: string, value: string)

  datatype HeroContent = HeroContent(
    eyebrow: string,
    title: string,
    description: string,
    primaryCta: Cta,
    secondaryCta: Cta,
    image: Image,
    badge: Badge,
    stats: seq<HeroStat>)

  datatype TimelineItem = TimelineItem(years: string, company: string, role: string, summary: string)

  /** `value` is a JavaScript number; the mapper only ever puts integers in it. */
  datatype Skill = Skill(name: string, value: int, description: Option<string>)

  datatype Project = Project(
    title: string,
    blurb: string,
    stack: seq<string>,
    image: string,
    link: string,
    highlight: string)

  datatype Service = Service(title: string, description: string, outcomes: seq<string>)
}
