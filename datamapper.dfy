/**
 * The content mapper: turns the site data into the view-ready content
 * shapes. Everything here is a filter, a map or a fallback; the one
 * computation is the years-of-experience figure.
 *
 * The API base URL and the current year are parameters (the source reads
 * them from the build environment and the clock).
 */
module DataMapper {
  import opened Wrappers
  import opened Seqs
  import opened JsText
  import opened Api
  import Content

  /** The placeholder image of a project without one. */
  const DefaultProjectImage := "https://images.unsplash.com" + "/photo-1517694712202-14dd9538aa97?auto=format&fit=crop&w=1200&q=80"
  const DefaultHeroTitle := "Technology leadership for teams that want velocity without the chaos."
  /** ` — `, between the start and end of a period. */
  const PeriodSeparator := " \U{2014} "
  /** ` · `, between the role and the location. */
  const DotSeparator := " \U{00B7} "

  datatype SiteContent = SiteContent(
    profile: Profile,
    heroContent: Content.HeroContent,
    timeline: seq<Content.TimelineItem>,
    technicalSkills: seq<Content.Skill>,
    professionalSkills: seq<Content.Skill>,
    projects: seq<Content.Project>,
    services: seq<Content.Service>,
    blogEnabled: bool,
    blogPosts: seq<BlogPost>)

  /** `mapDataToContent`. */
  function MapDataToContent(data: SiteData, baseUrl: string, currentYear: int): (r: SiteContent)
    ensures r.profile == data.profile && r.blogEnabled == data.blogEnabled
    ensures data.blogPosts.None? ==> r.blogPosts == []
    ensures forall posts :: data.blogPosts == Some(posts) ==> r.blogPosts == posts
    ensures multiset(r.technicalSkills) + multiset(r.professionalSkills) == multiset(Map(ToContentSkill, data.skills))
    ensures |r.technicalSkills| + |r.professionalSkills| == |data.skills|
    ensures |r.timeline| == |OfType(data.resume, Experience)|
    ensures |r.projects| == |Featured(data.projects)|
    ensures |r.services| == |data.services|
    ensures r.heroContent == MapToHeroContent(data, baseUrl, currentYear)
    ensures r.timeline == MapToTimeline(data.resume)
    ensures r.technicalSkills == MapToSkills(data.skills, Technical)
    ensures r.professionalSkills == MapToSkills(data.skills, Professional)
    ensures r.projects == MapToProjects(data.projects, baseUrl)
    ensures r.services == MapToServices(data.services)
  {
    CategoriesPartition(data.skills);
    MappedSkillsPartition(data.skills);
    SiteContent(
      data.profile,
      MapToHeroContent(data, baseUrl, currentYear),
      MapToTimeline(data.resume),
      MapToSkills(data.skills, Technical),
      MapToSkills(data.skills, Professional),
      MapToProjects(data.projects, baseUrl),
      MapToServices(data.services),
      data.blogEnabled,
      match data.blogPosts case Some(posts) => posts case None => [])
  }

  // ---------------------------------------------------------------------
  // years of experience

  /**
   * The year an experience started: the first run of four digits in its
   * start text, read by `parseInt`; the current year when there is none.
   */
  function StartYear(start: string, currentYear: int): (y: int)
    ensures MatchFourDigits(start).None? ==> y == currentYear
    ensures forall i :: MatchFourDigits(start) == Some(i) ==> 0 <= y < 10000 && ParseInt(start[i..i + 4]) == Some(y)
  {
    match MatchFourDigits(start)
    case None => currentYear
    case Some(i) =>
      var ds := start[i..i + 4];
      assert AllDigits(ds, 10) by {
        forall k | 0 <= k < 4 ensures DigitOf(ds[k]) < 10 { assert ds[k] == start[i + k]; }
      }
      ParseIntDigits(ds);
      ValueOfBound(ds);
      assert Pow10(4) == 10000;
      ValueOf(ds, 10)
  }

  function StartYears(items: seq<ResumeItem>, currentYear: int): (ys: seq<int>)
    ensures |ys| == |items|
    ensures forall i :: 0 <= i < |items| ==> ys[i] == StartYear(items[i].start, currentYear)
  {
    Map((e: ResumeItem) => StartYear(e.start, currentYear), items)
  }

  /**
   * `currentYear - Math.min(...startYears)`; None stands for the
   * `-Infinity` an empty list gives.
   */
  function YearsOfExperience(items: seq<ResumeItem>, currentYear: int): (r: Option<int>)
    ensures r.None? <==> items == []
    ensures r.Some? ==> exists i :: 0 <= i < |items| && r.value == currentYear - StartYear(items[i].start, currentYear)
    ensures r.Some? ==> forall i :: 0 <= i < |items| ==> r.value >= currentYear - StartYear(items[i].start, currentYear)
    ensures (forall i :: 0 <= i < |items| ==> StartYear(items[i].start, currentYear) <= currentYear)
            ==> r.None? || r.value >= 0
  {
    var ys := StartYears(items, currentYear);
    match Minimum(ys)
    case None => None
    case Some(m) => Some(currentYear - m)
  }

  /**
   * Counting from a prefix of the experiences never gives a larger figure,
   * since the earliest start year of a prefix is no earlier.
   */
  lemma PrefixYearsAtMost(items: seq<ResumeItem>, k: nat, currentYear: int)
    requires k <= |items|
    ensures var prefix := YearsOfExperience(items[..k], currentYear);
      var all := YearsOfExperience(items, currentYear);
      prefix.Some? ==> all.Some? && prefix.value <= all.value
  {
    var prefix := YearsOfExperience(items[..k], currentYear);
    if prefix.Some? {
      var j :| 0 <= j < k && prefix.value == currentYear - StartYear(items[..k][j].start, currentYear);
      assert items[..k][j] == items[j];
    }
  }

  /** `${n}` for the years figure: `-Infinity` when there is no experience. */
  function YearsText(years: Option<int>): string {
    match years
    case None => "-Infinity"
    case Some(y) => IntToString(y)
  }

  /** Reading the rendered figure back with `parseInt` recovers it (NaN for `-Infinity`). */
  lemma YearsTextParses(years: Option<int>)
    ensures ParseInt(YearsText(years) + "+") == years
  {
    match years
    case None =>
      assert "-Infinity+" == ['-'] + "Infinity+";
      ParseIntSignedNonDigit("Infinity+");
    case Some(y) =>
      ParseIntString(y, "+");
  }

  /** Each hero figure's text reads back through `parseInt` as its figure. */
  lemma StatTextsParse(years: Option<int>, projects: nat, companies: nat)
    ensures ParseInt(YearsText(years) + "+") == years
    ensures ParseInt(IntToString(projects) + "+") == Some(projects)
    ensures ParseInt(IntToString(companies)) == Some(companies)
  {
    assert ParseInt(YearsText(years) + "+") == years by { YearsTextParses(years); }
    assert ParseInt(IntToString(projects) + "+") == Some(projects) by { ParseIntString(projects, "+"); }
    assert IntToString(companies) + "" == IntToString(companies);
    ParseIntString(companies, "");
  }

  // ---------------------------------------------------------------------
  // hero

  /** `awardItem?.certification || awardItem?.award || 'Professional'` for the first awards item. */
  function BadgeTitle(resume: seq<ResumeItem>): (r: string)
    ensures r != ""
    ensures OfType(resume, Awards) == [] ==> r == "Professional"
    ensures OfType(resume, Awards) != [] ==>
      var a := OfType(resume, Awards)[0];
      (Truthy(a.certification) ==> r == a.certification.value)
      && (!Truthy(a.certification) && Truthy(a.award) ==> r == a.award.value)
      && (!Truthy(a.certification) && !Truthy(a.award) ==> r == "Professional")
  {
    match Find(KindIs(Awards), resume)
    case None => "Professional"
    case Some(a) => OrElse(a.certification, OrElse(a.award, "Professional"))
  }

  /** `awardItem?.organization || ''`. */
  function BadgeSubtitle(resume: seq<ResumeItem>): (r: string)
    ensures OfType(resume, Awards) == [] ==> r == ""
    ensures OfType(resume, Awards) != [] ==> r == OfType(resume, Awards)[0].organization.GetOr("")
  {
    match Find(KindIs(Awards), resume)
    case None => ""
    case Some(a) => OrElse(a.organization, "")
  }

  /** `profile.photo ? base + photo : ''`. */
  function PhotoSrc(profile: Profile, baseUrl: string): (r: string)
    ensures r == "" <==> profile.photo == ""
    ensures profile.photo != "" ==> r == baseUrl + profile.photo
  {
    if profile.photo != "" then baseUrl + profile.photo else ""
  }

  /** `mapToHeroContent`. */
  function MapToHeroContent(data: SiteData, baseUrl: string, currentYear: int): (r: Content.HeroContent)
    ensures var exps := OfType(data.resume, Experience);
      r.eyebrow == (if exps != [] && Truthy(exps[0].role) then exps[0].role.value else data.profile.title)
                   + DotSeparator + data.profile.location
    ensures r.title != "" && (data.profile.bio != "" ==> r.title == data.profile.bio)
    ensures data.profile.bio == "" ==> r.title == DefaultHeroTitle
    ensures r.description == data.profile.bio
    ensures r.primaryCta == Content.Cta("Book an intro", "mailto:" + data.profile.email)
    ensures r.secondaryCta == Content.Cta("Download resume", "/resume")
    ensures r.image.src == PhotoSrc(data.profile, baseUrl)
    ensures r.image.alt == data.profile.name + " professional photo"
    ensures r.badge.title == BadgeTitle(data.resume) && r.badge.subtitle == BadgeSubtitle(data.resume)
    ensures |r.stats| == 3
    ensures r.stats[0].caption == "Years in technology"
    ensures ParseInt(r.stats[0].value) == YearsOfExperience(OfType(data.resume, Experience), currentYear)
    ensures r.stats[1].caption == "Companies"
    ensures ParseInt(r.stats[1].value) == Some(|OfType(data.resume, Experience)|)
    ensures r.stats[2].caption == "Projects delivered"
    ensures ParseInt(r.stats[2].value) == Some(|data.projects|)
  {
    var profile := data.profile;
    var exps := OfType(data.resume, Experience);
    var years := YearsOfExperience(exps, currentYear);
    StatTextsParse(years, |data.projects|, |exps|);
    Content.HeroContent(
      (if exps != [] then OrElse(exps[0].role, profile.title) else profile.title) + DotSeparator + profile.location,
      Or(profile.bio, DefaultHeroTitle),
      Or(profile.bio, ""),
      Content.Cta("Book an intro", "mailto:" + profile.email),
      Content.Cta("Download resume", "/resume"),
      Content.Image(PhotoSrc(profile, baseUrl), profile.name + " professional photo"),
      Content.Badge(BadgeTitle(data.resume), BadgeSubtitle(data.resume)),
      [ Content.HeroStat("Years in technology", YearsText(years) + "+"),
        Content.HeroStat("Companies", IntToString(|exps|)),
        Content.HeroStat("Projects delivered", IntToString(|data.projects|) + "+") ])
  }

  // ---------------------------------------------------------------------
  // timeline, skills, projects, services

  function TimelineEntry(e: ResumeItem): Content.TimelineItem {
    Content.TimelineItem(e.start + PeriodSeparator + e.end, OrElse(e.company, ""), OrElse(e.role, ""), OrElse(e.summary, ""))
  }

  /** `mapToTimeline`: one entry per experience item, in order; missing text becomes ''. */
  function MapToTimeline(resume: seq<ResumeItem>): (r: seq<Content.TimelineItem>)
    ensures |r| == |OfType(resume, Experience)|
    ensures forall i :: 0 <= i < |r| ==>
      var e := OfType(resume, Experience)[i];
      && r[i].years == e.start + PeriodSeparator + e.end
      && r[i].company == e.company.GetOr("")
      && r[i].role == e.role.GetOr("")
      && r[i].summary == e.summary.GetOr("")
  {
    Map(TimelineEntry, OfType(resume, Experience))
  }

  /** `parseInt(level) || 50`: NaN and 0 are both falsy, so both give 50. */
  function SkillValue(level: string): (v: int)
    ensures v != 0
    ensures v == 50 || ParseInt(level) == Some(v)
    ensures forall n :: ParseInt(level) == Some(n) && n != 0 ==> v == n
    ensures ParseInt(level).None? || ParseInt(level) == Some(0) ==> v == 50
  {
    match ParseInt(level)
    case Some(n) => if n != 0 then n else 50
    case None => 50
  }

  /** A level written as a non-zero integer, with any non-digit suffix such as `%`, is that integer. */
  lemma SkillValueOfNumeral(n: int, suffix: string)
    requires n != 0
    requires suffix == [] || !IsDecimalDigit(suffix[0])
    ensures SkillValue(IntToString(n) + suffix) == n
  {
    ParseIntString(n, suffix);
  }

  /** A level of `0` falls back to 50, whatever follows the zero. */
  lemma SkillValueOfZero(suffix: string)
    requires EndsNumeral(0, suffix)
    ensures SkillValue("0" + suffix) == 50
  {
    ParseIntString(0, suffix);
    assert IntToString(0) == "0";
  }

  function ToContentSkill(skill: Skill): Content.Skill {
    Content.Skill(skill.name, SkillValue(skill.level), None)
  }

  /** `mapToSkills`: the skills of category c, in order, with their names and parsed levels. */
  function MapToSkills(skills: seq<Skill>, c: SkillCategory): (r: seq<Content.Skill>)
    ensures |r| == |InCategory(skills, c)|
    ensures forall i :: 0 <= i < |r| ==>
      var s := InCategory(skills, c)[i];
      r[i].name == s.name && r[i].value == SkillValue(s.level) && r[i].description.None?
  {
    Map(ToContentSkill, InCategory(skills, c))
  }

  /** Mapped technical and professional skills together are the mapped skill list, each entry once. */
  lemma MappedSkillsPartition(skills: seq<Skill>)
    ensures multiset(MapToSkills(skills, Technical)) + multiset(MapToSkills(skills, Professional))
            == multiset(Map(ToContentSkill, skills))
  {
    MapFilterSplit(ToContentSkill, CategoryIs(Technical), CategoryIs(Professional), skills);
  }

  /** `project.url || project.source || '#'`. */
  function ProjectLink(p: Project): (link: string)
    ensures link != ""
    ensures p.url != "" ==> link == p.url
    ensures p.url == "" && p.source != "" ==> link == p.source
    ensures p.url == "" && p.source == "" ==> link == "#"
  {
    Or(p.url, Or(p.source, "#"))
  }

  function ProjectCard(p: Project, baseUrl: string): Content.Project {
    Content.Project(
      p.name,
      p.description,
      [],
      if p.image != "" then baseUrl + p.image else DefaultProjectImage,
      ProjectLink(p),
      "")
  }

  /** `mapToProjects`: the projects not explicitly kept off the home page, in order. */
  function MapToProjects(projects: seq<Project>, baseUrl: string): (r: seq<Content.Project>)
    ensures |r| == |Featured(projects)|
    ensures forall i :: 0 <= i < |r| ==>
      var p := Featured(projects)[i];
      && r[i].title == p.name && r[i].blurb == p.description
      && r[i].stack == [] && r[i].highlight == ""
      && (p.image != "" ==> r[i].image == baseUrl + p.image)
      && (p.image == "" ==> r[i].image == DefaultProjectImage)
      && r[i].link == ProjectLink(p)
  {
    Map((p: Project) => ProjectCard(p, baseUrl), Featured(projects))
  }

  function ServiceCard(s: Service): Content.Service {
    Content.Service(s.title, s.summary, s.highlights)
  }

  /** `mapToServices`: one card per service, in order. */
  function MapToServices(services: seq<Service>): (r: seq<Content.Service>)
    ensures |r| == |services|
    ensures forall i :: 0 <= i < |r| ==>
      r[i].title == services[i].title && r[i].description == services[i].summary
      && r[i].outcomes == services[i].highlights
  {
    Map(ServiceCard, services)
  }
}
