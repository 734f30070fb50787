/**
 * The derivations behind the home page: the experience timeline, the
 * featured projects and their "view all" link, current certifications,
 * the years-of-experience figure and hero stats, the header initials,
 * summary truncation, and how image and download URLs are resolved
 * against the API base URL.
 *
 * The API base URL and the current year are parameters; whether a
 * certificate's end date lies in the future is a predicate parameter.
 */
module HomePage {
  import opened Wrappers
  import opened Seqs
  import opened JsText
  import opened Api
  import DataMapper

  /** How many experiences and featured projects the home page shows. */
  const ShownLimit: nat := 6
  /** Experiences per timeline column. */
  const ColumnSize: nat := 3
  /** How many characters of a summary the timeline shows. */
  const SummaryLimit: nat := 200
  const Ellipsis := "..."

  // ---------------------------------------------------------------------
  // selections

  /** `experiences`: the first six experience items of the résumé, in order. */
  function Experiences(resume: seq<ResumeItem>): (r: seq<ResumeItem>)
    ensures |r| == MinNat(ShownLimit, |OfType(resume, Experience)|)
    ensures r == OfType(resume, Experience)[..|r|]
    ensures forall i :: 0 <= i < |r| ==> r[i].kind == Experience && r[i] in resume
    ensures |OfType(resume, Experience)| <= ShownLimit ==> r == OfType(resume, Experience)
  {
    PrefixSlice(OfType(resume, Experience), ShownLimit);
    Slice(OfType(resume, Experience), 0, ShownLimit)
  }

  /** `featuredProjects`: the first six projects not explicitly kept off the home page, in order. */
  function FeaturedProjects(projects: seq<Project>): (r: seq<Project>)
    ensures |r| == MinNat(ShownLimit, |Featured(projects)|)
    ensures r == Featured(projects)[..|r|]
    ensures forall i :: 0 <= i < |r| ==> r[i].featuredOnHome != Some(false) && r[i] in projects
    ensures |Featured(projects)| <= ShownLimit ==> r == Featured(projects)
  {
    PrefixSlice(Featured(projects), ShownLimit);
    Slice(Featured(projects), 0, ShownLimit)
  }

  /** Whether the "View all projects" block is shown: some project is not on the home page. */
  predicate ShowAllProjectsLink(projects: seq<Project>) {
    |projects| > |FeaturedProjects(projects)|
  }

  /**
   * The block is shown exactly when some project is explicitly kept off
   * the home page or more than six remain featured.
   */
  lemma ShowAllProjectsLinkIff(projects: seq<Project>)
    ensures ShowAllProjectsLink(projects) <==>
      (exists i :: 0 <= i < |projects| && projects[i].featuredOnHome == Some(false))
      || |Featured(projects)| > ShownLimit
  {
    FilterShorterIffRejects(IsFeatured, projects);
    if exists i :: 0 <= i < |projects| && projects[i].featuredOnHome == Some(false) {
      var i :| 0 <= i < |projects| && projects[i].featuredOnHome == Some(false);
      assert !IsFeatured(projects[i]);
    }
    if exists i :: 0 <= i < |projects| && !IsFeatured(projects[i]) {
      var i :| 0 <= i < |projects| && !IsFeatured(projects[i]);
      assert projects[i].featuredOnHome == Some(false);
    }
  }

  /**
   * `currentCertifications`: the certification items whose end is empty
   * or, by the given test, still in the future.
   */
  function CurrentCertifications(resume: seq<ResumeItem>, notExpired: string -> bool): (r: seq<ResumeItem>)
    ensures forall x :: x in r <==> x in resume && x.kind == Certifications && (x.end == "" || notExpired(x.end))
    ensures forall i :: 0 <= i < |r| ==> r[i].kind == Certifications
    ensures |r| <= |OfType(resume, Certifications)|
  {
    Filter(Unexpired(notExpired), OfType(resume, Certifications))
  }

  /** The second filter of `currentCertifications`: no end date, or one the test accepts. */
  function Unexpired(notExpired: string -> bool): ResumeItem -> bool {
    (cert: ResumeItem) => cert.end == "" || notExpired(cert.end)
  }

  /** The current certifications keep the résumé's order: the selection commutes with concatenation. */
  lemma CurrentCertificationsConcat(a: seq<ResumeItem>, b: seq<ResumeItem>, notExpired: string -> bool)
    ensures CurrentCertifications(a + b, notExpired)
            == CurrentCertifications(a, notExpired) + CurrentCertifications(b, notExpired)
  {
    OfTypeConcat(a, b, Certifications);
    FilterConcat(Unexpired(notExpired), OfType(a, Certifications), OfType(b, Certifications));
  }

  /** A current certification occurs as often as in the résumé; any other item never. */
  lemma CurrentCertificationsMultiset(resume: seq<ResumeItem>, notExpired: string -> bool)
    ensures forall x :: (multiset(CurrentCertifications(resume, notExpired))[x]
      == if x.kind == Certifications && (x.end == "" || notExpired(x.end)) then multiset(resume)[x] else 0)
  {
    FilterMultiset(KindIs(Certifications), resume);
    FilterMultiset(Unexpired(notExpired), OfType(resume, Certifications));
  }

  /** A certification with no end date is current whatever the expiry test says. */
  lemma OpenCertificationIsCurrent(resume: seq<ResumeItem>, notExpired: string -> bool, i: nat)
    requires i < |resume| && resume[i].kind == Certifications && resume[i].end == ""
    ensures resume[i] in CurrentCertifications(resume, notExpired)
  {
  }

  // ---------------------------------------------------------------------
  // timeline

  /** The first timeline column: the first three experiences. */
  function FirstColumn(experiences: seq<ResumeItem>): (r: seq<ResumeItem>)
    ensures r == experiences[..MinNat(ColumnSize, |experiences|)]
  {
    PrefixSlice(experiences, ColumnSize);
    Slice(experiences, 0, ColumnSize)
  }

  /** The second timeline column, present only when there are more than three experiences. */
  function SecondColumn(experiences: seq<ResumeItem>): (r: Option<seq<ResumeItem>>)
    ensures r.Some? <==> |experiences| > ColumnSize
    ensures r.Some? ==> r.value == experiences[ColumnSize..MinNat(2 * ColumnSize, |experiences|)]
  {
    if |experiences| > ColumnSize then Some(Slice(experiences, ColumnSize, 2 * ColumnSize)) else None
  }

  /** The two columns show the home page's experiences once each, in order. */
  lemma ColumnsShowExperiences(resume: seq<ResumeItem>)
    ensures var exps := Experiences(resume);
      FirstColumn(exps) + SecondColumn(exps).GetOr([]) == exps
  {
    var exps := Experiences(resume);
    if |exps| > ColumnSize {
      assert exps[..ColumnSize] + exps[ColumnSize..|exps|] == exps;
    }
  }

  /**
   * The summary line of a timeline entry: its first 200 characters, then
   * `...` when it is longer; nothing when the summary is absent.
   */
  function SummaryText(summary: Option<string>): (r: string)
    ensures summary.None? ==> r == ""
    ensures forall s :: summary == Some(s) && |s| <= SummaryLimit ==> r == s
    ensures forall s :: summary == Some(s) && |s| > SummaryLimit ==> r == s[..SummaryLimit] + Ellipsis
    ensures |r| <= SummaryLimit + |Ellipsis|
  {
    match summary
    case None => ""
    case Some(s) =>
      Substring(s, 0, SummaryLimit) + (if s != "" && |s| > SummaryLimit then Ellipsis else "")
  }

  /** A truncated summary is recognisable: it ends in `...` and starts with the summary's first 200 characters. */
  lemma SummaryTextTruncates(s: string)
    ensures var r := SummaryText(Some(s));
      (|r| > SummaryLimit ==> |s| > SummaryLimit && r[..SummaryLimit] == s[..SummaryLimit] && r[SummaryLimit..] == Ellipsis)
      && (|r| <= SummaryLimit ==> r == s)
  {
  }

  // ---------------------------------------------------------------------
  // years of experience and stats

  /**
   * `yearsExperience`: the current year minus the earliest start year,
   * over the home page's experiences only; none (`-Infinity`) when there
   * is no experience.
   */
  function YearsExperience(resume: seq<ResumeItem>, currentYear: int): (r: Option<int>)
    ensures r.None? <==> OfType(resume, Experience) == []
    ensures var shown := Experiences(resume);
      r.Some? ==> exists i :: 0 <= i < |shown| && r.value == currentYear - DataMapper.StartYear(shown[i].start, currentYear)
    ensures var shown := Experiences(resume);
      r.Some? ==> forall i :: 0 <= i < |shown| ==> r.value >= currentYear - DataMapper.StartYear(shown[i].start, currentYear)
  {
    DataMapper.YearsOfExperience(Experiences(resume), currentYear)
  }

  /**
   * The home page counts from the first six experiences only, so its
   * figure is never above the content mapper's, and equals it when there
   * are at most six.
   */
  lemma YearsExperienceAtMostMapper(resume: seq<ResumeItem>, currentYear: int)
    ensures var home := YearsExperience(resume, currentYear);
      var all := DataMapper.YearsOfExperience(OfType(resume, Experience), currentYear);
      (home.Some? <==> all.Some?)
      && (home.Some? ==> home.value <= all.value)
      && (|OfType(resume, Experience)| <= ShownLimit ==> home == all)
  {
    var exps := OfType(resume, Experience);
    var shown := Experiences(resume);
    assert shown == exps[..|shown|];
    DataMapper.PrefixYearsAtMost(exps, |shown|, currentYear);
  }

  /** The three hero figures: years (`-Infinity` when there is none), project count, company count. */
  function HeroStats(data: SiteData, currentYear: int): (r: seq<string>)
    ensures |r| == 3
    ensures ParseInt(r[0]) == YearsExperience(data.resume, currentYear)
    ensures ParseInt(r[1]) == Some(|data.projects|)
    ensures ParseInt(r[2]) == Some(MinNat(ShownLimit, |OfType(data.resume, Experience)|))
  {
    var years := YearsExperience(data.resume, currentYear);
    var companies := |Experiences(data.resume)|;
    DataMapper.StatTextsParse(years, |data.projects|, companies);
    [DataMapper.YearsText(years) + "+", IntToString(|data.projects|) + "+", IntToString(companies)]
  }

  // ---------------------------------------------------------------------
  // initials

  /** The header logo: the first character of each space-separated piece of the name. */
  function Initials(name: string): (r: string)
    ensures ' ' !in r
    ensures |r| <= |Split(name, ' ')|
  {
    InitialsAreWordStarts(name);
    FirstChars(Split(name, ' '))
  }

  /**
   * The characters that start a word: not a space, and first or right
   * after a space. `afterSpace` says whether the text before s ended in a
   * space (or there was none).
   */
  function WordStarts(s: string, afterSpace: bool): (r: string)
    ensures ' ' !in r
    decreases |s|
  {
    if s == [] then []
    else (if afterSpace && s[0] != ' ' then [s[0]] else []) + WordStarts(s[1..], s[0] == ' ')
  }

  /** The initials are exactly the word-start characters: repeated, leading and trailing spaces add nothing. */
  lemma InitialsAreWordStarts(name: string)
    ensures FirstChars(Split(name, ' ')) == WordStarts(name, true)
  {
    SplitHeads(name);
  }

  lemma {:induction false} SplitHeads(s: string)
    ensures FirstChars(Split(s, ' ')) == WordStarts(s, true)
    ensures FirstChars(Split(s, ' ')[1..]) == WordStarts(s, false)
    decreases |s|
  {
    if s == [] {
    } else if s[0] == ' ' {
      SplitHeads(s[1..]);
      var rest := Split(s[1..], ' ');
      assert Split(s, ' ') == [[]] + rest;
      assert ([[]] + rest)[1..] == rest;
    } else {
      SplitHeads(s[1..]);
      var rest := Split(s[1..], ' ');
      var pieces := [[s[0]] + rest[0]] + rest[1..];
      assert Split(s, ' ') == pieces;
      assert pieces[1..] == rest[1..];
      assert pieces[0][0] == s[0];
    }
  }

  // ---------------------------------------------------------------------
  // URLs

  /** A URL starting with `http` is used as it is; anything else is taken relative to the API base URL. */
  function ResolveUrl(url: string, baseUrl: string): (r: string)
    ensures StartsWith(url, "http") ==> r == url
    ensures !StartsWith(url, "http") ==> r == baseUrl + url
    ensures StartsWith(baseUrl, "http") ==> StartsWith(r, "http")
  {
    if StartsWith(url, "http") then url else baseUrl + url
  }

  /** Against an absolute base URL, resolving a resolved URL changes nothing. */
  lemma ResolveUrlIdempotent(url: string, baseUrl: string)
    requires StartsWith(baseUrl, "http")
    ensures ResolveUrl(ResolveUrl(url, baseUrl), baseUrl) == ResolveUrl(url, baseUrl)
  {
  }

  /** The image of a project card: the resolved image URL, or the fixed default when there is none. */
  function ProjectImage(p: Project, baseUrl: string): (r: string)
    ensures p.image == "" ==> r == DataMapper.DefaultProjectImage
    ensures p.image != "" ==> r == ResolveUrl(p.image, baseUrl)
    ensures StartsWith(baseUrl, "http") ==> StartsWith(r, "http")
  {
    assert DataMapper.DefaultProjectImage[..4] == "http";
    if p.image != "" then ResolveUrl(p.image, baseUrl) else DataMapper.DefaultProjectImage
  }

  /**
   * The home page and the content mapper pick the same project image
   * unless the image is already absolute: the mapper prefixes the base
   * URL without looking.
   */
  lemma ProjectImageAgreesWithMapper(p: Project, baseUrl: string)
    ensures !StartsWith(p.image, "http") ==> ProjectImage(p, baseUrl) == DataMapper.ProjectCard(p, baseUrl).image
    ensures StartsWith(p.image, "http") && baseUrl != "" ==> ProjectImage(p, baseUrl) != DataMapper.ProjectCard(p, baseUrl).image
  {
    if StartsWith(p.image, "http") && baseUrl != "" {
      assert |baseUrl + p.image| > |p.image|;
    }
  }

  /** The "Download resume" link: shown only for a non-empty download URL, which is then resolved. */
  function ResumeDownloadHref(profile: Profile, baseUrl: string): (r: Option<string>)
    ensures r.Some? <==> Truthy(profile.resumeDownloadUrl)
    ensures r.Some? ==> r.value == ResolveUrl(profile.resumeDownloadUrl.value, baseUrl)
  {
    match profile.resumeDownloadUrl
    case Some(u) => if u != "" then Some(ResolveUrl(u, baseUrl)) else None
    case None => None
  }
}
