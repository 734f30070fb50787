/**
 * The site's data model: the aggregate object the backend serves at
 * `/api/public/data`, and the selections of it that several pages share.
 * Absent optional fields (`field?: string`) are None. The field `type` of
 * a résumé item is called `kind` here, `type` being reserved in Dafny.
 */
module Api {
  import opened Wrappers
  import opened Seqs

  datatype Profile = Profile(
    name: string,
    title: string,
    bio: string,
    location: string,
    email: string,
    githubUsername: string,
    linkedInUsername: string,
    photo: string,
    resumeDownloadUrl: Option<string>)

  datatype ResumeType = Experience | Education | Awards | Certifications

  /**
   * One entry of the résumé. `summary` is declared required, but every
   * reader tolerates its absence (`summary || ''`, `summary?.substring`,
   * and an unguarded JSX read renders nothing), so it may be absent here.
   */
  datatype ResumeItem = ResumeItem(
    kind: ResumeType,
    company: Option<string>,
    role: Option<string>,
    location: Option<string>,
    start: string,
    end: string,
    summary: Option<string>,
    school: Option<string>,
    degree: Option<string>,
    organization: Option<string>,
    award: Option<string>,
    certification: Option<string>,
    issuer: Option<string>,
    credentialId: Option<string>,
    credentialUrl: Option<string>,
    logo: Option<string>)

  datatype Project = Project(
    name: string,
    description: string,
    image: string,
    url: string,
    source: string,
    featuredOnHome: Option<bool>)

  datatype Service = Service(title: string, summary: string, highlights: seq<string>)

  datatype SkillCategory = Technical | Professional

  datatype Skill = Skill(name: string, level: string, category: SkillCategory)

  datatype PostStatus = Draft | Published

  datatype BlogPost = BlogPost(
    id: string,
    title: string,
    slug: string,
    date: string,
    excerpt: string,
    content: string,
    tags: seq<string>,
    status: PostStatus,
    featuredImage: Option<string>)

  /** `blogPosts` is declared required; the content mapper still guards its absence. */
  datatype SiteData = SiteData(
    profile: Profile,
    resume: seq<ResumeItem>,
    projects: seq<Project>,
    services: seq<Service>,
    skills: seq<Skill>,
    blogEnabled: bool,
    blogPosts: Option<seq<BlogPost>>,
    colorTheme: string,
    theme: string,
    setupCompleted: bool)

  // ---------------------------------------------------------------------
  // shared selections

  function KindIs(t: ResumeType): ResumeItem -> bool {
    (item: ResumeItem) => item.kind == t
  }

  /** `resume.filter(item => item.type === t)`. */
  function OfType(resume: seq<ResumeItem>, t: ResumeType): (r: seq<ResumeItem>)
    ensures forall x :: x in r <==> x in resume && x.kind == t
    ensures forall i :: 0 <= i < |r| ==> r[i].kind == t
    ensures |r| <= |resume|
  {
    Filter(KindIs(t), resume)
  }

  /** Selecting by type keeps the résumé's order: it commutes with concatenation. */
  lemma OfTypeConcat(a: seq<ResumeItem>, b: seq<ResumeItem>, t: ResumeType)
    ensures OfType(a + b, t) == OfType(a, t) + OfType(b, t)
  {
    FilterConcat(KindIs(t), a, b);
  }

  /** The four types partition the résumé: every item lands in exactly one list. */
  lemma TypesPartition(resume: seq<ResumeItem>)
    ensures multiset(OfType(resume, Experience)) + multiset(OfType(resume, Education))
            + multiset(OfType(resume, Awards)) + multiset(OfType(resume, Certifications))
            == multiset(resume)
    ensures |OfType(resume, Experience)| + |OfType(resume, Education)|
            + |OfType(resume, Awards)| + |OfType(resume, Certifications)| == |resume|
  {
    var e, d, a, c := OfType(resume, Experience), OfType(resume, Education), OfType(resume, Awards), OfType(resume, Certifications);
    FilterMultiset(KindIs(Experience), resume);
    FilterMultiset(KindIs(Education), resume);
    FilterMultiset(KindIs(Awards), resume);
    FilterMultiset(KindIs(Certifications), resume);
    var sum := multiset(e) + multiset(d) + multiset(a) + multiset(c);
    forall y ensures sum[y] == multiset(resume)[y] {
      assert KindIs(y.kind)(y);
    }
    assert sum == multiset(resume);
    assert |sum| == |e| + |d| + |a| + |c|;
  }

  function CategoryIs(c: SkillCategory): Skill -> bool {
    (skill: Skill) => skill.category == c
  }

  /** `skills.filter(s => s.category === c)`. */
  function InCategory(skills: seq<Skill>, c: SkillCategory): (r: seq<Skill>)
    ensures forall x :: x in r <==> x in skills && x.category == c
    ensures forall i :: 0 <= i < |r| ==> r[i].category == c
    ensures |r| <= |skills|
  {
    Filter(CategoryIs(c), skills)
  }

  lemma InCategoryConcat(a: seq<Skill>, b: seq<Skill>, c: SkillCategory)
    ensures InCategory(a + b, c) == InCategory(a, c) + InCategory(b, c)
  {
    FilterConcat(CategoryIs(c), a, b);
  }

  /** The two categories partition the skills. */
  lemma CategoriesPartition(skills: seq<Skill>)
    ensures multiset(InCategory(skills, Technical)) + multiset(InCategory(skills, Professional)) == multiset(skills)
    ensures |InCategory(skills, Technical)| + |InCategory(skills, Professional)| == |skills|
  {
    var t, p := InCategory(skills, Technical), InCategory(skills, Professional);
    FilterMultiset(CategoryIs(Technical), skills);
    FilterMultiset(CategoryIs(Professional), skills);
    forall y ensures (multiset(t) + multiset(p))[y] == multiset(skills)[y] {
      assert CategoryIs(y.category)(y);
    }
    assert multiset(t) + multiset(p) == multiset(skills);
    assert |multiset(t) + multiset(p)| == |t| + |p|;
  }

  /** `p.featuredOnHome !== false`: only an explicit `false` keeps a project off the home page. */
  predicate IsFeatured(p: Project) {
    p.featuredOnHome != Some(false)
  }

  /** `projects.filter(p => p.featuredOnHome !== false)`. */
  function Featured(projects: seq<Project>): (r: seq<Project>)
    ensures forall x :: x in r <==> x in projects && x.featuredOnHome != Some(false)
    ensures |r| <= |projects|
  {
    Filter(IsFeatured, projects)
  }

  lemma FeaturedConcat(a: seq<Project>, b: seq<Project>)
    ensures Featured(a + b) == Featured(a) + Featured(b)
  {
    FilterConcat(IsFeatured, a, b);
  }
}
