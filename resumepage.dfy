/**
 * The résumé page: the résumé split by item type, the skills split by
 * category, and which sections the page renders.
 */
module ResumePage {
  import opened Seqs
  import opened Api

  datatype Sections = Sections(
    experiences: seq<ResumeItem>,
    education: seq<ResumeItem>,
    awards: seq<ResumeItem>,
    certifications: seq<ResumeItem>,
    technical: seq<Skill>,
    professional: seq<Skill>)

  /**
   * The page's lists: each holds exactly the items of its type (or the
   * skills of its category), in input order, and together they hold the
   * résumé (the skills) once each.
   */
  function ResumeSections(data: SiteData): (r: Sections)
    ensures forall x :: x in r.experiences <==> x in data.resume && x.kind == Experience
    ensures forall x :: x in r.education <==> x in data.resume && x.kind == Education
    ensures forall x :: x in r.awards <==> x in data.resume && x.kind == Awards
    ensures forall x :: x in r.certifications <==> x in data.resume && x.kind == Certifications
    ensures multiset(r.experiences) + multiset(r.education) + multiset(r.awards) + multiset(r.certifications)
            == multiset(data.resume)
    ensures |r.experiences| + |r.education| + |r.awards| + |r.certifications| == |data.resume|
    ensures forall s :: s in r.technical <==> s in data.skills && s.category == Technical
    ensures forall s :: s in r.professional <==> s in data.skills && s.category == Professional
    ensures multiset(r.technical) + multiset(r.professional) == multiset(data.skills)
    ensures |r.technical| + |r.professional| == |data.skills|
    ensures r.experiences == OfType(data.resume, Experience) && r.education == OfType(data.resume, Education)
    ensures r.awards == OfType(data.resume, Awards) && r.certifications == OfType(data.resume, Certifications)
    ensures r.technical == InCategory(data.skills, Technical) && r.professional == InCategory(data.skills, Professional)
  {
    TypesPartition(data.resume);
    CategoriesPartition(data.skills);
    Sections(
      OfType(data.resume, Experience),
      OfType(data.resume, Education),
      OfType(data.resume, Awards),
      OfType(data.resume, Certifications),
      InCategory(data.skills, Technical),
      InCategory(data.skills, Professional))
  }

  /**
   * The page's sections, in page order, headed "Experience", "Education",
   * "Certifications", "Awards & Recognition" and "Skills"; the last two
   * are the sub-sections "Technical Stack" and "Professional Strengths"
   * of Skills.
   */
  datatype Section =
    | ExperienceSection
    | EducationSection
    | CertificationsSection
    | AwardsSection
    | SkillsSection
    | TechnicalSection
    | ProfessionalSection

  /** The position of a section on the page. */
  function Rank(s: Section): nat {
    match s
    case ExperienceSection => 0
    case EducationSection => 1
    case CertificationsSection => 2
    case AwardsSection => 3
    case SkillsSection => 4
    case TechnicalSection => 5
    case ProfessionalSection => 6
  }

  /** Each section comes before every section placed lower on the page. */
  predicate InPageOrder(r: seq<Section>) {
    forall i, j :: 0 <= i < j < |r| ==> Rank(r[i]) < Rank(r[j])
  }

  /** In page order, and every section placed below position k. */
  predicate OrderedBelow(r: seq<Section>, k: int) {
    InPageOrder(r) && forall i :: 0 <= i < |r| ==> k < Rank(r[i])
  }

  /** `s` followed by the later sections when it is shown, the later sections alone when not. */
  function SectionIf(shown: bool, s: Section, later: seq<Section>): (r: seq<Section>)
    ensures forall x :: x in r <==> (shown && x == s) || x in later
  {
    if shown then [s] + later else later
  }

  /** Putting a section above sections placed below it keeps page order. */
  lemma SectionIfOrdered(shown: bool, s: Section, later: seq<Section>)
    requires OrderedBelow(later, Rank(s))
    ensures OrderedBelow(SectionIf(shown, s, later), Rank(s) - 1)
  {
  }

  /** The sections in page order (LayoutInPageOrder), each present iff its flag is set. */
  function Layout(experience: bool, education: bool, certifications: bool, awards: bool,
                  skills: bool, technical: bool, professional: bool): (r: seq<Section>)
    ensures ExperienceSection in r <==> experience
    ensures EducationSection in r <==> education
    ensures CertificationsSection in r <==> certifications
    ensures AwardsSection in r <==> awards
    ensures SkillsSection in r <==> skills
    ensures TechnicalSection in r <==> technical
    ensures ProfessionalSection in r <==> professional
  {
    SectionIf(experience, ExperienceSection,
    SectionIf(education, EducationSection,
    SectionIf(certifications, CertificationsSection,
    SectionIf(awards, AwardsSection,
    SectionIf(skills, SkillsSection,
    SectionIf(technical, TechnicalSection,
    SectionIf(professional, ProfessionalSection, [])))))))
  }

  /** Whichever sections are shown, they come in page order. */
  lemma LayoutInPageOrder(experience: bool, education: bool, certifications: bool, awards: bool,
                          skills: bool, technical: bool, professional: bool)
    ensures InPageOrder(Layout(experience, education, certifications, awards, skills, technical, professional))
  {
    SectionIfOrdered(professional, ProfessionalSection, []);
    var t6 := SectionIf(professional, ProfessionalSection, []);
    SectionIfOrdered(technical, TechnicalSection, t6);
    var t5 := SectionIf(technical, TechnicalSection, t6);
    SectionIfOrdered(skills, SkillsSection, t5);
    var t4 := SectionIf(skills, SkillsSection, t5);
    SectionIfOrdered(awards, AwardsSection, t4);
    var t3 := SectionIf(awards, AwardsSection, t4);
    SectionIfOrdered(certifications, CertificationsSection, t3);
    var t2 := SectionIf(certifications, CertificationsSection, t3);
    SectionIfOrdered(education, EducationSection, t2);
    var t1 := SectionIf(education, EducationSection, t2);
    SectionIfOrdered(experience, ExperienceSection, t1);
  }

  /** The sections the page renders, in page order: each is rendered iff its list is non-empty. */
  function RenderedSections(data: SiteData): (r: seq<Section>)
    ensures ExperienceSection in r <==> OfType(data.resume, Experience) != []
    ensures EducationSection in r <==> OfType(data.resume, Education) != []
    ensures CertificationsSection in r <==> OfType(data.resume, Certifications) != []
    ensures AwardsSection in r <==> OfType(data.resume, Awards) != []
    ensures SkillsSection in r <==> data.skills != []
    ensures TechnicalSection in r <==> InCategory(data.skills, Technical) != []
    ensures ProfessionalSection in r <==> InCategory(data.skills, Professional) != []
    ensures InPageOrder(r)
  {
    var hasSkills := data.skills != [];
    var technical := InCategory(data.skills, Technical) != [];
    var professional := InCategory(data.skills, Professional) != [];
    assert technical ==> hasSkills by {
      if technical { assert InCategory(data.skills, Technical)[0] in data.skills; }
    }
    assert professional ==> hasSkills by {
      if professional { assert InCategory(data.skills, Professional)[0] in data.skills; }
    }
    LayoutInPageOrder(
      OfType(data.resume, Experience) != [],
      OfType(data.resume, Education) != [],
      OfType(data.resume, Certifications) != [],
      OfType(data.resume, Awards) != [],
      hasSkills,
      hasSkills && technical,
      hasSkills && professional);
    Layout(
      OfType(data.resume, Experience) != [],
      OfType(data.resume, Education) != [],
      OfType(data.resume, Certifications) != [],
      OfType(data.resume, Awards) != [],
      hasSkills,
      hasSkills && technical,
      hasSkills && professional)
  }

  /**
   * The skills section is rendered exactly when one of its two
   * sub-sections is, since every skill is technical or professional.
   */
  lemma SkillsShownIffSubsection(data: SiteData)
    ensures var r := RenderedSections(data);
      SkillsSection in r <==> TechnicalSection in r || ProfessionalSection in r
  {
    CategoriesPartition(data.skills);
  }
}
