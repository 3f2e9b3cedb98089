/**
 * The courses section: the split of the courses into skills (no certificate
 * link) and certifications (with one), and what each variant shows.
 */
module CoursesSection {
  import opened Wrappers
  import opened Seqs
  import opened Personas
  import opened Content

  /** `!!c.certificateUrl`. */
  predicate IsCertified(c: Course) {
    Truthy(c.certificateUrl)
  }

  predicate IsSkill(c: Course) {
    !IsCertified(c)
  }

  /** `courses.filter((c) => !c.certificateUrl)`. */
  function Skills(courses: seq<Course>): seq<Course> {
    Filter(courses, IsSkill)
  }

  /** `courses.filter((c) => !!c.certificateUrl)`. */
  function Certifications(courses: seq<Course>): seq<Course> {
    Filter(courses, IsCertified)
  }

  /** The class of the section box outside the compact strip. */
  datatype SectionStyle = FeaturedStyle | StandardStyle

  datatype CoursesView =
    | NoCourses
    | CompactCounts(certCount: nat, skillCount: nat)
    | FullCourses(style: SectionStyle, skills: seq<Course>, certs: seq<Course>,
                  showSkills: bool, showCerts: bool)

  /** The section for one variant. */
  function View(variant: SectionVariant, courses: seq<Course>): (r: CoursesView)
    ensures r.NoCourses? <==> variant == Hidden
    ensures r.CompactCounts? <==> variant == Compact
    ensures r.CompactCounts? ==> r.certCount == |Certifications(courses)| && r.skillCount == |Skills(courses)|
    ensures r.CompactCounts? ==> r.certCount + r.skillCount == |courses|
    ensures r.FullCourses? ==>
      && (r.style == FeaturedStyle <==> variant == Featured)
      && (r.showSkills <==> exists i :: 0 <= i < |courses| && IsSkill(courses[i]))
      && (r.showCerts <==> exists i :: 0 <= i < |courses| && IsCertified(courses[i]))
      && r.skills == Skills(courses) && r.certs == Certifications(courses)
  {
    if variant == Hidden then NoCourses
    else
      var skills := Skills(courses);
      var certs := Certifications(courses);
      SkillsAndCertificationsPartition(courses);
      if variant == Compact then CompactCounts(|certs|, |skills|)
      else
        FullCourses(if variant == Featured then FeaturedStyle else StandardStyle,
          skills, certs, |skills| > 0, |certs| > 0)
  }

  // ─── properties ───────────────────────────────────────────────────────────

  /**
   * Skills and certifications are disjoint and together hold every course once;
   * each keeps the courses' order, being a filter.
   */
  lemma SkillsAndCertificationsPartition(courses: seq<Course>)
    ensures |Skills(courses)| + |Certifications(courses)| == |courses|
    ensures multiset(Skills(courses)) + multiset(Certifications(courses)) == multiset(courses)
    ensures forall i :: 0 <= i < |Skills(courses)| ==> !IsCertified(Skills(courses)[i])
    ensures forall i :: 0 <= i < |Certifications(courses)| ==> IsCertified(Certifications(courses)[i])
    ensures FilteredFrom(Skills(courses), courses, IsSkill)
    ensures FilteredFrom(Certifications(courses), courses, IsCertified)
  {
    FilterSplit(courses, IsSkill, IsCertified);
    FilterKeepsOrder(courses, IsSkill);
    FilterKeepsOrder(courses, IsCertified);
  }

  /** On the site's courses the compact strip reads 2 certs and 3 skills. */
  lemma CompactCoursesCounts()
    ensures View(Compact, Content.Courses) == CompactCounts(2, 3)
  {
    CertifiedCourses();
    var cs := Content.Courses;
    assert Certifications(cs) == [cs[1], cs[4]] by {
      assert Certifications(cs) == Filter(cs[..1], IsCertified) + Filter(cs[1..], IsCertified) by {
        assert cs == cs[..1] + cs[1..];
        FilterConcat(cs[..1], cs[1..], IsCertified);
      }
    }
  }
}
