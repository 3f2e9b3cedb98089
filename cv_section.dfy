/**
 * The CV section: the year-span and end-year labels of a timeline row, the
 * architect timeline's four lists, the paper view's section items, the
 * choice between compact strip, timeline and paper view, and the toggles
 * (a row's description, a paper section's hover panel, the full-CV modal).
 */
module CvSection {
  import opened Wrappers
  import opened Seqs
  import opened Text
  import opened Personas
  import opened Content
  import opened CoursesSection

  // ─── year labels ─────────────────────────────────────────────────────────

  /** The end year, with `'present'` read as the current year (passed in rather than read from a clock). */
  function EndValue(end: EndYear, currentYear: int): int {
    match end
    case Present => currentYear
    case Year(y) => y
  }

  /** `dur(start, end)`: how many years an entry spans. */
  function Dur(start: int, end: EndYear, currentYear: int): string {
    var y := EndValue(end, currentYear) - start;
    if y == 0 then "< 1 yr"
    else if y == 1 then "1 yr"
    else IntToString(y) + " yrs"
  }

  /** `endLabel`: `Present`, or the year in decimal. */
  function EndLabel(end: EndYear): string {
    match end
    case Present => "Present"
    case Year(y) => IntToString(y)
  }

  // ─── the architect timeline ──────────────────────────────────────────────

  predicate IsEducation(e: CVEntry) { e.kind == Education }

  predicate IsExperience(e: CVEntry) { e.kind == Experience }

  datatype TimelineLists = TimelineLists(
    education: seq<CVEntry>,
    experience: seq<CVEntry>,
    skills: seq<Course>,
    certs: seq<Course>)

  /** `ArchitectTimeline`'s lists; a missing `courses` counts as none. */
  function Timeline(entries: seq<CVEntry>, courses: Option<seq<Course>>): (r: TimelineLists)
    ensures forall i :: 0 <= i < |r.education| ==> r.education[i].kind == Education && r.education[i] in entries
    ensures forall i :: 0 <= i < |r.experience| ==> r.experience[i].kind == Experience && r.experience[i] in entries
    ensures forall i :: 0 <= i < |entries| && entries[i].kind == Education ==> entries[i] in r.education
    ensures forall i :: 0 <= i < |entries| && entries[i].kind == Experience ==> entries[i] in r.experience
    ensures multiset(r.skills) + multiset(r.certs) == multiset(courses.GetOr([]))
    ensures forall i :: 0 <= i < |r.skills| ==> !IsCertified(r.skills[i])
    ensures forall i :: 0 <= i < |r.certs| ==> IsCertified(r.certs[i])
    ensures courses.None? ==> r.skills == [] && r.certs == []
    ensures FilteredFrom(r.education, entries, IsEducation) && FilteredFrom(r.experience, entries, IsExperience)
    ensures FilteredFrom(r.skills, courses.GetOr([]), IsSkill) && FilteredFrom(r.certs, courses.GetOr([]), IsCertified)
  {
    var cs := courses.GetOr([]);
    SkillsAndCertificationsPartition(cs);
    FilterKeepsOrder(entries, IsEducation);
    FilterKeepsOrder(entries, IsExperience);
    TimelineLists(Filter(entries, IsEducation), Filter(entries, IsExperience), Skills(cs), Certifications(cs))
  }

  // ─── the paper view ──────────────────────────────────────────────────────

  /** The marker item that the paper view draws as a rule. */
  const DividerText: string := "—"

  datatype PaperItem = Divider | Line(text: string)

  datatype PaperSectionDef = PaperSectionDef(id: string, heading: string, items: seq<string>)

  /** `PAPER_SECTIONS` (`heading` is `label` in the source). */
  const PaperSections: seq<PaperSectionDef> := [
    PaperSectionDef("academic", "ACADEMIC", [
      "University of Cambridge · Robinson College",
      "BA Architecture · 2023–2026",
      "—",
      "British Council School · Madrid",
      "Bilingual Baccalaureate · 2009–2023",
      "BiBac Prize 2023 · Excellence 2017, 2019"]),
    PaperSectionDef("experience", "EXPERIENCE", [
      "Aluminios Cortizo — Arch. & Eng. Intern · 2025",
      "Carpintería Dimmler — Woodwork · Karlsruhe, 2024",
      "PE Volunteer · Chame, Panama · 2024",
      "Music & Creative Projects · 2020–present",
      "100+ tracks produced · 20M+ streams"]),
    PaperSectionDef("skills", "SKILLS", [
      "CAD: Rhino · Grasshopper · AutoCAD · Unreal Engine",
      "Video/Image: Adobe Suite · Photoshop · InDesign · After Effects · Premiere Pro",
      "Sound: Pro Tools · Logic Pro X · Ableton · FL Studio",
      "Code: Python · C · SQL · JavaScript",
      "Analytical: rapid prototyping · creative problem-solving"]),
    PaperSectionDef("languages", "LANGUAGES", [
      "Spanish — native",
      "English — native · C2",
      "German — native · C2",
      "French — PWP · B2",
      "Catalan — native"]),
    PaperSectionDef("extras", "EXTRAS", [
      "Piano · Municipal School of Music, Madrid · 2013–2021",
      "Award for Piano Excellence · 2017",
      "Harvard CS50x · Computer Science · 2023",
      "RIBA Skill Up · 2022",
      "Divemaster PADI · 2025",
      "Cambridge Rowing · M1 · 2024–2026"])
  ]

  /** One item of a paper section's panel: the divider marker becomes a rule, anything else a line of text. */
  function RenderItem(item: string): PaperItem {
    if item == DividerText then Divider else Line(item)
  }

  /** The text an item stood for. */
  function ItemText(p: PaperItem): string {
    match p
    case Divider => DividerText
    case Line(t) => t
  }

  function PaperItems(items: seq<string>): seq<PaperItem> {
    Map(items, RenderItem)
  }

  // ─── the section ─────────────────────────────────────────────────────────

  datatype CvView =
    | NoCv
    | CompactCv(institution: Option<string>, title: Option<string>)
    | TimelineView(lists: TimelineLists)
    | PaperView

  function InstitutionOf(e: CVEntry): string { e.institution }

  function TitleOf(e: CVEntry): string { e.title }

  function MapOption<T, U>(o: Option<T>, f: T -> U): (r: Option<U>)
    ensures r.Some? <==> o.Some?
    ensures r.Some? ==> r.value == f(o.value)
  {
    match o
    case None => None
    case Some(v) => Some(f(v))
  }

  /** `CVSection`: nothing when hidden; the compact strip; the timeline for the architect inline; the paper view otherwise. */
  function View(variant: SectionVariant, entries: seq<CVEntry>, courses: Option<seq<Course>>,
                standalone: Option<bool>, persona: Option<PersonaSlug>): (r: CvView)
    ensures r.NoCv? <==> variant == Hidden
    ensures r.CompactCv? <==> variant == Compact
    ensures r.CompactCv? ==>
      && (r.institution.Some? <==> exists i :: 0 <= i < |entries| && entries[i].kind == Education)
      && (r.institution.Some? ==> exists i ::
            (0 <= i < |entries| && entries[i].kind == Education && r.institution.value == entries[i].institution &&
             forall j :: 0 <= j < i ==> entries[j].kind != Education))
      && (r.title.Some? <==> exists i :: 0 <= i < |entries| && entries[i].kind == Experience)
      && (r.title.Some? ==> exists i ::
            (0 <= i < |entries| && entries[i].kind == Experience && r.title.value == entries[i].title &&
             forall j :: 0 <= j < i ==> entries[j].kind != Experience))
    ensures r.TimelineView? <==>
      variant != Hidden && variant != Compact && persona == Some(Architect) && !IsSet(standalone)
    ensures r.TimelineView? ==> r.lists == Timeline(entries, courses)
  {
    if variant == Hidden then NoCv
    else if variant == Compact then
      CompactCv(MapOption(Find(entries, IsEducation), InstitutionOf),
                MapOption(Find(entries, IsExperience), TitleOf))
    else if persona == Some(Architect) && !IsSet(standalone) then TimelineView(Timeline(entries, courses))
    else PaperView
  }

  // ─── state ───────────────────────────────────────────────────────────────

  /** A timeline row and its expandable description. */
  class TimelineRow {
    const entry: CVEntry
    var open: bool

    constructor (entry: CVEntry)
      ensures this.entry == entry && !open
    {
      this.entry := entry;
      open := false;
    }

    /** The description shows only when the row is open and the entry has one. */
    predicate ShowsDescription()
      reads this
    {
      open && Truthy(entry.description)
    }

    /** The `+`/`−` button, drawn only for an entry with a description. */
    method Toggle()
      requires Truthy(entry.description)
      modifies this
      ensures open == !old(open)
      ensures ShowsDescription() == !old(ShowsDescription())
    {
      open := !open;
    }
  }

  /** A paper section, whose item panel is open while the mouse is over it. */
  class PaperSectionPanel {
    const section: PaperSectionDef
    var open: bool

    constructor (section: PaperSectionDef)
      ensures this.section == section && !open
    {
      this.section := section;
      open := false;
    }

    method MouseEnter()
      modifies this
      ensures open
    {
      open := true;
    }

    method MouseLeave()
      modifies this
      ensures !open
    {
      open := false;
    }

    /** What the open panel shows. */
    function Shown(): (r: seq<PaperItem>)
      reads this
      ensures open ==> |r| == |section.items|
      ensures open ==> forall i :: 0 <= i < |r| ==>
        ItemText(r[i]) == section.items[i] && (r[i].Divider? <==> section.items[i] == DividerText)
      ensures !open ==> r == []
    {
      if open then PaperItems(section.items) else []
    }
  }

  /** The full-CV modal behind the paper view. */
  class CvModal {
    var modalOpen: bool

    constructor ()
      ensures !modalOpen
    {
      modalOpen := false;
    }

    method OpenModal()
      modifies this
      ensures modalOpen
    {
      modalOpen := true;
    }

    method CloseModal()
      modifies this
      ensures !modalOpen
    {
      modalOpen := false;
    }
  }

  // ─── properties ──────────────────────────────────────────────────────────

  /**
   * The span label names the span: `< 1 yr` exactly for 0, `1 yr` exactly for 1,
   * and for longer spans the digits before ` yrs` read back as the span.
   */
  lemma DurReadsBack(start: int, end: EndYear, currentYear: int)
    requires EndValue(end, currentYear) >= start
    ensures var y := EndValue(end, currentYear) - start;
      var r := Dur(start, end, currentYear);
      && (r == "< 1 yr" <==> y == 0)
      && (r == "1 yr" <==> y == 1)
      && (y >= 2 ==>
            (|r| > 4 && r[|r| - 4..] == " yrs" &&
             (forall i :: 0 <= i < |r| - 4 ==> IsDigit(r[i])) && DigitsValue(r[..|r| - 4]) == y))
  {
    var y := EndValue(end, currentYear) - start;
    var r := Dur(start, end, currentYear);
    if y >= 2 {
      var d := NatToString(y);
      assert r == d + " yrs";
      assert r[..|r| - 4] == d;
      NatToStringRoundTrip(y);
      if y >= 10 {
        assert |NatToString(y / 10)| >= 1;
      }
      assert r != "1 yr" by {
        if |d| == 1 { assert r[0] == d[0]; assert DigitsValue(d) == (d[0] as int - '0' as int); }
      }
      assert r != "< 1 yr" by { assert IsDigit(r[0]); }
    }
  }

  /** Two different non-negative spans never get the same label. */
  lemma DurInjective(start1: int, end1: EndYear, start2: int, end2: EndYear, currentYear: int)
    requires EndValue(end1, currentYear) >= start1 && EndValue(end2, currentYear) >= start2
    requires Dur(start1, end1, currentYear) == Dur(start2, end2, currentYear)
    ensures EndValue(end1, currentYear) - start1 == EndValue(end2, currentYear) - start2
  {
    DurReadsBack(start1, end1, currentYear);
    DurReadsBack(start2, end2, currentYear);
  }

  /** `Present` labels exactly the open-ended entries; a year label reads back as the year. */
  lemma EndLabelReadsBack(end: EndYear)
    ensures EndLabel(end) == "Present" <==> end.Present?
    ensures end.Year? && end.year >= 0 ==>
      (forall i :: 0 <= i < |EndLabel(end)| ==> IsDigit(EndLabel(end)[i])) &&
      DigitsValue(EndLabel(end)) == end.year
  {
    if end.Year? {
      var l := EndLabel(end);
      assert l[0] == '-' || IsDigit(l[0]) by {
        if end.year >= 0 { assert l == NatToString(end.year); }
      }
      if end.year >= 0 {
        NatToStringRoundTrip(end.year);
      }
    }
  }

  /** An award entry is in neither timeline list. */
  lemma AwardsLeftOut(entries: seq<CVEntry>, courses: Option<seq<Course>>, e: CVEntry)
    requires e.kind == Award
    ensures e !in Timeline(entries, courses).education
    ensures e !in Timeline(entries, courses).experience
  {
  }

  /** Rendering an item and reading it back gives the item: no text is lost, and a rule stands only for the marker. */
  lemma PaperItemRoundTrip(items: seq<string>)
    ensures |PaperItems(items)| == |items|
    ensures forall i :: 0 <= i < |items| ==> ItemText(PaperItems(items)[i]) == items[i]
    ensures forall i :: 0 <= i < |items| ==> (PaperItems(items)[i].Divider? <==> items[i] == DividerText)
  {
  }

  /** The academic section has exactly one rule, its third item, between the university and the school. */
  lemma AcademicDivider()
    ensures PaperItems(PaperSections[0].items)[2] == Divider
    ensures forall i :: 0 <= i < |PaperSections[0].items| && i != 2 ==> PaperItems(PaperSections[0].items)[i].Line?
  {
  }
}
