/**
 * The content records and the static collections the site renders.
 * Optional fields of the records are `Option`s; the collections are constants.
 */
module Content {
  import opened Wrappers
  import opened Seqs

  /** JavaScript truthiness of an optional string: present and non-empty. */
  predicate Truthy(o: Option<string>) {
    o.Some? && o.value != ""
  }

  /** JavaScript truthiness of an optional boolean flag. */
  predicate IsSet(o: Option<bool>) {
    o == Some(true)
  }

  datatype StudioProject = StudioProject(
    id: string,
    title: string,
    studio: string,
    semester: string,
    year: int,
    description: string,
    tags: seq<string>,
    coverImage: string,
    videoUrl: Option<string>,
    images: Option<seq<string>>,
    pdfUrl: Option<string>,
    awards: Option<seq<string>>)

  datatype Paper = Paper(
    id: string,
    title: string,
    subtitle: Option<string>,
    course: string,
    year: int,
    paperAbstract: string,  // `abstract` in the source
    tags: seq<string>,
    pdfUrl: Option<string>)

  datatype CVEntryType = Education | Experience | Award

  /** `endYear: number | 'present'`. */
  datatype EndYear = Year(year: int) | Present

  datatype CVEntry = CVEntry(
    id: string,
    kind: CVEntryType,
    title: string,
    institution: string,
    location: string,
    startYear: int,
    endYear: EndYear,
    description: Option<string>)

  datatype Course = Course(
    id: string,
    title: string,
    provider: string,
    year: int,
    category: string,
    certificateUrl: Option<string>)

  datatype MusicCredit = Mixed | Mastered | Produced | Written

  datatype MusicProject = MusicProject(
    id: string,
    artistName: string,
    client: Option<string>,
    title: string,
    year: int,
    role: string,
    description: string,
    genres: seq<string>,
    isPublic: bool,
    isOwn: Option<bool>,
    coverImage: Option<string>,
    spotifyUrl: Option<string>,
    listenUrl: Option<string>,
    credits: Option<seq<MusicCredit>>)

  datatype PerformanceType = Recital | Band | Session | Competition

  datatype Performance = Performance(
    id: string,
    kind: PerformanceType,
    title: string,
    venue: string,
    city: string,
    date: string,
    role: string,
    ensemble: Option<string>,
    program: Option<seq<string>>,
    videoUrl: Option<string>,
    photo: Option<string>,
    isFeatured: Option<bool>)

  datatype ArtMedium = Drawing | Painting | Digital | MixedMedia | Photography

  datatype ArtPiece = ArtPiece(
    id: string,
    title: string,
    year: int,
    medium: ArtMedium,
    dimensions: Option<string>,
    description: Option<string>,
    image: string,
    series: Option<string>)

  datatype ReleaseType = Single | EP | Album

  datatype StreamingUrls = StreamingUrls(
    spotify: Option<string>,
    appleMusic: Option<string>,
    soundcloud: Option<string>,
    bandcamp: Option<string>)

  datatype EmisitoRelease = EmisitoRelease(
    id: string,
    title: string,
    year: int,
    kind: ReleaseType,
    description: string,
    coverImage: string,
    streamingUrls: StreamingUrls)

  // ─── the collections ───────────────────────────────────────────────────────

  const StudioProjects: seq<StudioProject> := [
    StudioProject("s1", "Futuristic Clubhouse", "Design Studio II", "Easter 2025", 2025,
      "A wellness centre for preventative healthcare in Bottisham (Cambridgeshire)",
      ["Commercial", "Spatial", "Materiality"], "/images/studio/FC/FC1.png",
      Some("/videos/tourMOCKHeatherwick.mp4"),
      Some(["/images/studio/FC/FC1_1.png", "/images/studio/FC/FC1_2.png", "/images/studio/FC/FCb_3.png",
            "/images/studio/FC/FCb_4.png", "/images/studio/FC/FC2.png", "/images/studio/FC/FC3.png",
            "/images/studio/FC/FC4.png", "/images/studio/FC/FC5.png", "/images/studio/FC/FC6.png"]),
      Some("/docs/FuturisticClubhouse.pdf"), None),
    StudioProject("s3", "The Wing", "Design Studio I", "Easter 2024", 2024,
      "Refurbishment of abandoned bar into a theatre with a permeable reception wing in Cambridge.",
      ["Infrastructure", "Light"], "/images/studio/thewingsnap.png",
      None,
      Some(["/images/studio/wing/WING12.png", "/images/studio/wing/WING8.png", "/images/studio/wing/WING9.png",
            "/images/studio/wing/WING11.png", "/images/studio/wing/WING7.png", "/images/studio/wing/WING13.png",
            "/images/studio/wing/WING10.png", "/images/studio/wing/WING5.png", "/images/studio/wing/WING14.png"]),
      Some("/docs/Year1_Q3_TheWing.pdf"), None),
    StudioProject("s_playtroll", "Playtroll Station", "Design Studio II", "Michaelmas 2024", 2024,
      "A playful public playground and café to encourage social interaction of all ages in a natural and contemporary ergonomic form.",
      ["Public Space", "Materiality"], "/images/studio/playtroll1.png",
      None,
      Some(["/images/studio/playtrolA.png", "/images/studio/playtrolB.png", "/images/studio/playtroll2.png",
            "/images/studio/playtroll3.png", "/images/studio/playtroll4.png"]),
      Some("/docs/PlaytrollStation.pdf"), None),
    StudioProject("s2", "The Carp", "Structures II", "Spring 2024", 2024,
      "A lightweight public pavilion in the shape of a carp, designed to be assembled and disassembled seasonally in a city park and having a big open floor.",
      ["Cultural", "Urban", "Public Space"], "/images/studio/fig_image_12_64.png",
      None, None, Some("/docs/TheCarpProject.pdf"), None),
    StudioProject("s4", "Landquiitecture", "Design Studio I", "Spring 2024", 2024,
      "Market area insertion next to Cambridge F.C. stadium. Movable ledges for blending experience between market and stadium. Reuse of materials from the stadium.",
      [], "/images/studio/other/Land7.png",
      None,
      Some(["/images/studio/other/Land2.png", "/images/studio/other/Land3.png", "/images/studio/other/Land6.png",
            "/images/studio/other/Land4.png", "/images/studio/other/Land1.png"]),
      None, None)
  ]

  const Papers: seq<Paper> := [
    Paper("p1", "The Threshold as Political Territory",
      Some("Boundary, Power, and the Architecture of the Doorway"), "Architectural Theory", 2024,
      "This paper examines the doorway as a site of political and social negotiation, drawing on Simmel's theory of the bridge and the door alongside contemporary examples of access architecture.",
      ["Theory", "Space", "Politics"], Some("#"))
  ]

  const CvEntries: seq<CVEntry> := [
    CVEntry("cv1", Education, "Bachelor of Arts (Architecture)", "University of Cambridge",
      "Cambridge, United Kingdom", 2023, Present,
      Some("Studio, Structures I & II, Materials & Construction I & II, Sustainable Design I & II, Urbanism, Sound in Architecture, Gardens & Landscapes. Robinson College.")),
    CVEntry("cv1b", Education, "Technological Bilingual Baccalaureate", "British Council School",
      "Madrid, Spain", 2009, Year(2023),
      Some("English/Spanish bilingual programme. BiBac Prize 2023, Academic Excellence Prize 2017 & 2019.")),
    CVEntry("cv2", Experience, "Architecture & Engineering Intern", "Aluminios Cortizo S.A.U.",
      "A Coruña, Spain", 2025, Year(2025),
      Some("Provided technical assistance and client-facing solutions on system specifications. Supported validation tests and experiments of architectural systems. Applied calculation methods and regulatory compliance checks (CTE). Trained in specialized industry software (Alcorsa, Cortizolab, Cortizocenter).")),
    CVEntry("cv3", Experience, "Sound & Production Engineer", "FIVE Media Clan",
      "Remote, Andorra", 2022, Year(2025),
      Some("Produced, mixed and mastered 100+ tracks for clients and self. Achieved 20M+ streams with international artists. Strong record of building audiences and creating value in creative industries. Event planning and setup for concerts.")),
    CVEntry("cv4", Experience, "Carpentry Intern", "Carpintería Dimmler",
      "Karlsruhe, Germany", 2024, Year(2024),
      Some("Designed and installed countertop/front desk in a dental clinic. Built countertop and shelving unit for a school. Conducted flooring and repair work in schools, hospitals, and private homes.")),
    CVEntry("cv4b", Experience, "Physical Education Volunteer", "Community School",
      "Chame, Panama", 2024, Year(2024),
      Some("Delivered sports and games lessons to primary school students.")),
    CVEntry("cv5", Award, "[Scholarship / Prize Name]", "[Awarding Body]",
      "[City, Country]", 2022, Year(2022),
      Some("Brief context about the award."))
  ]

  const Courses: seq<Course> := [
    Course("c1", "Rhino + Grasshopper", "Self-directed", 2023, "Software", None),
    Course("c2", "CS50x: Introduction to Computer Science", "Harvard University (Online)", 2023, "Computer Science", Some("#")),
    Course("c3", "Adobe Creative Suite", "Self-directed", 2022, "Software", None),
    Course("c4", "RIBA Skill Up Project", "Royal Institute of British Architects", 2022, "Architecture", None),
    Course("c5", "Divemaster", "PADI", 2025, "Sport", Some("#"))
  ]

  const MusicProjects: seq<MusicProject> := [
    MusicProject("m1", "[Artist / Project Name]", None, "Score for Short Film", 2024, "Composer",
      "Original orchestral score for a 12-minute documentary short.",
      ["Orchestral", "Documentary"], true, Some(false), None, Some("#"), None,
      Some([Written, Produced, Mixed, Mastered])),
    MusicProject("m2", "[Brand / Agency]", None, "Brand Identity Soundscape", 2023, "Composer & Producer",
      "Sonic identity system for a lifestyle brand — main theme, stingers, ambient tracks.",
      ["Electronic", "Ambient", "Commercial"], true, Some(false), None, Some("#"), None,
      Some([Written, Produced, Mixed, Mastered])),
    MusicProject("m3", "emisito", None, "[Own Track Title]", 2024, "Artist",
      "Personal release under the emisito name.",
      ["Electronic", "Ambient"], true, Some(true), None, Some("#"), None,
      Some([Written, Produced, Mixed, Mastered])),
    MusicProject("m4", "Private", None, "Private Client Project", 2024, "Producer",
      "Confidential commercial project.",
      ["Commercial"], false, Some(false), None, None, None,
      Some([Mixed, Mastered]))
  ]

  const Performances: seq<Performance> := [
    Performance("perf1", Recital, "Year-End Piano Recital", "[Concert Hall / Venue]", "[City]", "2024-05-15",
      "Pianist", None,
      Some(["Bach — Partita No. 2 in C minor, BWV 826", "Chopin — Ballade No. 1 in G minor, Op. 23"]),
      None, None, Some(true)),
    Performance("perf2", Band, "[Band Name] — Live at [Venue]", "[Venue]", "[City]", "2024-03-08",
      "Keys / Guitar", Some("[Band Name]"), None, None, None, Some(true)),
    Performance("perf3", Recital, "Chamber Music Evening", "[Venue]", "[City]", "2023-11-20",
      "Pianist", None, Some(["Brahms — Violin Sonata No. 1 in G major, Op. 78"]), None, None, None),
    Performance("perf4", Band, "[University Jazz Ensemble]", "[Venue]", "[City]", "2023-12-01",
      "Piano", Some("University Jazz Ensemble"), Some(["Misty", "Autumn Leaves", "So What"]), None, None, None)
  ]

  const ArtPieces: seq<ArtPiece> := [
    ArtPiece("a1", "Study in Ochre", 2024, Painting, Some("50 × 70 cm"),
      Some("Landscape study with heavy impasto and limited palette."), "/images/art/ochre-study.jpg", None),
    ArtPiece("a2", "Figures in Transit", 2024, Drawing, Some("A3"),
      Some("Ink studies of people in motion captured in public transit."), "/images/art/figures-transit.jpg",
      Some("In Motion")),
    ArtPiece("a3", "Urban Fragment I", 2023, Photography, None,
      Some("Detail photograph of decaying architectural surface."), "/images/art/urban-fragment-1.jpg",
      Some("Urban Fragments")),
    ArtPiece("a4", "Urban Fragment II", 2023, Photography, None,
      Some("Rusted fire escape abstracted through compression and crop."), "/images/art/urban-fragment-2.jpg",
      Some("Urban Fragments")),
    ArtPiece("a5", "Memory Trace", 2022, MixedMedia, Some("40 × 60 cm"),
      Some("Layered mixed media work exploring architectural memory through collage and drawing."),
      "/images/art/memory-trace.jpg", None),
    ArtPiece("a6", "Self", 2023, Drawing, Some("A4"), None, "/images/art/self.jpg", None)
  ]

  const EmisitoReleases: seq<EmisitoRelease> := []

  // ─── properties of the collections ─────────────────────────────────────────

  /** No two records of `s` share a key. */
  predicate DistinctBy<T>(s: seq<T>, key: T -> string) {
    forall i, j :: 0 <= i < j < |s| ==> key(s[i]) != key(s[j])
  }

  function StudioId(p: StudioProject): string { p.id }
  function CvId(e: CVEntry): string { e.id }
  function CourseId(c: Course): string { c.id }
  function MusicId(m: MusicProject): string { m.id }
  function PerformanceId(p: Performance): string { p.id }
  function ArtId(a: ArtPiece): string { a.id }

  /** The ids of the first three studio projects. */
  lemma StudioIdsHead()
    ensures |StudioProjects| == 5
    ensures StudioProjects[0].id == "s1" && StudioProjects[1].id == "s3" && StudioProjects[2].id == "s_playtroll"
  {
  }

  /** The ids of the last two studio projects. */
  lemma StudioIdsTail()
    ensures |StudioProjects| == 5
    ensures StudioProjects[3].id == "s2" && StudioProjects[4].id == "s4"
  {
  }

  /** No two studio projects share an id. */
  lemma StudioIdsUnique()
    ensures DistinctBy(StudioProjects, StudioId)
  {
    StudioIdsHead();
    StudioIdsTail();
  }

  /** The ids of the first four CV entries. */
  lemma CvIdsHead()
    ensures |CvEntries| == 7
    ensures CvEntries[0].id == "cv1" && CvEntries[1].id == "cv1b" && CvEntries[2].id == "cv2" && CvEntries[3].id == "cv3"
  {
  }

  /** The ids of the last three CV entries. */
  lemma CvIdsTail()
    ensures |CvEntries| == 7
    ensures CvEntries[4].id == "cv4" && CvEntries[5].id == "cv4b" && CvEntries[6].id == "cv5"
  {
  }

  /** No two CV entries share an id. */
  lemma CvIdsUnique()
    ensures DistinctBy(CvEntries, CvId)
  {
    CvIdsHead();
    CvIdsTail();
  }

  /** No two courses share an id. */
  lemma CourseIdsUnique()
    ensures DistinctBy(Courses, CourseId)
  {
  }

  /** No two music projects share an id. */
  lemma MusicIdsUnique()
    ensures DistinctBy(MusicProjects, MusicId)
  {
  }

  /** No two performances share an id. */
  lemma PerformanceIdsUnique()
    ensures DistinctBy(Performances, PerformanceId)
  {
  }

  /** No two art pieces share an id. */
  lemma ArtIdsUnique()
    ensures DistinctBy(ArtPieces, ArtId)
  {
  }

  /** A CV entry that has ended did not end before it started. */
  lemma CvYearsOrdered()
    ensures forall i :: 0 <= i < |CvEntries| && CvEntries[i].endYear.Year? ==>
      CvEntries[i].startYear <= CvEntries[i].endYear.year
  {
  }

  /** c2 and c5 carry a certificate link; c1, c3 and c4 do not. */
  lemma CertifiedCourses()
    ensures |Courses| == 5
    ensures forall i :: 0 <= i < |Courses| ==>
      (Truthy(Courses[i].certificateUrl) <==> Courses[i].id in {"c2", "c5"})
  {
  }

  /** Two recitals and two band entries; perf1 and perf2 are the featured ones. */
  lemma PerformanceMix()
    ensures |Performances| == 4
    ensures Map(Performances, (p: Performance) => p.kind) == [Recital, Band, Recital, Band]
    ensures forall i :: 0 <= i < |Performances| ==>
      (IsSet(Performances[i].isFeatured) <==> Performances[i].id in {"perf1", "perf2"})
  {
  }

  /** Only m3 is an own project and only m4 is private. */
  lemma MusicFlags()
    ensures forall i :: 0 <= i < |MusicProjects| ==>
      (IsSet(MusicProjects[i].isOwn) <==> MusicProjects[i].id == "m3")
    ensures forall i :: 0 <= i < |MusicProjects| ==>
      (!MusicProjects[i].isPublic <==> MusicProjects[i].id == "m4")
  {
  }

  // ─── selection by id ─────────────────────────────────────────────────────

  /** `s.find((x) => x.id === selectedId) ?? null`: the record a section's `selectedId` state points at. */
  function SelectedBy<T>(s: seq<T>, key: T -> string, selectedId: Option<string>): (r: Option<T>)
    ensures selectedId.None? ==> r.None?
    ensures r.Some? <==> selectedId.Some? && exists i :: 0 <= i < |s| && key(s[i]) == selectedId.value
    ensures r.Some? ==> r.value in s && key(r.value) == selectedId.value
  {
    match selectedId
    case None => None
    case Some(id) => Find(s, x => key(x) == id)
  }

  /** With distinct ids, the selection is the one record carrying the selected id. */
  lemma SelectedIsUnique<T>(s: seq<T>, key: T -> string, id: string, i: nat)
    requires DistinctBy(s, key)
    requires i < |s| && key(s[i]) == id
    ensures SelectedBy(s, key, Some(id)) == Some(s[i])
  {
    var r := SelectedBy(s, key, Some(id));
    var j :| 0 <= j < |s| && s[j] == r.value;
    assert j == i;
  }
}
