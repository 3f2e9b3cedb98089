/**
 * The persona registry: three personas, each with a theme and one
 * (section, variant, order) entry per section, plus the slug list, the
 * storage key, slug validation and the navigation labels.
 */
module Personas {
  import opened Wrappers
  import opened Seqs

  datatype PersonaSlug = Architect | Musician | Artist

  datatype SectionId = Studio | Cv | Courses | ClientMusic | Performances | Art

  datatype SectionVariant = Featured | Standard | Compact | Hidden

  datatype HeadingFont = Cormorant | SpaceMono

  datatype PersonaTheme = PersonaTheme(
    accent: string,
    background: string,
    foreground: string,
    isDark: bool,
    headingFont: HeadingFont)

  datatype SectionConfig = SectionConfig(id: SectionId, variant: SectionVariant, order: int)

  datatype PersonaConfig = PersonaConfig(
    slug: PersonaSlug,
    fullLabel: string,  // `label` in the source
    shortLabel: string,
    tagline: string,
    symbol: string,
    lensDesc: string,
    theme: PersonaTheme,
    sections: seq<SectionConfig>)

  /** The string form of a slug, as used in URLs and in storage. */
  function SlugName(p: PersonaSlug): string {
    match p
    case Architect => "architect"
    case Musician => "musician"
    case Artist => "artist"
  }

  /** The string form of a section id, as used in anchors. */
  function SectionName(id: SectionId): string {
    match id
    case Studio => "studio"
    case Cv => "cv"
    case Courses => "courses"
    case ClientMusic => "client-music"
    case Performances => "performances"
    case Art => "art"
  }

  /** The members of the `SectionId` union, in declaration order. */
  const AllSectionIds: seq<SectionId> := [Studio, Cv, Courses, ClientMusic, Performances, Art]

  /** `PERSONAS[slug]`. */
  function PersonaRecord(slug: PersonaSlug): PersonaConfig {
    match slug
    case Architect =>
      PersonaConfig(Architect, "The Architect", "Architect",
        "Designing space, structure, and experience.", "⬡", "Studio portfolio & CV",
        PersonaTheme("#2c4a6e", "#f8f7f3", "#1a1a18", false, Cormorant),
        [ SectionConfig(Studio, Featured, 1),
          SectionConfig(Cv, Featured, 2),
          SectionConfig(Courses, Standard, 3),
          SectionConfig(ClientMusic, Hidden, 4),
          SectionConfig(Performances, Hidden, 5),
          SectionConfig(Art, Hidden, 6) ])
    case Musician =>
      PersonaConfig(Musician, "The Musician", "Musician",
        "Composition, performance, and sonic craft.", "◐", "Composition, production & performance",
        PersonaTheme("#8b5e3c", "#f8f7f3", "#1a1a18", false, Cormorant),
        [ SectionConfig(Performances, Featured, 1),
          SectionConfig(ClientMusic, Featured, 2),
          SectionConfig(Cv, Hidden, 3),
          SectionConfig(Studio, Hidden, 4),
          SectionConfig(Art, Hidden, 5),
          SectionConfig(Courses, Hidden, 6) ])
    case Artist =>
      PersonaConfig(Artist, "The Artist", "Artist",
        "Visual work, across media and scale.", "◈", "Visual art & personal portfolio",
        PersonaTheme("#c45c3a", "#f8f7f3", "#1a1a18", false, Cormorant),
        [ SectionConfig(Art, Featured, 1),
          SectionConfig(Studio, Hidden, 2),
          SectionConfig(Cv, Hidden, 3),
          SectionConfig(ClientMusic, Hidden, 4),
          SectionConfig(Courses, Hidden, 5),
          SectionConfig(Performances, Hidden, 6) ])
  }

  /** `PERSONA_SLUGS = Object.keys(PERSONAS)`: the keys in insertion order. */
  const PersonaSlugs: seq<PersonaSlug> := [Architect, Musician, Artist]

  const StorageKey: string := "jm_persona"

  /** The own keys of `PERSONAS`. */
  const PersonaKeys: set<string> := {"architect", "musician", "artist"}

  /** The property names every object literal inherits from `Object.prototype`. */
  const InheritedNames: set<string> := {
    "constructor", "hasOwnProperty", "isPrototypeOf", "propertyIsEnumerable",
    "toLocaleString", "toString", "valueOf", "__proto__",
    "__defineGetter__", "__defineSetter__", "__lookupGetter__", "__lookupSetter__"
  }

  /** `isValidPersona` as written: `slug in PERSONAS` also sees inherited names. */
  predicate IsValidPersonaAsWritten(s: string) {
    s in PersonaKeys || s in InheritedNames
  }

  /** `isValidPersona` as intended: membership among the three own keys. */
  predicate IsValidPersona(s: string) {
    s in PersonaKeys
  }

  /** Narrows a validated string to its slug (the `slug is PersonaSlug` guard). */
  function ParseSlug(s: string): (r: Option<PersonaSlug>)
    ensures r.Some? <==> IsValidPersona(s)
    ensures r.Some? ==> SlugName(r.value) == s
  {
    if s == "architect" then Some(Architect)
    else if s == "musician" then Some(Musician)
    else if s == "artist" then Some(Artist)
    else None
  }

  /** `SECTION_LABELS`. */
  function SectionLabel(id: SectionId): string {
    match id
    case Studio => "Studio"
    case Cv => "CV"
    case Courses => "Courses"
    case ClientMusic => "Music"
    case Performances => "Performances"
    case Art => "Art"
  }

  // ─── properties of the table ───────────────────────────────────────────────

  function IdOf(c: SectionConfig): SectionId { c.id }

  /** Every section id appears in `sections`, and no id appears twice. */
  predicate ListsEachSectionOnce(sections: seq<SectionConfig>) {
    && (forall id: SectionId :: id in Map(sections, IdOf))
    && (forall i, j :: 0 <= i < j < |sections| ==> sections[i].id != sections[j].id)
  }

  /** Where the architect's table lists a section. */
  function ArchitectIndex(id: SectionId): (k: nat)
    ensures k < 6 && PersonaRecord(Architect).sections[k].id == id
  {
    match id case Studio => 0 case Cv => 1 case Courses => 2 case ClientMusic => 3 case Performances => 4 case Art => 5
  }

  /** Where the musician's table lists a section. */
  function MusicianIndex(id: SectionId): (k: nat)
    ensures k < 6 && PersonaRecord(Musician).sections[k].id == id
  {
    match id case Performances => 0 case ClientMusic => 1 case Cv => 2 case Studio => 3 case Art => 4 case Courses => 5
  }

  /** Where the artist's table lists a section. */
  function ArtistIndex(id: SectionId): (k: nat)
    ensures k < 6 && PersonaRecord(Artist).sections[k].id == id
  {
    match id case Art => 0 case Studio => 1 case Cv => 2 case ClientMusic => 3 case Courses => 4 case Performances => 5
  }

  /** Where a persona's table lists a section. */
  function SectionIndex(p: PersonaSlug, id: SectionId): (k: nat)
    ensures k < |PersonaRecord(p).sections| && PersonaRecord(p).sections[k].id == id
  {
    match p
    case Architect => ArchitectIndex(id)
    case Musician => MusicianIndex(id)
    case Artist => ArtistIndex(id)
  }

  /** No persona lists a section twice. */
  lemma SectionsDistinct(p: PersonaSlug)
    ensures forall i, j :: 0 <= i < j < |PersonaRecord(p).sections| ==>
      PersonaRecord(p).sections[i].id != PersonaRecord(p).sections[j].id
  {
    match p
    case Architect =>
    case Musician =>
    case Artist =>
  }

  /** Every persona lists every section. */
  lemma SectionsCovered(p: PersonaSlug)
    ensures forall id: SectionId :: id in Map(PersonaRecord(p).sections, IdOf)
  {
    var ids := Map(PersonaRecord(p).sections, IdOf);
    forall id: SectionId ensures id in ids {
      var k := SectionIndex(p, id);
      assert ids[k] == id;
    }
  }

  /** Every persona lists every section exactly once. */
  lemma SectionsComplete(p: PersonaSlug)
    ensures ListsEachSectionOnce(PersonaRecord(p).sections)
  {
    SectionsDistinct(p);
    SectionsCovered(p);
  }

  /** The order values of a persona are 1..6, position by position, hence pairwise distinct. */
  lemma OrdersAreOneToSix(p: PersonaSlug)
    ensures |PersonaRecord(p).sections| == 6
    ensures forall i :: 0 <= i < 6 ==> PersonaRecord(p).sections[i].order == i + 1
    ensures forall i, j :: 0 <= i < j < 6 ==>
      PersonaRecord(p).sections[i].order != PersonaRecord(p).sections[j].order
  {
  }

  /** The record stored under each key carries that key as its slug. */
  lemma SlugMatchesKey(p: PersonaSlug)
    ensures PersonaRecord(p).slug == p
  {
  }

  /** `PERSONA_SLUGS` lists each of the three personas once, and their names are the own keys. */
  lemma PersonaSlugsExact()
    ensures |PersonaSlugs| == 3
    ensures forall p: PersonaSlug :: p in PersonaSlugs
    ensures forall i, j :: 0 <= i < j < |PersonaSlugs| ==> PersonaSlugs[i] != PersonaSlugs[j]
    ensures forall i :: 0 <= i < |PersonaSlugs| ==> SlugName(PersonaSlugs[i]) in PersonaKeys
  {
    forall p: PersonaSlug ensures p in PersonaSlugs {
      match p
      case Architect => assert PersonaSlugs[0] == p;
      case Musician => assert PersonaSlugs[1] == p;
      case Artist => assert PersonaSlugs[2] == p;
    }
  }

  /** A valid slug is exactly the name of one of the three personas. */
  lemma IsValidPersonaExact(s: string)
    ensures IsValidPersona(s) <==> exists p: PersonaSlug :: SlugName(p) == s
  {
    if IsValidPersona(s) {
      assert SlugName(ParseSlug(s).value) == s;
    }
  }

  /** Every slug passes validation and parses back to itself. */
  lemma SlugRoundTrip(p: PersonaSlug)
    ensures IsValidPersona(SlugName(p))
    ensures ParseSlug(SlugName(p)) == Some(p)
  {
  }

  /** As written, the validation accepts "toString", which names no persona. */
  lemma InheritedNameAccepted()
    ensures IsValidPersonaAsWritten("toString")
    ensures !IsValidPersona("toString")
    ensures forall p: PersonaSlug :: SlugName(p) != "toString"
  {
  }

  /** Both versions agree on every persona name; they differ only on inherited names. */
  lemma ValidationVersionsAgreeOnKeys(s: string)
    ensures IsValidPersona(s) ==> IsValidPersonaAsWritten(s)
    ensures IsValidPersonaAsWritten(s) && !IsValidPersona(s) ==> s in InheritedNames
  {
  }

  /** The architect shows studio, cv (both featured) and courses (standard), in that order. */
  lemma ArchitectScenario()
    ensures PersonaRecord(Architect).sections[0] == SectionConfig(Studio, Featured, 1)
    ensures PersonaRecord(Architect).sections[1] == SectionConfig(Cv, Featured, 2)
    ensures PersonaRecord(Architect).sections[2] == SectionConfig(Courses, Standard, 3)
    ensures forall i :: 3 <= i < |PersonaRecord(Architect).sections| ==>
      PersonaRecord(Architect).sections[i].variant == Hidden
  {
  }

  /** The musician shows performances then client-music, both featured; everything after them is hidden. */
  lemma MusicianScenario()
    ensures PersonaRecord(Musician).sections[0] == SectionConfig(Performances, Featured, 1)
    ensures PersonaRecord(Musician).sections[1] == SectionConfig(ClientMusic, Featured, 2)
    ensures forall i :: 2 <= i < |PersonaRecord(Musician).sections| ==>
      PersonaRecord(Musician).sections[i].variant == Hidden
  {
  }

  /** The artist shows art, featured and first; everything after it is hidden. */
  lemma ArtistScenario()
    ensures PersonaRecord(Artist).sections[0] == SectionConfig(Art, Featured, 1)
    ensures forall i :: 1 <= i < |PersonaRecord(Artist).sections| ==>
      PersonaRecord(Artist).sections[i].variant == Hidden
  {
  }

  /** Every section has a non-empty label, and the labels are distinct. */
  lemma SectionLabelsDefined()
    ensures forall id: SectionId :: SectionLabel(id) != ""
    ensures forall a: SectionId, b: SectionId :: a != b ==> SectionLabel(a) != SectionLabel(b)
  {
  }
}
