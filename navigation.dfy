/**
 * The fixed top bar: the scrolled flag, the persona's section links (the first
 * five visible sections in `order`), the architect's cv link to its own page,
 * and the right-hand controls.
 */
module Navigation {
  import opened Wrappers
  import opened Seqs
  import opened Personas
  import opened SectionRenderer

  /** `window.scrollY` above which the bar gets its background. */
  const ScrollThreshold: int := 40

  /** At most this many section links are shown. */
  const MaxLinks: nat := 5

  datatype Mode = Landing | PersonaPage

  /** The bar's own state: whether the page has been scrolled past the threshold. */
  class NavBar {
    var scrolled: bool

    constructor ()
      ensures !scrolled
    {
      scrolled := false;
    }

    /** The scroll listener. */
    method OnScroll(scrollY: int)
      modifies this
      ensures scrolled <==> scrollY > ScrollThreshold
    {
      scrolled := scrollY > ScrollThreshold;
    }
  }

  /** The section ids of the nav links of one section list. */
  function NavIds(sections: seq<SectionConfig>): (r: seq<SectionId>)
    ensures |r| <= MaxLinks
    ensures |r| == if |Filter(sections, IsVisible)| < MaxLinks then |Filter(sections, IsVisible)| else MaxLinks
  {
    Map(Take(SortByOrder(Filter(sections, IsVisible)), MaxLinks), IdOf)
  }

  /** `navSections`: empty without a persona. */
  function NavSections(persona: Option<PersonaSlug>): (r: seq<SectionId>)
    ensures persona.None? ==> r == []
    ensures persona.Some? ==> r == NavIds(PersonaRecord(persona.value).sections)
  {
    match persona
    case None => []
    case Some(p) => NavIds(PersonaRecord(p).sections)
  }

  /** Where a nav link points. */
  datatype LinkTarget = Page(path: string) | Anchor(fragment: string)

  datatype NavLink = NavLink(target: LinkTarget, text: string)

  /** The architect's cv goes to the standalone cv page; every other link scrolls to its section. */
  function LinkFor(persona: PersonaSlug, id: SectionId): (l: NavLink)
    ensures l.text == SectionLabel(id)
    ensures l.target.Page? <==> persona == Architect && id == Cv
    ensures l.target.Page? ==> l.target.path == "/cv"
    ensures l.target.Anchor? ==> l.target.fragment == "#" + SectionName(id)
  {
    if persona == Architect && id == Cv then NavLink(Page("/cv"), SectionLabel(id))
    else NavLink(Anchor("#" + SectionName(id)), SectionLabel(id))
  }

  function LinkOf(persona: PersonaSlug): SectionId -> NavLink {
    id => LinkFor(persona, id)
  }

  /** The centre links: only on a persona page with a persona. */
  function CenterLinks(mode: Mode, persona: Option<PersonaSlug>): (r: seq<NavLink>)
    ensures mode == Landing || persona.None? ==> r == []
    ensures mode == PersonaPage && persona.Some? ==>
      |r| == |NavSections(persona)| &&
      forall i :: 0 <= i < |r| ==> r[i] == LinkFor(persona.value, NavSections(persona)[i])
  {
    if mode == PersonaPage && persona.Some? then Map(NavSections(persona), LinkOf(persona.value)) else []
  }

  /** The controls on the right of the bar. */
  datatype Control = LanguageToggle | PersonaSwitcher(current: PersonaSlug) | ContactLink(href: string)

  /** The landing page's contact link. */
  const ContactHref := "mailto:hello@whoisjuanmichel.com"

  function RightControls(mode: Mode, persona: Option<PersonaSlug>): (r: seq<Control>)
    ensures |r| >= 1 && r[0] == LanguageToggle
    ensures |r| == 1 + (if mode == PersonaPage && persona.Some? then 1 else 0) + (if mode == Landing then 1 else 0)
    ensures forall i :: 1 <= i < |r| ==> !r[i].LanguageToggle?
    ensures (exists i :: 0 <= i < |r| && r[i].PersonaSwitcher?) <==> mode == PersonaPage && persona.Some?
    ensures forall i :: 0 <= i < |r| && r[i].PersonaSwitcher? ==> persona.Some? && r[i].current == persona.value
    ensures (exists i :: 0 <= i < |r| && r[i].ContactLink?) <==> mode == Landing
    ensures forall i :: 0 <= i < |r| && r[i].ContactLink? ==> r[i].href == ContactHref
  {
    var r := [LanguageToggle]
      + (if mode == PersonaPage && persona.Some? then [PersonaSwitcher(persona.value)] else [])
      + (if mode == Landing then [ContactLink(ContactHref)] else []);
    assert mode == PersonaPage && persona.Some? ==> r[1].PersonaSwitcher?;
    assert mode == Landing ==> r[|r| - 1].ContactLink?;
    r
  }

  // ─── properties ───────────────────────────────────────────────────────────

  /**
   * On the generic rendering path, the nav links name the first five sections
   * the page renders, in the page's order.
   */
  lemma NavIdsArePagePrefix(config: PersonaConfig)
    requires config.slug != Musician
    requires DistinctIds(config.sections)
    ensures NavIds(config.sections) == Take(Map(Render(config), RenderedId), MaxLinks)
  {
    RenderedAreVisibleSorted(config);
    TakeMap(SortByOrder(Filter(config.sections, IsVisible)), IdOf, MaxLinks);
  }

  /** Every link names a section that is not hidden. */
  lemma NavIdsVisible(sections: seq<SectionConfig>)
    requires DistinctIds(sections)
    ensures forall i :: 0 <= i < |NavIds(sections)| ==> GetVariant(sections, NavIds(sections)[i]) != Hidden
  {
    var v := Filter(sections, IsVisible);
    var sorted := SortByOrder(v);
    SortByOrderCorrect(v);
    var t := Take(sorted, MaxLinks);
    forall i | 0 <= i < |NavIds(sections)|
      ensures GetVariant(sections, NavIds(sections)[i]) != Hidden
    {
      assert NavIds(sections)[i] == t[i].id;
      assert t[i] == sorted[i];
      assert sorted[i] in multiset(v);
      assert sorted[i] in v;
      GetVariantOfEntry(sections, sorted[i]);
    }
  }

  /** With at most five visible sections, every one of them gets a link. */
  lemma NavIdsComplete(sections: seq<SectionConfig>)
    requires |Filter(sections, IsVisible)| <= MaxLinks
    ensures multiset(NavIds(sections)) == multiset(Map(Filter(sections, IsVisible), IdOf))
  {
    var v := Filter(sections, IsVisible);
    SortByOrderIds(v);
  }

  /** The architect's bar links the three sections its page shows, in the page's order. */
  lemma ArchitectNav()
    ensures NavSections(Some(Architect)) == [Studio, Cv, Courses]
  {
    var c := PersonaRecord(Architect);
    assert NavSections(Some(Architect)) == Take(Map(Render(c), RenderedId), MaxLinks) by {
      SlugMatchesKey(Architect);
      assert DistinctIds(c.sections) by { SectionsComplete(Architect); }
      NavIdsArePagePrefix(c);
    }
    ArchitectRenders();
  }

  /** The artist's bar has the one art link. */
  lemma ArtistNav()
    ensures NavSections(Some(Artist)) == [Art]
  {
    var c := PersonaRecord(Artist);
    assert NavSections(Some(Artist)) == Take(Map(Render(c), RenderedId), MaxLinks) by {
      SlugMatchesKey(Artist);
      assert DistinctIds(c.sections) by { SectionsComplete(Artist); }
      NavIdsArePagePrefix(c);
    }
    ArtistRenders();
  }

  /** The musician's bar links performances then client-music, the order of its two columns. */
  lemma MusicianNav()
    ensures NavSections(Some(Musician)) == [Performances, ClientMusic]
  {
    MusicianNavIds();
    MusicianFirstIds();
  }

  lemma MusicianNavIds()
    ensures NavIds(PersonaRecord(Musician).sections) == Map(PersonaRecord(Musician).sections[..2], IdOf)
  {
    MusicianScenario();
    OrdersAreOneToSix(Musician);
    NavIdsOfVisiblePrefix(PersonaRecord(Musician).sections, 2);
  }

  lemma MusicianFirstIds()
    ensures Map(PersonaRecord(Musician).sections[..2], IdOf) == [Performances, ClientMusic]
  {
    MusicianScenario();
  }

  /** Sections whose first `k <= 5` entries are visible and in order, the rest hidden, link exactly those `k`. */
  lemma NavIdsOfVisiblePrefix(s: seq<SectionConfig>, k: nat)
    requires k <= MaxLinks && k <= |s|
    requires SortedByOrder(s[..k])
    requires forall i :: 0 <= i < k ==> s[i].variant != Hidden
    requires forall i :: k <= i < |s| ==> s[i].variant == Hidden
    ensures NavIds(s) == Map(s[..k], IdOf)
  {
    var pre := s[..k];
    assert Filter(s, IsVisible) == pre by {
      assert s == pre + s[k..];
      FilterConcat(pre, s[k..], IsVisible);
      FilterKeepsAll(pre, IsVisible);
      FilterKeepsNone(s[k..], IsVisible);
    }
    SortByOrderSortedIdentity(pre);
    assert Take(pre, MaxLinks) == pre;
  }
}
