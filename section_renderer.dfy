/**
 * Resolution of a persona's sections: the variant lookup with its `hidden`
 * default, the stable sort by `order`, the musician's two-column rule and the
 * generic dispatch of each visible section to its content collection.
 */
module SectionRenderer {
  import opened Wrappers
  import opened Seqs
  import opened Personas

  // ─── getVariant ────────────────────────────────────────────────────────────

  /** `i` is the position of the first entry of `sections` with id `id`. */
  ghost predicate FirstWithId(sections: seq<SectionConfig>, id: SectionId, i: int) {
    0 <= i < |sections| && sections[i].id == id &&
    forall j :: 0 <= j < i ==> sections[j].id != id
  }

  /** `config.sections.find(s => s.id === id)?.variant ?? 'hidden'`. */
  function GetVariant(sections: seq<SectionConfig>, id: SectionId): (v: SectionVariant)
    ensures forall i :: FirstWithId(sections, id, i) ==> v == sections[i].variant
    ensures (forall i :: 0 <= i < |sections| ==> sections[i].id != id) ==> v == Hidden
  {
    if sections == [] then Hidden
    else if sections[0].id == id then sections[0].variant
    else
      var v := GetVariant(sections[1..], id);
      assert forall i :: FirstWithId(sections, id, i) ==> FirstWithId(sections[1..], id, i - 1);
      v
  }

  /** No id occurs twice (the registry guarantees this for every persona). */
  ghost predicate DistinctIds(sections: seq<SectionConfig>) {
    forall i, j :: 0 <= i < j < |sections| ==> sections[i].id != sections[j].id
  }

  /** With distinct ids, the variant found for an entry's id is that entry's own variant. */
  lemma GetVariantOfEntry(sections: seq<SectionConfig>, c: SectionConfig)
    requires DistinctIds(sections)
    requires c in sections
    ensures GetVariant(sections, c.id) == c.variant
  {
    var k :| 0 <= k < |sections| && sections[k] == c;
    assert FirstWithId(sections, c.id, k);
  }

  // ─── the ordered copy ──────────────────────────────────────────────────────

  ghost predicate SortedByOrder(s: seq<SectionConfig>) {
    forall i, j :: 0 <= i < j < |s| ==> s[i].order <= s[j].order
  }

  /** The entries of `s` whose order is `k`, in their order in `s`. */
  function WithOrder(s: seq<SectionConfig>, k: int): seq<SectionConfig> {
    Filter(s, (c: SectionConfig) => c.order == k)
  }

  /** Places `x` before the first entry whose order is not smaller than its own. */
  function InsertByOrder(x: SectionConfig, s: seq<SectionConfig>): (r: seq<SectionConfig>)
    ensures |r| == |s| + 1
  {
    if s == [] || x.order <= s[0].order then [x] + s
    else [s[0]] + InsertByOrder(x, s[1..])
  }

  /** `[...sections].sort((a, b) => a.order - b.order)`: a stable sort on a copy. */
  function SortByOrder(s: seq<SectionConfig>): (r: seq<SectionConfig>)
    ensures |r| == |s|
  {
    if s == [] then [] else InsertByOrder(s[0], SortByOrder(s[1..]))
  }

  /** Every entry of `s` has order at least `lo`. */
  ghost predicate AtLeast(s: seq<SectionConfig>, lo: int) {
    forall i :: 0 <= i < |s| ==> lo <= s[i].order
  }

  lemma {:induction false} InsertByOrderAtLeast(x: SectionConfig, s: seq<SectionConfig>, lo: int)
    requires AtLeast(s, lo) && lo <= x.order
    ensures AtLeast(InsertByOrder(x, s), lo)
  {
    if s != [] && x.order > s[0].order {
      InsertByOrderAtLeast(x, s[1..], lo);
    }
  }

  lemma {:induction false} InsertByOrderSorted(x: SectionConfig, s: seq<SectionConfig>)
    requires SortedByOrder(s)
    ensures SortedByOrder(InsertByOrder(x, s))
  {
    if s != [] && x.order > s[0].order {
      var t := s[1..];
      InsertByOrderSorted(x, t);
      InsertByOrderAtLeast(x, t, s[0].order);
      var r := InsertByOrder(x, t);
      assert InsertByOrder(x, s) == [s[0]] + r;
      assert forall i :: 0 < i < |r| + 1 ==> ([s[0]] + r)[i] == r[i - 1];
    }
  }

  lemma {:induction false} InsertByOrderPerm(x: SectionConfig, s: seq<SectionConfig>)
    ensures multiset(InsertByOrder(x, s)) == multiset(s) + multiset{x}
  {
    if s != [] && x.order > s[0].order {
      InsertByOrderPerm(x, s[1..]);
      assert s == [s[0]] + s[1..];
    }
  }

  /** `x` goes before every entry that has its order: among equal orders, `x` comes first. */
  lemma {:induction false} InsertByOrderClasses(x: SectionConfig, s: seq<SectionConfig>, k: int)
    ensures WithOrder(InsertByOrder(x, s), k) == (if x.order == k then [x] else []) + WithOrder(s, k)
  {
    if s != [] && x.order > s[0].order {
      InsertByOrderClasses(x, s[1..], k);
      assert InsertByOrder(x, s)[1..] == InsertByOrder(x, s[1..]);
    }
  }

  /** The ids of `x` inserted into `s` are the ids of `s` plus the id of `x`. */
  lemma {:induction false} InsertByOrderIds(x: SectionConfig, s: seq<SectionConfig>)
    ensures multiset(Map(InsertByOrder(x, s), IdOf)) == multiset(Map(s, IdOf)) + multiset{x.id}
  {
    if s != [] && x.order > s[0].order {
      var t := InsertByOrder(x, s[1..]);
      InsertByOrderIds(x, s[1..]);
      assert ([s[0]] + t)[1..] == t;
      assert Map(s, IdOf) == [s[0].id] + Map(s[1..], IdOf);
    }
  }

  lemma {:induction false} SortByOrderSorted(s: seq<SectionConfig>)
    ensures SortedByOrder(SortByOrder(s))
  {
    if s != [] {
      SortByOrderSorted(s[1..]);
      InsertByOrderSorted(s[0], SortByOrder(s[1..]));
    }
  }

  lemma {:induction false} SortByOrderPerm(s: seq<SectionConfig>)
    ensures multiset(SortByOrder(s)) == multiset(s)
  {
    if s != [] {
      SortByOrderPerm(s[1..]);
      InsertByOrderPerm(s[0], SortByOrder(s[1..]));
      assert s == [s[0]] + s[1..];
    }
  }

  lemma {:induction false} SortByOrderStable(s: seq<SectionConfig>, k: int)
    ensures WithOrder(SortByOrder(s), k) == WithOrder(s, k)
  {
    if s != [] {
      SortByOrderStable(s[1..], k);
      InsertByOrderClasses(s[0], SortByOrder(s[1..]), k);
      assert s == [s[0]] + s[1..];
    }
  }

  /** Sorting keeps the multiset of section ids. */
  lemma {:induction false} SortByOrderIds(s: seq<SectionConfig>)
    ensures multiset(Map(SortByOrder(s), IdOf)) == multiset(Map(s, IdOf))
  {
    if s != [] {
      SortByOrderIds(s[1..]);
      InsertByOrderIds(s[0], SortByOrder(s[1..]));
      assert Map(s, IdOf) == [s[0].id] + Map(s[1..], IdOf);
    }
  }

  /**
   * The ordered copy is sorted by `order`, is a permutation of the input, and is
   * stable: for every order value, the entries with that value keep their input order.
   */
  lemma SortByOrderCorrect(s: seq<SectionConfig>)
    ensures SortedByOrder(SortByOrder(s))
    ensures multiset(SortByOrder(s)) == multiset(s)
    ensures forall k :: WithOrder(SortByOrder(s), k) == WithOrder(s, k)
  {
    SortByOrderSorted(s);
    SortByOrderPerm(s);
    forall k ensures WithOrder(SortByOrder(s), k) == WithOrder(s, k) {
      SortByOrderStable(s, k);
    }
  }

  /** A list already sorted by `order` is left as it is. */
  lemma {:induction false} SortByOrderSortedIdentity(s: seq<SectionConfig>)
    requires SortedByOrder(s)
    ensures SortByOrder(s) == s
  {
    if s != [] {
      SortByOrderSortedIdentity(s[1..]);
      assert s == [s[0]] + s[1..];
    }
  }

  /** One step of `Filter` on a list with a known head. */
  lemma FilterCons(a: SectionConfig, s: seq<SectionConfig>, p: SectionConfig -> bool)
    ensures Filter([a] + s, p) == (if p(a) then [a] else []) + Filter(s, p)
  {
    assert ([a] + s)[1..] == s;
  }

  /** `x` passes over a head with a smaller order. */
  lemma InsertByOrderPast(x: SectionConfig, a: SectionConfig, f: seq<SectionConfig>)
    requires a.order < x.order
    ensures InsertByOrder(x, [a] + f) == [a] + InsertByOrder(x, f)
  {
    assert ([a] + f)[1..] == f;
  }

  /** Inserting into a sorted list and then filtering gives the same as filtering and then inserting. */
  lemma {:induction false} FilterInsertByOrder(x: SectionConfig, u: seq<SectionConfig>, p: SectionConfig -> bool)
    requires SortedByOrder(u)
    ensures Filter(InsertByOrder(x, u), p) ==
      if p(x) then InsertByOrder(x, Filter(u, p)) else Filter(u, p)
  {
    if u == [] {
      FilterCons(x, [], p);
    } else if x.order <= u[0].order {
      assert InsertByOrder(x, u) == [x] + u;
      FilterCons(x, u, p);
      var f := Filter(u, p);
      if f != [] {
        assert f[0] in u;
      }
    } else {
      var a, t := u[0], u[1..];
      assert u == [a] + t;
      var it := InsertByOrder(x, t);
      assert InsertByOrder(x, u) == [a] + it;
      FilterInsertByOrder(x, t, p);
      FilterCons(a, t, p);
      FilterCons(a, it, p);
      var ft := Filter(t, p);
      if p(a) {
        assert Filter(u, p) == [a] + ft;
        assert Filter(InsertByOrder(x, u), p) == [a] + Filter(it, p);
        if p(x) {
          InsertByOrderPast(x, a, ft);
        }
      } else {
        assert Filter(u, p) == ft;
        assert Filter(InsertByOrder(x, u), p) == Filter(it, p);
      }
    }
  }

  /** Sorting then filtering equals filtering then sorting (the sort is stable). */
  lemma {:induction false} SortFilterCommute(s: seq<SectionConfig>, p: SectionConfig -> bool)
    ensures Filter(SortByOrder(s), p) == SortByOrder(Filter(s, p))
  {
    if s != [] {
      var a, t := s[0], s[1..];
      assert s == [a] + t;
      SortFilterCommute(t, p);
      SortByOrderCorrect(t);
      FilterInsertByOrder(a, SortByOrder(t), p);
      FilterCons(a, t, p);
      var ft := Filter(t, p);
      if p(a) {
        assert Filter(s, p) == [a] + ft;
        assert ([a] + ft)[1..] == ft;
        assert SortByOrder([a] + ft) == InsertByOrder(a, SortByOrder(ft));
      } else {
        assert Filter(s, p) == ft;
      }
    }
  }

  // ─── dispatch ──────────────────────────────────────────────────────────────

  /**
   * The content collections a section component can receive as props; the
   * collections themselves are the constants of the `Content` module.
   */
  datatype Collection =
    | StudioProjectsData | CvEntriesData | CoursesData
    | MusicProjectsData | PerformancesData | ArtPiecesData

  /** One section component in the rendered page, with the props it is given. */
  datatype RenderedSection = RenderedSection(
    id: SectionId,
    variant: SectionVariant,
    data: seq<Collection>,
    persona: Option<PersonaSlug>,
    column: bool)

  function RenderedId(r: RenderedSection): SectionId { r.id }

  /** The collections each section is given: its own, and the cv also the courses. */
  predicate OwnContent(id: SectionId, data: seq<Collection>) {
    match id
    case Studio => data == [StudioProjectsData]
    case Cv => data == [CvEntriesData, CoursesData]
    case Courses => data == [CoursesData]
    case ClientMusic => data == [MusicProjectsData]
    case Performances => data == [PerformancesData]
    case Art => data == [ArtPiecesData]
  }

  /** The `switch (id)` of the generic path. */
  function Dispatch(id: SectionId, variant: SectionVariant, persona: PersonaSlug): (r: RenderedSection)
    ensures r.id == id && r.variant == variant && !r.column
    ensures OwnContent(id, r.data)
    ensures r.persona.Some? <==> id !in {Courses, Art}
    ensures r.persona.Some? ==> r.persona.value == persona
  {
    match id
    case Studio => RenderedSection(Studio, variant, [StudioProjectsData], Some(persona), false)
    case Cv => RenderedSection(Cv, variant, [CvEntriesData, CoursesData], Some(persona), false)
    case Courses => RenderedSection(Courses, variant, [CoursesData], None, false)
    case ClientMusic => RenderedSection(ClientMusic, variant, [MusicProjectsData], Some(persona), false)
    case Performances => RenderedSection(Performances, variant, [PerformancesData], Some(persona), false)
    case Art => RenderedSection(Art, variant, [ArtPiecesData], None, false)
  }

  /** `ordered.map(...)`: each entry looks its variant up again and hidden ones give nothing. */
  function RenderOrdered(sections: seq<SectionConfig>, ordered: seq<SectionConfig>, persona: PersonaSlug)
    : (r: seq<RenderedSection>)
    ensures |r| <= |ordered|
    ensures forall i :: 0 <= i < |r| ==>
      r[i].variant != Hidden && r[i].variant == GetVariant(sections, r[i].id) && OwnContent(r[i].id, r[i].data)
  {
    if ordered == [] then []
    else
      var v := GetVariant(sections, ordered[0].id);
      (if v == Hidden then [] else [Dispatch(ordered[0].id, v, persona)]) + RenderOrdered(sections, ordered[1..], persona)
  }

  /** The musician's side-by-side columns: performances, then client-music, each if not hidden. */
  function MusicianColumns(sections: seq<SectionConfig>): seq<RenderedSection> {
    var perf := GetVariant(sections, Performances);
    var music := GetVariant(sections, ClientMusic);
    (if perf != Hidden
     then [RenderedSection(Performances, perf, [PerformancesData], Some(Musician), true)]
     else [])
    +
    (if music != Hidden
     then [RenderedSection(ClientMusic, music, [MusicProjectsData], Some(Musician), true)]
     else [])
  }

  /** `SectionRenderer({ config })`: the section components inside the page's container. */
  function Render(config: PersonaConfig): seq<RenderedSection> {
    if config.slug == Musician then MusicianColumns(config.sections)
    else RenderOrdered(config.sections, SortByOrder(config.sections), config.slug)
  }

  predicate IsVisible(c: SectionConfig) {
    c.variant != Hidden
  }

  // ─── properties of the rendering ───────────────────────────────────────────

  lemma {:induction false} RenderOrderedDistinct(sections: seq<SectionConfig>, ordered: seq<SectionConfig>, persona: PersonaSlug)
    requires DistinctIds(sections)
    requires forall i :: 0 <= i < |ordered| ==> ordered[i] in sections
    ensures Map(RenderOrdered(sections, ordered, persona), RenderedId) == Map(Filter(ordered, IsVisible), IdOf)
  {
    if ordered != [] {
      GetVariantOfEntry(sections, ordered[0]);
      RenderOrderedDistinct(sections, ordered[1..], persona);
      var head := if IsVisible(ordered[0]) then [Dispatch(ordered[0].id, ordered[0].variant, persona)] else [];
      MapConcat(head, RenderOrdered(sections, ordered[1..], persona), RenderedId);
      MapConcat(if IsVisible(ordered[0]) then [ordered[0]] else [], Filter(ordered[1..], IsVisible), IdOf);
    }
  }

  /**
   * On the generic path, and with distinct ids, the rendered sections are exactly
   * the non-hidden entries, in ascending stable `order`.
   */
  lemma RenderedAreVisibleSorted(config: PersonaConfig)
    requires config.slug != Musician
    requires DistinctIds(config.sections)
    ensures Map(Render(config), RenderedId) == Map(SortByOrder(Filter(config.sections, IsVisible)), IdOf)
  {
    var s := config.sections;
    SortByOrderCorrect(s);
    forall i | 0 <= i < |SortByOrder(s)| ensures SortByOrder(s)[i] in s {
      assert SortByOrder(s)[i] in multiset(SortByOrder(s));
    }
    RenderOrderedDistinct(s, SortByOrder(s), config.slug);
    SortFilterCommute(s, IsVisible);
  }

  /** A configuration whose sections are all hidden renders an empty container. */
  lemma {:induction false} AllHiddenRendersNothing(config: PersonaConfig)
    requires forall i :: 0 <= i < |config.sections| ==> config.sections[i].variant == Hidden
    ensures Render(config) == []
  {
    var s := config.sections;
    assert forall id :: GetVariant(s, id) == Hidden by {
      forall id ensures GetVariant(s, id) == Hidden {
        if exists i :: 0 <= i < |s| && s[i].id == id {
          var k := FirstIndex(s, id);
          assert FirstWithId(s, id, k);
        }
      }
    }
    AllHiddenOrdered(s, SortByOrder(s), config.slug);
  }

  function FirstIndex(s: seq<SectionConfig>, id: SectionId): (k: nat)
    requires exists i :: 0 <= i < |s| && s[i].id == id
    ensures FirstWithId(s, id, k)
  {
    if s[0].id == id then 0
    else
      assert exists i :: 0 <= i < |s[1..]| && s[1..][i].id == id by {
        var i :| 0 <= i < |s| && s[i].id == id;
        assert s[1..][i - 1] == s[i];
      }
      1 + FirstIndex(s[1..], id)
  }

  lemma {:induction false} AllHiddenOrdered(s: seq<SectionConfig>, ordered: seq<SectionConfig>, persona: PersonaSlug)
    requires forall id :: GetVariant(s, id) == Hidden
    ensures RenderOrdered(s, ordered, persona) == []
  {
    if ordered != [] {
      AllHiddenOrdered(s, ordered[1..], persona);
    }
  }

  /** The sections with their order values replaced (same ids and variants, same positions). */
  function Reorder(s: seq<SectionConfig>, orders: seq<int>): seq<SectionConfig>
    requires |orders| == |s|
  {
    seq(|s|, i requires 0 <= i < |s| => SectionConfig(s[i].id, s[i].variant, orders[i]))
  }

  lemma {:induction false} GetVariantIgnoresOrder(s: seq<SectionConfig>, orders: seq<int>, id: SectionId)
    requires |orders| == |s|
    ensures GetVariant(Reorder(s, orders), id) == GetVariant(s, id)
  {
    if s != [] {
      assert Reorder(s, orders)[1..] == Reorder(s[1..], orders[1..]);
      GetVariantIgnoresOrder(s[1..], orders[1..], id);
    }
  }

  /** For the musician, `order` is ignored: any order values give the same two columns. */
  lemma MusicianIgnoresOrder(config: PersonaConfig, orders: seq<int>)
    requires config.slug == Musician
    requires |orders| == |config.sections|
    ensures Render(config.(sections := Reorder(config.sections, orders))) == Render(config)
  {
    GetVariantIgnoresOrder(config.sections, orders, Performances);
    GetVariantIgnoresOrder(config.sections, orders, ClientMusic);
  }

  /** The musician's columns: performances before client-music, each present iff not hidden, both marked as columns. */
  lemma MusicianColumnsShape(config: PersonaConfig)
    requires config.slug == Musician
    ensures var r := Render(config);
      && |r| <= 2
      && (forall i :: 0 <= i < |r| ==>
            && r[i].column && r[i].variant != Hidden && OwnContent(r[i].id, r[i].data)
            && r[i].variant == GetVariant(config.sections, r[i].id) && r[i].persona == Some(Musician))
      && (GetVariant(config.sections, Performances) != Hidden <==> exists i :: 0 <= i < |r| && r[i].id == Performances)
      && (GetVariant(config.sections, ClientMusic) != Hidden <==> exists i :: 0 <= i < |r| && r[i].id == ClientMusic)
      && (|r| == 2 ==> r[0].id == Performances && r[1].id == ClientMusic)
  {
    var r := Render(config);
    if GetVariant(config.sections, Performances) != Hidden {
      assert r[0].id == Performances;
    }
    if GetVariant(config.sections, ClientMusic) != Hidden {
      assert r[|r| - 1].id == ClientMusic;
    }
  }

  /** Rendering an ordered list whose head is `c`, when `c` carries the variant found for its id. */
  lemma RenderOrderedCons(sections: seq<SectionConfig>, c: SectionConfig, rest: seq<SectionConfig>, persona: PersonaSlug)
    requires GetVariant(sections, c.id) == c.variant
    ensures RenderOrdered(sections, [c] + rest, persona) ==
      (if c.variant == Hidden then [] else [Dispatch(c.id, c.variant, persona)]) + RenderOrdered(sections, rest, persona)
  {
    assert ([c] + rest)[1..] == rest;
  }

  /** One step of the rendering of a suffix of a configuration's own sections. */
  lemma RenderStep(s: seq<SectionConfig>, k: nat, persona: PersonaSlug)
    requires DistinctIds(s) && k < |s|
    ensures RenderOrdered(s, s[k..], persona) ==
      (if s[k].variant == Hidden then [] else [Dispatch(s[k].id, s[k].variant, persona)]) + RenderOrdered(s, s[k + 1..], persona)
  {
    GetVariantOfEntry(s, s[k]);
    assert s[k..] == [s[k]] + s[k + 1..];
    RenderOrderedCons(s, s[k], s[k + 1..], persona);
  }

  /** A suffix of hidden entries renders nothing. */
  lemma {:induction false} RenderTail(s: seq<SectionConfig>, k: nat, persona: PersonaSlug)
    requires DistinctIds(s) && k <= |s|
    requires forall i :: k <= i < |s| ==> s[i].variant == Hidden
    ensures RenderOrdered(s, s[k..], persona) == []
    decreases |s| - k
  {
    if k < |s| {
      RenderStep(s, k, persona);
      RenderTail(s, k + 1, persona);
    }
  }

  /** A configuration already sorted by `order` renders in its own order. */
  lemma RenderSortedConfig(c: PersonaConfig)
    requires c.slug != Musician && SortedByOrder(c.sections)
    ensures Render(c) == RenderOrdered(c.sections, c.sections, c.slug)
  {
    SortByOrderSortedIdentity(c.sections);
  }

  /** The architect page renders studio and cv featured, then courses standard. */
  lemma ArchitectRenders()
    ensures Render(PersonaRecord(Architect)) ==
      [Dispatch(Studio, Featured, Architect), Dispatch(Cv, Featured, Architect), Dispatch(Courses, Standard, Architect)]
  {
    var c := PersonaRecord(Architect);
    OrdersAreOneToSix(Architect);
    SlugMatchesKey(Architect);
    RenderSortedConfig(c);
    SectionsComplete(Architect);
    ArchitectScenario();
    RenderVisiblePrefix3(c.sections, Architect);
  }

  /** A configuration whose first three entries are visible and the rest hidden renders those three. */
  lemma RenderVisiblePrefix3(s: seq<SectionConfig>, persona: PersonaSlug)
    requires DistinctIds(s) && 3 <= |s|
    requires s[0].variant != Hidden && s[1].variant != Hidden && s[2].variant != Hidden
    requires forall i :: 3 <= i < |s| ==> s[i].variant == Hidden
    ensures RenderOrdered(s, s, persona) ==
      [Dispatch(s[0].id, s[0].variant, persona), Dispatch(s[1].id, s[1].variant, persona), Dispatch(s[2].id, s[2].variant, persona)]
  {
    RenderTail(s, 3, persona);
    RenderStep(s, 2, persona);
    RenderStep(s, 1, persona);
    RenderStep(s, 0, persona);
    assert s[0..] == s;
  }

  /** The musician page renders exactly the two featured columns. */
  lemma MusicianRenders()
    ensures Render(PersonaRecord(Musician)) == [
      RenderedSection(Performances, Featured, [PerformancesData], Some(Musician), true),
      RenderedSection(ClientMusic, Featured, [MusicProjectsData], Some(Musician), true)]
  {
  }

  /** The artist page renders the art section only, featured. */
  lemma ArtistRenders()
    ensures Render(PersonaRecord(Artist)) == [Dispatch(Art, Featured, Artist)]
  {
    var c := PersonaRecord(Artist);
    OrdersAreOneToSix(Artist);
    SlugMatchesKey(Artist);
    RenderSortedConfig(c);
    SectionsComplete(Artist);
    ArtistScenario();
    RenderVisiblePrefix1(c.sections, Artist);
  }

  /** A configuration whose first entry is visible and the rest hidden renders that one. */
  lemma RenderVisiblePrefix1(s: seq<SectionConfig>, persona: PersonaSlug)
    requires DistinctIds(s) && 1 <= |s|
    requires s[0].variant != Hidden
    requires forall i :: 1 <= i < |s| ==> s[i].variant == Hidden
    ensures RenderOrdered(s, s, persona) == [Dispatch(s[0].id, s[0].variant, persona)]
  {
    RenderTail(s, 1, persona);
    RenderStep(s, 0, persona);
    assert s[0..] == s;
  }
}
