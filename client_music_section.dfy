/**
 * The client-music section: a project's display name, its credit boxes,
 * the own/for-others split of the musician's studio view, the compact strip
 * of public projects, and what a private project keeps hidden.
 */
module ClientMusicSection {
  import opened Wrappers
  import opened Seqs
  import opened Personas
  import opened Content
  import opened CompactStrip

  /** `artistName || client || '—'`. */
  function DisplayName(p: MusicProject): (r: string)
    ensures r != ""
    ensures r == p.artistName || (p.client.Some? && r == p.client.value) || r == "—"
    ensures p.artistName != "" ==> r == p.artistName
    ensures p.artistName == "" && Truthy(p.client) ==> r == p.client.value
    ensures p.artistName == "" && !Truthy(p.client) ==> r == "—"
  {
    if p.artistName != "" then p.artistName
    else if Truthy(p.client) then p.client.value
    else "—"
  }

  /** `ALL_CREDITS`: the boxes, in the order they are always drawn. */
  const AllCredits: seq<MusicCredit> := [Written, Produced, Mixed, Mastered]

  datatype CreditBox = CreditBox(credit: MusicCredit, active: bool)

  function BoxFor(p: MusicProject): MusicCredit -> CreditBox {
    c => CreditBox(c, c in p.credits.GetOr([]))
  }

  /** One box per credit of `ALL_CREDITS`, checked when the project lists that credit. */
  function CreditBoxes(p: MusicProject): (r: seq<CreditBox>)
    ensures |r| == 4
    ensures forall i :: 0 <= i < 4 ==> r[i].credit == AllCredits[i]
    ensures forall i :: 0 <= i < 4 ==> (r[i].active <==> p.credits.Some? && AllCredits[i] in p.credits.value)
  {
    Map(AllCredits, BoxFor(p))
  }

  predicate IsOwn(p: MusicProject) { IsSet(p.isOwn) }

  predicate ForOthers(p: MusicProject) { !IsOwn(p) }

  predicate IsPublic(p: MusicProject) { p.isPublic }

  /** A compact-strip item: `role — title`. */
  datatype StripItem = StripItem(role: string, title: string)

  function StripItemOf(p: MusicProject): StripItem {
    StripItem(p.role, p.title)
  }

  /** The first two public projects. */
  function CompactProjects(ps: seq<MusicProject>): (r: seq<MusicProject>)
    ensures |r| == if |Filter(ps, IsPublic)| < 2 then |Filter(ps, IsPublic)| else 2
    ensures r == Filter(ps, IsPublic)[..|r|]
    ensures forall i :: 0 <= i < |r| ==> r[i].isPublic && r[i] in ps
  {
    Take(Filter(ps, IsPublic), 2)
  }

  /** The compact strip as written: a separator after the item at index 0, whether or not another item follows. */
  function CompactStripAsWritten(ps: seq<MusicProject>): (r: seq<StripPart<StripItem>>)
    ensures Entries(r) == Map(CompactProjects(ps), StripItemOf)
    ensures |Filter(ps, IsPublic)| == 1 ==> r == [Entry(StripItemOf(Filter(ps, IsPublic)[0])), Sep]
  {
    var items := Map(CompactProjects(ps), StripItemOf);
    assert |Filter(ps, IsPublic)| == 1 ==> StripFrom(items[1..], 1, SepAfterFirst) == [];
    StripFrom(items, 0, SepAfterFirst)
  }

  /** The guard `i === 0`. */
  predicate SepAfterFirst(i: nat) { i == 0 }

  /** The compact strip as intended: separators between consecutive items only. */
  function CompactStripBody(ps: seq<MusicProject>): (r: seq<StripPart<StripItem>>)
    ensures Entries(r) == Map(CompactProjects(ps), StripItemOf)
    ensures forall i :: 0 <= i < |r| ==> (r[i].Sep? <==> i % 2 == 1)
  {
    InterleaveEntries(Map(CompactProjects(ps), StripItemOf));
    Interleave(Map(CompactProjects(ps), StripItemOf))
  }

  /** A row of the musician's studio view: what a private project shows is limited. */
  datatype TrackRow = TrackRow(title: Option<string>, name: string, boxes: seq<CreditBox>, spotify: Option<string>)

  /** `TrackRow`: the title, or "Private"; the Spotify link only for a public project with one. */
  function Row(p: MusicProject): (r: TrackRow)
    ensures r.title.Some? <==> p.isPublic
    ensures r.title.Some? ==> r.title.value == p.title
    ensures r.spotify.Some? <==> p.isPublic && Truthy(p.spotifyUrl)
    ensures r.spotify.Some? ==> r.spotify.value == p.spotifyUrl.value
    ensures r.name == DisplayName(p) && r.boxes == CreditBoxes(p)
  {
    TrackRow(if p.isPublic then Some(p.title) else None, DisplayName(p), CreditBoxes(p),
      if p.isPublic && Truthy(p.spotifyUrl) then Some(p.spotifyUrl.value) else None)
  }

  /** A card of the default view. */
  datatype Card = Card(title: Option<string>, name: string, description: Option<string>, listen: Option<string>)

  /**
   * The card: title and description hidden for a private project; the name line
   * `artistName || client`, shown whether or not the project is public; `Listen`
   * to `spotifyUrl || listenUrl`.
   */
  function CardOf(p: MusicProject, featured: bool): (r: Card)
    ensures r.title.Some? <==> p.isPublic
    ensures r.title.Some? ==> r.title.value == p.title
    ensures p.artistName != "" ==> r.name == p.artistName
    ensures p.artistName == "" && Truthy(p.client) ==> r.name == p.client.value
    ensures p.artistName == "" && !Truthy(p.client) ==> r.name == ""
    ensures r.description.Some? <==> featured && p.isPublic
    ensures r.description.Some? ==> r.description.value == p.description
    ensures r.listen.Some? <==> p.isPublic && (Truthy(p.spotifyUrl) || Truthy(p.listenUrl))
    ensures r.listen.Some? && Truthy(p.spotifyUrl) ==> r.listen.value == p.spotifyUrl.value
    ensures r.listen.Some? && !Truthy(p.spotifyUrl) ==> r.listen.value == p.listenUrl.value
  {
    Card(if p.isPublic then Some(p.title) else None,
      if p.artistName != "" then p.artistName else p.client.GetOr(""),
      if featured && p.isPublic then Some(p.description) else None,
      if !p.isPublic then None
      else if Truthy(p.spotifyUrl) then Some(p.spotifyUrl.value)
      else if Truthy(p.listenUrl) then Some(p.listenUrl.value)
      else None)
  }

  function FeaturedCard(featured: bool): MusicProject -> Card {
    p => CardOf(p, featured)
  }

  datatype ClientMusicView =
    | NoMusic
    | CompactMusic(body: seq<StripPart<StripItem>>)
    | StudioView(own: seq<TrackRow>, forOthers: seq<TrackRow>, column: bool)
    | CardsView(cards: seq<Card>)

  /** `ClientMusicSection`: hidden, then compact, then the musician's studio view, then the cards. */
  function View(variant: SectionVariant, ps: seq<MusicProject>, persona: Option<PersonaSlug>,
                column: Option<bool>): (r: ClientMusicView)
    ensures r.NoMusic? <==> variant == Hidden
    ensures r.CompactMusic? <==> variant == Compact
    ensures r.CompactMusic? ==> Entries(r.body) == Map(CompactProjects(ps), StripItemOf)
    ensures r.CompactMusic? && |Filter(ps, IsPublic)| != 1 ==> r.body == CompactStripAsWritten(ps)
    ensures r.StudioView? <==> variant != Hidden && variant != Compact && persona == Some(Musician)
    ensures r.StudioView? ==>
      && r.own == Map(Filter(ps, IsOwn), Row) && r.forOthers == Map(Filter(ps, ForOthers), Row)
      && |r.own| + |r.forOthers| == |ps| && r.column == IsSet(column)
    ensures r.CardsView? ==>
      |r.cards| == |ps| && forall i :: 0 <= i < |ps| ==> r.cards[i] == CardOf(ps[i], variant == Featured)
  {
    if variant == Hidden then NoMusic
    else if variant == Compact then
      assert |Filter(ps, IsPublic)| >= 2 ==> CompactStripAsWritten(ps) == CompactStripBody(ps) by {
        if |Filter(ps, IsPublic)| >= 2 {
          AsWrittenAgreesFromTwo(ps);
        }
      }
      CompactMusic(CompactStripBody(ps))
    else if persona == Some(Musician) then
      OwnAndOthersPartition(ps);
      StudioView(Map(Filter(ps, IsOwn), Row), Map(Filter(ps, ForOthers), Row), IsSet(column))
    else CardsView(Map(ps, FeaturedCard(variant == Featured)))
  }

  // ─── properties ───────────────────────────────────────────────────────────

  /** Own and for-others projects split the projects: each appears in exactly one list. */
  lemma OwnAndOthersPartition(ps: seq<MusicProject>)
    ensures |Filter(ps, IsOwn)| + |Filter(ps, ForOthers)| == |ps|
    ensures multiset(Filter(ps, IsOwn)) + multiset(Filter(ps, ForOthers)) == multiset(ps)
    ensures FilteredFrom(Filter(ps, IsOwn), ps, IsOwn) && FilteredFrom(Filter(ps, ForOthers), ps, ForOthers)
  {
    FilterSplit(ps, IsOwn, ForOthers);
    FilterKeepsOrder(ps, IsOwn);
    FilterKeepsOrder(ps, ForOthers);
  }

  /** A project without credits shows four unchecked boxes, always in the order Written, Produced, Mixed, Mastered. */
  lemma NoCreditsNoneActive(p: MusicProject)
    requires p.credits.None? || p.credits == Some([])
    ensures CreditBoxes(p) == [CreditBox(Written, false), CreditBox(Produced, false),
                               CreditBox(Mixed, false), CreditBox(Mastered, false)]
  {
  }

  /** A private project shows neither its title nor any listening link, in either view. */
  lemma PrivateStaysPrivate(p: MusicProject, featured: bool)
    requires !p.isPublic
    ensures Row(p).title.None? && Row(p).spotify.None?
    ensures CardOf(p, featured).title.None? && CardOf(p, featured).description.None? && CardOf(p, featured).listen.None?
  {
  }

  /** With a single public project, the strip as written draws two separators in a row. */
  lemma SinglePublicDoubleSeparator(ps: seq<MusicProject>)
    requires |Filter(ps, IsPublic)| == 1
    ensures !NoDoubleSep(Framed(CompactStripAsWritten(ps)))
  {
    var items := Map(CompactProjects(ps), StripItemOf);
    assert |items| == 1;
    assert StripFrom(items[1..], 1, SepAfterFirst) == [];
    assert CompactStripAsWritten(ps) == [Entry(items[0]), Sep];
    var f := Framed(CompactStripAsWritten(ps));
    assert f[2].Sep? && f[3].Sep?;
  }

  /** With two or more public projects, the strip as written is the intended one. */
  lemma AsWrittenAgreesFromTwo(ps: seq<MusicProject>)
    requires |Filter(ps, IsPublic)| >= 2
    ensures CompactStripAsWritten(ps) == CompactStripBody(ps)
  {
    var items := Map(CompactProjects(ps), StripItemOf);
    SeparatorsBetweenOnly(items, 0, SepAfterFirst);
  }

  /** The intended strip never draws two separators in a row, whenever there is a public project. */
  lemma CompactStripSeparated(ps: seq<MusicProject>)
    requires exists i :: 0 <= i < |ps| && ps[i].isPublic
    ensures NoDoubleSep(Framed(CompactStripBody(ps)))
  {
    var i :| 0 <= i < |ps| && ps[i].isPublic;
    assert ps[i] in Filter(ps, IsPublic);
    InterleaveFramedNoDoubleSep(Map(CompactProjects(ps), StripItemOf));
  }
}
