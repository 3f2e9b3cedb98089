/**
 * The emisito section: the streaming links of a release, drawn from a fixed
 * list of platforms, and the parts each variant shows.
 */
module EmisitoSection {
  import opened Wrappers
  import opened Seqs
  import opened Personas
  import opened Content

  datatype Platform = Spotify | AppleMusic | SoundCloud | Bandcamp

  /** `streamingPlatforms`, in the order the links are drawn. */
  const Platforms: seq<Platform> := [Spotify, AppleMusic, SoundCloud, Bandcamp]

  function PlatformLabel(p: Platform): string {
    match p
    case Spotify => "Spotify"
    case AppleMusic => "Apple Music"
    case SoundCloud => "SoundCloud"
    case Bandcamp => "Bandcamp"
  }

  /** `release.streamingUrls[key]`. */
  function UrlFor(urls: StreamingUrls, p: Platform): Option<string> {
    match p
    case Spotify => urls.spotify
    case AppleMusic => urls.appleMusic
    case SoundCloud => urls.soundcloud
    case Bandcamp => urls.bandcamp
  }

  datatype StreamLink = StreamLink(platform: Platform, caption: string, href: string)

  function HasUrl(urls: StreamingUrls): Platform -> bool {
    p => Truthy(UrlFor(urls, p))
  }

  function LinkFor(urls: StreamingUrls): Platform -> StreamLink
  {
    p => StreamLink(p, PlatformLabel(p), UrlFor(urls, p).GetOr(""))
  }

  /** The links of a release: one per platform with a URL, in the fixed platform order. */
  function StreamLinks(urls: StreamingUrls): (r: seq<StreamLink>)
    ensures |r| <= 4
    ensures forall i :: 0 <= i < |r| ==>
      Truthy(UrlFor(urls, r[i].platform)) && r[i].href == UrlFor(urls, r[i].platform).value &&
      r[i].caption == PlatformLabel(r[i].platform)
  {
    Map(Filter(Platforms, HasUrl(urls)), LinkFor(urls))
  }

  /** A release card: the description only when featured. */
  datatype ReleaseCard = ReleaseCard(title: string, description: Option<string>, links: seq<StreamLink>)

  function Card(r: EmisitoRelease, featured: bool): (c: ReleaseCard)
    ensures c.title == r.title
    ensures c.description.Some? <==> featured
    ensures c.description.Some? ==> c.description.value == r.description
    ensures c.links == StreamLinks(r.streamingUrls)
  {
    ReleaseCard(r.title, if featured then Some(r.description) else None, StreamLinks(r.streamingUrls))
  }

  function CardFor(featured: bool): EmisitoRelease -> ReleaseCard {
    r => Card(r, featured)
  }

  datatype EmisitoView =
    | NoEmisito
    | CompactEmisito(releases: nat)
    | ReleaseList(cards: seq<ReleaseCard>, intro: bool, exploreLink: bool)

  /** `EmisitoSection`: the intro line only when featured, the "Explore emisito" link only when not. */
  function View(variant: SectionVariant, releases: seq<EmisitoRelease>): (r: EmisitoView)
    ensures r.NoEmisito? <==> variant == Hidden
    ensures r.CompactEmisito? <==> variant == Compact
    ensures r.CompactEmisito? ==> r.releases == |releases|
    ensures r.ReleaseList? ==>
      && |r.cards| == |releases|
      && (r.intro <==> variant == Featured) && (r.exploreLink <==> variant != Featured)
      && forall i :: 0 <= i < |releases| ==> r.cards[i] == Card(releases[i], variant == Featured)
  {
    if variant == Hidden then NoEmisito
    else if variant == Compact then CompactEmisito(|releases|)
    else
      var featured := variant == Featured;
      ReleaseList(Map(releases, CardFor(featured)), featured, !featured)
  }

  // ─── properties ───────────────────────────────────────────────────────────

  function LinkPlatform(l: StreamLink): Platform { l.platform }

  /** The links follow the fixed platform order, skipping exactly the platforms without a URL. */
  lemma LinksFollowPlatformOrder(urls: StreamingUrls)
    ensures Map(StreamLinks(urls), LinkPlatform) == Filter(Platforms, HasUrl(urls))
  {
    var kept := Filter(Platforms, HasUrl(urls));
    var links := StreamLinks(urls);
    assert links == Map(kept, LinkFor(urls));
    var m := Map(links, LinkPlatform);
    assert |m| == |kept|;
    forall i | 0 <= i < |m|
      ensures m[i] == kept[i]
    {
      assert links[i] == LinkFor(urls)(kept[i]);
    }
  }

  /** A platform gets a link exactly when the release has a URL for it. */
  lemma LinksExactlyThePlatformsWithUrls(urls: StreamingUrls, p: Platform)
    ensures Truthy(UrlFor(urls, p)) <==> exists i :: 0 <= i < |StreamLinks(urls)| && StreamLinks(urls)[i].platform == p
  {
    var kept := Filter(Platforms, HasUrl(urls));
    var links := StreamLinks(urls);
    if Truthy(UrlFor(urls, p)) {
      assert links == Map(kept, LinkFor(urls));
      assert p == Platforms[PlatformIndex(p)];
      assert p in kept;
      var i :| 0 <= i < |kept| && kept[i] == p;
      assert links[i].platform == p;
    }
  }

  function PlatformIndex(p: Platform): (i: nat)
    ensures i < 4 && Platforms[i] == p
  {
    match p
    case Spotify => 0
    case AppleMusic => 1
    case SoundCloud => 2
    case Bandcamp => 3
  }

  /** The site has no releases yet: the compact strip reads 0 and the list is empty. */
  lemma NoReleasesYet(variant: SectionVariant)
    requires variant != Hidden
    ensures variant == Compact ==> View(variant, EmisitoReleases) == CompactEmisito(0)
    ensures variant != Compact ==> View(variant, EmisitoReleases).cards == []
  {
  }
}
