/**
 * The papers section: the compact strip of the first three titles, each a
 * link when the paper has a PDF, and the parts of a paper card each variant shows.
 */
module PapersSection {
  import opened Wrappers
  import opened Seqs
  import opened Personas
  import opened Content
  import opened CompactStrip

  /** A title in the strip: a link to the PDF when there is one. */
  datatype TitleRef = TitleRef(title: string, href: Option<string>)

  function TitleRefOf(p: Paper): (r: TitleRef)
    ensures r.title == p.title
    ensures r.href.Some? <==> Truthy(p.pdfUrl)
    ensures r.href.Some? ==> r.href.value == p.pdfUrl.value
  {
    TitleRef(p.title, if Truthy(p.pdfUrl) then Some(p.pdfUrl.value) else None)
  }

  const CompactLimit: nat := 3

  /** The strip's titles, each followed by a separator while `i < min(n, 3) - 1`. */
  function CompactBody(papers: seq<Paper>): seq<StripPart<TitleRef>> {
    var shown := if |papers| < CompactLimit then |papers| else CompactLimit;
    StripFrom(Take(Map(papers, TitleRefOf), CompactLimit), 0, SepBefore(shown))
  }

  /** A paper card: the subtitle when present, the abstract only when featured, `Read` when there is a PDF. */
  datatype PaperCard = PaperCard(title: string, subtitle: Option<string>, paperAbstract: Option<string>,
                                 read: Option<string>)

  function Card(p: Paper, featured: bool): (r: PaperCard)
    ensures r.title == p.title
    ensures r.subtitle.Some? <==> Truthy(p.subtitle)
    ensures r.subtitle.Some? ==> r.subtitle == p.subtitle
    ensures r.paperAbstract.Some? <==> featured
    ensures r.paperAbstract.Some? ==> r.paperAbstract.value == p.paperAbstract
    ensures r.read == TitleRefOf(p).href
  {
    PaperCard(p.title, if Truthy(p.subtitle) then p.subtitle else None,
      if featured then Some(p.paperAbstract) else None, TitleRefOf(p).href)
  }

  function CardFor(featured: bool): Paper -> PaperCard {
    p => Card(p, featured)
  }

  datatype PapersView =
    | NoPapers
    | CompactPapers(body: seq<StripPart<TitleRef>>, total: nat)
    | PaperList(cards: seq<PaperCard>)

  /** `PapersSection`. */
  function View(variant: SectionVariant, papers: seq<Paper>): (r: PapersView)
    ensures r.NoPapers? <==> variant == Hidden
    ensures r.CompactPapers? <==> variant == Compact
    ensures r.CompactPapers? ==> r.body == CompactBody(papers) && r.total == |papers|
    ensures r.PaperList? ==> |r.cards| == |papers|
    ensures r.PaperList? ==> forall i :: 0 <= i < |papers| ==> r.cards[i] == Card(papers[i], variant == Featured)
  {
    if variant == Hidden then NoPapers
    else if variant == Compact then CompactPapers(CompactBody(papers), |papers|)
    else PaperList(Map(papers, CardFor(variant == Featured)))
  }

  // ─── properties ───────────────────────────────────────────────────────────

  /** The strip shows the first `min(3, n)` titles in order, with separators only between them. */
  lemma CompactStripShape(papers: seq<Paper>)
    ensures var refs := Take(Map(papers, TitleRefOf), CompactLimit);
      && CompactBody(papers) == Interleave(refs)
      && Entries(CompactBody(papers)) == refs
      && (papers != [] ==> NoDoubleSep(Framed(CompactBody(papers))))
  {
    var refs := Take(Map(papers, TitleRefOf), CompactLimit);
    TakeStripInterleaved(Map(papers, TitleRefOf), CompactLimit);
    InterleaveEntries(refs);
    if papers != [] {
      InterleaveFramedNoDoubleSep(refs);
    }
  }

  /** The strip's title and the card's `Read` link agree: both exist exactly when the paper has a PDF. */
  lemma LinkIffPdf(p: Paper, featured: bool)
    ensures TitleRefOf(p).href.Some? <==> Card(p, featured).read.Some?
    ensures Card(p, featured).read.Some? <==> Truthy(p.pdfUrl)
  {
  }
}
