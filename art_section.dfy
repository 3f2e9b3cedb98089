/**
 * The art section: the six gallery layouts cycled by index, the medium and
 * series line, the variant dispatch, and the hover and selection state.
 */
module ArtSection {
  import opened Wrappers
  import opened Seqs
  import opened Personas
  import opened Content
  import opened Text

  datatype TextAlign = AlignStart | AlignEnd

  /** A gallery layout; the flex bases are the percentages of `'0 0 N%'`. */
  datatype Layout = Layout(imageLeft: bool, imageFlex: nat, textFlex: nat, imageAspect: string, textAlign: TextAlign)

  /** `LAYOUTS`. */
  const Layouts: seq<Layout> := [
    Layout(true, 72, 28, "4/3", AlignEnd),
    Layout(false, 55, 45, "3/4", AlignStart),
    Layout(true, 85, 15, "16/9", AlignEnd),
    Layout(false, 60, 40, "1/1", AlignStart),
    Layout(true, 65, 35, "3/2", AlignEnd),
    Layout(false, 78, 22, "4/5", AlignStart)
  ]

  /** `LAYOUTS[index % LAYOUTS.length]`. */
  function LayoutFor(index: nat): (r: Layout)
    ensures r == Layouts[index % 6]
  {
    Layouts[index % |Layouts|]
  }

  datatype Block = ImageBlock | TextBlock

  /** The two blocks of a gallery entry, in the order they are laid out. */
  function Blocks(index: nat): (r: seq<Block>)
    ensures multiset(r) == multiset{ImageBlock, TextBlock}
  {
    if LayoutFor(index).imageLeft then [ImageBlock, TextBlock] else [TextBlock, ImageBlock]
  }

  /** The name of a medium as the source spells it. */
  function MediumName(m: ArtMedium): string {
    match m
    case Drawing => "drawing"
    case Painting => "painting"
    case Digital => "digital"
    case MixedMedia => "mixed"
    case Photography => "photography"
  }

  /** The line above a piece's title: the medium, then ` · series` when there is a series. */
  function MediumLabel(a: ArtPiece): (r: string)
    ensures |r| >= |MediumName(a.medium)| && r[..|MediumName(a.medium)|] == MediumName(a.medium)
    ensures |r| > |MediumName(a.medium)| <==> Truthy(a.series)
    ensures Truthy(a.series) ==> r[|MediumName(a.medium)|..] == " · " + a.series.value
  {
    MediumName(a.medium) + (if Truthy(a.series) then " · " + a.series.value else "")
  }

  /** A gallery entry: the piece, its layout and the order of its blocks. */
  datatype GalleryEntry = GalleryEntry(piece: ArtPiece, layout: Layout, blocks: seq<Block>)

  /** `pieces.map((piece, i) => <GalleryPiece index={i} />)`: entry `i` shows piece `i` in layout `i mod 6`. */
  function Gallery(pieces: seq<ArtPiece>): (r: seq<GalleryEntry>)
    ensures |r| == |pieces|
    ensures forall i :: 0 <= i < |r| ==>
      && r[i].piece == pieces[i]
      && r[i].layout == Layouts[i % 6]
      && multiset(r[i].blocks) == multiset{ImageBlock, TextBlock}
      && (r[i].blocks[0] == ImageBlock <==> r[i].layout.imageLeft)
  {
    seq(|pieces|, i requires 0 <= i < |pieces| => GalleryEntry(pieces[i], LayoutFor(i), Blocks(i)))
  }

  datatype ArtView =
    | NoArt
    | CompactArt(works: nat)
    | GalleryView(entries: seq<GalleryEntry>)
    | GridView(pieces: seq<ArtPiece>)

  /** `ArtSection`: nothing when hidden, the count when compact, the gallery when featured, the grid otherwise. */
  function View(variant: SectionVariant, pieces: seq<ArtPiece>): (r: ArtView)
    ensures r.NoArt? <==> variant == Hidden
    ensures r.CompactArt? <==> variant == Compact
    ensures r.CompactArt? ==> r.works == |pieces|
    ensures r.GalleryView? <==> variant == Featured
    ensures r.GalleryView? ==> r.entries == Gallery(pieces)
    ensures r.GridView? <==> variant == Standard
    ensures r.GridView? ==> r.pieces == pieces
  {
    match variant
    case Hidden => NoArt
    case Compact => CompactArt(|pieces|)
    case Featured => GalleryView(Gallery(pieces))
    case Standard => GridView(pieces)
  }

  /** The hover overlay of a gallery image. */
  class GalleryPiece {
    var hovered: bool

    constructor ()
      ensures !hovered
    {
      hovered := false;
    }

    method MouseEnter()
      modifies this
      ensures hovered
    {
      hovered := true;
    }

    method MouseLeave()
      modifies this
      ensures !hovered
    {
      hovered := false;
    }
  }

  /** The piece the viewer shows. */
  class ArtSelection {
    const pieces: seq<ArtPiece>
    var selectedId: Option<string>

    constructor (pieces: seq<ArtPiece>)
      ensures this.pieces == pieces && selectedId.None?
    {
      this.pieces := pieces;
      selectedId := None;
    }

    function Selected(): Option<ArtPiece>
      reads this
    {
      SelectedBy(pieces, ArtId, selectedId)
    }

    /** `onOpen` of a gallery entry or a grid cell. */
    method Open(id: string)
      modifies this
      ensures selectedId == Some(id)
    {
      selectedId := Some(id);
    }

    method Close()
      modifies this
      ensures selectedId.None? && Selected().None?
    {
      selectedId := None;
    }
  }

  // ─── properties ───────────────────────────────────────────────────────────

  /** The layouts repeat with period six. */
  lemma LayoutsCycle(index: nat)
    ensures LayoutFor(index + 6) == LayoutFor(index)
    ensures Blocks(index + 6) == Blocks(index)
  {
    assert (index + 6) % 6 == index % 6;
  }

  /** The image comes first exactly at the even layouts, and every layout shares the row out in full. */
  lemma LayoutShape(index: nat)
    ensures LayoutFor(index).imageLeft <==> index % 2 == 0
    ensures Blocks(index)[0] == ImageBlock <==> index % 2 == 0
    ensures LayoutFor(index).imageFlex + LayoutFor(index).textFlex == 100
    ensures LayoutFor(index).textAlign == (if index % 2 == 0 then AlignEnd else AlignStart)
  {
    var k := index % 6;
    assert k % 2 == index % 2;
  }

  /** Reads the medium back from the front of a label. */
  function ParseMedium(text: string): Option<ArtMedium> {
    if StartsWith(text, "drawing") then Some(Drawing)
    else if StartsWith(text, "painting") then Some(Painting)
    else if StartsWith(text, "digital") then Some(Digital)
    else if StartsWith(text, "mixed") then Some(MixedMedia)
    else if StartsWith(text, "photography") then Some(Photography)
    else None
  }

  /** The label names its medium: no medium's name begins another's, series or not. */
  lemma MediumLabelReadsBack(a: ArtPiece)
    ensures ParseMedium(MediumLabel(a)) == Some(a.medium)
  {
    var l := MediumLabel(a);
    match a.medium
    case Drawing =>
    case Painting => assert l[1] == 'a';
    case Digital => assert l[1] == 'i';
    case MixedMedia => assert l[0] == 'm';
    case Photography => assert l[1] == 'h';
  }

  /** So two pieces with the same label have the same medium. */
  lemma MediumLabelNamesMedium(a: ArtPiece, b: ArtPiece)
    requires MediumLabel(a) == MediumLabel(b)
    ensures a.medium == b.medium
  {
    MediumLabelReadsBack(a);
    MediumLabelReadsBack(b);
  }

  /** Opening one of the pieces and then asking for the selection gives that piece. */
  method OpenSelects(s: ArtSelection, i: nat)
    requires DistinctBy(s.pieces, ArtId) && i < |s.pieces|
    modifies s
    ensures s.Selected() == Some(s.pieces[i])
  {
    s.Open(s.pieces[i].id);
    SelectedIsUnique(s.pieces, ArtId, s.pieces[i].id, i);
  }
}
