/**
 * The full-screen viewer for a studio project or an art piece: its page list
 * (cover, extra images, then an inline PDF page), and the page index with its
 * slide direction, stepped by the arrows, the keys and the page indicator.
 */
module ProjectViewer {
  import opened Wrappers
  import opened Text
  import opened Content

  /** What a folder opens: a studio project or an art piece. */
  datatype FolderItem = StudioItem(project: StudioProject) | ArtItem(piece: ArtPiece)

  /** `'coverImage' in item`: only studio projects carry a cover image. */
  function IsStudio(item: FolderItem): (r: bool)
    ensures r <==> item.StudioItem?
  {
    match item
    case StudioItem(_) => true
    case ArtItem(_) => false
  }

  /** The marker that makes a page an inline PDF. */
  const PdfPrefix: string := "pdf:"

  predicate IsPdfPage(page: string) {
    StartsWith(page, PdfPrefix)
  }

  /** `pages[page].slice(4)`: the document a PDF page embeds. */
  function PdfSource(page: string): (r: string)
    requires IsPdfPage(page)
    ensures PdfPrefix + r == page
  {
    page[|PdfPrefix|..]
  }

  /** `buildPages`: the cover, the extra images in order, and the PDF last when there is one. */
  function BuildPages(item: FolderItem): (pages: seq<string>)
    ensures |pages| >= 1
    ensures item.ArtItem? ==> pages == [item.piece.image]
    ensures item.StudioItem? ==>
      var p := item.project;
      var extra := p.images.GetOr([]);
      && pages[0] == p.coverImage
      && |pages| == 1 + |extra| + (if Truthy(p.pdfUrl) then 1 else 0)
      && pages[1..1 + |extra|] == extra
      && (Truthy(p.pdfUrl) ==> IsPdfPage(pages[|pages| - 1]) && PdfSource(pages[|pages| - 1]) == p.pdfUrl.value)
  {
    match item
    case StudioItem(p) =>
      var pages := [p.coverImage] + p.images.GetOr([]);
      if Truthy(p.pdfUrl) then
        var last := PdfPrefix + p.pdfUrl.value;
        assert last[..|PdfPrefix|] == PdfPrefix;
        pages + [last]
      else pages
    case ArtItem(a) => [a.image]
  }

  /** The counter in the corner: none for a single page, `PDF` on a PDF page, `n / total` otherwise. */
  function PageCounter(pages: seq<string>, page: nat): (r: Option<string>)
    requires page < |pages|
    ensures r.None? <==> |pages| <= 1
    ensures r.Some? && IsPdfPage(pages[page]) ==> r.value == "PDF"
    ensures r.Some? && !IsPdfPage(pages[page]) ==>
      r.value == NatToString(page + 1) + " / " + NatToString(|pages|)
  {
    if |pages| <= 1 then None
    else if IsPdfPage(pages[page]) then Some("PDF")
    else Some(NatToString(page + 1) + " / " + NatToString(|pages|))
  }

  /** A key press the viewer listens to. */
  datatype Key = Escape | ArrowRight | ArrowLeft | OtherKey

  /** The viewer's state. */
  class Viewer {
    const pages: seq<string>
    var page: int
    var dir: int
    /** Set once `onClose` has been called. */
    var closeRequested: bool

    ghost predicate Valid()
      reads this
    {
      0 <= page < |pages| && (dir == 1 || dir == -1)
    }

    constructor (item: FolderItem)
      ensures pages == BuildPages(item)
      ensures page == 0 && dir == 1 && !closeRequested
      ensures Valid()
    {
      pages := BuildPages(item);
      page := 0;
      dir := 1;
      closeRequested := false;
    }

    /** `next`: forward one page unless on the last. */
    method Next()
      requires Valid()
      modifies this
      ensures Valid()
      ensures old(page) < |pages| - 1 ==> page == old(page) + 1 && dir == 1
      ensures old(page) == |pages| - 1 ==> page == old(page) && dir == old(dir)
      ensures closeRequested == old(closeRequested)
    {
      if page < |pages| - 1 {
        dir := 1;
        page := page + 1;
      }
    }

    /** `prev`: back one page unless on the first. */
    method Prev()
      requires Valid()
      modifies this
      ensures Valid()
      ensures old(page) > 0 ==> page == old(page) - 1 && dir == -1
      ensures old(page) == 0 ==> page == old(page) && dir == old(dir)
      ensures closeRequested == old(closeRequested)
    {
      if page > 0 {
        dir := -1;
        page := page - 1;
      }
    }

    /** A click on the indicator for page `i`: forward if `i` is ahead, backward otherwise. */
    method GoTo(i: int)
      requires Valid() && 0 <= i < |pages|
      modifies this
      ensures Valid()
      ensures page == i
      ensures dir == if i > old(page) then 1 else -1
      ensures closeRequested == old(closeRequested)
    {
      dir := if i > page then 1 else -1;
      page := i;
    }

    /** The keydown listener: Escape closes, the arrows step the page. */
    method HandleKey(key: Key)
      requires Valid()
      modifies this
      ensures Valid()
      ensures closeRequested == (old(closeRequested) || key == Escape)
      ensures key == ArrowRight ==>
        page == (if old(page) < |pages| - 1 then old(page) + 1 else old(page)) &&
        dir == (if old(page) < |pages| - 1 then 1 else old(dir))
      ensures key == ArrowLeft ==>
        page == (if old(page) > 0 then old(page) - 1 else old(page)) &&
        dir == (if old(page) > 0 then -1 else old(dir))
      ensures key == Escape || key == OtherKey ==> page == old(page) && dir == old(dir)
    {
      if key == Escape {
        closeRequested := true;
      }
      if key == ArrowRight {
        Next();
      }
      if key == ArrowLeft {
        Prev();
      }
    }
  }

  // ─── properties ───────────────────────────────────────────────────────────

  /** A page list has a PDF page exactly when the project has a non-empty `pdfUrl`, as long as no image path looks like one. */
  lemma PdfPageIffPdfUrl(p: StudioProject)
    requires !IsPdfPage(p.coverImage)
    requires forall i :: 0 <= i < |p.images.GetOr([])| ==> !IsPdfPage(p.images.GetOr([])[i])
    ensures var pages := BuildPages(StudioItem(p));
      (exists i :: 0 <= i < |pages| && IsPdfPage(pages[i])) <==> Truthy(p.pdfUrl)
    ensures var pages := BuildPages(StudioItem(p));
      forall i :: 0 <= i < |pages| && IsPdfPage(pages[i]) ==> i == |pages| - 1
  {
    var pages := BuildPages(StudioItem(p));
    var extra := p.images.GetOr([]);
    forall i | 0 <= i < |pages| && IsPdfPage(pages[i])
      ensures i == |pages| - 1 && Truthy(p.pdfUrl)
    {
      if 0 < i <= |extra| {
        assert false;
      }
    }
  }

  /**
   * The counter reads back: it is two digit strings around ` / `, the first
   * reading as the one-based page number and the second as the total, so the
   * shown page lies between 1 and the total.
   */
  lemma CounterInRange(pages: seq<string>, page: nat)
    requires page < |pages| && |pages| > 1 && !IsPdfPage(pages[page])
    ensures exists a: string, b: string ::
      && PageCounter(pages, page) == Some(a + " / " + b)
      && (forall i :: 0 <= i < |a| ==> IsDigit(a[i])) && (forall i :: 0 <= i < |b| ==> IsDigit(b[i]))
      && DigitsValue(a) == page + 1 && DigitsValue(b) == |pages|
      && 1 <= DigitsValue(a) <= DigitsValue(b)
  {
    var a, b := NatToString(page + 1), NatToString(|pages|);
    NatToStringRoundTrip(page + 1);
    NatToStringRoundTrip(|pages|);
    assert PageCounter(pages, page) == Some(a + " / " + b);
  }

  /** Forward then back returns to the same page, from any page but the last. */
  method NextThenPrev(v: Viewer)
    requires v.Valid() && v.page < |v.pages| - 1
    modifies v
    ensures v.Valid() && v.page == old(v.page) && v.dir == -1
  {
    v.Next();
    v.Prev();
  }
}
