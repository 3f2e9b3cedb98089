/**
 * The studio section: its variant dispatch, the compact strip of the first
 * three titles, the standard view's first six projects, the two-digit
 * project counter of the immersive stack, and the selection that opens the
 * project viewer.
 */
module StudioSection {
  import opened Wrappers
  import opened Seqs
  import opened Text
  import opened Personas
  import opened Content
  import opened CompactStrip

  function TitleOf(p: StudioProject): string { p.title }

  /** The strip shows at most this many titles. */
  const CompactLimit: nat := 3

  /** The standard view's track shows at most this many folders. */
  const StandardLimit: nat := 6

  /** The compact strip's titles, each followed by a separator while `i < min(n, 3) - 1`. */
  function CompactBody(ps: seq<StudioProject>): seq<StripPart<string>> {
    var shown := if |ps| < CompactLimit then |ps| else CompactLimit;
    StripFrom(Take(Map(ps, TitleOf), CompactLimit), 0, SepBefore(shown))
  }

  datatype StudioView =
    | NoStudio
    | CompactStudio(body: seq<StripPart<string>>, total: nat)
    | ImmersiveStack(projects: seq<StudioProject>)
    | StandardTrack(folders: seq<StudioProject>)

  /** `StudioSection`: nothing when hidden, the strip when compact, the immersive stack when featured, the track otherwise. */
  function View(variant: SectionVariant, ps: seq<StudioProject>): (r: StudioView)
    ensures r.NoStudio? <==> variant == Hidden
    ensures r.CompactStudio? <==> variant == Compact
    ensures r.CompactStudio? ==> r.total == |ps| && r.body == CompactBody(ps)
    ensures r.ImmersiveStack? <==> variant == Featured
    ensures r.ImmersiveStack? ==> r.projects == ps
    ensures r.StandardTrack? <==> variant == Standard
    ensures r.StandardTrack? ==> |r.folders| == (if |ps| < 6 then |ps| else 6) && r.folders == ps[..|r.folders|]
  {
    match variant
    case Hidden => NoStudio
    case Compact => CompactStudio(CompactBody(ps), |ps|)
    case Featured => ImmersiveStack(ps)
    case Standard => StandardTrack(Take(ps, StandardLimit))
  }

  /** The corner counter of project `i` of `n`: both numbers padded to two digits. */
  function Counter(i: nat, n: nat): string {
    PadStart2(NatToString(i + 1)) + " / " + PadStart2(NatToString(n))
  }

  /** The selection of the immersive stack and of the standard track. */
  class StudioSelection {
    const projects: seq<StudioProject>
    var selectedId: Option<string>

    constructor (projects: seq<StudioProject>)
      ensures this.projects == projects && selectedId.None?
    {
      this.projects := projects;
      selectedId := None;
    }

    /** The project the viewer shows, if any. */
    function Selected(): Option<StudioProject>
      reads this
    {
      SelectedBy(projects, StudioId, selectedId)
    }

    /** A click on a card of the immersive stack: it selects only when nothing is selected. */
    method ClickStacked(id: string)
      modifies this
      ensures old(Selected()).None? ==> selectedId == Some(id)
      ensures old(Selected()).Some? ==> selectedId == old(selectedId)
    {
      if SelectedBy(projects, StudioId, selectedId).None? {
        selectedId := Some(id);
      }
    }

    /** `onOpen` of a folder in the track. */
    method Open(id: string)
      modifies this
      ensures selectedId == Some(id)
    {
      selectedId := Some(id);
    }

    /** The viewer's `onClose`. */
    method Close()
      modifies this
      ensures selectedId.None? && Selected().None?
    {
      selectedId := None;
    }
  }

  // ─── properties ───────────────────────────────────────────────────────────

  /**
   * The strip lists the first `min(3, n)` titles in order, with exactly one
   * separator between consecutive titles and none before the first or after the last.
   */
  lemma CompactStripShape(ps: seq<StudioProject>)
    ensures var titles := Take(Map(ps, TitleOf), CompactLimit);
      && CompactBody(ps) == Interleave(titles)
      && Entries(CompactBody(ps)) == titles
      && |titles| == (if |ps| < 3 then |ps| else 3)
      && (ps != [] ==> NoDoubleSep(Framed(CompactBody(ps))))
  {
    var titles := Take(Map(ps, TitleOf), CompactLimit);
    TakeStripInterleaved(Map(ps, TitleOf), CompactLimit);
    if ps != [] {
      InterleaveFramedNoDoubleSep(titles);
    }
  }

  /** The counter reads back as `i + 1` and `n`, each at least two digits wide. */
  lemma CounterReadsBack(i: nat, n: nat)
    ensures var c := Counter(i, n);
      var a := PadStart2(NatToString(i + 1));
      var b := PadStart2(NatToString(n));
      && c == a + " / " + b
      && |a| >= 2 && |b| >= 2
      && DigitsValue(a) == i + 1 && DigitsValue(b) == n
  {
    PaddedNumber(i + 1);
    PaddedNumber(n);
  }

  /** A click on the stack while a project is open does not switch to another. */
  method ClickWhileOpen(s: StudioSelection, other: string)
    requires s.Selected().Some?
    modifies s
    ensures s.selectedId == old(s.selectedId)
  {
    s.ClickStacked(other);
  }
}
