/**
 * The performances section: the piano/band split behind the compact counts
 * and the history view, the musician's live view with its featured/other
 * split, and which program pieces each view lists.
 */
module PerformancesSection {
  import opened Wrappers
  import opened Seqs
  import opened Personas
  import opened Content

  /** Recitals and competitions. */
  predicate IsPiano(p: Performance) {
    p.kind == Recital || p.kind == Competition
  }

  /** Band gigs and sessions. */
  predicate IsBand(p: Performance) {
    p.kind == Band || p.kind == Session
  }

  predicate IsFeatured(p: Performance) {
    IsSet(p.isFeatured)
  }

  predicate IsOther(p: Performance) {
    !IsFeatured(p)
  }

  function PianoPerformances(ps: seq<Performance>): seq<Performance> {
    Filter(ps, IsPiano)
  }

  function BandPerformances(ps: seq<Performance>): seq<Performance> {
    Filter(ps, IsBand)
  }

  /** `perf.program && perf.program.length > 0`. */
  predicate HasProgram(p: Performance) {
    p.program.Some? && |p.program.value| > 0
  }

  /** The line under an "other event": the first two pieces of its program. */
  function OtherEventProgram(p: Performance): (r: Option<seq<string>>)
    ensures r.Some? <==> HasProgram(p)
    ensures r.Some? ==> 1 <= |r.value| <= 2 && |r.value| <= |p.program.value| && r.value == p.program.value[..|r.value|]
    ensures r.Some? ==> |r.value| == if |p.program.value| < 2 then |p.program.value| else 2
  {
    if HasProgram(p) then Some(Take(p.program.value, 2)) else None
  }

  /** The history view lists the whole program, and only for the featured variant. */
  function HistoryProgram(variant: SectionVariant, p: Performance): (r: Option<seq<string>>)
    ensures r.Some? <==> variant == Featured && HasProgram(p)
    ensures r.Some? ==> r.value == p.program.value
  {
    if variant == Featured && HasProgram(p) then Some(p.program.value) else None
  }

  datatype PerformancesView =
    | NoPerformances
    | CompactCounts(recitals: nat, shows: nat)
    | LiveView(featured: seq<Performance>, others: seq<Performance>, column: bool)
    | HistoryView(piano: seq<Performance>, band: seq<Performance>, featuredStyle: bool)

  /** `PerformancesSection`: hidden, then compact, then the musician's live view, then the history. */
  function View(variant: SectionVariant, ps: seq<Performance>, persona: Option<PersonaSlug>,
                column: Option<bool>): (r: PerformancesView)
    ensures r.NoPerformances? <==> variant == Hidden
    ensures r.CompactCounts? <==> variant == Compact
    ensures r.CompactCounts? ==> r.recitals == |PianoPerformances(ps)| && r.shows == |BandPerformances(ps)|
    ensures r.LiveView? <==> variant != Hidden && variant != Compact && persona == Some(Musician)
    ensures r.LiveView? ==>
      && r.column == IsSet(column)
      && multiset(r.featured) + multiset(r.others) == multiset(ps)
      && (forall i :: 0 <= i < |r.featured| ==> IsFeatured(r.featured[i]))
      && (forall i :: 0 <= i < |r.others| ==> !IsFeatured(r.others[i]))
      && FilteredFrom(r.featured, ps, IsFeatured) && FilteredFrom(r.others, ps, IsOther)
    ensures r.HistoryView? ==>
      && multiset(r.piano) + multiset(r.band) == multiset(ps)
      && (r.featuredStyle <==> variant == Featured)
      && FilteredFrom(r.piano, ps, IsPiano) && FilteredFrom(r.band, ps, IsBand)
  {
    if variant == Hidden then NoPerformances
    else if variant == Compact then
      CompactCounts(|PianoPerformances(ps)|, |BandPerformances(ps)|)
    else if persona == Some(Musician) then
      FilterSplit(ps, IsFeatured, IsOther);
      FilterKeepsOrder(ps, IsFeatured);
      FilterKeepsOrder(ps, IsOther);
      LiveView(Filter(ps, IsFeatured), Filter(ps, IsOther), IsSet(column))
    else
      PianoAndBandPartition(ps);
      HistoryView(PianoPerformances(ps), BandPerformances(ps), variant == Featured)
  }

  // ─── properties ───────────────────────────────────────────────────────────

  /** Every performance is piano or band, never both: the two lists split the performances. */
  lemma PianoAndBandPartition(ps: seq<Performance>)
    ensures |PianoPerformances(ps)| + |BandPerformances(ps)| == |ps|
    ensures multiset(PianoPerformances(ps)) + multiset(BandPerformances(ps)) == multiset(ps)
    ensures FilteredFrom(PianoPerformances(ps), ps, IsPiano) && FilteredFrom(BandPerformances(ps), ps, IsBand)
  {
    assert forall p: Performance :: IsBand(p) == !IsPiano(p);
    FilterSplit(ps, IsPiano, IsBand);
    FilterKeepsOrder(ps, IsPiano);
    FilterKeepsOrder(ps, IsBand);
  }

  /** The compact check comes first: a compact musician section is the strip, not the live view. */
  lemma CompactBeforeMusician(ps: seq<Performance>, column: Option<bool>)
    ensures View(Compact, ps, Some(Musician), column).CompactCounts?
    ensures View(Compact, ps, Some(Musician), column).recitals +
            View(Compact, ps, Some(Musician), column).shows == |ps|
  {
    PianoAndBandPartition(ps);
  }
}
