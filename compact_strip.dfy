/**
 * The one-line strip a section shows in its compact variant: a label, a
 * separator, a few items, a separator and a "more" link. Only the part
 * between the label and the link is modelled: the items and the separator
 * dots drawn among them.
 */
module CompactStrip {
  import Seqs

  datatype StripPart<T> = Entry(item: T) | Sep

  /**
   * The items as a component renders them with `items.map((x, i) => …)`:
   * item `i` (counted from `start`) is followed by a separator exactly
   * when `sepAfter(i)` holds.
   */
  function StripFrom<T>(items: seq<T>, start: nat, sepAfter: nat -> bool): (r: seq<StripPart<T>>)
    ensures Entries(r) == items
    decreases |items|
  {
    if items == [] then []
    else
      var tail := StripFrom(items[1..], start + 1, sepAfter);
      [Entry(items[0])] + (if sepAfter(start) then [Sep] else []) + tail
  }

  /** The items of a strip, in order, without the separators. */
  function Entries<T>(parts: seq<StripPart<T>>): (r: seq<T>)
    ensures |r| <= |parts|
  {
    if parts == [] then []
    else (if parts[0].Entry? then [parts[0].item] else []) + Entries(parts[1..])
  }

  /** The guard `i < Math.min(n, k) - 1` of a strip showing `slice(0, k)` of `n` items, with `limit` = `min(n, k)`. */
  function SepBefore(limit: int): nat -> bool {
    i => i < limit - 1
  }

  /** Items with exactly one separator between consecutive items, and none around them. */
  function Interleave<T>(items: seq<T>): (r: seq<StripPart<T>>)
    ensures |r| == if items == [] then 0 else 2 * |items| - 1
    ensures forall i :: 0 <= i < |r| ==> r[i] == if i % 2 == 0 then Entry(items[i / 2]) else Sep
  {
    if |items| <= 1 then (if items == [] then [] else [Entry(items[0])])
    else
      var rest := Interleave(items[1..]);
      var r := [Entry(items[0]), Sep] + rest;
      assert forall i :: 2 <= i < |r| ==> r[i] == rest[i - 2];
      r
  }

  /** The whole strip body as drawn: the separator after the label, the items, the separator before the link. */
  function Framed<T>(body: seq<StripPart<T>>): seq<StripPart<T>> {
    [Sep] + body + [Sep]
  }

  /** No two separators are drawn next to each other. */
  predicate NoDoubleSep<T>(parts: seq<StripPart<T>>) {
    forall i :: 0 <= i < |parts| - 1 ==> !(parts[i].Sep? && parts[i + 1].Sep?)
  }

  // ─── properties ───────────────────────────────────────────────────────────

  lemma {:induction false} EntriesConcat<T>(a: seq<StripPart<T>>, b: seq<StripPart<T>>)
    ensures Entries(a + b) == Entries(a) + Entries(b)
  {
    if a == [] {
      assert a + b == b;
    } else {
      var h := if a[0].Entry? then [a[0].item] else [];
      assert (a + b)[0] == a[0];
      assert (a + b)[1..] == a[1..] + b;
      EntriesConcat(a[1..], b);
      calc {
        Entries(a + b);
        h + Entries(a[1..] + b);
        h + (Entries(a[1..]) + Entries(b));
        (h + Entries(a[1..])) + Entries(b);
      }
    }
  }

  /** Reading the items back out of an interleaved strip gives the items. */
  lemma {:induction false} InterleaveEntries<T>(items: seq<T>)
    ensures Entries(Interleave(items)) == items
  {
    if |items| > 1 {
      var rest := Interleave(items[1..]);
      InterleaveEntries(items[1..]);
      assert Interleave(items) == [Entry(items[0]), Sep] + rest;
      EntriesConcat([Entry(items[0]), Sep], rest);
      assert Entries([Entry(items[0]), Sep]) == [items[0]];
    }
  }

  /**
   * The guard `i < min(n, k) - 1` used for a `slice(0, k)` of `n` items draws
   * a separator between consecutive items only: the strip is the interleaving.
   */
  lemma {:induction false} SeparatorsBetweenOnly<T>(items: seq<T>, start: nat, sepAfter: nat -> bool)
    requires forall i :: start <= i < start + |items| ==> (sepAfter(i) <==> i < start + |items| - 1)
    ensures StripFrom(items, start, sepAfter) == Interleave(items)
    decreases |items|
  {
    if |items| > 1 {
      SeparatorsBetweenOnly(items[1..], start + 1, sepAfter);
      assert sepAfter(start);
      assert Interleave(items) == [Entry(items[0]), Sep] + Interleave(items[1..]);
    }
  }

  /** Framed around a non-empty interleaving, the strip never shows two separators in a row. */
  lemma InterleaveFramedNoDoubleSep<T>(items: seq<T>)
    requires items != []
    ensures NoDoubleSep(Framed(Interleave(items)))
  {
    var body := Interleave(items);
    var f := Framed(body);
    assert |f| == |body| + 2;
    forall i | 0 <= i < |f| - 1
      ensures !(f[i].Sep? && f[i + 1].Sep?)
    {
      if i == 0 {
        assert f[1] == body[0];
      } else if i == |f| - 2 {
        assert f[i] == body[|body| - 1];
        assert (|body| - 1) % 2 == 0;
      } else {
        assert f[i] == body[i - 1] && f[i + 1] == body[i];
      }
    }
  }

  /** A strip of the first `k` items guarded by `i < min(n, k) - 1` is the interleaving of those items. */
  lemma TakeStripInterleaved<T>(items: seq<T>, k: nat)
    ensures var shown := if k < |items| then k else |items|;
      StripFrom(Seqs.Take(items, k), 0, SepBefore(shown)) == Interleave(Seqs.Take(items, k))
  {
    var shown := if k < |items| then k else |items|;
    SeparatorsBetweenOnly(Seqs.Take(items, k), 0, SepBefore(shown));
  }
}
