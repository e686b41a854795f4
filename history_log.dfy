/**
 * The two list operations both calculators apply to their history: putting a
 * new record first while keeping only the newest few ("unshift" followed by
 * "slice(0, cap)" when the length exceeds the cap), and keeping the records a
 * test accepts ("filter"), and reading the records of an imported file.
 */
module HistoryLog {

  /** [r] + h, cut to its first cap records when it is longer. */
  function PrependCapped<T>(h: seq<T>, r: T, cap: nat): (out: seq<T>)
    requires cap > 0
    ensures |out| == if |h| + 1 <= cap then |h| + 1 else cap
    ensures out[0] == r
    ensures out[1..] == h[..|out| - 1]
  {
    var all := [r] + h;
    if |all| > cap then all[..cap] else all
  }

  /** A history that never exceeded the cap still does not after a prepend. */
  lemma PrependCappedBounded<T>(h: seq<T>, r: T, cap: nat)
    requires cap > 0
    ensures |PrependCapped(h, r, cap)| <= cap
    ensures |h| < cap ==> PrependCapped(h, r, cap) == [r] + h
  {
    var out := PrependCapped(h, r, cap);
    if |h| < cap {
      assert out == [out[0]] + out[1..];
    }
  }

  /** The records of h that keep accepts, in their order in h. */
  function Filter<T>(h: seq<T>, keep: T -> bool): (out: seq<T>)
    ensures |out| <= |h|
    ensures forall k :: 0 <= k < |out| ==> out[k] in h && keep(out[k])
    ensures forall k :: 0 <= k < |h| && keep(h[k]) ==> h[k] in out
  {
    if h == [] then []
    else
      var last := h[|h| - 1];
      Filter(h[..|h| - 1], keep) + (if keep(last) then [last] else [])
  }

  /** Filtering a concatenation filters the two parts and concatenates them. */
  lemma {:induction false} FilterAppend<T>(a: seq<T>, b: seq<T>, keep: T -> bool)
    ensures Filter(a + b, keep) == Filter(a, keep) + Filter(b, keep)
    decreases |b|
  {
    if b == [] {
      assert a + b == a;
    } else {
      assert (a + b)[..|a + b| - 1] == a + b[..|b| - 1];
      FilterAppend(a, b[..|b| - 1], keep);
    }
  }

  /** A history whose every record is accepted is left exactly as it is. */
  lemma {:induction false} FilterKeepsAll<T>(h: seq<T>, keep: T -> bool)
    requires forall k :: 0 <= k < |h| ==> keep(h[k])
    ensures Filter(h, keep) == h
  {
    if h != [] {
      assert h == h[..|h| - 1] + [h[|h| - 1]];
      FilterKeepsAll(h[..|h| - 1], keep);
    }
  }

  /** Filtering twice with the same test is filtering once. */
  lemma FilterIdempotent<T>(h: seq<T>, keep: T -> bool)
    ensures Filter(Filter(h, keep), keep) == Filter(h, keep)
  {
    FilterKeepsAll(Filter(h, keep), keep);
  }

  /**
   * One record of an imported JSON file: the keys it carries and the values
   * read from them.
   */
  datatype JsonRecord<R> = JsonRecord(fields: set<string>, record: R)

  /** The records of an imported list, in file order. */
  function RecordsOf<R>(js: seq<JsonRecord<R>>): (rs: seq<R>)
    ensures |rs| == |js|
    ensures forall k :: 0 <= k < |js| ==> rs[k] == js[k].record
  {
    seq(|js|, k requires 0 <= k < |js| => js[k].record)
  }
}
