/**
 * Line classification of the text comparator ("generarDiff").
 *
 * The two texts are aligned by line index, not by a longest common subsequence:
 * index i yields one entry when the lines are equal or one side is missing, and
 * a removed/added pair when both are present and differ.  Every entry carries
 * the 1-based index it describes.
 */
module LineDiff {

  /** igual, eliminada and agregada in the source. */
  datatype Kind = Unchanged | Removed | Added

  /** One classified line: its kind, its text and the 1-based index ("numero"). */
  datatype Entry = Entry(kind: Kind, content: string, number: nat)

  function Max(x: nat, y: nat): nat { if x >= y then x else y }

  function Min(x: nat, y: nat): nat { if x <= y then x else y }

  /** The entries emitted for index i (i below the longer length). */
  function EntriesAt(a: seq<string>, b: seq<string>, i: nat): seq<Entry>
    requires i < Max(|a|, |b|)
  {
    if i >= |a| then [Entry(Added, b[i], i + 1)]
    else if i >= |b| then [Entry(Removed, a[i], i + 1)]
    else if a[i] != b[i] then [Entry(Removed, a[i], i + 1), Entry(Added, b[i], i + 1)]
    else [Entry(Unchanged, a[i], i + 1)]
  }

  /** The entries for indices 0 .. k-1, in index order. */
  function ClassifyUpTo(a: seq<string>, b: seq<string>, k: nat): seq<Entry>
    requires k <= Max(|a|, |b|)
  {
    if k == 0 then [] else ClassifyUpTo(a, b, k - 1) + EntriesAt(a, b, k - 1)
  }

  /** The flat diff of two line sequences. */
  function Classify(a: seq<string>, b: seq<string>): seq<Entry>
  {
    ClassifyUpTo(a, b, Max(|a|, |b|))
  }

  /**
   * generarDiff's loop (without the final grouping step): one pass over the
   * index range, pushing one or two entries per index.
   */
  method ClassifyLines(a: seq<string>, b: seq<string>) returns (diff: seq<Entry>)
    ensures diff == Classify(a, b)
  {
    diff := [];
    var maxLines := Max(|a|, |b|);
    var i := 0;
    while i < maxLines
      invariant 0 <= i <= maxLines
      invariant diff == ClassifyUpTo(a, b, i)
    {
      if i >= |a| {
        diff := diff + [Entry(Added, b[i], i + 1)];
      } else if i >= |b| {
        diff := diff + [Entry(Removed, a[i], i + 1)];
      } else if a[i] != b[i] {
        diff := diff + [Entry(Removed, a[i], i + 1)];
        diff := diff + [Entry(Added, b[i], i + 1)];
      } else {
        diff := diff + [Entry(Unchanged, a[i], i + 1)];
      }
      i := i + 1;
    }
  }

  // ---------------------------------------------------------------------------
  // Reading the two texts back out of a diff
  // ---------------------------------------------------------------------------

  /** The "before" text: contents of the entries that are not additions. */
  function OldSide(d: seq<Entry>): seq<string>
  {
    if d == [] then []
    else (if d[0].kind == Added then [] else [d[0].content]) + OldSide(d[1..])
  }

  /** The "after" text: contents of the entries that are not removals. */
  function NewSide(d: seq<Entry>): seq<string>
  {
    if d == [] then []
    else (if d[0].kind == Removed then [] else [d[0].content]) + NewSide(d[1..])
  }

  lemma {:induction false} OldSideAppend(x: seq<Entry>, y: seq<Entry>)
    ensures OldSide(x + y) == OldSide(x) + OldSide(y)
  {
    if x == [] {
      assert x + y == y;
    } else {
      var xy := x + y;
      assert xy[0] == x[0];
      assert xy[1..] == x[1..] + y;
      OldSideAppend(x[1..], y);
      Assoc(if x[0].kind == Added then [] else [x[0].content], OldSide(x[1..]), OldSide(y));
    }
  }

  lemma {:induction false} NewSideAppend(x: seq<Entry>, y: seq<Entry>)
    ensures NewSide(x + y) == NewSide(x) + NewSide(y)
  {
    if x == [] {
      assert x + y == y;
    } else {
      var xy := x + y;
      assert xy[0] == x[0];
      assert xy[1..] == x[1..] + y;
      NewSideAppend(x[1..], y);
      Assoc(if x[0].kind == Removed then [] else [x[0].content], NewSide(x[1..]), NewSide(y));
    }
  }

  lemma Assoc<T>(x: seq<T>, y: seq<T>, z: seq<T>)
    ensures x + (y + z) == x + y + z
  {
  }

  /** The entries of one index contribute exactly that index's line of each side. */
  lemma SidesOfEntriesAt(a: seq<string>, b: seq<string>, i: nat)
    requires i < Max(|a|, |b|)
    ensures OldSide(EntriesAt(a, b, i)) == (if i < |a| then [a[i]] else [])
    ensures NewSide(EntriesAt(a, b, i)) == (if i < |b| then [b[i]] else [])
  {
    var e := EntriesAt(a, b, i);
    if i < |a| && i < |b| && a[i] != b[i] {
      var rem, add := Entry(Removed, a[i], i + 1), Entry(Added, b[i], i + 1);
      assert e == [rem, add];
      assert e[1..] == [add];
      assert e[1..][1..] == [];
      assert OldSide([add]) == [];
      assert NewSide([add]) == [b[i]];
    } else {
      assert |e| == 1;
      assert e[1..] == [];
    }
  }

  /** Classifying one more index adds that index's line to each side. */
  lemma SidesStep(a: seq<string>, b: seq<string>, k: nat)
    requires 0 < k <= Max(|a|, |b|)
    ensures OldSide(ClassifyUpTo(a, b, k))
         == OldSide(ClassifyUpTo(a, b, k - 1)) + (if k - 1 < |a| then [a[k - 1]] else [])
    ensures NewSide(ClassifyUpTo(a, b, k))
         == NewSide(ClassifyUpTo(a, b, k - 1)) + (if k - 1 < |b| then [b[k - 1]] else [])
  {
    OldSideAppend(ClassifyUpTo(a, b, k - 1), EntriesAt(a, b, k - 1));
    NewSideAppend(ClassifyUpTo(a, b, k - 1), EntriesAt(a, b, k - 1));
    SidesOfEntriesAt(a, b, k - 1);
  }

  lemma {:induction false} SidesUpTo(a: seq<string>, b: seq<string>, k: nat)
    requires k <= Max(|a|, |b|)
    ensures OldSide(ClassifyUpTo(a, b, k)) == a[..Min(k, |a|)]
    ensures NewSide(ClassifyUpTo(a, b, k)) == b[..Min(k, |b|)]
  {
    if k > 0 {
      SidesUpTo(a, b, k - 1);
      SidesStep(a, b, k);
      TakeStep(a, k);
      TakeStep(b, k);
    }
  }

  lemma TakeStep<T>(s: seq<T>, k: nat)
    requires k > 0
    ensures s[..Min(k, |s|)] == s[..Min(k - 1, |s|)] + (if k - 1 < |s| then [s[k - 1]] else [])
  {
    if k - 1 < |s| {
      assert s[..k] == s[..k - 1] + [s[k - 1]];
    }
  }

  /**
   * Round trip: the diff loses nothing.  Dropping the added entries gives back
   * the first text, dropping the removed entries gives back the second.
   */
  lemma DiffRecoversBothTexts(a: seq<string>, b: seq<string>)
    ensures OldSide(Classify(a, b)) == a
    ensures NewSide(Classify(a, b)) == b
  {
    SidesUpTo(a, b, Max(|a|, |b|));
    assert a[..|a|] == a;
    assert b[..|b|] == b;
  }

  // ---------------------------------------------------------------------------
  // Size and numbering of the flat diff
  // ---------------------------------------------------------------------------

  /** Number of indices below k where both lines exist and differ. */
  function DifferingPairs(a: seq<string>, b: seq<string>, k: nat): nat
  {
    if k == 0 then 0
    else DifferingPairs(a, b, k - 1) + (if k - 1 < |a| && k - 1 < |b| && a[k - 1] != b[k - 1] then 1 else 0)
  }

  /** The flat length is the longer length plus one per differing pair. */
  lemma {:induction false} ClassifyLength(a: seq<string>, b: seq<string>, k: nat)
    requires k <= Max(|a|, |b|)
    ensures |ClassifyUpTo(a, b, k)| == k + DifferingPairs(a, b, k)
  {
    if k > 0 {
      ClassifyLength(a, b, k - 1);
    }
  }

  /**
   * Every entry describes the index given by its number: a non-added entry
   * holds line number-1 of the first text, a non-removed entry holds line
   * number-1 of the second text, and an entry is unchanged exactly when both
   * lines exist there and are equal.
   */
  predicate Describes(a: seq<string>, b: seq<string>, e: Entry)
  {
    && 1 <= e.number <= Max(|a|, |b|)
    && (e.kind != Added ==> e.number <= |a| && a[e.number - 1] == e.content)
    && (e.kind != Removed ==> e.number <= |b| && b[e.number - 1] == e.content)
    && (e.kind == Unchanged <==> e.number <= |a| && e.number <= |b| && a[e.number - 1] == b[e.number - 1])
  }

  lemma {:induction false} ClassifyUpToDescribes(a: seq<string>, b: seq<string>, k: nat)
    requires k <= Max(|a|, |b|)
    ensures forall j :: 0 <= j < |ClassifyUpTo(a, b, k)| ==> Describes(a, b, ClassifyUpTo(a, b, k)[j])
    ensures forall j :: 0 <= j < |ClassifyUpTo(a, b, k)| ==> ClassifyUpTo(a, b, k)[j].number <= k
    ensures forall i, j :: 0 <= i < j < |ClassifyUpTo(a, b, k)| ==>
              ClassifyUpTo(a, b, k)[i].number <= ClassifyUpTo(a, b, k)[j].number
  {
    if k > 0 {
      ClassifyUpToDescribes(a, b, k - 1);
    }
  }

  /** Entries describe their indices and come in nondecreasing index order. */
  lemma ClassifyDescribes(a: seq<string>, b: seq<string>)
    ensures forall j :: 0 <= j < |Classify(a, b)| ==> Describes(a, b, Classify(a, b)[j])
    ensures forall i, j :: 0 <= i < j < |Classify(a, b)| ==> Classify(a, b)[i].number <= Classify(a, b)[j].number
    ensures |Classify(a, b)| == Max(|a|, |b|) + DifferingPairs(a, b, Max(|a|, |b|))
  {
    ClassifyUpToDescribes(a, b, Max(|a|, |b|));
    ClassifyLength(a, b, Max(|a|, |b|));
  }

  /** Identical texts give only unchanged entries, one per line. */
  lemma {:induction false} IdenticalTextsUnchanged(a: seq<string>)
    ensures |Classify(a, a)| == |a|
    ensures forall j :: 0 <= j < |Classify(a, a)| ==> Classify(a, a)[j].kind == Unchanged
  {
    ClassifyDescribes(a, a);
    assert DifferingPairs(a, a, |a|) == 0 by {
      NoDifferingPairs(a, |a|);
    }
  }

  lemma {:induction false} NoDifferingPairs(a: seq<string>, k: nat)
    ensures DifferingPairs(a, a, k) == 0
  {
    if k > 0 {
      NoDifferingPairs(a, k - 1);
    }
  }

  // ---------------------------------------------------------------------------
  // How many lines each side loses and gains
  // ---------------------------------------------------------------------------

  /** The number of entries of kind k. */
  function CountKind(d: seq<Entry>, k: Kind): nat
  {
    if d == [] then 0
    else CountKind(d[..|d| - 1], k) + (if d[|d| - 1].kind == k then 1 else 0)
  }

  lemma {:induction false} CountAppend(x: seq<Entry>, y: seq<Entry>, k: Kind)
    ensures CountKind(x + y, k) == CountKind(x, k) + CountKind(y, k)
    decreases |y|
  {
    if y == [] {
      assert x + y == x;
    } else {
      var y' := y[..|y| - 1];
      assert (x + y)[..|x + y| - 1] == x + y';
      CountAppend(x, y', k);
    }
  }

  /** Number of indices below k where both lines exist and are equal. */
  function EqualPairs(a: seq<string>, b: seq<string>, k: nat): nat
  {
    if k == 0 then 0
    else EqualPairs(a, b, k - 1) + (if k - 1 < |a| && k - 1 < |b| && a[k - 1] == b[k - 1] then 1 else 0)
  }

  /** The removed and added entries of one index. */
  lemma CountEntriesAt(a: seq<string>, b: seq<string>, i: nat)
    requires i < Max(|a|, |b|)
    ensures var same := if i < |a| && i < |b| && a[i] == b[i] then 1 else 0;
      && CountKind(EntriesAt(a, b, i), Removed) + same == (if i < |a| then 1 else 0)
      && CountKind(EntriesAt(a, b, i), Added) + same == (if i < |b| then 1 else 0)
  {
    var e := EntriesAt(a, b, i);
    if i < |a| && i < |b| && a[i] != b[i] {
      var rem := Entry(Removed, a[i], i + 1);
      assert |e| == 2 && e[1].kind == Added;
      assert e[..|e| - 1] == [rem];
      assert [rem][..|[rem]| - 1] == [];
      assert CountKind([rem], Removed) == 1 && CountKind([rem], Added) == 0;
    } else {
      assert e[..|e| - 1] == [];
    }
  }

  lemma CountStep(a: seq<string>, b: seq<string>, k: nat, kind: Kind)
    requires 0 < k <= Max(|a|, |b|)
    ensures CountKind(ClassifyUpTo(a, b, k), kind)
         == CountKind(ClassifyUpTo(a, b, k - 1), kind) + CountKind(EntriesAt(a, b, k - 1), kind)
  {
    CountAppend(ClassifyUpTo(a, b, k - 1), EntriesAt(a, b, k - 1), kind);
  }

  lemma {:induction false} CountsUpTo(a: seq<string>, b: seq<string>, k: nat)
    requires k <= Max(|a|, |b|)
    ensures CountKind(ClassifyUpTo(a, b, k), Removed) + EqualPairs(a, b, k) == Min(k, |a|)
    ensures CountKind(ClassifyUpTo(a, b, k), Added) + EqualPairs(a, b, k) == Min(k, |b|)
  {
    if k > 0 {
      CountsUpTo(a, b, k - 1);
      CountStep(a, b, k, Removed);
      CountStep(a, b, k, Added);
      CountEntriesAt(a, b, k - 1);
    }
  }

  /**
   * Every line of the first text that is not matched by an equal line at the
   * same index is removed, and likewise every such line of the second text
   * is added.
   */
  lemma DiffCounts(a: seq<string>, b: seq<string>)
    ensures CountKind(Classify(a, b), Removed) == |a| - EqualPairs(a, b, Max(|a|, |b|))
    ensures CountKind(Classify(a, b), Added) == |b| - EqualPairs(a, b, Max(|a|, |b|))
  {
    CountsUpTo(a, b, Max(|a|, |b|));
  }
}
