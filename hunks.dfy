/**
 * Grouping of the flat line diff into "Git-style" hunks ("agruparDiff").
 *
 * The source scans the flat diff once.  At a change it opens a group (taking
 * up to three unchanged entries before it as leading context), appends the
 * change and up to three following unchanged entries, then looks six entries
 * further for another change.  If there is none it closes the group and
 * resumes after the trailing context; otherwise the group stays open, the scan
 * skips unchanged entries, and the next change is appended to the same group.
 *
 * Hunks below is an independent description of the result in terms of
 * clusters of changes: consecutive changes separated by at most eight
 * unchanged entries share a hunk.  GroupDiff (the scan) is proved to compute
 * exactly Hunks, and the lemmas at the end state what Hunks guarantees.
 * Groups are described by the indices of the flat diff they take.
 */
module HunkGrouping {
  import opened LineDiff

  /** Lines of context, as in Git ("contexto"). */
  const Context: nat := 3
  /** How far past the trailing context the scan looks for another change. */
  const LookAhead: nat := 2 * Context
  /**
   * Largest number of unchanged entries between two changes of one hunk:
   * the trailing context plus the look-ahead window, minus one.
   */
  const MaxMergeGap: nat := Context + LookAhead - 1

  predicate IsChange(e: Entry) { e.kind != Unchanged }

  /** The first change at or after k, or |d| when there is none. */
  function NextChange(d: seq<Entry>, k: nat): (c: nat)
    requires k <= |d|
    ensures k <= c <= |d|
    ensures c < |d| ==> IsChange(d[c])
    ensures forall m :: k <= m < c ==> !IsChange(d[m])
    decreases |d| - k
  {
    if k == |d| || IsChange(d[k]) then k else NextChange(d, k + 1)
  }

  lemma NextChangeIs(d: seq<Entry>, k: nat, c: nat)
    requires k <= c <= |d|
    requires forall m :: k <= m < c ==> !IsChange(d[m])
    requires c == |d| || IsChange(d[c])
    ensures NextChange(d, k) == c
  {
  }

  /** The indices lo .. hi-1. */
  function Range(lo: nat, hi: nat): (r: seq<nat>)
    ensures |r| == if lo <= hi then hi - lo else 0
    ensures forall k :: 0 <= k < |r| ==> r[k] == lo + k
    decreases hi
  {
    if hi <= lo then [] else Range(lo, hi - 1) + [hi - 1]
  }

  predicate Increasing(s: seq<nat>)
  {
    forall i, j :: 0 <= i < j < |s| ==> s[i] < s[j]
  }

  predicate AllIn(s: seq<nat>, lo: int, hi: int)
  {
    forall k :: 0 <= k < |s| ==> lo <= s[k] < hi
  }

  /** The unchanged indices in lo .. hi-1, in order. */
  function UnchangedIn(d: seq<Entry>, lo: nat, hi: nat): (r: seq<nat>)
    requires hi <= |d|
    ensures forall k :: 0 <= k < |r| ==> lo <= r[k] < hi && !IsChange(d[r[k]])
    ensures forall m :: lo <= m < hi && !IsChange(d[m]) ==> m in r
    ensures Increasing(r)
    ensures |r| <= if lo <= hi then hi - lo else 0
    decreases hi
  {
    if hi <= lo then []
    else UnchangedIn(d, lo, hi - 1) + (if IsChange(d[hi - 1]) then [] else [hi - 1])
  }

  function LeadStart(c: nat): nat { if c >= Context then c - Context else 0 }

  /** Leading context of a hunk opened at change c ("inicio" .. c-1, unchanged only). */
  function Lead(d: seq<Entry>, c: nat): seq<nat>
    requires c <= |d|
  {
    UnchangedIn(d, LeadStart(c), c)
  }

  /** Whether the change at p and the next change q end up in the same hunk. */
  predicate Merges(d: seq<Entry>, p: nat, q: nat)
  {
    q < |d| && p < q && q - p - 1 <= MaxMergeGap
  }

  /**
   * The body of the hunk from change c on: c, its trailing context (at most
   * Context unchanged entries, stopping at the next change), and, when the
   * next change merges, that change's body.  Unchanged entries of a gap beyond
   * the trailing context are not part of the body.
   */
  function Body(d: seq<Entry>, c: nat): (r: seq<nat>)
    requires c < |d|
    ensures AllIn(r, c, |d|)
    decreases |d| - c
  {
    var q := NextChange(d, c + 1);
    Range(c, Min(c + 1 + Context, q)) + (if Merges(d, c, q) then Body(d, q) else [])
  }

  /** The last change of the cluster that starts at change c. */
  function ClusterLast(d: seq<Entry>, c: nat): (l: nat)
    requires c < |d|
    ensures c <= l < |d|
    ensures IsChange(d[c]) ==> IsChange(d[l])
    decreases |d| - c
  {
    var q := NextChange(d, c + 1);
    if Merges(d, c, q) then ClusterLast(d, q) else c
  }

  /** Where the next cluster starts (|d| when none is left). */
  function After(d: seq<Entry>, c: nat): (n: nat)
    requires c < |d|
    ensures c < n <= |d|
  {
    NextChange(d, ClusterLast(d, c) + 1)
  }

  predicate GroupsInBounds(gs: seq<seq<nat>>, n: nat)
  {
    forall g, k :: 0 <= g < |gs| && 0 <= k < |gs[g]| ==> gs[g][k] < n
  }

  /** The hunks of the clusters starting at change c or later. */
  function HunksAt(d: seq<Entry>, c: nat): (gs: seq<seq<nat>>)
    requires c <= |d|
    ensures GroupsInBounds(gs, |d|)
    decreases |d| - c
  {
    if c == |d| then []
    else [Lead(d, c) + Body(d, c)] + HunksAt(d, After(d, c))
  }

  /** The hunks of a flat diff, each as the increasing list of indices it takes. */
  function Hunks(d: seq<Entry>): (gs: seq<seq<nat>>)
    ensures GroupsInBounds(gs, |d|)
  {
    HunksAt(d, NextChange(d, 0))
  }

  /** The entries at the given indices. */
  function Pick(d: seq<Entry>, idx: seq<nat>): (r: seq<Entry>)
    requires AllIn(idx, 0, |d|)
    ensures |r| == |idx|
    ensures forall k :: 0 <= k < |idx| ==> r[k] == d[idx[k]]
  {
    seq(|idx|, k requires 0 <= k < |idx| => d[idx[k]])
  }

  function PickAll(d: seq<Entry>, gs: seq<seq<nat>>): (r: seq<seq<Entry>>)
    requires GroupsInBounds(gs, |d|)
    ensures |r| == |gs|
    ensures forall g :: 0 <= g < |gs| ==> r[g] == Pick(d, gs[g])
  {
    seq(|gs|, g requires 0 <= g < |gs| => Pick(d, gs[g]))
  }

  lemma PickAppend(d: seq<Entry>, x: seq<nat>, y: seq<nat>)
    requires AllIn(x, 0, |d|) && AllIn(y, 0, |d|)
    ensures AllIn(x + y, 0, |d|)
    ensures Pick(d, x + y) == Pick(d, x) + Pick(d, y)
  {
    assert AllIn(x + y, 0, |d|) by {
      forall k | 0 <= k < |x + y| ensures 0 <= (x + y)[k] < |d| {
        if k >= |x| { assert (x + y)[k] == y[k - |x|]; }
      }
    }
    assert Pick(d, x + y) == Pick(d, x) + Pick(d, y);
  }

  lemma PickAllCons(d: seq<Entry>, x: seq<nat>, gs: seq<seq<nat>>)
    requires AllIn(x, 0, |d|) && GroupsInBounds(gs, |d|)
    ensures GroupsInBounds([x] + gs, |d|)
    ensures PickAll(d, [x] + gs) == [Pick(d, x)] + PickAll(d, gs)
  {
    var xs := [x] + gs;
    assert GroupsInBounds(xs, |d|) by {
      forall g, k | 0 <= g < |xs| && 0 <= k < |xs[g]| ensures xs[g][k] < |d| {
        if g > 0 { assert xs[g] == gs[g - 1]; }
      }
    }
    assert PickAll(d, xs) == [Pick(d, x)] + PickAll(d, gs);
  }

  /** The scan is at index i inside an open hunk whose last change is p. */
  predicate Pending(d: seq<Entry>, p: nat, i: nat)
    requires p < |d|
  {
    var q := NextChange(d, p + 1);
    Merges(d, p, q) && i <= q
  }

  /**
   * What the scan has produced when it reaches index i: the closed groups, and
   * the open group (current, non-empty exactly when a hunk is open, whose last
   * change is p), followed by what remains of Hunks(d).
   */
  ghost predicate ScanState(d: seq<Entry>, groups: seq<seq<Entry>>, current: seq<Entry>, p: nat, i: nat)
  {
    && i <= |d|
    && (current == [] ==>
          groups + PickAll(d, HunksAt(d, NextChange(d, i))) == PickAll(d, Hunks(d)))
    && (current != [] ==>
          && p < i
          && Pending(d, p, i)
          && groups + [current + Pick(d, Body(d, NextChange(d, p + 1)))]
               + PickAll(d, HunksAt(d, After(d, NextChange(d, p + 1)))) == PickAll(d, Hunks(d)))
  }

  /**
   * The decision the scan takes after the trailing context of change i (which
   * ends at j) agrees with Merges: the look-ahead finds a change exactly when
   * the next change is within MaxMergeGap unchanged entries.
   */
  lemma {:induction false} LookAheadDecides(d: seq<Entry>, i: nat, j: nat)
    requires i < |d|
    requires j == Min(i + 1 + Context, NextChange(d, i + 1))
    ensures NextChange(d, j) == NextChange(d, i + 1)
    ensures (j < |d| && NextChange(d, j) < Min(|d|, j + LookAhead)) <==> Merges(d, i, NextChange(d, i + 1))
  {
    NextChangeIs(d, j, NextChange(d, i + 1));
  }

  /** Skipping an unchanged entry keeps the scan in step with Hunks. */
  lemma {:induction false} ScanSkips(d: seq<Entry>, groups: seq<seq<Entry>>, current: seq<Entry>, p: nat, i: nat)
    requires ScanState(d, groups, current, p, i)
    requires i < |d| && !IsChange(d[i])
    ensures ScanState(d, groups, current, p, i + 1)
  {
    if current == [] {
      SkipsNextChange(d, i);
    } else {
      SkipsPending(d, p, i);
    }
  }

  lemma SkipsNextChange(d: seq<Entry>, i: nat)
    requires i < |d| && !IsChange(d[i])
    ensures NextChange(d, i) == NextChange(d, i + 1)
  {
  }

  lemma SkipsPending(d: seq<Entry>, p: nat, i: nat)
    requires p < i < |d| && !IsChange(d[i]) && Pending(d, p, i)
    ensures Pending(d, p, i + 1)
  {
    assert i < NextChange(d, p + 1);
  }

  /** The change the scan reaches is the one Hunks expects next. */
  lemma {:induction false} ScanAtChange(d: seq<Entry>, groups: seq<seq<Entry>>, current: seq<Entry>, p: nat, i: nat)
    requires ScanState(d, groups, current, p, i)
    requires i < |d| && IsChange(d[i])
    ensures current == [] ==> groups + PickAll(d, HunksAt(d, i)) == PickAll(d, Hunks(d))
    ensures current != [] ==> NextChange(d, p + 1) == i
  {
  }

  /** One step of Body and After at change i whose trailing context ends at j. */
  lemma {:induction false} BodyStep(d: seq<Entry>, i: nat, j: nat)
    requires i < |d|
    requires j == Min(i + 1 + Context, NextChange(d, i + 1))
    ensures var q := NextChange(d, i + 1);
      && Body(d, i) == Range(i, j) + (if Merges(d, i, q) then Body(d, q) else [])
      && After(d, i) == (if Merges(d, i, q) then After(d, q) else NextChange(d, j))
  {
    LookAheadDecides(d, i, j);
  }

  lemma LeadInBounds(d: seq<Entry>, c: nat)
    requires c <= |d|
    ensures AllIn(Lead(d, c), 0, |d|)
  {
  }

  /** HunksAt at a change, its body and what follows it, as entries. */
  lemma {:induction false} HunksAtChange(d: seq<Entry>, c: nat)
    requires c < |d|
    ensures AllIn(Lead(d, c), 0, |d|)
    ensures PickAll(d, HunksAt(d, c))
         == [Pick(d, Lead(d, c)) + Pick(d, Body(d, c))] + PickAll(d, HunksAt(d, After(d, c)))
  {
    LeadInBounds(d, c);
    PickAppend(d, Lead(d, c), Body(d, c));
    PickAllCons(d, Lead(d, c) + Body(d, c), HunksAt(d, After(d, c)));
  }

  /** Closing a hunk that was opened at change i itself. */
  lemma {:induction false} ScanClosesFresh(d: seq<Entry>, groups: seq<seq<Entry>>, p: nat, i: nat, j: nat)
    requires ScanState(d, groups, [], p, i)
    requires i < |d| && IsChange(d[i])
    requires j == Min(i + 1 + Context, NextChange(d, i + 1))
    requires !Merges(d, i, NextChange(d, i + 1))
    ensures AllIn(Lead(d, i), 0, |d|)
    ensures ScanState(d, groups + [Pick(d, Lead(d, i)) + Pick(d, Range(i, j))], [], p, j)
  {
    ScanAtChange(d, groups, [], p, i);
    BodyStep(d, i, j);
    HunksAtChange(d, i);
    assert Body(d, i) == Range(i, j) + [] == Range(i, j);
    assert After(d, i) == NextChange(d, j);
    var rest := PickAll(d, HunksAt(d, NextChange(d, j)));
    var g := Pick(d, Lead(d, i)) + Pick(d, Range(i, j));
    assert PickAll(d, HunksAt(d, i)) == [g] + rest;
    Reassociate(groups, g, rest);
  }

  /** Closing a hunk that was already open when change i was reached. */
  lemma {:induction false} ScanClosesOpen(d: seq<Entry>, groups: seq<seq<Entry>>, current: seq<Entry>, p: nat, i: nat, j: nat)
    requires ScanState(d, groups, current, p, i) && current != []
    requires i < |d| && IsChange(d[i])
    requires j == Min(i + 1 + Context, NextChange(d, i + 1))
    requires !Merges(d, i, NextChange(d, i + 1))
    ensures ScanState(d, groups + [current + Pick(d, Range(i, j))], [], p, j)
  {
    ScanAtChange(d, groups, current, p, i);
    BodyStep(d, i, j);
    assert Body(d, i) == Range(i, j) + [] == Range(i, j);
    assert After(d, i) == NextChange(d, j);
    assert groups + [current + Pick(d, Body(d, i))] + PickAll(d, HunksAt(d, After(d, i)))
        == PickAll(d, Hunks(d));
  }

  /** Keeping open a hunk that was opened at change i itself. */
  lemma {:induction false} ScanContinuesFresh(d: seq<Entry>, groups: seq<seq<Entry>>, p: nat, i: nat, j: nat)
    requires ScanState(d, groups, [], p, i)
    requires i < |d| && IsChange(d[i])
    requires j == Min(i + 1 + Context, NextChange(d, i + 1))
    requires Merges(d, i, NextChange(d, i + 1))
    ensures AllIn(Lead(d, i), 0, |d|)
    ensures Pick(d, Lead(d, i)) + Pick(d, Range(i, j)) != []
    ensures ScanState(d, groups, Pick(d, Lead(d, i)) + Pick(d, Range(i, j)), i, i + 1)
  {
    ScanAtChange(d, groups, [], p, i);
    BodyStep(d, i, j);
    HunksAtChange(d, i);
    var q := NextChange(d, i + 1);
    PickAppend(d, Range(i, j), Body(d, q));
    var rest := PickAll(d, HunksAt(d, After(d, q)));
    assert |Pick(d, Range(i, j))| == j - i > 0;
    assert Pick(d, Body(d, i)) == Pick(d, Range(i, j)) + Pick(d, Body(d, q));
    Regroup(groups, Pick(d, Lead(d, i)), Pick(d, Range(i, j)), Pick(d, Body(d, q)), rest);
  }

  lemma Reassociate<T>(groups: seq<seq<T>>, g: seq<T>, rest: seq<seq<T>>)
    ensures groups + ([g] + rest) == groups + [g] + rest
  {
  }

  lemma Regroup<T>(groups: seq<seq<T>>, x: seq<T>, y: seq<T>, z: seq<T>, rest: seq<seq<T>>)
    ensures groups + ([x + (y + z)] + rest) == groups + [x + y + z] + rest
  {
    assert x + (y + z) == x + y + z;
  }

  /** Keeping open a hunk that was already open when change i was reached. */
  lemma {:induction false} ScanContinuesOpen(d: seq<Entry>, groups: seq<seq<Entry>>, current: seq<Entry>, p: nat, i: nat, j: nat)
    requires ScanState(d, groups, current, p, i) && current != []
    requires i < |d| && IsChange(d[i])
    requires j == Min(i + 1 + Context, NextChange(d, i + 1))
    requires Merges(d, i, NextChange(d, i + 1))
    ensures ScanState(d, groups, current + Pick(d, Range(i, j)), i, i + 1)
  {
    ScanAtChange(d, groups, current, p, i);
    BodyStep(d, i, j);
    var q := NextChange(d, i + 1);
    PickAppend(d, Range(i, j), Body(d, q));
    Assoc(current, Pick(d, Range(i, j)), Pick(d, Body(d, q)));
    assert After(d, i) == After(d, q);
  }


  /** The leading context of a hunk opened at change i ("inicio" .. i-1, unchanged only). */
  method LeadingContext(d: seq<Entry>, i: nat) returns (lead: seq<Entry>)
    requires i <= |d|
    ensures lead == Pick(d, Lead(d, i))
  {
    lead := [];
    var start := LeadStart(i);
    var j := start;
    while j < i
      invariant start <= j <= i
      invariant lead == Pick(d, UnchangedIn(d, start, j))
    {
      if d[j].kind == Unchanged {
        PickAppend(d, UnchangedIn(d, start, j), [j]);
        lead := lead + [d[j]];
      }
      j := j + 1;
    }
  }

  /**
   * The change at i and its trailing context: up to Context unchanged
   * entries, stopping early at the next change.  j is where the scan goes on.
   */
  method ChangeWithContext(d: seq<Entry>, i: nat) returns (taken: seq<Entry>, j: nat)
    requires i < |d|
    ensures j == Min(i + 1 + Context, NextChange(d, i + 1))
    ensures taken == Pick(d, Range(i, j))
  {
    taken := [d[i]];
    j := i + 1;
    var added := 0;
    assert Range(i, i + 1) == [i];
    // The source pushes while the entry is unchanged and breaks at a change.
    while j < |d| && added < Context && d[j].kind == Unchanged
      invariant i + 1 <= j <= |d|
      invariant added == j - i - 1 <= Context
      invariant forall m :: i < m < j ==> !IsChange(d[m])
      invariant taken == Pick(d, Range(i, j))
    {
      PickAppend(d, Range(i, j), [j]);
      taken := taken + [d[j]];
      added := added + 1;
      j := j + 1;
    }
    if j < |d| && added < Context {
      NextChangeIs(d, i + 1, j);
    } else if j == |d| {
      NextChangeIs(d, i + 1, j);
    }
  }

  /** The look-ahead ("siguientesCambios"): is there a change in j .. j+LookAhead-1? */
  method ChangeAhead(d: seq<Entry>, j: nat) returns (nearby: bool)
    requires j <= |d|
    ensures nearby <==> NextChange(d, j) < Min(|d|, j + LookAhead)
  {
    nearby := false;
    var k := j;
    var stop := Min(|d|, j + LookAhead);
    while k < stop && !nearby
      invariant j <= k <= stop
      invariant forall m :: j <= m < k ==> !IsChange(d[m])
      invariant nearby ==> k < stop && IsChange(d[k])
      decreases stop - k, if nearby then 0 else 1
    {
      if d[k].kind != Unchanged {
        nearby := true;
      } else {
        k := k + 1;
      }
    }
  }

  /**
   * The body of the scan at a change d[i]: open a hunk (with its leading
   * context) unless one is open, take the change and its trailing context, and
   * close the hunk unless the look-ahead finds another change.
   */
  method AtChange(d: seq<Entry>, groups: seq<seq<Entry>>, current: seq<Entry>, ghost last: nat, i: nat)
    returns (groups': seq<seq<Entry>>, current': seq<Entry>, ghost last': nat, i': nat)
    requires ScanState(d, groups, current, last, i)
    requires i < |d| && IsChange(d[i])
    ensures ScanState(d, groups', current', last', i')
    ensures i < i'
  {
    var lead: seq<Entry> := [];
    if current == [] {
      // Opening a hunk: leading context first.
      lead := LeadingContext(d, i);
    }
    var taken, j := ChangeWithContext(d, i);
    var nearby := ChangeAhead(d, j);
    LookAheadDecides(d, i, j);
    if current == [] {
      if !nearby || j >= |d| {
        ScanClosesFresh(d, groups, last, i, j);
        groups', current', last', i' := groups + [lead + taken], [], last, j;
      } else {
        ScanContinuesFresh(d, groups, last, i, j);
        groups', current', last', i' := groups, lead + taken, i, i + 1;
      }
    } else if !nearby || j >= |d| {
      ScanClosesOpen(d, groups, current, last, i, j);
      groups', current', last', i' := groups + [current + taken], [], last, j;
    } else {
      ScanContinuesOpen(d, groups, current, last, i, j);
      groups', current', last', i' := groups, current + taken, i, i + 1;
    }
  }

  /**
   * agruparDiff: one scan over the flat diff with the index rewound after a
   * hunk is closed ("i = j - 1" followed by the loop's increment).  The result
   * is exactly the entries of Hunks(d).
   */
  method GroupDiff(d: seq<Entry>) returns (groups: seq<seq<Entry>>)
    ensures groups == PickAll(d, Hunks(d))
  {
    groups := [];
    var current: seq<Entry> := [];
    ghost var last: nat := 0;
    var i := 0;
    while i < |d|
      invariant ScanState(d, groups, current, last, i)
      decreases |d| - i
    {
      if d[i].kind != Unchanged {
        groups, current, last, i := AtChange(d, groups, current, last, i);
      } else {
        ScanSkips(d, groups, current, last, i);
        i := i + 1;
      }
    }
    if current != [] {
      groups := groups + [current];
    }
  }
}
