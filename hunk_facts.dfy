/**
 * What the hunks of a flat diff guarantee: they are ordered and disjoint,
 * every change lies in exactly one of them and each holds a change, two
 * neighbouring changes share a hunk exactly when at most MaxMergeGap unchanged
 * entries separate them, the part of such a gap beyond the trailing context
 * is in no hunk, and context entries lie within Context of a change.
 */
module HunkFacts {
  import opened LineDiff
  import opened HunkGrouping

  /** The last change at or before m, or -1 when there is none. */
  function PrevChange(d: seq<Entry>, m: nat): (r: int)
    requires m < |d|
    ensures -1 <= r <= m
    ensures r >= 0 ==> IsChange(d[r])
    ensures forall x :: r < x <= m ==> !IsChange(d[x])
  {
    if IsChange(d[m]) then m else if m == 0 then -1 else PrevChange(d, m - 1)
  }

  lemma PrevChangeIs(d: seq<Entry>, m: nat, x: nat)
    requires x <= m < |d| && IsChange(d[x])
    requires forall y :: x < y <= m ==> !IsChange(d[y])
    ensures PrevChange(d, m) == x
  {
  }

  lemma IncreasingAppend(x: seq<nat>, y: seq<nat>, bound: nat)
    requires Increasing(x) && Increasing(y)
    requires forall k :: 0 <= k < |x| ==> x[k] < bound
    requires forall k :: 0 <= k < |y| ==> bound <= y[k]
    ensures Increasing(x + y)
  {
    var xy := x + y;
    forall i, j | 0 <= i < j < |xy| ensures xy[i] < xy[j] {
      if j < |x| {
        assert xy[i] == x[i] && xy[j] == x[j];
      } else if i >= |x| {
        assert xy[i] == y[i - |x|] && xy[j] == y[j - |x|];
      } else {
        assert xy[i] == x[i] && xy[j] == y[j - |x|];
      }
    }
  }

  lemma InRange(lo: nat, hi: nat, m: nat)
    ensures m in Range(lo, hi) <==> lo <= m < hi
  {
    if lo <= m < hi {
      assert Range(lo, hi)[m - lo] == m;
    }
  }

  /** A change inside a cluster has the same last change as the cluster. */
  lemma {:induction false} ClusterSuffix(d: seq<Entry>, c: nat, p: nat)
    requires c <= p < |d| && IsChange(d[p])
    requires p <= ClusterLast(d, c)
    ensures ClusterLast(d, p) == ClusterLast(d, c)
    decreases |d| - c
  {
    if p > c {
      var q := NextChange(d, c + 1);
      assert Merges(d, c, q);
      ClusterSuffix(d, q, p);
    }
  }

  /** The last change of a cluster does not merge with the next change. */
  lemma ClusterEnds(d: seq<Entry>, c: nat)
    requires c < |d| && IsChange(d[c])
    ensures var l := ClusterLast(d, c);
      !Merges(d, l, NextChange(d, l + 1))
  {
    var l := ClusterLast(d, c);
    ClusterSuffix(d, c, l);
  }

  /**
   * An index belongs to the body of the cluster starting at change c exactly
   * when it is at or after c, its last change belongs to the cluster, and it
   * is at most Context entries past that change.
   */
  lemma {:induction false} BodyMember(d: seq<Entry>, c: nat, m: nat)
    requires c < |d| && IsChange(d[c]) && m < |d|
    ensures m in Body(d, c) <==>
      c <= m && PrevChange(d, m) <= ClusterLast(d, c) && m - PrevChange(d, m) <= Context
    decreases |d| - c
  {
    var q := NextChange(d, c + 1);
    var j := Min(c + 1 + Context, q);
    assert Body(d, c) == Range(c, j) + (if Merges(d, c, q) then Body(d, q) else []);
    InRange(c, j, m);
    if c <= m < q {
      PrevChangeIs(d, m, c);
    }
    if Merges(d, c, q) {
      BodyMember(d, q, m);
    }
  }

  lemma {:induction false} BodyIncreasing(d: seq<Entry>, c: nat)
    requires c < |d|
    ensures Increasing(Body(d, c))
    decreases |d| - c
  {
    var q := NextChange(d, c + 1);
    var j := Min(c + 1 + Context, q);
    if Merges(d, c, q) {
      BodyIncreasing(d, q);
      IncreasingAppend(Range(c, j), Body(d, q), q);
    } else {
      assert Body(d, c) == Range(c, j);
    }
  }

  lemma BodyBounds(d: seq<Entry>, c: nat)
    requires c < |d| && IsChange(d[c])
    ensures forall k :: 0 <= k < |Body(d, c)| ==>
      c <= Body(d, c)[k] < After(d, c) && Body(d, c)[k] <= ClusterLast(d, c) + Context
  {
    var body := Body(d, c);
    forall k | 0 <= k < |body| ensures c <= body[k] < After(d, c) && body[k] <= ClusterLast(d, c) + Context {
      BodyMember(d, c, body[k]);
    }
  }

  /** Where the indices of the hunk of the cluster starting at change c lie. */
  lemma HunkBounds(d: seq<Entry>, c: nat)
    requires c < |d| && IsChange(d[c])
    ensures var h := Lead(d, c) + Body(d, c);
      && Increasing(h)
      && (forall k :: 0 <= k < |h| ==>
            LeadStart(c) <= h[k] < After(d, c) && h[k] <= ClusterLast(d, c) + Context)
      && (After(d, c) < |d| ==> ClusterLast(d, c) + 1 + MaxMergeGap < After(d, c))
  {
    var lead := Lead(d, c);
    var body := Body(d, c);
    BodyBounds(d, c);
    BodyIncreasing(d, c);
    IncreasingAppend(lead, body, c);
    ClusterEnds(d, c);
    var h := lead + body;
    forall k | 0 <= k < |h|
      ensures LeadStart(c) <= h[k] < After(d, c) && h[k] <= ClusterLast(d, c) + Context
    {
      if k >= |lead| {
        assert h[k] == body[k - |lead|];
      } else {
        assert h[k] == lead[k];
      }
    }
  }

  /** Which indices the hunk of the cluster starting at change c takes. */
  lemma HunkMembers(d: seq<Entry>, c: nat)
    requires c < |d| && IsChange(d[c])
    ensures var h := Lead(d, c) + Body(d, c);
      && (forall m :: m in h && IsChange(d[m]) ==> c <= m <= ClusterLast(d, c))
      && (forall m :: c <= m <= ClusterLast(d, c) && IsChange(d[m]) ==> m in h)
      && (forall m :: m in h && m < c ==> LeadStart(c) <= m && !IsChange(d[m]))
      && (forall m :: c <= m < |d| ==> (m in h <==> m in Body(d, c)))
  {
    var l := ClusterLast(d, c);
    var lead := Lead(d, c);
    var body := Body(d, c);
    var h := lead + body;
    forall m | m in body ensures c <= m && (IsChange(d[m]) ==> m <= l) {
      BodyMember(d, c, m);
    }
    forall m | c <= m <= l && IsChange(d[m]) ensures m in body {
      BodyMember(d, c, m);
    }
  }

  /** Each hunk is increasing, and every index of a hunk precedes every index of a later one. */
  predicate Ordered(gs: seq<seq<nat>>)
  {
    && (forall g :: 0 <= g < |gs| ==> Increasing(gs[g]))
    && (forall g, h, a, b :: 0 <= g < h < |gs| && 0 <= a < |gs[g]| && 0 <= b < |gs[h]| ==>
          gs[g][a] < gs[h][b])
  }

  predicate HasChange(d: seq<Entry>, idx: seq<nat>)
  {
    exists m :: m in idx && m < |d| && IsChange(d[m])
  }

  /** Whether some hunk of gs takes index m. */
  predicate InSomeHunk(gs: seq<seq<nat>>, m: nat)
  {
    exists g :: 0 <= g < |gs| && m in gs[g]
  }

  /** The hunks from change c on are ordered and start no earlier than c's leading context. */
  lemma {:induction false} HunksAtOrdered(d: seq<Entry>, c: nat)
    requires c <= |d| && (c < |d| ==> IsChange(d[c]))
    ensures Ordered(HunksAt(d, c))
    ensures forall g, k :: 0 <= g < |HunksAt(d, c)| && 0 <= k < |HunksAt(d, c)[g]| ==>
      LeadStart(c) <= HunksAt(d, c)[g][k]
    decreases |d| - c
  {
    if c < |d| {
      var n := After(d, c);
      var h := Lead(d, c) + Body(d, c);
      var rest := HunksAt(d, n);
      var gs := HunksAt(d, c);
      assert gs == [h] + rest;
      HunksAtOrdered(d, n);
      HunkBounds(d, c);
      forall g, k, a, b | 0 <= g < k < |gs| && 0 <= a < |gs[g]| && 0 <= b < |gs[k]|
        ensures gs[g][a] < gs[k][b]
      {
        assert gs[k] == rest[k - 1];
        if g > 0 {
          assert gs[g] == rest[g - 1];
        }
      }
      forall g | 0 <= g < |gs| ensures Increasing(gs[g]) {
        if g > 0 {
          assert gs[g] == rest[g - 1];
        }
      }
      forall g, k | 0 <= g < |gs| && 0 <= k < |gs[g]| ensures LeadStart(c) <= gs[g][k] {
        if g > 0 {
          assert gs[g] == rest[g - 1];
        }
      }
    }
  }

  /** HunksAt at a change: the cluster's hunk, then the hunks from After on. */
  lemma HunksAtUnfold(d: seq<Entry>, c: nat)
    requires c < |d|
    ensures |HunksAt(d, c)| == 1 + |HunksAt(d, After(d, c))|
    ensures HunksAt(d, c)[0] == Lead(d, c) + Body(d, c)
    ensures forall g :: 0 <= g < |HunksAt(d, After(d, c))| ==>
      HunksAt(d, c)[g + 1] == HunksAt(d, After(d, c))[g]
  {
  }

  /**
   * The hunk from change c on that takes change p: the hunk of the cluster
   * starting at change s, which p belongs to.
   */
  lemma {:induction false} Locate(d: seq<Entry>, c: nat, p: nat) returns (g: nat, s: nat)
    requires c <= p < |d| && IsChange(d[c]) && IsChange(d[p])
    ensures g < |HunksAt(d, c)| && c <= s <= p <= ClusterLast(d, s) && IsChange(d[s])
    ensures HunksAt(d, c)[g] == Lead(d, s) + Body(d, s)
    decreases |d| - c
  {
    var n := After(d, c);
    HunksAtUnfold(d, c);
    if p <= ClusterLast(d, c) {
      g, s := 0, c;
    } else {
      assert n <= p;
      var g';
      g', s := Locate(d, n, p);
      g := g' + 1;
    }
  }

  /** Two neighbouring changes share a hunk exactly when they merge. */
  lemma {:induction false} MergeRuleAt(d: seq<Entry>, c: nat, p: nat, q: nat)
    requires c <= p < q < |d| && IsChange(d[c]) && IsChange(d[p]) && IsChange(d[q])
    requires q == NextChange(d, p + 1)
    ensures (exists g :: 0 <= g < |HunksAt(d, c)| && p in HunksAt(d, c)[g] && q in HunksAt(d, c)[g])
            <==> Merges(d, p, q)
  {
    var gs := HunksAt(d, c);
    HunksAtOrdered(d, c);
    var g, s := Locate(d, c, p);
    HunkMembers(d, s);
    HunkBounds(d, s);
    ClusterSuffix(d, s, p);
    assert p in gs[g];
    if Merges(d, p, q) {
      assert q <= ClusterLast(d, s);
      assert q in gs[g];
    } else {
      // p ends its cluster, and q starts the next one.
      assert q == After(d, s);
      forall g' | 0 <= g' < |gs| && p in gs[g'] ensures q !in gs[g'] {
        OrderedDisjoint(gs, g, g', p);
      }
    }
  }

  /** In ordered hunks an index is taken by at most one hunk. */
  lemma OrderedDisjoint(gs: seq<seq<nat>>, g: nat, h: nat, m: nat)
    requires Ordered(gs)
    requires g < |gs| && h < |gs| && m in gs[g] && m in gs[h]
    ensures g == h
  {
    var a :| 0 <= a < |gs[g]| && gs[g][a] == m;
    var b :| 0 <= b < |gs[h]| && gs[h][b] == m;
  }

  /** Every hunk from change c on is the hunk of some cluster start s >= c. */
  lemma {:induction false} HunkAtIndex(d: seq<Entry>, c: nat, g: nat) returns (s: nat)
    requires c <= |d| && (c < |d| ==> IsChange(d[c]))
    requires g < |HunksAt(d, c)|
    ensures c <= s < |d| && IsChange(d[s])
    ensures HunksAt(d, c)[g] == Lead(d, s) + Body(d, s)
    decreases |d| - c
  {
    var n := After(d, c);
    HunksAtUnfold(d, c);
    if g == 0 {
      s := c;
    } else {
      s := HunkAtIndex(d, n, g - 1);
    }
  }

  /** Whether the entry at m is within Context entries after, or before, a change. */
  predicate NearChange(d: seq<Entry>, m: nat)
    requires m < |d|
  {
    (PrevChange(d, m) >= 0 && m - PrevChange(d, m) <= Context) || NextChange(d, m) - m <= Context
  }

  // ---------------------------------------------------------------------------
  // The properties of Hunks(d)
  // ---------------------------------------------------------------------------

  /** The first change of the diff, where Hunks(d) starts. */
  lemma FirstChange(d: seq<Entry>)
    ensures NextChange(d, 0) < |d| ==> IsChange(d[NextChange(d, 0)])
    ensures forall m :: 0 <= m < |d| && IsChange(d[m]) ==> NextChange(d, 0) <= m
  {
  }

  /**
   * Hunks are increasing lists of indices and every index of a hunk precedes
   * every index of a later hunk, so no index is taken twice.
   */
  lemma HunksOrdered(d: seq<Entry>)
    ensures Ordered(Hunks(d))
    ensures forall g, h, m :: 0 <= g < |Hunks(d)| && 0 <= h < |Hunks(d)| && m in Hunks(d)[g] && m in Hunks(d)[h] ==>
      g == h
  {
    var gs := Hunks(d);
    HunksAtOrdered(d, NextChange(d, 0));
    forall g, h, m | 0 <= g < |gs| && 0 <= h < |gs| && m in gs[g] && m in gs[h] ensures g == h {
      OrderedDisjoint(gs, g, h, m);
    }
  }

  /** Every change of the diff is taken by exactly one hunk. */
  lemma EveryChangeInOneHunk(d: seq<Entry>, m: nat)
    requires m < |d| && IsChange(d[m])
    ensures InSomeHunk(Hunks(d), m)
    ensures forall g, h :: 0 <= g < |Hunks(d)| && 0 <= h < |Hunks(d)| && m in Hunks(d)[g] && m in Hunks(d)[h] ==>
      g == h
  {
    var g, s := Locate(d, NextChange(d, 0), m);
    HunkMembers(d, s);
    assert m in Hunks(d)[g];
    HunksOrdered(d);
  }

  /** Every hunk takes at least one change. */
  lemma HunksHaveChanges(d: seq<Entry>)
    ensures forall g :: 0 <= g < |Hunks(d)| ==> HasChange(d, Hunks(d)[g])
  {
    forall g | 0 <= g < |Hunks(d)| ensures HasChange(d, Hunks(d)[g]) {
      var s := HunkAtIndex(d, NextChange(d, 0), g);
      HunkMembers(d, s);
      assert s in Hunks(d)[g];
    }
  }

  /** There are no hunks exactly when the diff has no change. */
  lemma NoHunksIffNoChanges(d: seq<Entry>)
    ensures Hunks(d) == [] <==> forall m :: 0 <= m < |d| ==> !IsChange(d[m])
  {
  }

  /**
   * The merge rule: two neighbouring changes p < q (no change between them)
   * are in the same hunk exactly when at most MaxMergeGap (eight) unchanged
   * entries separate them.
   */
  lemma MergeRule(d: seq<Entry>, p: nat, q: nat)
    requires p < q < |d| && IsChange(d[p]) && IsChange(d[q])
    requires forall m :: p < m < q ==> !IsChange(d[m])
    ensures (exists g :: 0 <= g < |Hunks(d)| && p in Hunks(d)[g] && q in Hunks(d)[g])
            <==> q - p - 1 <= MaxMergeGap
  {
    var c := NextChange(d, 0);
    assert Hunks(d) == HunksAt(d, c);
    NextChangeIs(d, p + 1, q);
    MergeRuleAt(d, c, p, q);
  }

  /**
   * Inside a merged gap, the entries after the first Context are dropped: in a
   * gap of four to eight unchanged entries the hunk is not contiguous.
   */
  lemma GapDropped(d: seq<Entry>, p: nat, q: nat, m: nat)
    requires p < q < |d| && IsChange(d[p]) && IsChange(d[q])
    requires forall x :: p < x < q ==> !IsChange(d[x])
    requires q - p - 1 <= MaxMergeGap
    requires p + Context < m < q
    ensures !InSomeHunk(Hunks(d), m)
  {
    var g := GapOwnHunk(d, p, q, m);
    HunksOrdered(d);
    OrderedBetween(Hunks(d), g, p, q, m);
  }

  /** The hunk of a merged gap holds both of its changes but not m. */
  lemma GapOwnHunk(d: seq<Entry>, p: nat, q: nat, m: nat) returns (g: nat)
    requires p < q < |d| && IsChange(d[p]) && IsChange(d[q])
    requires forall x :: p < x < q ==> !IsChange(d[x])
    requires q - p - 1 <= MaxMergeGap
    requires p + Context < m < q
    ensures g < |Hunks(d)| && p in Hunks(d)[g] && q in Hunks(d)[g] && m !in Hunks(d)[g]
  {
    var c := NextChange(d, 0);
    assert Hunks(d) == HunksAt(d, c);
    NextChangeIs(d, p + 1, q);
    var s;
    g, s := Locate(d, c, p);
    ClusterSuffix(d, s, p);
    HunkMembers(d, s);
    PrevChangeIs(d, m, p);
    OutsideBody(d, s, p, m);
  }

  /** An unchanged entry more than Context after the last change before it is not in the hunk. */
  lemma OutsideBody(d: seq<Entry>, s: nat, p: nat, m: nat)
    requires s <= p < m < |d| && IsChange(d[s]) && PrevChange(d, m) == p && m - p > Context
    ensures m !in Lead(d, s) + Body(d, s)
  {
    HunkMembers(d, s);
    BodyMember(d, s, m);
  }

  /** In ordered hunks, an index between two indices of one hunk is in no other hunk. */
  lemma OrderedBetween(gs: seq<seq<nat>>, g: nat, p: nat, q: nat, m: nat)
    requires Ordered(gs) && g < |gs| && p in gs[g] && q in gs[g] && p < m < q
    ensures forall h :: 0 <= h < |gs| && h != g ==> m !in gs[h]
  {
    var b :| 0 <= b < |gs[g]| && gs[g][b] == p;
    var e :| 0 <= e < |gs[g]| && gs[g][e] == q;
  }

  /** The first Context unchanged entries after a change share its hunk. */
  lemma TrailingKept(d: seq<Entry>, p: nat, m: nat)
    requires p < m < |d| && m <= p + Context && IsChange(d[p])
    requires forall x :: p < x <= m ==> !IsChange(d[x])
    ensures exists g :: 0 <= g < |Hunks(d)| && p in Hunks(d)[g] && m in Hunks(d)[g]
  {
    var c := NextChange(d, 0);
    var g, s := Locate(d, c, p);
    HunkMembers(d, s);
    PrevChangeIs(d, m, p);
    BodyMember(d, s, m);
    assert p in Hunks(d)[g] && m in Hunks(d)[g];
  }

  /**
   * Context is bounded: every unchanged entry of a hunk is at most Context
   * entries after a change or at most Context entries before one.
   */
  lemma ContextBounded(d: seq<Entry>, g: nat, m: nat)
    requires g < |Hunks(d)| && m in Hunks(d)[g] && m < |d| && !IsChange(d[m])
    ensures NearChange(d, m)
  {
    var s := HunkAtIndex(d, NextChange(d, 0), g);
    HunkMembers(d, s);
    if m < s {
      assert NextChange(d, m) <= s;
    } else {
      BodyMember(d, s, m);
    }
  }

  // ---------------------------------------------------------------------------
  // The concatenation of the hunks ("grupos.flat()")
  // ---------------------------------------------------------------------------

  function Flatten<T>(gs: seq<seq<T>>): seq<T>
  {
    if gs == [] then [] else gs[0] + Flatten(gs[1..])
  }

  lemma {:induction false} FlattenMembers(gs: seq<seq<nat>>, m: nat)
    ensures m in Flatten(gs) <==> InSomeHunk(gs, m)
    decreases |gs|
  {
    if gs != [] {
      FlattenMembers(gs[1..], m);
      if InSomeHunk(gs[1..], m) {
        var g :| 0 <= g < |gs[1..]| && m in gs[1..][g];
        assert m in gs[g + 1];
      }
      if InSomeHunk(gs, m) && m !in gs[0] {
        var g :| 0 <= g < |gs| && m in gs[g];
        assert m in gs[1..][g - 1];
      }
    }
  }

  lemma OrderedTail(gs: seq<seq<nat>>)
    requires Ordered(gs) && gs != []
    ensures Ordered(gs[1..])
  {
    var rest := gs[1..];
    forall g | 0 <= g < |rest| ensures Increasing(rest[g]) {
      assert rest[g] == gs[g + 1];
    }
    forall g, h, a, b | 0 <= g < h < |rest| && 0 <= a < |rest[g]| && 0 <= b < |rest[h]|
      ensures rest[g][a] < rest[h][b]
    {
      assert rest[g] == gs[g + 1] && rest[h] == gs[h + 1];
    }
  }

  /** Every index of the later hunks exceeds every index of the first hunk. */
  lemma OrderedTailAbove(gs: seq<seq<nat>>, bound: nat)
    requires Ordered(gs) && gs != []
    requires bound == if gs[0] == [] then 0 else gs[0][|gs[0]| - 1] + 1
    ensures forall k :: 0 <= k < |Flatten(gs[1..])| ==> bound <= Flatten(gs[1..])[k]
  {
    var rest := gs[1..];
    forall k | 0 <= k < |Flatten(rest)| ensures bound <= Flatten(rest)[k] {
      var m := Flatten(rest)[k];
      FlattenMembers(rest, m);
      var g :| 0 <= g < |rest| && m in rest[g];
      var b :| 0 <= b < |rest[g]| && rest[g][b] == m;
      assert rest[g] == gs[g + 1];
      if gs[0] != [] {
        assert gs[0][|gs[0]| - 1] < gs[g + 1][b];
      }
    }
  }

  /** Ordered hunks concatenate to a strictly increasing list of indices. */
  lemma {:induction false} OrderedFlatten(gs: seq<seq<nat>>)
    requires Ordered(gs)
    ensures Increasing(Flatten(gs))
    decreases |gs|
  {
    if gs != [] {
      var first := gs[0];
      var bound := if first == [] then 0 else first[|first| - 1] + 1;
      forall k | 0 <= k < |first| ensures first[k] < bound {
        if k < |first| - 1 {
          assert first[k] < first[|first| - 1];
        }
      }
      OrderedTail(gs);
      OrderedFlatten(gs[1..]);
      OrderedTailAbove(gs, bound);
      IncreasingAppend(first, Flatten(gs[1..]), bound);
    }
  }

  lemma {:induction false} FlattenPick(d: seq<Entry>, gs: seq<seq<nat>>)
    requires GroupsInBounds(gs, |d|)
    ensures AllIn(Flatten(gs), 0, |d|)
    ensures Flatten(PickAll(d, gs)) == Pick(d, Flatten(gs))
    decreases |gs|
  {
    if gs != [] {
      var rest := gs[1..];
      assert GroupsInBounds(rest, |d|) by {
        forall g, k | 0 <= g < |rest| && 0 <= k < |rest[g]| ensures rest[g][k] < |d| {
          assert rest[g] == gs[g + 1];
        }
      }
      FlattenPick(d, rest);
      assert AllIn(gs[0], 0, |d|) by {
        forall k | 0 <= k < |gs[0]| ensures gs[0][k] < |d| {
          assert gs[0][k] < |d|;
        }
      }
      PickAppend(d, gs[0], Flatten(rest));
      assert PickAll(d, gs)[1..] == PickAll(d, rest);
    }
  }

  lemma PickSnoc(d: seq<Entry>, idx: seq<nat>)
    requires idx != [] && AllIn(idx, 0, |d|)
    ensures AllIn(idx[..|idx| - 1], 0, |d|)
    ensures Pick(d, idx) == Pick(d, idx[..|idx| - 1]) + [d[idx[|idx| - 1]]]
  {
    assert Pick(d, idx) == Pick(d, idx[..|idx| - 1]) + [d[idx[|idx| - 1]]];
  }

  lemma PickPrefix(d: seq<Entry>, idx: seq<nat>, n: nat)
    requires n <= |d| && AllIn(idx, 0, n)
    ensures Pick(d[..n], idx) == Pick(d, idx)
  {
  }

  lemma CountSnoc(s: seq<Entry>, e: Entry, k: Kind)
    ensures CountKind(s + [e], k) == CountKind(s, k) + (if e.kind == k then 1 else 0)
  {
    assert (s + [e])[..|s + [e]| - 1] == s;
  }

  /** All indices of an increasing list are at most its last one. */
  lemma IncreasingBelowLast(idx: seq<nat>, bound: nat)
    requires Increasing(idx) && AllIn(idx, 0, bound + 1)
    requires idx == [] || idx[|idx| - 1] < bound
    ensures AllIn(idx, 0, bound)
  {
    forall j | 0 <= j < |idx| ensures idx[j] < bound {
      if j < |idx| - 1 {
        assert idx[j] < idx[|idx| - 1];
      }
    }
  }

  /**
   * Picking an increasing list of indices that includes every entry of kind k
   * keeps all of those entries.
   */
  lemma {:induction false} CountPick(d: seq<Entry>, idx: seq<nat>, k: Kind)
    requires Increasing(idx) && AllIn(idx, 0, |d|)
    requires forall m :: 0 <= m < |d| && d[m].kind == k ==> m in idx
    ensures CountKind(Pick(d, idx), k) == CountKind(d, k)
    decreases |d|, 1
  {
    if d != [] {
      if idx != [] && idx[|idx| - 1] == |d| - 1 {
        CountPickLastTaken(d, idx, k);
      } else {
        CountPickLastSkipped(d, idx, k);
      }
    }
  }

  /** CountPick when the last entry is picked. */
  lemma {:induction false} CountPickLastTaken(d: seq<Entry>, idx: seq<nat>, k: Kind)
    requires Increasing(idx) && AllIn(idx, 0, |d|)
    requires forall m :: 0 <= m < |d| && d[m].kind == k ==> m in idx
    requires idx != [] && idx[|idx| - 1] == |d| - 1
    ensures CountKind(Pick(d, idx), k) == CountKind(d, k)
    decreases |d|, 0
  {
    var n := |d| - 1;
    var d' := d[..n];
    var idx' := idx[..|idx| - 1];
    IncreasingBelowLast(idx', n);
    CoverDropLast(d, idx, k, d', idx');
    CountPick(d', idx', k);
    PickSnoc(d, idx);
    PickPrefix(d, idx', n);
    CountSnoc(Pick(d, idx'), d[n], k);
    assert CountKind(d, k) == CountKind(d', k) + (if d[n].kind == k then 1 else 0);
  }

  lemma CoverDropLast(d: seq<Entry>, idx: seq<nat>, k: Kind, d': seq<Entry>, idx': seq<nat>)
    requires idx != [] && d != [] && idx[|idx| - 1] == |d| - 1
    requires d' == d[..|d| - 1] && idx' == idx[..|idx| - 1]
    requires forall m :: 0 <= m < |d| && d[m].kind == k ==> m in idx
    ensures forall m :: 0 <= m < |d'| && d'[m].kind == k ==> m in idx'
  {
    forall m | 0 <= m < |d'| && d'[m].kind == k ensures m in idx' {
      assert d[m] == d'[m];
      var j :| 0 <= j < |idx| && idx[j] == m;
      assert idx'[j] == m;
    }
  }

  /** CountPick when the last entry is not picked (so it is not of kind k). */
  lemma {:induction false} CountPickLastSkipped(d: seq<Entry>, idx: seq<nat>, k: Kind)
    requires Increasing(idx) && AllIn(idx, 0, |d|)
    requires forall m :: 0 <= m < |d| && d[m].kind == k ==> m in idx
    requires d != [] && (idx == [] || idx[|idx| - 1] != |d| - 1)
    ensures CountKind(Pick(d, idx), k) == CountKind(d, k)
    decreases |d|, 0
  {
    var n := |d| - 1;
    var d' := d[..n];
    IncreasingBelowLast(idx, n);
    assert n !in idx;
    forall m | 0 <= m < n && d'[m].kind == k ensures m in idx {
      assert d[m] == d'[m];
    }
    CountPick(d', idx, k);
    PickPrefix(d, idx, n);
  }

  /**
   * The removed and added totals over all hunks are those of the whole diff:
   * no change is lost or counted twice.
   */
  lemma ChangeCounts(d: seq<Entry>, k: Kind)
    requires k != Unchanged
    ensures CountKind(Flatten(PickAll(d, Hunks(d))), k) == CountKind(d, k)
  {
    var gs := Hunks(d);
    HunksOrdered(d);
    OrderedFlatten(gs);
    FlattenPick(d, gs);
    forall m | 0 <= m < |d| && d[m].kind == k ensures m in Flatten(gs) {
      EveryChangeInOneHunk(d, m);
      FlattenMembers(gs, m);
    }
    CountPick(d, Flatten(gs), k);
  }
}
