/**
 * The text comparator's diff as a whole ("generarDiff" followed by
 * "agruparDiff") and the summary part of its Git-like rendering
 * ("formatearDiffComoGit"): whether the texts are reported identical, the
 * "@@ -n,len +n,len @@" header of each group and the removed/added totals.
 *
 * The header only imitates a unified diff: both sides use the number of the
 * group's first entry, and len is the number of entries in the group, so a
 * modified line (a removed and an added entry) counts twice on both sides.
 */
module DiffReport {
  import opened LineDiff
  import opened HunkGrouping
  import opened HunkFacts

  /** The hunk header "@@ -oldStart,oldCount +newStart,newCount @@". */
  datatype Header = Header(oldStart: nat, oldCount: nat, newStart: nat, newCount: nat)

  /** What the rendering reports: the identical-texts notice, or the hunk headers and totals. */
  datatype Report =
    | Identical
    | Changes(headers: seq<Header>, removed: nat, added: nat)

  /** The grouped diff generarDiff returns for two line sequences. */
  function Compare(a: seq<string>, b: seq<string>): seq<seq<Entry>>
  {
    var d := Classify(a, b);
    PickAll(d, Hunks(d))
  }

  /** generarDiff: classify the aligned lines, then group them. */
  method GenerateDiff(a: seq<string>, b: seq<string>) returns (groups: seq<seq<Entry>>)
    ensures groups == Compare(a, b)
  {
    var diff := ClassifyLines(a, b);
    groups := GroupDiff(diff);
  }

  function HeaderOf(g: seq<Entry>): Header
    requires g != []
  {
    Header(g[0].number, |g|, g[0].number, |g|)
  }

  /** The headers of the non-empty groups, in order (empty groups are skipped). */
  function Headers(gs: seq<seq<Entry>>): seq<Header>
  {
    if gs == [] then []
    else
      var last := gs[|gs| - 1];
      Headers(gs[..|gs| - 1]) + (if last == [] then [] else [HeaderOf(last)])
  }

  /** The report formatearDiffComoGit renders for a list of groups. */
  function Summary(gs: seq<seq<Entry>>): Report
  {
    if gs == [] then Identical
    else Changes(Headers(gs), CountKind(Flatten(gs), Removed), CountKind(Flatten(gs), Added))
  }

  /**
   * formatearDiffComoGit's pass over the groups, keeping the headers it emits
   * (the HTML around them is not modelled), then the flat removed/added totals.
   */
  method FormatDiff(gs: seq<seq<Entry>>) returns (r: Report)
    ensures r == Summary(gs)
  {
    if gs == [] {
      return Identical;
    }
    var headers: seq<Header> := [];
    var k := 0;
    while k < |gs|
      invariant 0 <= k <= |gs|
      invariant headers == Headers(gs[..k])
    {
      var g := gs[k];
      assert gs[..k + 1][..k] == gs[..k];
      if g != [] {
        headers := headers + [HeaderOf(g)];
      }
      k := k + 1;
    }
    assert gs[..|gs|] == gs;
    var flat := Flatten(gs);
    r := Changes(headers, CountKind(flat, Removed), CountKind(flat, Added));
  }

  /** When no group is empty, there is one header per group, taken from that group. */
  lemma {:induction false} HeadersOfNonEmpty(gs: seq<seq<Entry>>)
    requires forall g :: 0 <= g < |gs| ==> gs[g] != []
    ensures |Headers(gs)| == |gs|
    ensures forall g :: 0 <= g < |gs| ==> Headers(gs)[g] == HeaderOf(gs[g])
  {
    if gs != [] {
      var init := gs[..|gs| - 1];
      HeadersOfNonEmpty(init);
    }
  }

  /** Entries that are all unchanged describe the same lines on both sides. */
  lemma {:induction false} UnchangedSidesAgree(d: seq<Entry>)
    requires forall m :: 0 <= m < |d| ==> d[m].kind == Unchanged
    ensures OldSide(d) == NewSide(d)
  {
    if d != [] {
      UnchangedSidesAgree(d[1..]);
    }
  }

  /** The flat diff has no change exactly when the two texts have the same lines. */
  lemma NoChangesIffEqual(a: seq<string>, b: seq<string>)
    ensures (forall m :: 0 <= m < |Classify(a, b)| ==> !IsChange(Classify(a, b)[m])) <==> a == b
  {
    var d := Classify(a, b);
    if a == b {
      IdenticalTextsUnchanged(a);
    } else if forall m :: 0 <= m < |d| ==> !IsChange(d[m]) {
      DiffRecoversBothTexts(a, b);
      UnchangedSidesAgree(d);
      assert false;
    }
  }

  /** The texts are reported identical exactly when their lines are equal. */
  lemma IdenticalIff(a: seq<string>, b: seq<string>)
    ensures Summary(Compare(a, b)) == Identical <==> a == b
  {
    var d := Classify(a, b);
    NoHunksIffNoChanges(d);
    NoChangesIffEqual(a, b);
  }

  /**
   * For differing texts there is one header per group, giving the first
   * entry's line number on both sides and the group's entry count.
   */
  lemma HeadersOfDiff(a: seq<string>, b: seq<string>)
    requires a != b
    ensures Summary(Compare(a, b)).Changes?
    ensures var gs := Compare(a, b);
      var hs := Summary(gs).headers;
      && |hs| == |gs|
      && forall g :: 0 <= g < |gs| ==>
           gs[g] != [] && hs[g] == Header(gs[g][0].number, |gs[g]|, gs[g][0].number, |gs[g]|)
  {
    var d := Classify(a, b);
    var gs := Compare(a, b);
    IdenticalIff(a, b);
    HunksHaveChanges(d);
    forall g | 0 <= g < |gs| ensures gs[g] != [] {
      var m :| m in Hunks(d)[g] && m < |d| && IsChange(d[m]);
    }
    HeadersOfNonEmpty(gs);
  }

  /**
   * The totals count the removed and added entries of the whole flat diff:
   * the lines of each text that do not pair with an equal line of the other.
   */
  lemma TotalsOfDiff(a: seq<string>, b: seq<string>)
    requires a != b
    ensures Summary(Compare(a, b)).Changes?
    ensures Summary(Compare(a, b)).removed == CountKind(Classify(a, b), Removed)
                                           == |a| - EqualPairs(a, b, Max(|a|, |b|))
    ensures Summary(Compare(a, b)).added == CountKind(Classify(a, b), Added)
                                         == |b| - EqualPairs(a, b, Max(|a|, |b|))
  {
    var d := Classify(a, b);
    IdenticalIff(a, b);
    ChangeCounts(d, Removed);
    ChangeCounts(d, Added);
    DiffCounts(a, b);
  }

  /**
   * One modified line: the header reads "@@ -1,2 +1,2 @@", where a unified
   * diff would read "@@ -1,1 +1,1 @@".
   */
  lemma OneModifiedLine(x: string, y: string)
    requires x != y
    ensures Summary(Compare([x], [y])) == Changes([Header(1, 2, 1, 2)], 1, 1)
  {
    var d := Classify([x], [y]);
    ModifiedLineHunks(x, y);
    WholePair(d);
    SingleGroup(d);
    PairCounts(d);
  }

  lemma WholePair(d: seq<Entry>)
    requires |d| == 2
    ensures PickAll(d, [[0, 1]]) == [d]
  {
    var hs: seq<seq<nat>> := [[0, 1]];
    assert Pick(d, hs[0]) == d;
  }

  lemma SingleGroup(g: seq<Entry>)
    requires g != []
    ensures Summary([g]) == Changes([HeaderOf(g)], CountKind(g, Removed), CountKind(g, Added))
  {
    var gs := [g];
    assert gs[..0] == [];
    assert Headers(gs) == Headers([]) + [HeaderOf(g)];
    assert gs[1..] == [];
    assert Flatten(gs) == g + Flatten([]);
    assert g + [] == g;
  }

  lemma PairCounts(d: seq<Entry>)
    requires |d| == 2 && d[0].kind == Removed && d[1].kind == Added
    ensures CountKind(d, Removed) == 1 && CountKind(d, Added) == 1
  {
    var d1 := d[..1];
    assert d1[..0] == [];
    assert CountKind(d1, Removed) == 1 && CountKind(d1, Added) == 0;
    assert d[..|d| - 1] == d1;
  }

  /** The flat diff of one modified line and its single hunk. */
  lemma ModifiedLineHunks(x: string, y: string)
    requires x != y
    ensures Classify([x], [y]) == [Entry(Removed, x, 1), Entry(Added, y, 1)]
    ensures Hunks(Classify([x], [y])) == [[0, 1]]
  {
    var a, b := [x], [y];
    assert ClassifyUpTo(a, b, 0) == [];
    var d := Classify(a, b);
    assert NextChange(d, 0) == 0;
    assert NextChange(d, 1) == 1;
    assert NextChange(d, 2) == 2;
    assert ClusterLast(d, 1) == 1;
    assert ClusterLast(d, 0) == 1;
    assert After(d, 0) == 2;
    assert Lead(d, 0) == [];
    assert Body(d, 1) == [1];
    assert Body(d, 0) == [0, 1];
    assert HunksAt(d, 2) == [];
    assert Lead(d, 0) + Body(d, 0) == [0, 1];
    assert HunksAt(d, 0) == [[0, 1]];
    assert Hunks(d) == HunksAt(d, 0);
  }
}
