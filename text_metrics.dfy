/**
 * The comparator's two measures besides the diff: the word-overlap
 * similarity of "analizarTextos" and the edit distance of
 * "calcularDistanciaLevenshtein".
 */
module TextMetrics {
  import opened Rounding
  import opened LineDiff
  import opened HistoryLog

  // ---------------------------------------------------------------------------
  // Word-overlap similarity
  // ---------------------------------------------------------------------------

  /** The words of the first list that occur anywhere in the second, in order, repeats kept. */
  function CommonWords(w1: seq<string>, w2: seq<string>): (c: seq<string>)
    ensures |c| <= |w1|
    ensures forall k :: 0 <= k < |c| ==> c[k] in w2 && c[k] in w1
    ensures forall k :: 0 <= k < |w1| && w1[k] in w2 ==> w1[k] in c
  {
    if w1 == [] then []
    else CommonWords(w1[..|w1| - 1], w2) + (if w1[|w1| - 1] in w2 then [w1[|w1| - 1]] else [])
  }

  /**
   * The common words are the filter of the first list by membership in the
   * second: each occurrence of a shared word is kept, repeats included, and
   * the order is that of the first list.
   */
  lemma {:induction false} CommonWordsIsFilter(w1: seq<string>, w2: seq<string>)
    ensures CommonWords(w1, w2) == Filter(w1, w => w in w2)
  {
    if w1 != [] {
      CommonWordsIsFilter(w1[..|w1| - 1], w2);
    }
  }

  /**
   * The "common" count of the similarity adds up piece by piece: the common
   * words of a concatenation are those of each part.
   */
  lemma CommonWordsAppend(a: seq<string>, b: seq<string>, w2: seq<string>)
    ensures |CommonWords(a + b, w2)| == |CommonWords(a, w2)| + |CommonWords(b, w2)|
  {
    CommonWordsIsFilter(a + b, w2);
    CommonWordsIsFilter(a, w2);
    CommonWordsIsFilter(b, w2);
    FilterAppend(a, b, w => w in w2);
  }

  /** Every word of the first list is kept exactly when each occurs in the second. */
  lemma {:induction false} CommonWordsAll(w1: seq<string>, w2: seq<string>)
    ensures CommonWords(w1, w2) == w1 <==> forall k :: 0 <= k < |w1| ==> w1[k] in w2
  {
    if w1 != [] {
      var init := w1[..|w1| - 1];
      CommonWordsAll(init, w2);
      if CommonWords(w1, w2) == w1 {
        assert |CommonWords(init, w2)| <= |init|;
      }
    }
  }

  /**
   * "similitud": Math.round(common / max(words1, words2) * 100).  The word
   * lists are what splitting the lower-cased texts on white space gives; such
   * a split always has at least one (possibly empty) piece.
   */
  function Similarity(w1: seq<string>, w2: seq<string>): (s: int)
    requires |w1| > 0 && |w2| > 0
  {
    var total := Max(|w1|, |w2|);
    Round(|CommonWords(w1, w2)| as real / total as real * 100.0)
  }

  /** The score is a percentage. */
  lemma SimilarityRange(w1: seq<string>, w2: seq<string>)
    requires |w1| > 0 && |w2| > 0
    ensures 0 <= Similarity(w1, w2) <= 100
  {
    PercentBounds(|CommonWords(w1, w2)|, Max(|w1|, |w2|));
  }

  lemma PercentBounds(c: nat, t: nat)
    requires 0 < t && c <= t
    ensures 0.0 <= c as real / t as real * 100.0 <= 100.0
  {
    var q := c as real / t as real;
    assert q * t as real == c as real;
  }

  /** Identical word lists score 100. */
  lemma SimilaritySame(w: seq<string>)
    requires |w| > 0
    ensures Similarity(w, w) == 100
  {
    CommonWordsAll(w, w);
    RatioPercent(|w|, |w|, 100.0);
    RoundIs(100.0, 100);
  }

  lemma RatioPercent(c: nat, t: nat, p: real)
    requires t > 0 && c == t && p == 100.0
    ensures c as real / t as real * 100.0 == p
  {
  }

  lemma {:induction false} CommonWordsNone(w1: seq<string>, w2: seq<string>)
    requires forall k :: 0 <= k < |w1| ==> w1[k] !in w2
    ensures CommonWords(w1, w2) == []
  {
    if w1 != [] {
      CommonWordsNone(w1[..|w1| - 1], w2);
    }
  }

  /** Lists without a shared word score 0. */
  lemma SimilarityDisjoint(w1: seq<string>, w2: seq<string>)
    requires |w1| > 0 && |w2| > 0
    requires forall k :: 0 <= k < |w1| ==> w1[k] !in w2
    ensures Similarity(w1, w2) == 0
  {
    CommonWordsNone(w1, w2);
    RoundIs(0.0, 0);
  }

  /**
   * The figures "analizarTextos" reports besides the diff.  Lengths count
   * the elements of the strings, which agree with JavaScript's UTF-16
   * .length for text inside the Basic Multilingual Plane.
   */
  datatype Analysis = Analysis(
    similarity: int, commonWords: nat,
    chars1: nat, chars2: nat, lengthDifference: nat,
    totalWords1: nat, totalWords2: nat)

  function Analyze(text1: string, text2: string, w1: seq<string>, w2: seq<string>): (a: Analysis)
    requires |w1| > 0 && |w2| > 0
    ensures a.lengthDifference == if |text1| >= |text2| then |text1| - |text2| else |text2| - |text1|
    ensures a.commonWords <= a.totalWords1
    ensures 0 <= a.similarity <= 100
  {
    SimilarityRange(w1, w2);
    Analysis(Similarity(w1, w2), |CommonWords(w1, w2)|,
             |text1|, |text2|, if |text1| >= |text2| then |text1| - |text2| else |text2| - |text1|,
             |w1|, |w2|)
  }

  // ---------------------------------------------------------------------------
  // Edit distance
  // ---------------------------------------------------------------------------

  function Min3(a: nat, b: nat, c: nat): nat
  {
    if a <= b && a <= c then a else if b <= c then b else c
  }

  /**
   * The unit-cost edit distance between x[..i] and y[..j]: the fewest
   * insertions, deletions and substitutions that turn one into the other.
   */
  function Lev(x: string, y: string, i: nat, j: nat): nat
    requires i <= |x| && j <= |y|
    decreases i + j
  {
    if i == 0 then j
    else if j == 0 then i
    else Min3(Lev(x, y, i - 1, j) + 1,
              Lev(x, y, i, j - 1) + 1,
              Lev(x, y, i - 1, j - 1) + (if x[i - 1] == y[j - 1] then 0 else 1))
  }

  function EditDistance(x: string, y: string): nat
  {
    Lev(x, y, |x|, |y|)
  }

  /** Dropping the last character of x changes the distance by at most one. */
  lemma {:induction false} DropLastOfX(x: string, y: string, i: nat, j: nat)
    requires 0 < i <= |x| && j <= |y|
    ensures Lev(x, y, i - 1, j) <= Lev(x, y, i, j) + 1
    decreases j
  {
    if j > 0 {
      DropLastOfX(x, y, i, j - 1);
    }
  }

  /** Dropping the last character of y changes the distance by at most one. */
  lemma {:induction false} DropLastOfY(x: string, y: string, i: nat, j: nat)
    requires i <= |x| && 0 < j <= |y|
    ensures Lev(x, y, i, j - 1) <= Lev(x, y, i, j) + 1
    decreases i
  {
    if i > 0 {
      DropLastOfY(x, y, i - 1, j);
    }
  }

  /** When the last characters agree, the distance is that of the two shorter prefixes. */
  lemma MatchingLast(x: string, y: string, i: nat, j: nat)
    requires 0 < i <= |x| && 0 < j <= |y| && x[i - 1] == y[j - 1]
    ensures Lev(x, y, i, j) == Lev(x, y, i - 1, j - 1)
  {
    DropLastOfX(x, y, i, j - 1);
    DropLastOfY(x, y, i - 1, j);
  }

  /** Every cell of rows 0 .. rows-1 holds the distance of its two prefixes. */
  ghost predicate RowsDone(matrix: array2<nat>, x: string, y: string, rows: nat)
    requires matrix.Length0 == |x| + 1 && matrix.Length1 == |y| + 1 && rows <= |x| + 1
    reads matrix
  {
    forall r, c {:trigger matrix[r, c]} :: 0 <= r < rows && 0 <= c <= |y| ==> matrix[r, c] == Lev(x, y, r, c)
  }

  /** The cell rule of the matrix agrees with Lev. */
  lemma CellRule(x: string, y: string, i: nat, j: nat)
    requires 0 < i <= |x| && 0 < j <= |y|
    ensures Lev(x, y, i, j)
         == if x[i - 1] == y[j - 1] then Lev(x, y, i - 1, j - 1)
            else Min3(Lev(x, y, i - 1, j - 1) + 1, Lev(x, y, i, j - 1) + 1, Lev(x, y, i - 1, j) + 1)
  {
    if x[i - 1] == y[j - 1] {
      MatchingLast(x, y, i, j);
    }
  }

  /**
   * calcularDistanciaLevenshtein: the matrix is indexed [position in str2]
   * [position in str1]; its first column and first row count up from 0.
   */
  method Levenshtein(str1: string, str2: string) returns (dist: nat)
    ensures dist == EditDistance(str1, str2)
  {
    var matrix := new nat[|str2| + 1, |str1| + 1];
    for i := 0 to |str2| + 1
      invariant forall r :: 0 <= r < i ==> matrix[r, 0] == r
    {
      matrix[i, 0] := i;
    }
    for j := 0 to |str1| + 1
      invariant forall r :: 0 <= r <= |str2| ==> matrix[r, 0] == r
      invariant forall c :: 0 <= c < j ==> matrix[0, c] == c
    {
      matrix[0, j] := j;
    }
    for i := 1 to |str2| + 1
      invariant RowsDone(matrix, str2, str1, i)
      invariant forall r :: i <= r <= |str2| ==> matrix[r, 0] == r
    {
      FillRow(matrix, str2, str1, i);
    }
    dist := matrix[|str2|, |str1|];
    DistanceSymmetric(str2, str1);
  }

  /** The inner loop: row i from the row above it and the cell to its left. */
  method FillRow(matrix: array2<nat>, x: string, y: string, i: nat)
    requires matrix.Length0 == |x| + 1 && matrix.Length1 == |y| + 1 && 0 < i <= |x|
    requires RowsDone(matrix, x, y, i)
    requires forall r :: i <= r <= |x| ==> matrix[r, 0] == r
    modifies matrix
    ensures RowsDone(matrix, x, y, i + 1)
    ensures forall r :: i < r <= |x| ==> matrix[r, 0] == r
  {
    for j := 1 to |y| + 1
      invariant RowsDone(matrix, x, y, i)
      invariant forall c {:trigger matrix[i, c]} :: 0 <= c < j ==> matrix[i, c] == Lev(x, y, i, c)
      invariant forall r :: i < r <= |x| ==> matrix[r, 0] == r
    {
      var diag, left, up := matrix[i - 1, j - 1], matrix[i, j - 1], matrix[i - 1, j];
      var cell := if x[i - 1] == y[j - 1] then diag else Min3(diag + 1, left + 1, up + 1);
      assert cell == Lev(x, y, i, j) by {
        CellRule(x, y, i, j);
      }
      matrix[i, j] := cell;
    }
    RowsDoneNext(matrix, x, y, i);
  }

  lemma RowsDoneNext(matrix: array2<nat>, x: string, y: string, i: nat)
    requires matrix.Length0 == |x| + 1 && matrix.Length1 == |y| + 1 && i <= |x|
    requires RowsDone(matrix, x, y, i)
    requires forall c :: 0 <= c <= |y| ==> matrix[i, c] == Lev(x, y, i, c)
    ensures RowsDone(matrix, x, y, i + 1)
  {
  }

  /** The distance does not depend on the order of the two strings. */
  lemma DistanceSymmetric(x: string, y: string)
    ensures EditDistance(x, y) == EditDistance(y, x)
  {
    Symmetric(x, y, |x|, |y|);
  }

  predicate SymmetricAt(x: string, y: string, i: nat, j: nat)
    requires i <= |x| && j <= |y|
  {
    Lev(x, y, i, j) == Lev(y, x, j, i)
  }

  lemma {:induction false} Symmetric(x: string, y: string, i: nat, j: nat)
    requires i <= |x| && j <= |y|
    ensures SymmetricAt(x, y, i, j)
    decreases i + j, 1
  {
    if i > 0 && j > 0 {
      SymmetricInner(x, y, i, j);
    }
  }

  lemma {:induction false} SymmetricInner(x: string, y: string, i: nat, j: nat)
    requires 0 < i <= |x| && 0 < j <= |y|
    ensures SymmetricAt(x, y, i, j)
    decreases i + j, 0
  {
    Symmetric(x, y, i - 1, j);
    Symmetric(x, y, i, j - 1);
    Symmetric(x, y, i - 1, j - 1);
    SymmetricStep(x, y, i, j);
  }

  lemma SymmetricStep(x: string, y: string, i: nat, j: nat)
    requires 0 < i <= |x| && 0 < j <= |y|
    requires SymmetricAt(x, y, i - 1, j) && SymmetricAt(x, y, i, j - 1) && SymmetricAt(x, y, i - 1, j - 1)
    ensures SymmetricAt(x, y, i, j)
  {
  }

  lemma {:induction false} SamePrefixZero(x: string, i: nat)
    requires i <= |x|
    ensures Lev(x, x, i, i) == 0
  {
    if i > 0 {
      SamePrefixZero(x, i - 1);
    }
  }

  lemma {:induction false} ZeroMeansEqual(x: string, y: string, i: nat, j: nat)
    requires i <= |x| && j <= |y| && Lev(x, y, i, j) == 0
    ensures i == j && x[..i] == y[..j]
    decreases i + j
  {
    if i > 0 && j > 0 {
      if x[i - 1] == y[j - 1] && Lev(x, y, i - 1, j - 1) == 0 {
        ZeroMeansEqual(x, y, i - 1, j - 1);
        assert x[..i] == x[..i - 1] + [x[i - 1]];
        assert y[..j] == y[..j - 1] + [y[j - 1]];
      }
    }
  }

  /** The distance is 0 exactly for equal strings. */
  lemma ZeroIffEqual(x: string, y: string)
    ensures EditDistance(x, y) == 0 <==> x == y
  {
    if x == y {
      SamePrefixZero(x, |x|);
    }
    if EditDistance(x, y) == 0 {
      ZeroMeansEqual(x, y, |x|, |y|);
      assert x == x[..|x|] && y == y[..|y|];
    }
  }

  /** Against the empty string the distance is the other string's length. */
  lemma AgainstEmpty(x: string)
    ensures EditDistance(x, []) == |x| && EditDistance([], x) == |x|
  {
  }

  predicate BoundedAt(x: string, y: string, i: nat, j: nat)
    requires i <= |x| && j <= |y|
  {
    (if i >= j then i - j else j - i) <= Lev(x, y, i, j) <= Max(i, j)
  }

  lemma {:induction false} Bounds(x: string, y: string, i: nat, j: nat)
    requires i <= |x| && j <= |y|
    ensures BoundedAt(x, y, i, j)
    decreases i + j
  {
    if i > 0 && j > 0 {
      Bounds(x, y, i - 1, j);
      Bounds(x, y, i, j - 1);
      Bounds(x, y, i - 1, j - 1);
      BoundsStep(x, y, i, j);
    }
  }

  lemma BoundsStep(x: string, y: string, i: nat, j: nat)
    requires 0 < i <= |x| && 0 < j <= |y|
    requires BoundedAt(x, y, i - 1, j) && BoundedAt(x, y, i, j - 1) && BoundedAt(x, y, i - 1, j - 1)
    ensures BoundedAt(x, y, i, j)
  {
  }

  /** The distance lies between the length difference and the longer length. */
  lemma DistanceBounds(x: string, y: string)
    ensures (if |x| >= |y| then |x| - |y| else |y| - |x|) <= EditDistance(x, y) <= Max(|x|, |y|)
  {
    Bounds(x, y, |x|, |y|);
  }
}
