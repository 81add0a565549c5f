/** The transcript-similarity score of the pronunciation check
    (`VideoAgent.calculateSimilarity` and `verifyAudioAccuracy`).

    Scores are kept in integer tenths of a percent: the source rounds the
    percentage to one decimal place, so `tenths / 10` is the number it
    returns and `tenths >= 850` is its `similarity >= 85.0` test. */
module Similarity {
  import opened Text

  /** The acceptance threshold, 85.0 %, in tenths. */
  const AcceptTenths: nat := 850

  /** Characters removed before comparing: `、`, `。` and whitespace. */
  predicate IsIgnored(c: char) {
    c == '、' || c == '。' || IsWhitespace(c)
  }

  /** `s.replace(/[、。\s]/g, '')`. */
  function StripPunctuation(s: string): (r: string)
    ensures forall i :: 0 <= i < |r| ==> !IsIgnored(r[i])
    ensures |r| <= |s|
  {
    if s == [] then []
    else if IsIgnored(s[0]) then StripPunctuation(s[1..])
    else [s[0]] + StripPunctuation(s[1..])
  }

  /** Stripping twice is stripping once. */
  lemma {:induction false} StripIdempotent(s: string)
    ensures StripPunctuation(StripPunctuation(s)) == StripPunctuation(s)
  {
    var r := StripPunctuation(s);
    StripUnchanged(r);
  }

  /** A string with nothing to strip is left as it is. */
  lemma {:induction false} StripUnchanged(s: string)
    requires forall i :: 0 <= i < |s| ==> !IsIgnored(s[i])
    ensures StripPunctuation(s) == s
  {
    if s != [] {
      StripUnchanged(s[1..]);
    }
  }

  function Max(a: nat, b: nat): nat {
    if a < b then b else a
  }

  function Min3(a: nat, b: nat, c: nat): nat {
    if a <= b && a <= c then a else if b <= c then b else c
  }

  /** `Math.min` of three: a lower bound that is one of them. */
  lemma Min3Bounds(a: nat, b: nat, c: nat)
    ensures Min3(a, b, c) <= a && Min3(a, b, c) <= b && Min3(a, b, c) <= c
    ensures Min3(a, b, c) in {a, b, c}
  {
  }

  function Cost(x: char, y: char): nat {
    if x == y then 0 else 1
  }

  /** The Levenshtein distance between the first `i` characters of `a` and
      the first `j` characters of `b`: cell `[i][j]` of the source's matrix. */
  function Lev(a: string, b: string, i: nat, j: nat): nat
    requires i <= |a| && j <= |b|
    decreases i + j, 1
  {
    if i == 0 then j
    else if j == 0 then i
    else LevCell(a, b, i, j)
  }

  /** An inner cell: the cheapest of a deletion, an insertion and a
      substitution (free when the characters agree). */
  function LevCell(a: string, b: string, i: nat, j: nat): nat
    requires 0 < i <= |a| && 0 < j <= |b|
    decreases i + j, 0
  {
    Min3(Lev(a, b, i - 1, j) + 1, Lev(a, b, i, j - 1) + 1, Lev(a, b, i - 1, j - 1) + Cost(a[i - 1], b[j - 1]))
  }

  function EditDistance(a: string, b: string): nat {
    Lev(a, b, |a|, |b|)
  }

  /** Levenshtein distance does not depend on the order of its arguments. */
  lemma {:induction false} LevSymmetric(a: string, b: string, i: nat, j: nat)
    requires i <= |a| && j <= |b|
    ensures Lev(a, b, i, j) == Lev(b, a, j, i)
    decreases i + j
  {
    if i != 0 && j != 0 {
      LevSymmetric(a, b, i - 1, j);
      LevSymmetric(a, b, i, j - 1);
      LevSymmetric(a, b, i - 1, j - 1);
      LevStep(a, b, i, j);
      LevStep(b, a, j, i);
      CostSymmetric(a[i - 1], b[j - 1]);
      SymmetricStep(Lev(a, b, i - 1, j), Lev(a, b, i, j - 1), Lev(a, b, i - 1, j - 1), Cost(a[i - 1], b[j - 1]),
                    Lev(b, a, j, i - 1), Lev(b, a, j - 1, i), Lev(b, a, j - 1, i - 1), Cost(b[j - 1], a[i - 1]));
    }
  }

  lemma SymmetricStep(x: nat, y: nat, z: nat, c: nat, x': nat, y': nat, z': nat, c': nat)
    requires x == x' && y == y' && z == z' && c == c'
    ensures Min3(x + 1, y + 1, z + c) == Min3(y' + 1, x' + 1, z' + c')
  {
  }

  /** Cell `[i][j]` from its three neighbours. */
  lemma LevStep(a: string, b: string, i: nat, j: nat)
    requires 0 < i <= |a| && 0 < j <= |b|
    ensures Lev(a, b, i, j) == Min3(Lev(a, b, i - 1, j) + 1, Lev(a, b, i, j - 1) + 1, Lev(a, b, i - 1, j - 1) + Cost(a[i - 1], b[j - 1]))
  {
  }

  lemma Min3Swap(x: nat, y: nat, z: nat)
    ensures Min3(x, y, z) == Min3(y, x, z)
  {
  }

  lemma CostSymmetric(x: char, y: char)
    ensures Cost(x, y) == Cost(y, x)
  {
  }

  /** The distance never exceeds the longer length. */
  lemma {:induction false} LevAtMostLonger(a: string, b: string, i: nat, j: nat)
    requires i <= |a| && j <= |b|
    ensures Lev(a, b, i, j) <= Max(i, j)
    decreases i + j
  {
    if i != 0 && j != 0 {
      LevAtMostLonger(a, b, i - 1, j - 1);
      Min3Bounds(Lev(a, b, i - 1, j) + 1, Lev(a, b, i, j - 1) + 1, Lev(a, b, i - 1, j - 1) + Cost(a[i - 1], b[j - 1]));
    }
  }

  /** A prefix is at distance zero from itself. */
  lemma {:induction false} LevSelf(a: string, i: nat)
    requires i <= |a|
    ensures Lev(a, a, i, i) == 0
  {
    if i != 0 {
      LevSelf(a, i - 1);
    }
  }

  /** Distance zero means the two prefixes are equal. */
  lemma {:induction false} LevZero(a: string, b: string, i: nat, j: nat)
    requires i <= |a| && j <= |b|
    requires Lev(a, b, i, j) == 0
    ensures i == j && a[..i] == b[..j]
    decreases i + j
  {
    if i != 0 && j != 0 {
      Min3Bounds(Lev(a, b, i - 1, j) + 1, Lev(a, b, i, j - 1) + 1, Lev(a, b, i - 1, j - 1) + Cost(a[i - 1], b[j - 1]));
      LevZero(a, b, i - 1, j - 1);
      assert a[..i] == a[..i - 1] + [a[i - 1]];
      assert b[..j] == b[..j - 1] + [b[j - 1]];
    }
  }

  /** Edit distance is zero exactly for equal strings. */
  lemma EditDistanceZeroIff(a: string, b: string)
    ensures EditDistance(a, b) == 0 <==> a == b
  {
    if EditDistance(a, b) == 0 {
      LevZero(a, b, |a|, |b|);
      assert a == a[..|a|] && b == b[..|b|];
    }
    if a == b {
      LevSelf(a, |a|);
    }
  }

  lemma MulStrictCancel(k: int, a: int, b: int)
    requires k > 0 && k * a < k * b
    ensures a < b
  {
  }

  lemma MulBetween(k: int, n: int)
    requires k > 0 && -k < k * n < k
    ensures n == 0
  {
  }

  lemma DivLess(x: int, k: int, q: int)
    requires k > 0 && 0 <= x < k * q
    ensures x / k < q
  {
    assert k * (x / k) <= x;
    MulStrictCancel(k, x / k, q);
  }

  lemma DivExact(x: int, k: int, q: int, r: int)
    requires k > 0 && 0 <= r < k && x == k * q + r
    ensures x / k == q
  {
    var d, m := x / k, x % k;
    assert k * d + m == k * q + r;
    assert k * (d - q) == r - m;
    MulBetween(k, d - q);
  }

  /** `Math.round(((m - d) / m) * 100 * 10)`, or 1000 when both strings are
      empty: `floor(1000 (m - d) / m + 1/2)`. */
  function ScoreTenths(distance: nat, maxLen: nat): (r: nat)
    requires distance <= maxLen
    ensures r <= 1000
    ensures distance == 0 ==> r == 1000
  {
    if maxLen == 0 then 1000
    else
      var x := 2000 * (maxLen - distance) + maxLen;
      DivLess(x, 2 * maxLen, 1001);
      if distance == 0 then
        DivExact(x, 2 * maxLen, 1000, maxLen);
        x / (2 * maxLen)
      else
        x / (2 * maxLen)
  }

  /** The score `calculateSimilarity(text1, text2)` returns, in tenths. */
  function SimilarityTenths(text1: string, text2: string): (r: nat)
    ensures r <= 1000
  {
    var a, b := StripPunctuation(text1), StripPunctuation(text2);
    LevAtMostLonger(a, b, |a|, |b|);
    ScoreTenths(EditDistance(a, b), Max(|a|, |b|))
  }

  /** `isAccurate`: similarity of at least 85.0 %. */
  predicate IsAccurate(tenths: nat) {
    tenths >= AcceptTenths
  }

  /** The score does not change when the arguments are swapped. */
  lemma SimilaritySymmetric(text1: string, text2: string)
    ensures SimilarityTenths(text1, text2) == SimilarityTenths(text2, text1)
  {
    var a, b := StripPunctuation(text1), StripPunctuation(text2);
    LevSymmetric(a, b, |a|, |b|);
  }

  /** Texts that differ only in `、`, `。` and whitespace score 100.0 %,
      two empty texts included. */
  lemma SimilarityOfEqualText(text1: string, text2: string)
    requires StripPunctuation(text1) == StripPunctuation(text2)
    ensures SimilarityTenths(text1, text2) == 1000
    ensures IsAccurate(SimilarityTenths(text1, text2))
  {
    var a := StripPunctuation(text1);
    LevSelf(a, |a|);
  }

  /** Stripping an argument beforehand does not change the score. */
  lemma SimilarityIgnoresPunctuation(text1: string, text2: string)
    ensures SimilarityTenths(StripPunctuation(text1), text2) == SimilarityTenths(text1, text2)
  {
    StripIdempotent(text1);
  }

  /** Row `i` of the Levenshtein matrix holds the distances from the first
      `i` characters of `n1` to every prefix of `n2`. */
  ghost predicate RowDone(matrix: array2<nat>, n1: string, n2: string, i: nat)
    requires matrix.Length0 == |n1| + 1 && matrix.Length1 == |n2| + 1 && i <= |n1|
    reads matrix
  {
    forall c {:trigger matrix[i, c]} :: 0 <= c <= |n2| ==> matrix[i, c] == Lev(n1, n2, i, c)
  }

  /** Fills row `i` from row `i - 1`, left to right, from its first cell. */
  method FillRow(matrix: array2<nat>, n1: string, n2: string, i: nat)
    requires matrix.Length0 == |n1| + 1 && matrix.Length1 == |n2| + 1
    requires 1 <= i <= |n1|
    requires RowDone(matrix, n1, n2, i - 1)
    requires matrix[i, 0] == i
    modifies matrix
    ensures RowDone(matrix, n1, n2, i)
    ensures forall r, c :: 0 <= r < matrix.Length0 && r != i && 0 <= c < matrix.Length1 ==> matrix[r, c] == old(matrix[r, c])
  {
    for j := 1 to |n2| + 1
      invariant forall c {:trigger matrix[i, c]} :: 0 <= c < j ==> matrix[i, c] == Lev(n1, n2, i, c)
      invariant forall r, c :: 0 <= r < matrix.Length0 && r != i && 0 <= c < matrix.Length1 ==> matrix[r, c] == old(matrix[r, c])
    {
      var cost := if n1[i - 1] == n2[j - 1] then 0 else 1;
      assert matrix[i - 1, j] == Lev(n1, n2, i - 1, j) && matrix[i - 1, j - 1] == Lev(n1, n2, i - 1, j - 1);
      assert matrix[i, j - 1] == Lev(n1, n2, i, j - 1);
      matrix[i, j] := Min3(matrix[i - 1, j] + 1, matrix[i, j - 1] + 1, matrix[i - 1, j - 1] + cost);
    }
  }

  /** The Levenshtein matrix of `calculateSimilarity`, filled row by row;
      its bottom-right cell is the edit distance. */
  method LevenshteinDistance(n1: string, n2: string) returns (distance: nat)
    ensures distance == EditDistance(n1, n2)
  {
    var len1, len2 := |n1|, |n2|;
    var matrix := new nat[len1 + 1, len2 + 1];

    for i := 0 to len1 + 1
      invariant forall r :: 0 <= r < i ==> matrix[r, 0] == r
    {
      matrix[i, 0] := i;
    }
    for j := 0 to len2 + 1
      invariant forall r :: 0 <= r <= len1 ==> matrix[r, 0] == r
      invariant forall c :: 0 <= c < j ==> matrix[0, c] == c
    {
      matrix[0, j] := j;
    }

    assert RowDone(matrix, n1, n2, 0);
    for i := 1 to len1 + 1
      invariant RowDone(matrix, n1, n2, i - 1)
      invariant forall r :: i <= r <= len1 ==> matrix[r, 0] == r
    {
      FillRow(matrix, n1, n2, i);
    }
    distance := matrix[len1, len2];
  }

  /** `calculateSimilarity`: strips both texts, takes their edit distance
      and scales it by the longer length. */
  method CalculateSimilarity(text1: string, text2: string) returns (tenths: nat)
    ensures tenths == SimilarityTenths(text1, text2)
  {
    var n1 := StripPunctuation(text1);
    var n2 := StripPunctuation(text2);
    var distance := LevenshteinDistance(n1, n2);
    var maxLen := if |n1| < |n2| then |n2| else |n1|;
    LevAtMostLonger(n1, n2, |n1|, |n2|);
    tenths := ScoreTenths(distance, maxLen);
  }

  /** `verifyAudioAccuracy` given the transcript: compares the expected
      text with what was heard and applies the 85.0 % threshold. */
  method VerifyAudioAccuracy(expectedText: string, transcribed: string) returns (isAccurate: bool, tenths: nat)
    ensures tenths == SimilarityTenths(expectedText, transcribed)
    ensures isAccurate <==> tenths >= 850
  {
    tenths := CalculateSimilarity(expectedText, transcribed);
    isAccurate := IsAccurate(tenths);
  }
}
