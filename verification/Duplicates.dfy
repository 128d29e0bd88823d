/**
 * src/common/phash/phash.ts and src/modules/evidence/evidence.service.ts: comparing perceptual hashes, and the earliest
 * closest match.
 */
module Duplicates {
  import opened Common

  /** parseInt(ch, 16) as the xor reads it: anything that is not a hex digit counts as 0. */
  function Digit(ch: char): (d: nat)
    ensures d < 16
  {
    if '0' <= ch <= '9' then ch as int - '0' as int
    else if 'a' <= ch <= 'f' then ch as int - 'a' as int + 10
    else if 'A' <= ch <= 'F' then ch as int - 'A' as int + 10
    else 0
  }

  function LowDiffers(x: nat, y: nat): nat { if x % 2 == y % 2 then 0 else 1 }

  /** Exclusive or of two non-negative integers, bit by bit from the lowest. */
  function Xor(x: nat, y: nat): nat
  {
    if x == 0 && y == 0 then 0 else LowDiffers(x, y) + 2 * Xor(x / 2, y / 2)
  }

  /** The number of one bits. */
  function Ones(x: nat): nat { if x == 0 then 0 else x % 2 + Ones(x / 2) }

  /** Differing bits of two digits. */
  function DigitDistance(x: char, y: char): nat { Ones(Xor(Digit(x), Digit(y))) }

  /** Differing bits of two hashes of one length. */
  function Distance(a: string, b: string): nat
    requires |a| == |b|
  {
    if a == [] then 0 else Distance(a[..|a| - 1], b[..|b| - 1]) + DigitDistance(a[|a| - 1], b[|b| - 1])
  }

  datatype Mismatch = DifferentLengths

  /** hammingDistance: digit by digit, counting the ones of each xor by shifting. */
  method HammingDistance(a: string, b: string) returns (r: Result<nat, Mismatch>)
    ensures r == if |a| == |b| then Ok(Distance(a, b)) else Err(DifferentLengths)
  {
    if |a| != |b| {
      return Err(DifferentLengths);
    }
    var distance := 0;
    for i := 0 to |a|
      invariant distance == Distance(a[..i], b[..i])
    {
      assert a[..i + 1][..i] == a[..i] && b[..i + 1][..i] == b[..i];
      var xor := Xor(Digit(a[i]), Digit(b[i]));
      while xor != 0
        invariant distance + Ones(xor) == Distance(a[..i + 1], b[..i + 1])
      {
        distance := distance + xor % 2;
        xor := xor / 2;
      }
    }
    assert a[..|a|] == a && b[..|b|] == b;
    return Ok(distance);
  }

  // ---- It is a metric ----

  lemma OnesOfPair(n: nat, low: nat, high: nat)
    requires n == low + 2 * high && low < 2
    ensures Ones(n) == low + Ones(high)
  {
    assert n % 2 == low && n / 2 == high;
  }

  lemma XorUnfolds(x: nat, y: nat)
    ensures Xor(x, y) == LowDiffers(x, y) + 2 * Xor(x / 2, y / 2)
  {
  }

  lemma XorStep(x: nat, y: nat)
    ensures Ones(Xor(x, y)) == LowDiffers(x, y) + Ones(Xor(x / 2, y / 2))
  {
    XorUnfolds(x, y);
    OnesOfPair(Xor(x, y), LowDiffers(x, y), Xor(x / 2, y / 2));
  }

  lemma {:induction false} XorMetric(x: nat, y: nat, z: nat)
    ensures Ones(Xor(x, y)) == 0 <==> x == y
    ensures Ones(Xor(x, y)) == Ones(Xor(y, x))
    ensures Ones(Xor(x, z)) <= Ones(Xor(x, y)) + Ones(Xor(y, z))
    decreases x + y + z
  {
    if x != 0 || y != 0 || z != 0 {
      var hx, hy, hz := x / 2, y / 2, z / 2;
      assert x == 2 * hx + x % 2 && y == 2 * hy + y % 2;
      XorMetric(hx, hy, hz);
      XorStep(x, y);
      XorStep(y, x);
      XorStep(y, z);
      XorStep(x, z);
    }
  }

  /** n-bit numbers differ in at most n bits. */
  lemma {:induction false} XorFits(x: nat, y: nat, n: nat)
    requires n <= 4 && x < [1, 2, 4, 8, 16][n] && y < [1, 2, 4, 8, 16][n]
    ensures Ones(Xor(x, y)) <= n
  {
    if n > 0 {
      XorFits(x / 2, y / 2, n - 1);
      XorStep(x, y);
    }
  }

  /** One digit's share of the metric. */
  lemma DigitMetric(x: char, y: char, z: char)
    ensures DigitDistance(x, y) == 0 <==> Digit(x) == Digit(y)
    ensures DigitDistance(x, y) == DigitDistance(y, x) <= 4
    ensures DigitDistance(x, z) <= DigitDistance(x, y) + DigitDistance(y, z)
  {
    XorMetric(Digit(x), Digit(y), Digit(z));
    XorFits(Digit(x), Digit(y), 4);
  }

  predicate SameValue(a: string, b: string)
  {
    |a| == |b| && forall i :: 0 <= i < |a| ==> Digit(a[i]) == Digit(b[i])
  }

  /** Zero exactly between equal values (letter case aside), symmetric, and at most 4 bits a digit. */
  lemma {:induction false} DistanceIdentifies(a: string, b: string)
    requires |a| == |b|
    ensures Distance(a, b) == 0 <==> SameValue(a, b)
    ensures Distance(a, b) == Distance(b, a) <= 4 * |a|
    decreases |a|
  {
    if a != [] {
      var n := |a| - 1;
      DistanceIdentifies(a[..n], b[..n]);
      DigitMetric(a[n], b[n], a[n]);
      assert SameValue(a, b) <==> SameValue(a[..n], b[..n]) && Digit(a[n]) == Digit(b[n]) by {
        if SameValue(a[..n], b[..n]) && Digit(a[n]) == Digit(b[n]) {
          forall i | 0 <= i < |a| ensures Digit(a[i]) == Digit(b[i]) {
            if i < n {
              assert a[..n][i] == a[i] && b[..n][i] == b[i];
            }
          }
        }
      }
    }
  }

  lemma {:induction false} TriangleInequality(a: string, b: string, c: string)
    requires |a| == |b| == |c|
    ensures Distance(a, c) <= Distance(a, b) + Distance(b, c)
    decreases |a|
  {
    if a != [] {
      var n := |a| - 1;
      TriangleInequality(a[..n], b[..n], c[..n]);
      DigitMetric(a[n], b[n], c[n]);
    }
  }

  // ---- What it counts ----

  const DIGITS := "0123456789abcdef"

  /** A hex digit stands for its place in the list, in either case; anything else for nothing. */
  lemma DigitIsPlace(k: nat, ch: char)
    requires k < 16
    ensures Digit(DIGITS[k]) == k
    ensures 10 <= k && ch as int == DIGITS[k] as int - 'a' as int + 'A' as int ==> Digit(ch) == k
    ensures !('0' <= ch <= '9') && !('a' <= ch <= 'f') && !('A' <= ch <= 'F') ==> Digit(ch) == 0
  {
    assert DIGITS[0] == '0' && DIGITS[1] == '1' && DIGITS[2] == '2' && DIGITS[3] == '3' && DIGITS[4] == '4';
    assert DIGITS[5] == '5' && DIGITS[6] == '6' && DIGITS[7] == '7' && DIGITS[8] == '8' && DIGITS[9] == '9';
    assert DIGITS[10] == 'a' && DIGITS[11] == 'b' && DIGITS[12] == 'c' && DIGITS[13] == 'd' && DIGITS[14] == 'e';
    assert DIGITS[15] == 'f';
  }

  /** Bit k of a digit. */
  function BitOf(d: nat, k: nat): nat
    requires k < 4
  {
    d / [1, 2, 4, 8][k] % 2
  }

  /** The places, digit and bit, where two hashes differ. */
  function DifferingBits(a: string, b: string): set<(nat, nat)>
    requires |a| == |b|
  {
    set i: nat, k: nat | i < |a| && k < 4 && BitOf(Digit(a[i]), k) != BitOf(Digit(b[i]), k) :: (i, k)
  }

  /** Those of one digit, bits 0 .. n - 1. */
  function DigitBits(i: nat, d: nat, e: nat, n: nat): set<(nat, nat)>
    requires n <= 4
  {
    set k: nat | k < n && BitOf(d, k) != BitOf(e, k) :: (i, k)
  }

  lemma {:induction false} CountDigitBits(i: nat, d: nat, e: nat, n: nat)
    requires n <= 4
    ensures |DigitBits(i, d, e, n)| == SumDiffers(d, e, n)
  {
    if n == 0 {
      assert DigitBits(i, d, e, 0) == {};
    } else {
      CountDigitBits(i, d, e, n - 1);
      assert DigitBits(i, d, e, n)
             == if BitOf(d, n - 1) != BitOf(e, n - 1) then DigitBits(i, d, e, n - 1) + {(i, n - 1)}
                else DigitBits(i, d, e, n - 1);
    }
  }

  function SumDiffers(d: nat, e: nat, n: nat): nat
    requires n <= 4
  {
    if n == 0 then 0 else SumDiffers(d, e, n - 1) + (if BitOf(d, n - 1) != BitOf(e, n - 1) then 1 else 0)
  }

  lemma HalvedBits(d: nat)
    ensures BitOf(d, 0) == d % 2 && BitOf(d, 1) == d / 2 % 2 && BitOf(d, 2) == d / 2 / 2 % 2
    ensures BitOf(d, 3) == d / 2 / 2 / 2 % 2
  {
  }

  lemma NothingLeft(d: nat)
    requires d < 16
    ensures d / 2 / 2 / 2 / 2 == 0
  {
  }

  /** The differing bits of two digits are counted one by one. */
  lemma DigitDistanceCounts(d: nat, e: nat)
    requires d < 16 && e < 16
    ensures Ones(Xor(d, e)) == SumDiffers(d, e, 4)
  {
    HalvedBits(d);
    HalvedBits(e);
    NothingLeft(d);
    NothingLeft(e);
    XorStep(d, e);
    XorStep(d / 2, e / 2);
    XorStep(d / 2 / 2, e / 2 / 2);
    XorStep(d / 2 / 2 / 2, e / 2 / 2 / 2);
    assert Ones(Xor(0, 0)) == 0;
    assert SumDiffers(d, e, 1) == LowDiffers(d, e);
    assert SumDiffers(d, e, 2) == SumDiffers(d, e, 1) + LowDiffers(d / 2, e / 2);
    assert SumDiffers(d, e, 3) == SumDiffers(d, e, 2) + LowDiffers(d / 2 / 2, e / 2 / 2);
  }

  /** The distance is the number of places at which the two hashes differ. */
  lemma {:induction false} DistanceCountsBits(a: string, b: string)
    requires |a| == |b|
    ensures Distance(a, b) == |DifferingBits(a, b)|
    decreases |a|
  {
    if a == [] {
      assert DifferingBits(a, b) == {};
    } else {
      var n := |a| - 1;
      var d, e := Digit(a[n]), Digit(b[n]);
      DistanceCountsBits(a[..n], b[..n]);
      DigitDistanceCounts(d, e);
      CountDigitBits(n, d, e, 4);
      LastDigitBits(a, b, n);
      DisjointSizes(DifferingBits(a[..n], b[..n]), DigitBits(n, d, e, 4), DifferingBits(a, b));
    }
  }

  lemma DisjointSizes<T>(x: set<T>, y: set<T>, z: set<T>)
    requires z == x + y && x !! y
    ensures |z| == |x| + |y|
  {
  }

  lemma LastDigitBits(a: string, b: string, n: nat)
    requires |a| == |b| == n + 1
    ensures DifferingBits(a, b) == DifferingBits(a[..n], b[..n]) + DigitBits(n, Digit(a[n]), Digit(b[n]), 4)
    ensures DifferingBits(a[..n], b[..n]) !! DigitBits(n, Digit(a[n]), Digit(b[n]), 4)
  {
    forall i: nat, k: nat | i <= n && k < 4
      ensures (i, k) in DifferingBits(a, b)
              <==> (i, k) in DifferingBits(a[..n], b[..n]) || (i, k) in DigitBits(n, Digit(a[n]), Digit(b[n]), 4)
    {
      if i < n {
        assert a[..n][i] == a[i] && b[..n][i] == b[i];
      }
    }
  }

  // ---- Reuse ----

  predicate IsDuplicate(a: string, b: string, threshold: nat)
    requires |a| == |b|
  {
    Distance(a, b) <= threshold
  }

  /** An artifact whose hash can be compared and is close enough. */
  predicate Matches(phash: string, other: string, threshold: nat)
  {
    |other| == |phash| && IsDuplicate(phash, other, threshold)
  }

  /** i is the earliest among the closest matches. */
  predicate IsEarliestClosest(phash: string, artifacts: seq<string>, i: nat, threshold: nat)
  {
    && i < |artifacts| && Matches(phash, artifacts[i], threshold)
    && (forall j :: 0 <= j < |artifacts| && Matches(phash, artifacts[j], threshold) ==>
       Distance(phash, artifacts[i]) <= Distance(phash, artifacts[j]))
    && (forall j :: 0 <= j < i && Matches(phash, artifacts[j], threshold) ==>
       Distance(phash, artifacts[i]) < Distance(phash, artifacts[j]))
  }

  /** findReuse, over the stored hashes in order of creation. */
  method FindReuse(phash: string, artifacts: seq<string>, threshold: nat) returns (best: Option<nat>)
    ensures best.None? <==> forall j :: 0 <= j < |artifacts| ==> !Matches(phash, artifacts[j], threshold)
    ensures best.Some? ==> IsEarliestClosest(phash, artifacts, best.value, threshold)
  {
    best := None;
    var least := 0;
    for k := 0 to |artifacts|
      invariant best.None? ==> forall j :: 0 <= j < k ==> !Matches(phash, artifacts[j], threshold)
      invariant best.Some? ==> best.value < k && IsEarliestClosest(phash, artifacts[..k], best.value, threshold)
                               && least == Distance(phash, artifacts[best.value])
    {
      if |artifacts[k]| == |phash| {
        var distance := HammingDistance(phash, artifacts[k]);
        if distance.value <= threshold && (best.None? || distance.value < least) {
          best, least := Some(k), distance.value;
        }
      }
    }
    assert artifacts[..|artifacts|] == artifacts;
  }

  /**
   * A re-encoding of the very same image (the same value) is always caught, and by something no farther than itself.
   */
  lemma ExactCopyIsCaught(phash: string, artifacts: seq<string>, k: nat, i: nat, threshold: nat)
    requires k < |artifacts| && SameValue(phash, artifacts[k]) && IsEarliestClosest(phash, artifacts, i, threshold)
    ensures i <= k && SameValue(phash, artifacts[i])
  {
    DistanceIdentifies(phash, artifacts[k]);
    DistanceIdentifies(phash, artifacts[i]);
    assert Matches(phash, artifacts[k], threshold);
  }
}
