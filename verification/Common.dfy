/** Shapes the other modules share: optional values, results, and finite sums. */
module Common {
  datatype Option<+T> = None | Some(value: T)

  datatype Result<+T, +E> = Ok(value: T) | Err(error: E)

  function Max(a: int, b: int): int { if a < b then b else a }

  function Min(a: int, b: int): int { if a < b then a else b }

  /** r is n / d rounded to the nearest integer, an exact half going up. */
  predicate RoundsHalfUp(n: int, d: int, r: int)
  {
    2 * n - d < 2 * (d * r) <= 2 * n + d
  }

  lemma CancelFactor(k: int, x: int, y: int)
    requires 0 < k && k * x < k * y
    ensures x < y
  {
  }

  /** f(s[0]) + f(s[1]) + ... */
  function Sum<T>(f: T -> int, s: seq<T>): int
  {
    if s == [] then 0 else Sum(f, s[..|s| - 1]) + f(s[|s| - 1])
  }

  lemma SumSnoc<T>(f: T -> int, s: seq<T>, x: T)
    ensures Sum(f, s + [x]) == Sum(f, s) + f(x)
  {
    assert (s + [x])[..|s|] == s;
  }

  lemma {:induction false} SumConcat<T>(f: T -> int, s: seq<T>, t: seq<T>)
    ensures Sum(f, s + t) == Sum(f, s) + Sum(f, t)
    decreases |t|
  {
    if t == [] {
      assert s + t == s;
    } else {
      var front, last := t[..|t| - 1], t[|t| - 1];
      assert s + t == (s + front) + [last];
      SumSnoc(f, s + front, last);
      SumConcat(f, s, front);
    }
  }

  /** Replacing one element moves the sum by the difference of the two terms. */
  lemma {:induction false} SumUpdate<T>(f: T -> int, s: seq<T>, i: nat, x: T)
    requires i < |s|
    ensures Sum(f, s[i := x]) == Sum(f, s) - f(s[i]) + f(x)
    decreases |s|
  {
    var n := |s| - 1;
    assert s[i := x][..n] == if i == n then s[..n] else s[..n][i := x];
    if i < n {
      SumUpdate(f, s[..n], i, x);
    }
  }

  /** Pointwise comparison carries over to the sums. */
  lemma {:induction false} SumMonotone<T>(f: T -> int, s: seq<T>, g: T -> int, t: seq<T>)
    requires |s| == |t|
    requires forall i :: 0 <= i < |s| ==> f(s[i]) <= g(t[i])
    ensures Sum(f, s) <= Sum(g, t)
    decreases |s|
  {
    if s != [] {
      var n := |s| - 1;
      assert forall i :: 0 <= i < n ==> f(s[..n][i]) <= g(t[..n][i]);
      SumMonotone(f, s[..n], g, t[..n]);
    }
  }

  lemma {:induction false} SumNonNegative<T>(f: T -> int, s: seq<T>)
    requires forall i :: 0 <= i < |s| ==> 0 <= f(s[i])
    ensures 0 <= Sum(f, s)
    ensures forall i :: 0 <= i < |s| ==> f(s[i]) <= Sum(f, s)
    decreases |s|
  {
    if s != [] {
      var n := |s| - 1;
      assert forall i :: 0 <= i < n ==> s[..n][i] == s[i];
      SumNonNegative(f, s[..n]);
    }
  }

  lemma {:induction false} SumConstant<T>(f: T -> int, s: seq<T>, c: int)
    requires forall i :: 0 <= i < |s| ==> f(s[i]) == c
    ensures Sum(f, s) == |s| * c
    decreases |s|
  {
    if s != [] {
      var n := |s| - 1;
      assert forall i :: 0 <= i < n ==> s[..n][i] == s[i];
      SumConstant(f, s[..n], c);
      assert |s| * c == n * c + c;
    }
  }

  /** A sum of terms of at most one each is at most the number of terms. */
  lemma {:induction false} SumOfBits<T>(f: T -> int, s: seq<T>)
    requires forall i :: 0 <= i < |s| ==> f(s[i]) <= 1
    ensures Sum(f, s) <= |s|
    decreases |s|
  {
    if s != [] {
      assert forall i :: 0 <= i < |s| - 1 ==> s[..|s| - 1][i] == s[i];
      SumOfBits(f, s[..|s| - 1]);
    }
  }

  /** A sum of sums. */
  lemma {:induction false} SumSplits<T>(f: T -> int, g: T -> int, h: T -> int, s: seq<T>)
    requires forall i :: 0 <= i < |s| ==> f(s[i]) == g(s[i]) + h(s[i])
    ensures Sum(f, s) == Sum(g, s) + Sum(h, s)
    decreases |s|
  {
    if s != [] {
      assert forall i :: 0 <= i < |s| - 1 ==> s[..|s| - 1][i] == s[i];
      SumSplits(f, g, h, s[..|s| - 1]);
    }
  }
}
