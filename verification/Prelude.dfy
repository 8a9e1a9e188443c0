/** Small value types and sums shared by the other modules. */
module Prelude {

  datatype Option<+T> = None | Some(value: T)

  datatype Result<+T, +E> = Ok(value: T) | Err(error: E)

  /** A floating-point number without its rounding; NotFinite stands for NaN and the infinities. */
  datatype Float = Finite(value: real) | NotFinite

  function Sum(s: seq<int>): int {
    if |s| == 0 then 0 else s[0] + Sum(s[1..])
  }

  function SumReal(s: seq<real>): real {
    if |s| == 0 then 0.0 else s[0] + SumReal(s[1..])
  }

  lemma {:induction false} SumAppend(s: seq<int>, t: seq<int>)
    ensures Sum(s + t) == Sum(s) + Sum(t)
  {
    if |s| == 0 {
      assert s + t == t;
    } else {
      assert (s + t)[1..] == s[1..] + t;
      SumAppend(s[1..], t);
    }
  }

  lemma {:induction false} SumRealAppend(s: seq<real>, t: seq<real>)
    ensures SumReal(s + t) == SumReal(s) + SumReal(t)
  {
    if |s| == 0 {
      assert s + t == t;
    } else {
      assert (s + t)[1..] == s[1..] + t;
      SumRealAppend(s[1..], t);
    }
  }

  lemma {:induction false} SumUpdate(s: seq<int>, i: nat, v: int)
    requires i < |s|
    ensures Sum(s[i := v]) == Sum(s) - s[i] + v
  {
    if i == 0 {
      assert s[i := v][1..] == s[1..];
    } else {
      assert s[i := v][1..] == s[1..][i - 1 := v];
      SumUpdate(s[1..], i - 1, v);
    }
  }

  lemma {:induction false} SumMonotone(s: seq<int>, t: seq<int>)
    requires |s| == |t|
    requires forall i :: 0 <= i < |s| ==> s[i] <= t[i]
    ensures Sum(s) <= Sum(t)
    ensures Sum(s) == Sum(t) ==> s == t
  {
    if |s| > 0 {
      SumMonotone(s[1..], t[1..]);
      if Sum(s) == Sum(t) {
        assert s[0] == t[0] && s[1..] == t[1..];
        assert s == [s[0]] + s[1..] == t;
      }
    }
  }

  /** n portions of `size`, by repeated addition; equal to the product (TimesIsProduct). */
  function Times(n: nat, size: nat): nat {
    if n == 0 then 0 else Times(n - 1, size) + size
  }

  lemma {:induction false} TimesIsProduct(n: nat, size: nat)
    ensures Times(n, size) == n * size
  {
    if n > 0 {
      TimesIsProduct(n - 1, size);
    }
  }

  /** A mean whose empty case is zero. */
  function Ratio(sum: real, count: nat): real {
    if count == 0 then 0.0 else sum / count as real
  }

  lemma AddRatios(a: real, b: real, n: nat)
    requires n > 0
    ensures Ratio(a + b, n) == Ratio(a, n) + Ratio(b, n)
  {
  }

  lemma {:induction false} TimesAsReal(k: nat, n: nat)
    ensures Times(k, n) as real == k as real * n as real
  {
    if k > 0 {
      TimesAsReal(k - 1, n);
      assert k as real * n as real == (k - 1) as real * n as real + n as real;
    }
  }

  lemma QuotientTwice(total: real, k: real, n: real)
    requires k > 0.0 && n > 0.0
    ensures k * n > 0.0 && total / (k * n) == (total / n) / k
  {
  }

  lemma RatioTwice(total: real, k: nat, n: nat)
    requires n > 0
    ensures Ratio(total, Times(k, n)) == if k == 0 then 0.0 else Ratio(Ratio(total, n), k)
  {
    if k > 0 {
      hide Ratio, Times;
      TimesAsReal(k, n);
      QuotientTwice(total, k as real, n as real);
      RatioOf(total, Times(k, n), k as real * n as real);
      RatioOf(total, n, n as real);
      RatioOf(Ratio(total, n), k, k as real);
    }
  }

  lemma RatioOf(total: real, count: nat, size: real)
    requires count as real == size > 0.0
    ensures Ratio(total, count) == total / size
  {
  }

  lemma RatioBounds(total: real, count: nat)
    requires 0.0 <= total <= count as real
    ensures 0.0 <= Ratio(total, count) <= 1.0
  {
  }
}
