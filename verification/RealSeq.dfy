/** Exact arithmetic over sequences of reals: sums, means, extrema and the
    decimal rounding the forecasting code applies before it stores a figure. */
module RealSeq {

  function Abs(x: real): real {
    if x < 0.0 then -x else x
  }

  function Max(x: real, y: real): real {
    if x < y then y else x
  }

  function Min(x: real, y: real): real {
    if y < x then y else x
  }

  function Sum(s: seq<real>): real {
    if |s| == 0 then 0.0 else Sum(s[..|s| - 1]) + s[|s| - 1]
  }

  function Mean(s: seq<real>): real
    requires |s| > 0
  {
    Sum(s) / |s| as real
  }

  ghost predicate Within(s: seq<real>, lo: real, hi: real) {
    forall i :: 0 <= i < |s| ==> lo <= s[i] <= hi
  }

  ghost predicate AllEqual(s: seq<real>, c: real) {
    forall i :: 0 <= i < |s| ==> s[i] == c
  }

  function Repeat(x: real, n: nat): (s: seq<real>)
    ensures |s| == n && AllEqual(s, x)
  {
    seq(n, _ => x)
  }

  // The values that are strictly positive, in order.
  function Positives(s: seq<real>): (r: seq<real>)
    ensures forall i :: 0 <= i < |r| ==> r[i] > 0.0 && r[i] in s
    ensures (exists i :: 0 <= i < |s| && s[i] > 0.0) ==> |r| > 0
  {
    if |s| == 0 then []
    else
      var r := Positives(s[..|s| - 1]);
      if s[|s| - 1] > 0.0 then r + [s[|s| - 1]] else r
  }

  // ---- sums ----

  lemma SumPush(s: seq<real>, x: real)
    ensures Sum(s + [x]) == Sum(s) + x
  {
    assert (s + [x])[..|s|] == s;
  }

  lemma SumPrefix(s: seq<real>, i: nat)
    requires i < |s|
    ensures Sum(s[..i + 1]) == Sum(s[..i]) + s[i]
  {
    assert s[..i + 1][..i] == s[..i];
  }

  lemma {:induction false} SumConcat(a: seq<real>, b: seq<real>)
    ensures Sum(a + b) == Sum(a) + Sum(b)
  {
    if |b| == 0 {
      assert a + b == a;
    } else {
      var b' := b[..|b| - 1];
      assert a + b == (a + b') + [b[|b| - 1]];
      SumPush(a + b', b[|b| - 1]);
      SumConcat(a, b');
    }
  }

  lemma {:induction false} SumScale(a: seq<real>, c: seq<real>, x: real)
    requires |a| == |c|
    requires forall i :: 0 <= i < |c| ==> c[i] == x * a[i]
    ensures Sum(c) == x * Sum(a)
  {
    if |c| > 0 {
      var n := |c| - 1;
      SumScale(a[..n], c[..n], x);
      assert x * Sum(a) == x * Sum(a[..n]) + x * a[n];
    }
  }

  lemma {:induction false} SumAdd(a: seq<real>, b: seq<real>, c: seq<real>)
    requires |a| == |b| == |c|
    requires forall i :: 0 <= i < |c| ==> c[i] == a[i] + b[i]
    ensures Sum(c) == Sum(a) + Sum(b)
  {
    if |c| > 0 {
      var n := |c| - 1;
      SumAdd(a[..n], b[..n], c[..n]);
    }
  }

  lemma {:induction false} SumShift(a: seq<real>, b: seq<real>, c: real)
    requires |a| == |b|
    requires forall i :: 0 <= i < |a| ==> b[i] == a[i] + c
    ensures Sum(b) == Sum(a) + c * |a| as real
  {
    if |a| > 0 {
      var n := |a| - 1;
      SumShift(a[..n], b[..n], c);
      assert c * |a| as real == c * n as real + c;
    }
  }

  lemma {:induction false} SumMono(a: seq<real>, b: seq<real>)
    requires |a| == |b|
    requires forall i :: 0 <= i < |a| ==> a[i] <= b[i]
    ensures Sum(a) <= Sum(b)
  {
    if |a| > 0 {
      var n := |a| - 1;
      SumMono(a[..n], b[..n]);
    }
  }

  lemma {:induction false} SumBounds(s: seq<real>, lo: real, hi: real)
    requires Within(s, lo, hi)
    ensures lo * |s| as real <= Sum(s) <= hi * |s| as real
  {
    if |s| > 0 {
      var n := |s| - 1;
      SumBounds(s[..n], lo, hi);
      assert lo * |s| as real == lo * n as real + lo;
      assert hi * |s| as real == hi * n as real + hi;
    }
  }

  lemma SumNonneg(s: seq<real>)
    requires forall i :: 0 <= i < |s| ==> s[i] >= 0.0
    ensures Sum(s) >= 0.0
  {
    SumMono(Repeat(0.0, |s|), s);
    SumBounds(Repeat(0.0, |s|), 0.0, 0.0);
  }

  lemma MulMono(a: real, b: real, c: real)
    requires a <= b && c >= 0.0
    ensures a * c <= b * c
  {
  }

  lemma DivBounds(total: real, n: real, lo: real, hi: real)
    requires n > 0.0
    requires lo * n <= total <= hi * n
    ensures lo <= total / n <= hi
  {
    var q := total / n;
    assert q * n == total;
    assert q < lo ==> q * n < lo * n;
    assert hi < q ==> hi * n < q * n;
  }

  /** The mean of values that all lie in an interval lies in it too. */
  lemma MeanBounds(s: seq<real>, lo: real, hi: real)
    requires |s| > 0 && Within(s, lo, hi)
    ensures lo <= Mean(s) <= hi
  {
    SumBounds(s, lo, hi);
    DivBounds(Sum(s), |s| as real, lo, hi);
  }

  function MeanOrZero(s: seq<real>): real {
    if |s| == 0 then 0.0 else Mean(s)
  }

  /** Raising every value by at least c raises the mean by at least c. */
  lemma MeanRaised(a: seq<real>, b: seq<real>, c: real)
    requires |a| == |b| > 0 && forall i :: 0 <= i < |a| ==> b[i] >= a[i] + c
    ensures Mean(b) >= Mean(a) + c
  {
    var raised := seq(|a|, i requires 0 <= i < |a| => a[i] + c);
    SumShift(a, raised, c);
    SumMono(raised, b);
    QuotientRaised(Sum(a), Sum(b), |a| as real, c);
  }

  lemma QuotientRaised(a: real, b: real, n: real, c: real)
    requires n > 0.0 && b >= a + c * n
    ensures b / n >= a / n + c
  {
    var x, y := a / n, b / n;
    assert x * n == a && y * n == b;
    assert y - x - c < 0.0 ==> (y - x - c) * n < 0.0;
    assert (y - x - c) * n == b - a - c * n;
  }

  // ---- weighted mixes ----

  /** s of x and the rest of y. */
  function Mix(s: real, x: real, y: real): real {
    s * x + (1.0 - s) * y
  }

  lemma MixAdd(s: real, x: real, y: real, x': real, y': real)
    ensures Mix(s, x + x', y + y') == Mix(s, x, y) + Mix(s, x', y')
  {
  }

  lemma StrictProd(a: real, b: real)
    requires a > 0.0 && b > 0.0
    ensures a * b > 0.0
  {
  }

  lemma Prod(a: real, b: real)
    requires a >= 0.0 && b >= 0.0
    ensures a * b >= 0.0
  {
  }

  lemma MixMono(s: real, x: real, y: real, x': real, y': real)
    requires 0.0 <= s <= 1.0 && x <= x' && y <= y'
    ensures Mix(s, x, y) <= Mix(s, x', y')
  {
    Prod(s, x' - x);
    Prod(1.0 - s, y' - y);
    assert Mix(s, x', y') - Mix(s, x, y) == s * (x' - x) + (1.0 - s) * (y' - y);
  }

  lemma MixShift(s: real, x: real, y: real, e: real)
    ensures Mix(s, x + e, y + e) == Mix(s, x, y) + e
  {
  }

  lemma MixConst(s: real, x: real)
    ensures Mix(s, x, x) == x
  {
  }

  lemma MixNeg(s: real, x: real, y: real)
    ensures Mix(s, -x, -y) == -Mix(s, x, y)
  {
  }

  lemma MixAbs(s: real, x: real, y: real)
    requires 0.0 <= s <= 1.0
    ensures Abs(Mix(s, x, y)) <= Mix(s, Abs(x), Abs(y))
  {
    hide Mix;
    MixMono(s, x, y, Abs(x), Abs(y));
    MixMono(s, -x, -y, Abs(x), Abs(y));
    MixNeg(s, x, y);
  }

  // ---- rounding ----

  /** Nearest integer, ties to the even neighbour. */
  function RoundHalfEven(x: real): int {
    var f := x.Floor;
    var d := x - f as real;
    if d < 0.5 then f
    else if d > 0.5 then f + 1
    else if f % 2 == 0 then f
    else f + 1
  }

  // round(x, 1), round(x, 2), round(x, 3) and round(x, 4) on exact reals.
  function Round1(x: real): real { RoundHalfEven(x * 10.0) as real / 10.0 }
  function Round2(x: real): real { RoundHalfEven(x * 100.0) as real / 100.0 }
  function Round3(x: real): real { RoundHalfEven(x * 1000.0) as real / 1000.0 }
  function Round4(x: real): real { RoundHalfEven(x * 10000.0) as real / 10000.0 }

  /** Rounding moves a figure by at most half a unit of the last place. */
  lemma RoundError(x: real)
    ensures Abs(Round1(x) - x) <= 0.05
    ensures Abs(Round2(x) - x) <= 0.005
    ensures Abs(Round3(x) - x) <= 0.0005
    ensures Abs(Round4(x) - x) <= 0.00005
  {
  }

  lemma {:induction false} RoundMono(x: real, y: real)
    requires x <= y
    ensures Round1(x) <= Round1(y)
    ensures Round2(x) <= Round2(y)
    ensures Round3(x) <= Round3(y)
    ensures Round4(x) <= Round4(y)
  {
    hide RoundHalfEven;
    HalfEvenMono(x * 10.0, y * 10.0);
    HalfEvenMono(x * 100.0, y * 100.0);
    HalfEvenMono(x * 1000.0, y * 1000.0);
    HalfEvenMono(x * 10000.0, y * 10000.0);
  }

  lemma HalfEvenMono(x: real, y: real)
    requires x <= y
    ensures RoundHalfEven(x) <= RoundHalfEven(y)
  {
    assert x.Floor <= y.Floor;
  }
}
