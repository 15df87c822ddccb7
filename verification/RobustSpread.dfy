/** Median-based residual spread and the interval bands drawn from it. */
module RobustSpread {
  import opened RealSeq

  // ---- sorting ----

  ghost predicate Sorted(s: seq<real>) {
    forall i, j :: 0 <= i < j < |s| ==> s[i] <= s[j]
  }

  function Insert(x: real, s: seq<real>): (r: seq<real>)
    ensures |r| == |s| + 1
  {
    if |s| == 0 then [x]
    else if x <= s[0] then [x] + s
    else [s[0]] + Insert(x, s[1..])
  }

  function Sort(s: seq<real>): (r: seq<real>)
    ensures |r| == |s|
  {
    if |s| == 0 then [] else Insert(s[0], Sort(s[1..]))
  }

  lemma {:induction false} InsertMultiset(x: real, s: seq<real>)
    ensures multiset(Insert(x, s)) == multiset(s) + multiset{x}
  {
    if |s| > 0 && x > s[0] {
      InsertMultiset(x, s[1..]);
      assert s == [s[0]] + s[1..];
    }
  }

  lemma {:induction false} SortMultiset(s: seq<real>)
    ensures multiset(Sort(s)) == multiset(s)
  {
    if |s| > 0 {
      SortMultiset(s[1..]);
      InsertMultiset(s[0], Sort(s[1..]));
      assert s == [s[0]] + s[1..];
    }
  }

  lemma {:induction false} InsertMember(x: real, s: seq<real>, i: nat)
    requires i <= |s|
    ensures Insert(x, s)[i] == x || Insert(x, s)[i] in s
  {
    if |s| > 0 && x > s[0] && i > 0 { InsertMember(x, s[1..], i - 1); }
  }

  lemma {:induction false} InsertKeepsSorted(x: real, s: seq<real>)
    requires Sorted(s)
    ensures Sorted(Insert(x, s))
  {
    if |s| > 0 && x > s[0] {
      InsertKeepsSorted(x, s[1..]);
      var r := Insert(x, s[1..]);
      forall i | 0 <= i < |r| ensures s[0] <= r[i] {
        InsertMember(x, s[1..], i);
      }
    }
  }

  lemma {:induction false} SortSorts(s: seq<real>)
    ensures Sorted(Sort(s))
  {
    if |s| > 0 {
      SortSorts(s[1..]);
      InsertKeepsSorted(s[0], Sort(s[1..]));
    }
  }

  lemma TailMultiset(a: seq<real>)
    requires |a| > 0
    ensures multiset(a) == multiset(a[1..]) + multiset{a[0]}
  {
    assert a == [a[0]] + a[1..];
  }

  lemma {:induction false} SortedUnique(a: seq<real>, b: seq<real>)
    requires Sorted(a) && Sorted(b) && multiset(a) == multiset(b)
    ensures a == b
  {
    assert |a| == |multiset(a)| == |multiset(b)| == |b|;
    if |a| > 0 {
      LeastFirst(a, b);
      LeastFirst(b, a);
      TailMultiset(a);
      TailMultiset(b);
      assert multiset(a[1..]) == multiset(a) - multiset{a[0]} == multiset(b[1..]);
      SortedUnique(a[1..], b[1..]);
    }
  }

  lemma LeastFirst(a: seq<real>, b: seq<real>)
    requires Sorted(a) && multiset(a) == multiset(b) && |a| > 0 && |b| > 0
    ensures a[0] <= b[0]
  {
    assert b[0] in multiset(a);
    var i :| 0 <= i < |a| && a[i] == b[0];
  }

  // ---- median ----

  function Median(s: seq<real>): real
    requires |s| > 0
  {
    var t := Sort(s);
    var n := |s|;
    if n % 2 == 1 then t[n / 2] else (t[n / 2 - 1] + t[n / 2]) / 2.0
  }

  function CountIn(s: seq<real>, lo: real, hi: real): (c: nat)
    ensures c <= |s|
  {
    if |s| == 0 then 0 else CountIn(s[1..], lo, hi) + if lo <= s[0] <= hi then 1 else 0
  }

  lemma {:induction false} CountInsert(x: real, s: seq<real>, lo: real, hi: real)
    ensures CountIn(Insert(x, s), lo, hi) == CountIn(s, lo, hi) + if lo <= x <= hi then 1 else 0
  {
    if |s| == 0 {
    } else if x <= s[0] {
      assert ([x] + s)[1..] == s;
    } else {
      CountInsert(x, s[1..], lo, hi);
      assert Insert(x, s)[1..] == Insert(x, s[1..]);
    }
  }

  lemma {:induction false} CountSort(s: seq<real>, lo: real, hi: real)
    ensures CountIn(Sort(s), lo, hi) == CountIn(s, lo, hi)
  {
    if |s| > 0 {
      CountSort(s[1..], lo, hi);
      CountInsert(s[0], Sort(s[1..]), lo, hi);
    }
  }

  lemma {:induction false} CountSplit(s: seq<real>, k: nat, lo: real, hi: real)
    requires k <= |s|
    ensures CountIn(s, lo, hi) == CountIn(s[..k], lo, hi) + CountIn(s[k..], lo, hi)
  {
    if k == 0 {
      assert s[0..] == s;
    } else {
      CountSplit(s[1..], k - 1, lo, hi);
      assert s[1..][..k - 1] == s[..k][1..];
      assert s[1..][k - 1..] == s[k..];
    }
  }

  lemma {:induction false} CountNone(s: seq<real>, lo: real, hi: real)
    requires forall i :: 0 <= i < |s| ==> !(lo <= s[i] <= hi)
    ensures CountIn(s, lo, hi) == 0
  {
    if |s| > 0 { CountNone(s[1..], lo, hi); }
  }

  lemma SortedEnds(s: seq<real>, k: nat, lo: real, hi: real)
    requires Sorted(s) && k < |s|
    ensures s[k] < lo ==> CountIn(s, lo, hi) <= |s| - (k + 1)
    ensures s[k] > hi ==> CountIn(s, lo, hi) <= k
  {
    if s[k] < lo {
      CountSplit(s, k + 1, lo, hi);
      CountNone(s[..k + 1], lo, hi);
    }
    if s[k] > hi {
      CountSplit(s, k, lo, hi);
      CountNone(s[k..], lo, hi);
    }
  }

  /** The median lies in every interval that holds a strict majority of the values. */
  lemma MajorityHoldsMedian(s: seq<real>, lo: real, hi: real)
    requires 2 * CountIn(s, lo, hi) > |s|
    ensures lo <= Median(s) <= hi
  {
    var t := Sort(s);
    SortSorts(s);
    CountSort(s, lo, hi);
    SortedEnds(t, |s| / 2, lo, hi);
    if |s| % 2 == 0 {
      SortedEnds(t, |s| / 2 - 1, lo, hi);
    }
  }

  // ---- robust sigma ----

  function Deviations(s: seq<real>, m: real): (r: seq<real>)
    ensures |r| == |s|
  {
    if |s| == 0 then [] else [Abs(s[0] - m)] + Deviations(s[1..], m)
  }

  lemma {:induction false} DeviationAt(s: seq<real>, m: real, i: nat)
    requires i < |s|
    ensures Deviations(s, m)[i] == Abs(s[i] - m)
  {
    if i > 0 { DeviationAt(s[1..], m, i - 1); }
  }

  function RobustSigma(residuals: seq<real>): real {
    if |residuals| < 3 then 0.0
    else 1.4826 * Median(Deviations(residuals, Median(residuals)))
  }

  lemma {:induction false} CloseDeviations(s: seq<real>, m: real, lo: real, hi: real)
    requires lo <= m <= hi
    ensures CountIn(Deviations(s, m), 0.0, hi - lo) >= CountIn(s, lo, hi)
  {
    if |s| > 0 {
      CloseDeviations(s[1..], m, lo, hi);
      assert Deviations(s, m)[1..] == Deviations(s[1..], m);
    }
  }

  /** Breakdown bound: when a strict majority of three or more residuals lies in
      [lo, hi], the median does too and the robust sigma is at most
      1.4826*(hi - lo), however wild the remaining residuals are. */
  lemma MajorityBoundsSigma(residuals: seq<real>, lo: real, hi: real)
    requires |residuals| >= 3 && 2 * CountIn(residuals, lo, hi) > |residuals|
    ensures lo <= Median(residuals) <= hi
    ensures 0.0 <= RobustSigma(residuals) <= 1.4826 * (hi - lo)
  {
    hide Median, Deviations, CountIn;
    MajorityHoldsMedian(residuals, lo, hi);
    var m := Median(residuals);
    CloseDeviations(residuals, m, lo, hi);
    MajorityHoldsMedian(Deviations(residuals, m), 0.0, hi - lo);
  }

  /** The median is the middle of any sorted arrangement of the values, or the mean of the two middle ones. */
  lemma MedianIsMiddle(s: seq<real>, t: seq<real>)
    requires |s| > 0 && Sorted(t) && multiset(t) == multiset(s)
    ensures |t| == |s|
    ensures Median(s) == if |s| % 2 == 1 then t[|s| / 2] else (t[|s| / 2 - 1] + t[|s| / 2]) / 2.0
  {
    SortSorts(s);
    SortMultiset(s);
    SortedUnique(Sort(s), t);
  }

  /** Sigma is 1.4826 times the median distance from the median, zero below three residuals. */
  lemma SigmaIsScaledMad(residuals: seq<real>, distances: seq<real>)
    requires |residuals| > 0 && |distances| == |residuals|
    requires forall i :: 0 <= i < |residuals| ==> distances[i] == Abs(residuals[i] - Median(residuals))
    ensures RobustSigma(residuals) == if |residuals| < 3 then 0.0 else 1.4826 * Median(distances)
  {
    var d := Deviations(residuals, Median(residuals));
    forall i | 0 <= i < |d| ensures d[i] == distances[i] { DeviationAt(residuals, Median(residuals), i); }
    assert d == distances;
  }

  /** When a strict majority of three or more residuals lies at least d away from the
      median, sigma is at least 1.4826 * d. */
  lemma MajorityFarFromMedian(residuals: seq<real>, d: real, far: real)
    requires |residuals| >= 3 && 2 * CountIn(Deviations(residuals, Median(residuals)), d, far) > |residuals|
    ensures 1.4826 * d <= RobustSigma(residuals) <= 1.4826 * far
  {
    MajorityHoldsMedian(Deviations(residuals, Median(residuals)), d, far);
  }

  function Shifted(s: seq<real>, c: real): (r: seq<real>)
    ensures |r| == |s|
  {
    seq(|s|, i requires 0 <= i < |s| => s[i] + c)
  }

  lemma ShiftedCons(x: real, s: seq<real>, c: real)
    ensures Shifted([x] + s, c) == [x + c] + Shifted(s, c)
  {
  }

  lemma ShiftedTail(s: seq<real>, c: real)
    requires |s| > 0
    ensures Shifted(s, c)[0] == s[0] + c && Shifted(s, c)[1..] == Shifted(s[1..], c)
  {
  }

  lemma {:induction false} InsertShifts(x: real, s: seq<real>, c: real)
    ensures Insert(x + c, Shifted(s, c)) == Shifted(Insert(x, s), c)
  {
    hide Shifted;
    if |s| == 0 {
      ShiftedCons(x, [], c);
      assert [x] + [] == [x];
    } else {
      ShiftedTail(s, c);
      if x <= s[0] {
        ShiftedCons(x, s, c);
      } else {
        InsertShifts(x, s[1..], c);
        ShiftedCons(s[0], Insert(x, s[1..]), c);
      }
    }
  }

  lemma {:induction false} SortShifts(s: seq<real>, c: real)
    ensures Sort(Shifted(s, c)) == Shifted(Sort(s), c)
  {
    if |s| > 0 {
      hide Shifted, Insert;
      ShiftedTail(s, c);
      SortShifts(s[1..], c);
      InsertShifts(s[0], Sort(s[1..]), c);
    }
  }

  lemma MedianShifts(s: seq<real>, c: real)
    requires |s| > 0
    ensures Median(Shifted(s, c)) == Median(s) + c
  {
    hide Sort;
    SortShifts(s, c);
  }

  /** Adding a constant to every residual moves the median by it and leaves the sigma alone. */
  lemma {:induction false} SigmaIgnoresTranslation(residuals: seq<real>, c: real)
    requires |residuals| > 0
    ensures Median(Shifted(residuals, c)) == Median(residuals) + c
    ensures RobustSigma(Shifted(residuals, c)) == RobustSigma(residuals)
  {
    MedianShifts(residuals, c);
    hide Median, Deviations;
    var m := Median(residuals);
    forall i | 0 <= i < |residuals|
      ensures Deviations(Shifted(residuals, c), m + c)[i] == Deviations(residuals, m)[i]
    {
      DeviationAt(Shifted(residuals, c), m + c, i);
      DeviationAt(residuals, m, i);
    }
    assert Deviations(Shifted(residuals, c), m + c) == Deviations(residuals, m);
  }

  lemma SameMultisetSameMedian(a: seq<real>, b: seq<real>)
    requires multiset(a) == multiset(b) && |a| == |b| > 0
    ensures Median(a) == Median(b)
  {
    SortSorts(a);
    SortSorts(b);
    SortMultiset(a);
    SortMultiset(b);
    SortedUnique(Sort(a), Sort(b));
  }

  function Drop(s: seq<real>, i: nat): (r: seq<real>)
    requires i < |s|
    ensures |r| == |s| - 1
  {
    s[..i] + s[i + 1..]
  }

  lemma DropMultiset(s: seq<real>, i: nat)
    requires i < |s|
    ensures multiset(s) == multiset(Drop(s, i)) + multiset{s[i]}
  {
    assert s == s[..i] + [s[i]] + s[i + 1..];
  }

  // Removing one element removes exactly its deviation.
  lemma DeviationsDrop(s: seq<real>, i: nat, m: real)
    requires i < |s|
    ensures Deviations(Drop(s, i), m) == Drop(Deviations(s, m), i)
  {
    hide Deviations;
    var d := Deviations(s, m);
    forall j | 0 <= j < |s| - 1 ensures Deviations(Drop(s, i), m)[j] == Drop(d, i)[j] {
      DeviationAt(Drop(s, i), m, j);
      DeviationAt(s, m, if j < i then j else j + 1);
    }
  }

  lemma SameLength(a: seq<real>, b: seq<real>)
    requires multiset(a) == multiset(b)
    ensures |a| == |b|
  {
    assert |a| == |multiset(a)| == |multiset(b)| == |b|;
  }

  lemma MatchFirst(a: seq<real>, b: seq<real>) returns (i: nat)
    requires multiset(a) == multiset(b) && |a| > 0
    ensures i < |b| && b[i] == a[0] && multiset(Drop(a, 0)) == multiset(Drop(b, i))
  {
    hide Drop;
    assert a[0] in multiset(b);
    i :| 0 <= i < |b| && b[i] == a[0];
    DropMultiset(a, 0);
    DropMultiset(b, i);
    assert multiset(Drop(a, 0)) == multiset(a) - multiset{a[0]} == multiset(Drop(b, i));
  }

  ghost function Bag(s: seq<real>, m: real): multiset<real> {
    multiset(Deviations(s, m))
  }

  lemma {:induction false} DeviationsPermute(a: seq<real>, b: seq<real>, m: real)
    requires multiset(a) == multiset(b)
    ensures Bag(a, m) == Bag(b, m)
    decreases |a|
  {
    hide Bag, Drop;
    SameLength(a, b);
    if |a| == 0 {
      assert a == b;
    } else {
      var i := MatchFirst(a, b);
      PutBack(a, 0, m);
      PutBack(b, i, m);
      DeviationsPermute(Drop(a, 0), Drop(b, i), m);
    }
  }

  lemma PutBack(s: seq<real>, i: nat, m: real)
    requires i < |s|
    ensures Bag(s, m) == Bag(Drop(s, i), m) + multiset{Abs(s[i] - m)}
  {
    hide Deviations, Drop;
    DeviationsDrop(s, i, m);
    DeviationAt(s, m, i);
    DropMultiset(Deviations(s, m), i);
  }

  /** The order of the residuals does not matter. */
  lemma SigmaIgnoresOrder(a: seq<real>, b: seq<real>)
    requires multiset(a) == multiset(b)
    ensures RobustSigma(a) == RobustSigma(b)
  {
    hide Median, Deviations;
    assert |a| == |multiset(a)| == |multiset(b)| == |b|;
    if |a| >= 3 {
      SameMultisetSameMedian(a, b);
      DeviationsPermute(a, b, Median(a));
      SameMultisetSameMedian(Deviations(a, Median(a)), Deviations(b, Median(a)));
    }
  }

  // ---- interval bands ----

  // The library square root on whole numbers.
  ghost predicate IsSquareRoot(root: nat -> real) {
    forall i: nat :: root(i) >= 0.0 && root(i) * root(i) == i as real
  }

  const Z_80 := 1.2816

  function ClippedWidth(sigma: real, r: real): real {
    Min(Max(sigma * r, sigma), 2.0 * sigma)
  }

  function SigmaAt(sigma: real, root: nat -> real, i: nat): real {
    ClippedWidth(sigma, root(i))
  }

  function LowerBand(p50: seq<real>, sigma: real, root: nat -> real): (r: seq<real>)
    ensures |r| == |p50|
  {
    seq(|p50|, i requires 0 <= i < |p50| => Max(0.0, p50[i] - Z_80 * SigmaAt(sigma, root, i + 1)))
  }

  function UpperBand(p50: seq<real>, sigma: real, root: nat -> real): (r: seq<real>)
    ensures |r| == |p50|
  {
    seq(|p50|, i requires 0 <= i < |p50| => p50[i] + Z_80 * SigmaAt(sigma, root, i + 1))
  }

  method ConfidenceBand(p50: seq<real>, sigma: real, root: nat -> real) returns (p10: seq<real>, p90: seq<real>)
    ensures p10 == LowerBand(p50, sigma, root) && p90 == UpperBand(p50, sigma, root)
  {
    hide SigmaAt;
    p10, p90 := [], [];
    for i := 0 to |p50|
      invariant |p10| == |p90| == i
      invariant forall j :: 0 <= j < i ==> p10[j] == LowerBand(p50, sigma, root)[j]
      invariant forall j :: 0 <= j < i ==> p90[j] == UpperBand(p50, sigma, root)[j]
    {
      var sigmaH := SigmaAt(sigma, root, i + 1);
      p10 := p10 + [Max(0.0, p50[i] - Z_80 * sigmaH)];
      p90 := p90 + [p50[i] + Z_80 * sigmaH];
    }
  }

  lemma RootGrows(root: nat -> real, i: nat, j: nat)
    requires IsSquareRoot(root) && i <= j
    ensures root(i) <= root(j)
  {
    SquareOrder(root(i), root(j));
  }

  lemma SquareOrder(a: real, b: real)
    requires a >= 0.0 && b >= 0.0 && a * a <= b * b
    ensures a <= b
  {
    assert (a - b) * (a + b) == a * a - b * b;
    if a > b { StrictProd(a - b, a + b); }
  }

  lemma RootOrder(root: nat -> real, i: nat)
    requires IsSquareRoot(root) && i >= 1
    ensures 1.0 <= root(i) <= root(i + 1)
    ensures i == 1 ==> root(i) == 1.0
    ensures i >= 4 ==> root(i) >= 2.0
  {
    hide IsSquareRoot;
    RootOfOneAndFour(root);
    RootGrows(root, 1, i);
    RootGrows(root, i, i + 1);
    if i >= 4 { RootGrows(root, 4, i); }
  }

  // Step widths: sigma at first, never shrinking, and exactly 2*sigma from step 4 on.
  lemma {:induction false} SigmaAtShape(sigma: real, root: nat -> real, i: nat)
    requires IsSquareRoot(root) && sigma >= 0.0 && i >= 1
    ensures SigmaAt(sigma, root, i) == sigma * Min(root(i), 2.0)
    ensures sigma <= SigmaAt(sigma, root, i) <= SigmaAt(sigma, root, i + 1) <= 2.0 * sigma
    ensures i == 1 ==> SigmaAt(sigma, root, i) == sigma
    ensures i >= 4 ==> SigmaAt(sigma, root, i) == 2.0 * sigma
  {
    hide IsSquareRoot, ClippedWidth;
    RootOrder(root, i);
    StepWidths(sigma, root(i), root(i + 1));
  }

  lemma StepWidths(sigma: real, r: real, r': real)
    requires sigma >= 0.0 && 1.0 <= r <= r'
    ensures ClippedWidth(sigma, r) == sigma * Min(r, 2.0)
    ensures sigma <= sigma * Min(r, 2.0) <= ClippedWidth(sigma, r') <= 2.0 * sigma
    ensures r == 1.0 ==> sigma * Min(r, 2.0) == sigma
    ensures r >= 2.0 ==> sigma * Min(r, 2.0) == 2.0 * sigma
  {
    WidthIs(sigma, r);
    WidthIs(sigma, r');
    MulMono(1.0, Min(r, 2.0), sigma);
    MulMono(Min(r, 2.0), Min(r', 2.0), sigma);
    MulMono(Min(r', 2.0), 2.0, sigma);
    hide ClippedWidth;
  }

  lemma WidthIs(sigma: real, r: real)
    requires sigma >= 0.0 && r >= 1.0
    ensures ClippedWidth(sigma, r) == sigma * Min(r, 2.0)
  {
    MulMono(1.0, r, sigma);
    if r <= 2.0 { MulMono(r, 2.0, sigma); } else { MulMono(2.0, r, sigma); }
  }

  lemma RootOfOneAndFour(root: nat -> real)
    requires IsSquareRoot(root)
    ensures root(1) == 1.0 && root(4) == 2.0
  {
    var x, y := root(1), root(4);
    assert x * x == 1.0 && y * y == 4.0;
    assert x < 1.0 ==> x * x <= x;
    assert x > 1.0 ==> x * x >= x;
    assert y < 2.0 ==> y * y <= 2.0 * y;
    assert y > 2.0 ==> y * y >= 2.0 * y;
  }

  /** The bands bracket a non-negative path, never go below zero, and their upper
      half-width grows from sigma to exactly 2*sigma (times 1.2816) at step 4. */
  lemma {:induction false} BandsBracket(p50: seq<real>, sigma: real, root: nat -> real, i: nat)
    requires IsSquareRoot(root) && sigma >= 0.0 && i < |p50| && p50[i] >= 0.0
    ensures 0.0 <= LowerBand(p50, sigma, root)[i] <= p50[i] <= UpperBand(p50, sigma, root)[i]
    ensures i + 1 < |p50| ==>
      UpperBand(p50, sigma, root)[i] - p50[i] <= UpperBand(p50, sigma, root)[i + 1] - p50[i + 1]
    ensures i >= 3 ==> UpperBand(p50, sigma, root)[i] - p50[i] == 2.0 * sigma * Z_80
    ensures i == 0 ==> UpperBand(p50, sigma, root)[i] - p50[i] == sigma * Z_80
    ensures UpperBand(p50, sigma, root)[i] - p50[i] == 1.2816 * (sigma * Min(root(i + 1), 2.0))
    ensures LowerBand(p50, sigma, root)[i] == Max(0.0, p50[i] - (UpperBand(p50, sigma, root)[i] - p50[i]))
  {
    SigmaAtShape(sigma, root, i + 1);
    hide SigmaAt;
  }
}
