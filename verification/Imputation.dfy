/** Filling probable stockout days: zeros bracketed by sales in an active window. */
module Imputation {
  import opened RealSeq

  const REACH := 7
  const MIN_ACTIVE := 3

  function Lo(i: nat): nat {
    if i < REACH then 0 else i - REACH
  }

  function Hi(n: nat, i: nat): (h: nat)
    requires i < n
    ensures i < h <= n
  {
    if i + REACH + 1 < n then i + REACH + 1 else n
  }

  function ActiveSales(values: seq<real>, i: nat): seq<real>
    requires i < |values|
  {
    Positives(values[Lo(i)..Hi(|values|, i)])
  }

  predicate AnyPositive(s: seq<real>) {
    exists k :: 0 <= k < |s| && s[k] > 0.0
  }

  predicate Censored(values: seq<real>, i: nat)
    requires i < |values|
  {
    && values[i] == 0.0
    && |ActiveSales(values, i)| >= MIN_ACTIVE
    && AnyPositive(values[Lo(i)..i])
    && AnyPositive(values[i + 1..Hi(|values|, i)])
  }

  function ImputedAt(values: seq<real>, i: nat): real
    requires i < |values|
  {
    if Censored(values, i) then Mean(ActiveSales(values, i)) else values[i]
  }

  /** Every day decided at once, from the original history. */
  function Imputed(values: seq<real>): (r: seq<real>)
    ensures |r| == |values|
  {
    seq(|values|, i requires 0 <= i < |values| => ImputedAt(values, i))
  }

  function CensoredDays(values: seq<real>, n: nat): nat
    requires n <= |values|
  {
    if n == 0 then 0 else CensoredDays(values, n - 1) + if Censored(values, n - 1) then 1 else 0
  }

  method ImputeCensoredDays(values: seq<real>) returns (result: seq<real>, imputed: nat)
    ensures result == Imputed(values)
    ensures imputed == CensoredDays(values, |values|)
  {
    var n := |values|;
    if n == 0 || forall k :: 0 <= k < n ==> values[k] == 0.0 {
      AllZeroUntouched(values, n);
      assert Imputed(values) == values;
      return values, 0;
    }
    result := values;
    imputed := 0;
    for i := 0 to n
      invariant |result| == n
      invariant forall k :: 0 <= k < i ==> result[k] == ImputedAt(values, k)
      invariant forall k :: i <= k < n ==> result[k] == values[k]
      invariant imputed == CensoredDays(values, i)
    {
      hide Censored, ActiveSales, Mean;
      var censored, nonzero := Inspect(values, i);
      if censored {
        result := result[i := Mean(nonzero)];
        imputed := imputed + 1;
      }
    }
  }

  // The checks of one day, in the order the loop makes them.
  method Inspect(values: seq<real>, i: nat) returns (censored: bool, nonzero: seq<real>)
    requires i < |values|
    ensures censored == Censored(values, i)
    ensures censored ==> |nonzero| > 0 && nonzero == ActiveSales(values, i)
  {
    if values[i] != 0.0 {
      return false, [];
    }
    var lo, hi := Lo(i), Hi(|values|, i);
    nonzero := Positives(values[lo..hi]);
    if |nonzero| < MIN_ACTIVE {
      return false, nonzero;
    }
    var before := AnyPositive(values[lo..i]);
    var after := AnyPositive(values[i + 1..hi]);
    censored := before && after;
  }

  lemma {:induction false} AllZeroUntouched(values: seq<real>, n: nat)
    requires n <= |values| && forall k :: 0 <= k < |values| ==> values[k] == 0.0
    ensures CensoredDays(values, n) == 0
    ensures forall i :: 0 <= i < n ==> !Censored(values, i)
  {
    if n > 0 { AllZeroUntouched(values, n - 1); }
  }

  lemma {:induction false} Extremes(s: seq<real>) returns (lo: real, hi: real)
    requires |s| > 0
    ensures lo in s && hi in s && Within(s, lo, hi)
  {
    var n := |s| - 1;
    lo, hi := s[n], s[n];
    if n > 0 {
      var l, h := Extremes(s[..n]);
      lo, hi := Min(lo, l), Max(hi, h);
    }
  }

  // A value of the window is a value of the history at most seven days away.
  lemma InWindow(values: seq<real>, i: nat, x: real) returns (k: nat)
    requires i < |values| && x in ActiveSales(values, i)
    ensures k < |values| && values[k] == x > 0.0 && i - REACH <= k <= i + REACH
  {
    var w := values[Lo(i)..Hi(|values|, i)];
    var j :| 0 <= j < |w| && w[j] == x;
    k := Lo(i) + j;
  }

  /** A day is filled exactly when it sold nothing, at least three days within a week of it
      sold something, and one of them lies before it and one after it. It is filled with
      the mean of those sales, and every other day is kept. */
  lemma FilledExactly(values: seq<real>, i: nat)
    requires i < |values|
    ensures var near := values[if i < 7 then 0 else i - 7..if i + 8 < |values| then i + 8 else |values|];
      var fill := values[i] == 0.0 && |Positives(near)| >= 3
        && (exists j :: 0 <= j < i && i - 7 <= j && values[j] > 0.0)
        && (exists j :: i < j < |values| && j <= i + 7 && values[j] > 0.0);
      && (Censored(values, i) <==> fill)
      && Imputed(values)[i] == if fill then Sum(Positives(near)) / |Positives(near)| as real else values[i]
  {
    var before, after := values[Lo(i)..i], values[i + 1..Hi(|values|, i)];
    assert AnyPositive(before) <==> exists j :: 0 <= j < i && i - 7 <= j && values[j] > 0.0 by {
      if AnyPositive(before) {
        var k :| 0 <= k < |before| && before[k] > 0.0;
        assert values[Lo(i) + k] > 0.0;
      }
      if j :| 0 <= j < i && i - 7 <= j && values[j] > 0.0 { assert before[j - Lo(i)] > 0.0; }
    }
    assert AnyPositive(after) <==> exists j :: i < j < |values| && j <= i + 7 && values[j] > 0.0 by {
      if AnyPositive(after) {
        var k :| 0 <= k < |after| && after[k] > 0.0;
        assert values[i + 1 + k] > 0.0;
      }
      if j :| i < j < |values| && j <= i + 7 && values[j] > 0.0 { assert after[j - i - 1] > 0.0; }
    }
  }

  /** A filled day was zero, and its fill lies between two actual positive sales
      made at most seven days away. */
  lemma FillIsBracketed(values: seq<real>, i: nat) returns (j: nat, k: nat)
    requires i < |values| && Censored(values, i)
    ensures j < |values| && k < |values| && i - REACH <= j <= i + REACH && i - REACH <= k <= i + REACH
    ensures values[i] == 0.0 < values[j] <= Imputed(values)[i] <= values[k]
  {
    var s := ActiveSales(values, i);
    var lo, hi := Extremes(s);
    MeanBounds(s, lo, hi);
    j := InWindow(values, i, lo);
    k := InWindow(values, i, hi);
  }

  /** A zero with no sale anywhere before it, or none anywhere after it, is never filled. */
  lemma OuterZeroRunsUntouched(values: seq<real>, i: nat)
    requires i < |values|
    requires (forall k :: 0 <= k < i ==> values[k] <= 0.0) || (forall k :: i < k < |values| ==> values[k] <= 0.0)
    ensures Imputed(values)[i] == values[i]
  {
    SaleWithin(values, Lo(i), i);
    SaleWithin(values, i + 1, Hi(|values|, i));
  }

  lemma SaleWithin(values: seq<real>, lo: nat, hi: nat)
    requires lo <= hi <= |values|
    ensures AnyPositive(values[lo..hi]) ==> exists k :: lo <= k < hi && values[k] > 0.0
  {
    if AnyPositive(values[lo..hi]) {
      var k :| 0 <= k < hi - lo && values[lo..hi][k] > 0.0;
      assert values[lo + k] > 0.0;
    }
  }

  /** Imputation changes zeros only, and never moves the largest sale. */
  lemma MaximumUnchanged(values: seq<real>, top: nat)
    requires top < |values| && values[top] > 0.0 && forall i :: 0 <= i < |values| ==> values[i] <= values[top]
    ensures Imputed(values)[top] == values[top]
    ensures forall i :: 0 <= i < |values| ==> Imputed(values)[i] <= values[top]
    ensures forall i :: 0 <= i < |values| && values[i] != 0.0 ==> Imputed(values)[i] == values[i]
  {
    forall i | 0 <= i < |values| ensures Imputed(values)[i] <= values[top] {
      if Censored(values, i) {
        var j, k := FillIsBracketed(values, i);
      }
    }
  }

  function Fills(values: seq<real>): (r: seq<real>)
    ensures |r| == |values|
  {
    seq(|values|, i requires 0 <= i < |values| => if Censored(values, i) then Mean(ActiveSales(values, i)) else 0.0)
  }

  /** The total grows by exactly the fills. */
  lemma TotalGrowsByFills(values: seq<real>)
    ensures Sum(Imputed(values)) == Sum(values) + Sum(Fills(values))
  {
    hide Mean, ActiveSales, Sum;
    SumAdd(values, Fills(values), Imputed(values));
  }

  predicate Changed(values: seq<real>, i: nat) {
    i < |values| && Imputed(values)[i] != values[i]
  }

  function ChangedDays(values: seq<real>, n: nat): set<nat> {
    set i: nat | i < n && Changed(values, i)
  }

  lemma ChangedIffCensored(values: seq<real>, i: nat)
    requires i < |values|
    ensures Changed(values, i) <==> Censored(values, i)
  {
    if Censored(values, i) {
      var j, k := FillIsBracketed(values, i);
    }
  }

  lemma {:induction false} ChangedDaysStep(values: seq<real>, n: nat)
    ensures |ChangedDays(values, n + 1)| == |ChangedDays(values, n)| + if Changed(values, n) then 1 else 0
  {
    hide Changed;
    if Changed(values, n) {
      assert ChangedDays(values, n + 1) == ChangedDays(values, n) + {n};
    } else {
      assert ChangedDays(values, n + 1) == ChangedDays(values, n);
    }
  }

  /** The reported count is the number of days whose value changed. */
  lemma {:induction false} CountIsChangedDays(values: seq<real>, n: nat)
    requires n <= |values|
    ensures CensoredDays(values, n) == |ChangedDays(values, n)|
  {
    hide Changed, Censored;
    if n == 0 {
      assert ChangedDays(values, 0) == {};
    } else {
      CountIsChangedDays(values, n - 1);
      ChangedIffCensored(values, n - 1);
      ChangedDaysStep(values, n - 1);
    }
  }

  /** A history in [0, hi] stays in [0, hi]. */
  lemma {:induction false} ImputedWithin(values: seq<real>, hi: real)
    requires Within(values, 0.0, hi)
    ensures Within(Imputed(values), 0.0, hi)
  {
    forall i | 0 <= i < |values| ensures 0.0 <= Imputed(values)[i] <= hi {
      if Censored(values, i) {
        var j, k := FillIsBracketed(values, i);
      }
    }
  }
}
