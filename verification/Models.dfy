/** Fitted forecasting models and the grid search that picks their parameters.
    A fitted model is the data its prediction closure captures. */
module Models {
  import opened RealSeq

  const DAMPING_PHI := 0.9
  const PERIOD := 7

  // Any external name other than "prophet" is Other: the fitter lookup falls through to the mean.
  datatype ModelName = Ses | Holt | SeasonalHolt | Croston | Mean_ | Prophet | Other(tag: nat)

  datatype FittedModel =
    | Flat(name: ModelName, level: real, fitted: seq<real>)
    | Damped(level: real, trend: real, alpha: real, beta: real, fitted: seq<real>)
    | Weekly(base: FittedModel, indices: seq<real>, offset: nat, fitted: seq<real>)

  ghost predicate WellFormed(m: FittedModel) {
    m.Weekly? ==> m.base.Damped? && |m.indices| == PERIOD
  }

  function NameOf(m: FittedModel): ModelName {
    match m
    case Flat(name, _, _) => name
    case Damped(_, _, _, _, _) => Holt
    case Weekly(_, _, _, _) => SeasonalHolt
  }

  function Pow(x: real, n: nat): real {
    if n == 0 then 1.0 else x * Pow(x, n - 1)
  }

  /** Damped trend, i steps ahead, before the clip at zero. */
  function DampedAt(level: real, trend: real, i: nat): real {
    level + trend * DAMPING_PHI * (1.0 - Pow(DAMPING_PHI, i)) / (1.0 - DAMPING_PHI)
  }

  function Predict(m: FittedModel, h: nat): (path: seq<real>)
    requires WellFormed(m)
    ensures |path| == h
  {
    match m
    case Flat(_, level, _) => Repeat(level, h)
    case Damped(level, trend, _, _, _) => seq(h, i requires 0 <= i < h => Max(0.0, DampedAt(level, trend, i + 1)))
    case Weekly(base, indices, n, _) =>
      var raw := Predict(base, h);
      seq(h, i requires 0 <= i < h => Max(0.0, raw[i] + indices[(n + i) % PERIOD]))
  }

  // ---- grid search ----

  datatype Cost = Finite(v: real) | Infinite

  predicate Cheaper(a: Cost, b: Cost) {
    a.Finite? && (b.Infinite? || a.v < b.v)
  }

  function Square(x: real): real {
    x * x
  }

  function SquaredErrors(values: seq<real>, preds: seq<real>, n: nat): seq<real>
    requires n <= |values| && n <= |preds|
  {
    seq(if n < 1 then 0 else n - 1,
        i requires 0 <= i < (if n < 1 then 0 else n - 1) => Square(values[i + 1] - preds[i + 1]))
  }

  /** Mean squared one-step error from the second value on. */
  function OneStepMse(values: seq<real>, preds: seq<real>): Cost {
    if |values| < 3 then Infinite
    else
      var n := if |values| < |preds| then |values| else |preds|;
      var errs := SquaredErrors(values, preds, n);
      if |errs| == 0 then Infinite else Finite(Mean(errs))
  }

  /** Index of the first cheapest entry, as min over a sequence returns it. */
  function ArgMin(costs: seq<Cost>): (k: nat)
    requires |costs| > 0
    ensures k < |costs|
    ensures forall j :: 0 <= j < |costs| ==> !Cheaper(costs[j], costs[k])
    ensures forall j :: 0 <= j < k ==> Cheaper(costs[k], costs[j])
  {
    if |costs| == 1 then 0
    else
      var k := ArgMin(costs[..|costs| - 1]);
      if Cheaper(costs[|costs| - 1], costs[k]) then |costs| - 1 else k
  }

  // The squares of the one-step errors from the second value on.
  function Squares(values: seq<real>, preds: seq<real>): (r: seq<real>)
    requires |values| == |preds| > 0
    ensures |r| == |values| - 1
  {
    seq(|values| - 1, i requires 0 <= i < |values| - 1 => (values[i + 1] - preds[i + 1]) * (values[i + 1] - preds[i + 1]))
  }

  /** Comparing costs is comparing sums of squared one-step errors, for three values or more. */
  lemma CheaperIsLessSquared(values: seq<real>, p: seq<real>, q: seq<real>)
    requires |values| == |p| == |q| >= 3
    ensures Cheaper(OneStepMse(values, p), OneStepMse(values, q)) <==> Sum(Squares(values, p)) < Sum(Squares(values, q))
  {
    assert SquaredErrors(values, p, |values|) == Squares(values, p);
    assert SquaredErrors(values, q, |values|) == Squares(values, q);
    QuotientOrder(Sum(Squares(values, p)), Sum(Squares(values, q)), (|values| - 1) as real);
  }

  lemma QuotientOrder(a: real, b: real, n: real)
    requires n > 0.0
    ensures a / n < b / n <==> a < b
  {
    var x, y := a / n, b / n;
    assert x * n == a && y * n == b;
    assert x < y ==> x * n < y * n;
    assert x >= y ==> x * n >= y * n;
  }
}
