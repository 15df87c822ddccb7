/** Candidate selection, blending and interval forecasts for one SKU. */
module Ensemble {
  import opened Options
  import opened RealSeq
  import opened Models
  import opened HoltTrend
  import W = WeeklySeason
  import opened Smoothing
  import opened Scoring
  import opened RobustSpread
  import C = Calendar
  import I = Imputation

  const WEEKLY_STRENGTH_THRESHOLD := 0.30
  const TREND_MIN_DAILY := 10.0
  const INTERMITTENT_ZERO_SHARE := 0.6
  const INTERMITTENT_MIN_NONZERO := 14
  const MAX_HORIZON := 365

  datatype External = External(name: ModelName, wmape: real, bias: real, residuals: seq<real>,
                               horizonPredictions: seq<real>)

  datatype Label = NoHistory | AllZero | One(name: ModelName) | Two(first: ModelName, second: ModelName)

  datatype Bundle = Bundle(predictions: seq<real>, p10: seq<real>, p90: seq<real>, model: Label,
                           wmape: real, bias: real, sigma: real, imputedDays: nat, holdoutDays: nat)

  // ---- diagnosis ----

  function Largest(s: seq<real>): real
    requires |s| > 0
  {
    if |s| == 1 then s[0] else Max(Largest(s[..|s| - 1]), s[|s| - 1])
  }

  function Smallest(s: seq<real>): real
    requires |s| > 0
  {
    if |s| == 1 then s[0] else Min(Smallest(s[..|s| - 1]), s[|s| - 1])
  }

  function WeeklyStrength(values: seq<real>): real {
    if |values| < 14 then 0.0
    else
      var overall := Mean(values);
      if overall <= 0.0 then 0.0
      else var means := W.PhaseMeans(values); (Largest(means) - Smallest(means)) / overall
  }

  predicate Intermittent(values: seq<real>) {
    var nonzero := |Positives(values)|;
    || |values| == 0
    || (|values| - nonzero) as real / |values| as real >= INTERMITTENT_ZERO_SHARE
    || nonzero < INTERMITTENT_MIN_NONZERO
  }

  function HoldoutDays(n: nat): (h: nat)
    ensures h <= 14 && (h > 0 <==> n >= 14) && h <= n
  {
    if n >= 60 then 14
    else if n >= 30 then 7
    else if n >= 21 then 5
    else if n >= 14 then 3
    else 0
  }

  function ClampHorizon(horizon: int): (h: nat)
    ensures 1 <= h <= MAX_HORIZON
    ensures 1 <= horizon <= MAX_HORIZON ==> h == horizon
    ensures horizon < 1 ==> h == 1
    ensures horizon > MAX_HORIZON ==> h == 365
  {
    var capped := if horizon < MAX_HORIZON then horizon else MAX_HORIZON;
    if capped < 1 then 1 else capped
  }

  // ---- candidates and scores ----

  function Candidates(weekly: bool, velocity: real): seq<ModelName> {
    if velocity < TREND_MIN_DAILY then [Ses, Mean_, Croston]
    else if weekly then [Ses, Holt, SeasonalHolt, Mean_, Croston]
    else [Ses, Holt, Mean_, Croston]
  }

  function Fit(name: ModelName, values: seq<real>): (m: Option<FittedModel>)
    ensures m.Some? ==> WellFormed(m.value)
  {
    match name
    case Ses => Some(FitSes(values))
    case Holt => Some(FitHolt(values))
    case SeasonalHolt => W.FitSeasonal(values)
    case Croston => Some(FitCroston(values))
    case _ => Some(FitMean(values))
  }

  method FitByName(name: ModelName, values: seq<real>) returns (m: Option<FittedModel>)
    ensures m == Fit(name, values)
    ensures m.None? <==> name == SeasonalHolt && |values| < 14
    ensures m.Some? ==> NameOf(m.value) == if name.Prophet? || name.Other? then Mean_ else name
  {
    hide FitSes, FitHolt, FitCroston, FitMean;
    match name {
      case Ses => m := Some(FitSes(values));
      case Holt => m := Some(FitHolt(values));
      case SeasonalHolt => m := W.FitSeasonal(values);
      case Croston =>
        var c := FitCrostonLoop(values);
        m := Some(c);
      case _ =>
        var c := FitMeanLoop(values);
        m := Some(c);
    }
  }

  /** Hold-out scores of the candidates that could be fitted, in candidate order. */
  function Scores(names: seq<ModelName>, train: seq<real>, actual: seq<real>): seq<ModelScore> {
    if |names| == 0 then []
    else
      var n := |names| - 1;
      var earlier := Scores(names[..n], train, actual);
      var fit := Fit(names[n], train);
      if fit.None? then earlier else earlier + [ScoreFit(fit.value, actual)]
  }

  function ExternalScore(external: Option<External>): seq<ModelScore> {
    if external.Some? && |external.value.horizonPredictions| > 0 then
      var e := external.value;
      [ModelScore(e.name, e.wmape, e.bias, e.residuals)]
    else []
  }

  function AllScores(work: seq<real>, names: seq<ModelName>, external: Option<External>): seq<ModelScore> {
    var h := HoldoutDays(|work|);
    if h == 0 then []
    else
      var cut := |work| - h;
      Scores(names, work[..cut], work[cut..]) + ExternalScore(external)
  }

  function InsertScore(s: seq<ModelScore>, x: ModelScore): (t: seq<ModelScore>)
    ensures |t| == |s| + 1
  {
    if |s| == 0 || s[|s| - 1].wmape <= x.wmape then s + [x]
    else InsertScore(s[..|s| - 1], x) + [s[|s| - 1]]
  }

  /** A stable sort by wMAPE. */
  function Ranked(s: seq<ModelScore>): (t: seq<ModelScore>)
    ensures |t| == |s|
  {
    if |s| == 0 then [] else InsertScore(Ranked(s[..|s| - 1]), s[|s| - 1])
  }

  // ---- horizon paths ----

  function HorizonPath(name: ModelName, work: seq<real>, horizon: nat, external: Option<External>): (path: seq<real>)
    requires name == Prophet && external.Some? ==> |external.value.horizonPredictions| > 0
    ensures |path| == horizon
    ensures forall i :: 0 <= i < horizon ==> path[i] >= 0.0
  {
    if name == Prophet && external.Some? then
      var preds := external.value.horizonPredictions;
      var padded := if |preds| < horizon then preds + Repeat(preds[|preds| - 1], horizon - |preds|) else preds;
      Clipped(padded[..horizon])
    else
      var fit := Fit(name, work);
      if fit.None? then Repeat(0.0, horizon) else Clipped(Predict(fit.value, horizon))
  }

  predicate Blends(ranked: seq<ModelScore>) {
    |ranked| > 1 && ranked[1].wmape <= ranked[0].wmape * (1.0 + BLEND_RELATIVE_TOLERANCE)
  }

  ghost predicate Usable(ranked: seq<ModelScore>, external: Option<External>) {
    forall i :: 0 <= i < |ranked| && ranked[i].name == Prophet && external.Some? ==>
      |external.value.horizonPredictions| > 0
  }

  function SelectedPath(ranked: seq<ModelScore>, work: seq<real>, horizon: nat, external: Option<External>): (path: seq<real>)
    requires |ranked| > 0 && Usable(ranked, external)
    ensures |path| == horizon
  {
    var first := HorizonPath(ranked[0].name, work, horizon, external);
    if Blends(ranked) then
      Blend(first, HorizonPath(ranked[1].name, work, horizon, external), ranked[0].wmape, ranked[1].wmape)
    else first
  }

  // ---- the whole pipeline ----

  function Finish(path: seq<real>, sigma: real, root: nat -> real, model: Label,
                  wmape: real, bias: real, imputed: nat, holdout: nat): Bundle {
    Bundle(path, LowerBand(path, sigma, root), UpperBand(path, sigma, root), model,
           Round4(wmape), Round4(bias), Round3(sigma), imputed, holdout)
  }

  function EmptyBundle(horizon: nat, model: Label): Bundle {
    Bundle(Repeat(0.0, horizon), Repeat(0.0, horizon), Repeat(0.0, horizon), model, 0.0, 0.0, 0.0, 0, 0)
  }

  function SigmaFloor(path: seq<real>): real {
    0.1 * Max(if |path| > 0 then Mean(path) else 0.0, 1.0)
  }

  function DefaultModel(work: seq<real>): (m: FittedModel)
    ensures m.Flat?
  {
    if Intermittent(work) then FitCroston(work) else FitSes(work)
  }

  function DefaultBundle(work: seq<real>, horizon: nat, root: nat -> real, imputed: nat): Bundle {
    var m := DefaultModel(work);
    var path := Clipped(Predict(m, horizon));
    Finish(path, Max(SigmaFloor(path), 0.0), root, One(NameOf(m)), 0.0, 0.0, imputed, 0)
  }

  function SelectedSigma(used: ModelScore, path: seq<real>): real {
    Max(RobustSigma(used.residuals), SigmaFloor(path))
  }

  function SelectedBundle(ranked: seq<ModelScore>, work: seq<real>, horizon: nat, external: Option<External>,
                          root: nat -> real, imputed: nat): Bundle
    requires |ranked| > 0 && Usable(ranked, external)
  {
    var path := SelectedPath(ranked, work, horizon, external);
    Finish(path, SelectedSigma(ranked[0], path), root,
           if Blends(ranked) then Two(ranked[0].name, ranked[1].name) else One(ranked[0].name),
           ranked[0].wmape, ranked[0].bias, imputed, HoldoutDays(|work|))
  }

  predicate Corrects(values: seq<real>, correction: bool) {
    |values| > 0 && correction && Mean(values) >= TREND_MIN_DAILY
  }

  function Work(values: seq<real>, correction: bool): (w: seq<real>)
    ensures |w| == |values|
  {
    if Corrects(values, correction) then I.Imputed(values) else values
  }

  predicate AllZeros(s: seq<real>) {
    forall i :: 0 <= i < |s| ==> s[i] == 0.0
  }

  function RankedScores(values: seq<real>, work: seq<real>, external: Option<External>): seq<ModelScore>
    requires |values| > 0
  {
    Ranked(AllScores(work, Candidates(WeeklyStrength(work) >= WEEKLY_STRENGTH_THRESHOLD, Mean(values)), external))
  }

  function Ensemble(rows: seq<C.Row>, requested: int, external: Option<External>, correction: bool,
                    root: nat -> real): Bundle {
    var horizon := ClampHorizon(requested);
    var values := C.Values(rows);
    if |values| == 0 then EmptyBundle(horizon, NoHistory)
    else
      var work := Work(values, correction);
      if AllZeros(work) then EmptyBundle(horizon, AllZero)
      else
        var imputed := if Corrects(values, correction) then I.CensoredDays(values, |values|) else 0;
        var ranked := RankedScores(values, work, external);
        if |ranked| == 0 then DefaultBundle(work, horizon, root, imputed)
        else
          RankedUsable(values, work, external);
          SelectedBundle(ranked, work, horizon, external, root, imputed)
  }

  method ScoreCandidates(names: seq<ModelName>, train: seq<real>, actual: seq<real>) returns (scores: seq<ModelScore>)
    ensures scores == Scores(names, train, actual)
  {
    hide Fit, ScoreFit;
    scores := [];
    for k := 0 to |names|
      invariant scores == Scores(names[..k], train, actual)
    {
      assert names[..k + 1][..k] == names[..k];
      var fit := FitByName(names[k], train);
      if fit.None? {
        continue;
      }
      scores := scores + [ScoreFit(fit.value, actual)];
    }
    assert names[..|names|] == names;
  }

  method BuildEnsemble(rows: seq<C.Row>, requested: int, external: Option<External>, correction: bool,
                       root: nat -> real) returns (bundle: Bundle)
    ensures bundle == Ensemble(rows, requested, external, correction, root)
  {
    hide Fit, ScoreFit, RobustSigma, LowerBand, UpperBand, C.Values, I.Imputed, I.CensoredDays, Mean, Ranked,
      HorizonPath, WeeklyStrength, Blend, DefaultModel, Predict, Round3, Round4, SigmaFloor, RobustSigma;
    var horizon := ClampHorizon(requested);
    var dates, values := C.PrepareSeries(rows);
    if |values| == 0 {
      return EmptyBundle(horizon, NoHistory);
    }
    var work, imputed := values, 0;
    var velocity := Mean(values);
    if correction && velocity >= TREND_MIN_DAILY {
      work, imputed := I.ImputeCensoredDays(work);
    }
    if AllZeros(work) {
      return EmptyBundle(horizon, AllZero);
    }
    var n := |work|;
    var h := HoldoutDays(n);
    var names := Candidates(WeeklyStrength(work) >= WEEKLY_STRENGTH_THRESHOLD, velocity);
    var scores: seq<ModelScore> := [];
    if h > 0 {
      scores := ScoreCandidates(names, work[..n - h], work[n - h..]);
      scores := scores + ExternalScore(external);
    }
    assert scores == AllScores(work, names, external);
    if |scores| == 0 {
      var m := DefaultModel(work);
      var path := Clipped(Predict(m, horizon));
      var sigma := Max(SigmaFloor(path), 0.0);
      var p10, p90 := ConfidenceBand(path, sigma, root);
      return Bundle(path, p10, p90, One(NameOf(m)), Round4(0.0), Round4(0.0), Round3(sigma), imputed, 0);
    }
    var ranked := Ranked(scores);
    RankedUsable(values, work, external);
    var path := SelectedPath(ranked, work, horizon, external);
    var model := if Blends(ranked) then Two(ranked[0].name, ranked[1].name) else One(ranked[0].name);
    var sigma := Max(RobustSigma(ranked[0].residuals), SigmaFloor(path));
    var p10, p90 := ConfidenceBand(path, sigma, root);
    bundle := Bundle(path, p10, p90, model, Round4(ranked[0].wmape), Round4(ranked[0].bias), Round3(sigma), imputed, h);
  }

  // ---- ranking ----

  lemma {:induction false} InsertScoreMember(s: seq<ModelScore>, x: ModelScore, y: ModelScore)
    ensures y in InsertScore(s, x) <==> y == x || y in s
  {
    if |s| > 0 && s[|s| - 1].wmape > x.wmape {
      var n := |s| - 1;
      InsertScoreMember(s[..n], x, y);
      assert s == s[..n] + [s[n]];
    }
  }

  lemma {:induction false} RankedMember(s: seq<ModelScore>, y: ModelScore)
    ensures y in Ranked(s) <==> y in s
  {
    if |s| > 0 {
      var n := |s| - 1;
      RankedMember(s[..n], y);
      InsertScoreMember(Ranked(s[..n]), s[n], y);
      assert s == s[..n] + [s[n]];
    }
  }

  ghost predicate Ascending(s: seq<ModelScore>) {
    forall i, j :: 0 <= i < j < |s| ==> s[i].wmape <= s[j].wmape
  }

  lemma {:induction false} InsertAscending(s: seq<ModelScore>, x: ModelScore)
    requires Ascending(s)
    ensures Ascending(InsertScore(s, x))
  {
    if |s| > 0 && s[|s| - 1].wmape > x.wmape {
      var n := |s| - 1;
      InsertAscending(s[..n], x);
      var t := InsertScore(s[..n], x);
      forall i | 0 <= i < |t| ensures t[i].wmape <= s[n].wmape {
        InsertScoreMember(s[..n], x, t[i]);
      }
    }
  }

  lemma {:induction false} RankedAscends(s: seq<ModelScore>)
    ensures Ascending(Ranked(s))
  {
    if |s| > 0 {
      RankedAscends(s[..|s| - 1]);
      InsertAscending(Ranked(s[..|s| - 1]), s[|s| - 1]);
    }
  }

  /** The selected model has the least hold-out wMAPE of all scored candidates. */
  lemma SelectedIsBest(scores: seq<ModelScore>, y: ModelScore)
    requires y in scores
    ensures |Ranked(scores)| > 0 && Ranked(scores)[0] in scores && Ranked(scores)[0].wmape <= y.wmape
  {
    RankedMember(scores, y);
    RankedAscends(scores);
    RankedMember(scores, Ranked(scores)[0]);
  }

  /** Every tier-0 score is the score of some candidate fitted on the training split. */
  lemma {:induction false} ScoreOrigin(names: seq<ModelName>, train: seq<real>, actual: seq<real>, y: ModelScore)
    returns (k: nat)
    requires y in Scores(names, train, actual)
    ensures k < |names| && Fit(names[k], train).Some? && y == ScoreFit(Fit(names[k], train).value, actual)
  {
    hide Fit, ScoreFit;
    var n := |names| - 1;
    var earlier := Scores(names[..n], train, actual);
    if y in earlier {
      k := ScoreOrigin(names[..n], train, actual, y);
    } else {
      k := n;
    }
  }

  lemma FitKeepsName(name: ModelName, values: seq<real>)
    requires Fit(name, values).Some? && (name.Ses? || name.Holt? || name.SeasonalHolt? || name.Mean_? || name.Croston?)
    ensures NameOf(Fit(name, values).value) == name
  {
  }

  lemma ScoreKeepsName(fit: FittedModel, holdout: seq<real>)
    requires WellFormed(fit)
    ensures ScoreFit(fit, holdout).name == NameOf(fit)
  {
  }

  // A ranked tier-0 entry names the candidate that earned it.
  lemma {:induction false} RankedOrigin(values: seq<real>, work: seq<real>, external: Option<External>, y: ModelScore) returns (name: ModelName)
    requires |values| > 0 && |work| == |values|
    requires y in RankedScores(values, work, external) && y !in ExternalScore(external)
    ensures y.name == name && name != Prophet
    ensures Mean(values) < TREND_MIN_DAILY ==> name in {Ses, Mean_, Croston}
    ensures HoldoutDays(|work|) > 0
    ensures var cut := |work| - HoldoutDays(|work|);
      Fit(name, work[..cut]).Some? && y == ScoreFit(Fit(name, work[..cut]).value, work[cut..])
  {
    hide Fit, Ranked, Mean, WeeklyStrength;
    var weekly := WeeklyStrength(work) >= WEEKLY_STRENGTH_THRESHOLD;
    var names := Candidates(weekly, Mean(values));
    RankedMember(AllScores(work, names, external), y);
    var cut := |work| - HoldoutDays(|work|);
    var k := ScoreOrigin(names, work[..cut], work[cut..], y);
    FitKeepsName(names[k], work[..cut]);
    name := names[k];
  }

  // An entry that needs the external path exists only when that path is non-empty.
  lemma {:induction false} RankedUsable(values: seq<real>, work: seq<real>, external: Option<External>)
    requires |values| > 0
    ensures Usable(RankedScores(values, work, external), external)
  {
    hide Mean, WeeklyStrength, Ranked, Fit, ScoreFit, NameOf;
    var weekly := WeeklyStrength(work) >= WEEKLY_STRENGTH_THRESHOLD;
    var names := Candidates(weekly, Mean(values));
    var ranked := RankedScores(values, work, external);
    forall i | 0 <= i < |ranked| && ranked[i].name == Prophet && external.Some?
      ensures |external.value.horizonPredictions| > 0
    {
      RankedMember(AllScores(work, names, external), ranked[i]);
      var cut := |work| - HoldoutDays(|work|);
      if ranked[i] !in ExternalScore(external) {
        var k := ScoreOrigin(names, work[..cut], work[cut..], ranked[i]);
        FitKeepsName(names[k], work[..cut]);
        ScoreKeepsName(Fit(names[k], work[..cut]).value, work[cut..]);
      }
    }
  }

  // ---- main results ----

  lemma BlendNonneg(a: seq<real>, b: seq<real>, x: real, y: real)
    requires |a| == |b| && (forall i :: 0 <= i < |a| ==> a[i] >= 0.0 && b[i] >= 0.0)
    ensures forall i :: 0 <= i < |a| ==> Blend(a, b, x, y)[i] >= 0.0
  {
    forall i | 0 <= i < |a| ensures Blend(a, b, x, y)[i] >= 0.0 {
      BlendBetween(InverseWeight(x), InverseWeight(y), a[i], b[i], 0.0, Max(a[i], b[i]));
    }
  }

  lemma BlendBetween(p: real, q: real, a: real, b: real, lo: real, hi: real)
    requires p > 0.0 && q > 0.0 && lo <= a <= hi && lo <= b <= hi
    ensures lo <= (p * a + q * b) / (p + q) <= hi
  {
    BlendIsShare(p, q, a, b);
    MixBetween(a, b, p / (p + q), lo, hi);
  }

  lemma FloorPositive(path: seq<real>)
    ensures SigmaFloor(path) >= 0.1
  {
  }

  // What Finish guarantees for any non-negative path and spread.
  ghost predicate BandsHold(b: Bundle, horizon: nat, sigma: real) {
    && |b.predictions| == |b.p10| == |b.p90| == horizon
    && b.sigma == Round3(sigma)
    && (forall i :: 0 <= i < horizon ==> 0.0 <= b.p10[i] <= b.predictions[i] <= b.p90[i])
    && (forall i :: 0 <= i < horizon - 1 ==> b.p90[i] - b.predictions[i] <= b.p90[i + 1] - b.predictions[i + 1])
    && (forall i :: 3 <= i < horizon ==> b.p90[i] - b.predictions[i] == 2.0 * sigma * Z_80)
  }

  lemma {:induction false} FinishHolds(path: seq<real>, sigma: real, root: nat -> real, model: Label,
                    wmape: real, bias: real, imputed: nat, holdout: nat)
    requires IsSquareRoot(root) && sigma >= 0.0 && forall i :: 0 <= i < |path| ==> path[i] >= 0.0
    ensures BandsHold(Finish(path, sigma, root, model, wmape, bias, imputed, holdout), |path|, sigma)
  {
    hide IsSquareRoot, LowerBand, UpperBand, Round3, Round4;
    forall i | 0 <= i < |path| { BandsBracket(path, sigma, root, i); }
  }

  lemma {:induction false} SelectedPathNonneg(ranked: seq<ModelScore>, work: seq<real>, horizon: nat, external: Option<External>)
    requires |ranked| > 0 && Usable(ranked, external)
    ensures forall i :: 0 <= i < horizon ==> SelectedPath(ranked, work, horizon, external)[i] >= 0.0
  {
    if Blends(ranked) {
      BlendNonneg(HorizonPath(ranked[0].name, work, horizon, external),
                  HorizonPath(ranked[1].name, work, horizon, external), ranked[0].wmape, ranked[1].wmape);
    }
  }

  /** For every history, horizon, external candidate and correction flag the bundle
      has three sequences of the clamped horizon with 0 <= p10 <= prediction <= p90,
      an upper half-width that never shrinks and is exactly 2*sigma*1.2816 from step
      4 on, where the reported sigma is that sigma rounded to three decimals. */
  lemma {:induction false} BundleIsWellFormed(rows: seq<C.Row>, requested: int, external: Option<External>, correction: bool,
                           root: nat -> real) returns (sigma: real)
    requires IsSquareRoot(root)
    ensures sigma >= 0.0
    ensures BandsHold(Ensemble(rows, requested, external, correction, root), ClampHorizon(requested), sigma)
  {
    hide IsSquareRoot, Finish, SelectedPath, DefaultModel, SigmaFloor, RobustSigma, C.Values, Work, RankedScores,
      Predict, AllZeros, BandsHold;
    var horizon := ClampHorizon(requested);
    var values := C.Values(rows);
    var work := Work(values, correction);
    if |values| == 0 || AllZeros(work) {
      sigma := 0.0;
      EmptyHolds(horizon, if |values| == 0 then NoHistory else AllZero);
    } else {
      var imputed := if Corrects(values, correction) then I.CensoredDays(values, |values|) else 0;
      var ranked := RankedScores(values, work, external);
      if |ranked| == 0 {
        var m := DefaultModel(work);
        var path := Clipped(Predict(m, horizon));
        sigma := Max(SigmaFloor(path), 0.0);
        FinishHolds(path, sigma, root, One(NameOf(m)), 0.0, 0.0, imputed, 0);
      } else {
        RankedUsable(values, work, external);
        SelectedPathNonneg(ranked, work, horizon, external);
        var path := SelectedPath(ranked, work, horizon, external);
        sigma := SelectedSigma(ranked[0], path);
        FloorPositive(path);
        FinishHolds(path, sigma, root, if Blends(ranked) then Two(ranked[0].name, ranked[1].name) else One(ranked[0].name),
                    ranked[0].wmape, ranked[0].bias, imputed, HoldoutDays(|work|));
      }
    }
  }

  lemma EmptyHolds(horizon: nat, model: Label)
    ensures BandsHold(EmptyBundle(horizon, model), horizon, 0.0)
  {
  }

  // ---- no extrapolation at low velocity ----

  lemma {:induction false} RowValuesWithin(rows: seq<C.Row>, day: int, hi: real)
    requires hi >= 0.0 && forall i :: 0 <= i < |rows| ==> 0.0 <= rows[i].units <= hi
    ensures 0.0 <= C.UnitsOn(rows, day) <= hi
  {
    if |rows| > 0 { RowValuesWithin(rows[..|rows| - 1], day, hi); }
  }

  lemma SeriesWithin(rows: seq<C.Row>, hi: real)
    requires hi >= 0.0 && forall i :: 0 <= i < |rows| ==> 0.0 <= rows[i].units <= hi
    ensures Within(C.Values(rows), 0.0, hi)
  {
    var values := C.Values(rows);
    forall i | 0 <= i < |values| ensures 0.0 <= values[i] <= hi {
      RowValuesWithin(rows, C.Start(rows) + i, hi);
    }
  }

  lemma {:induction false} FlatPath(name: ModelName, work: seq<real>, horizon: nat, hi: real) returns (c: real)
    requires name in {Ses, Mean_, Croston} && hi >= 0.0 && Within(work, 0.0, hi)
    ensures 0.0 <= c <= hi && AllEqual(HorizonPath(name, work, horizon, None), c)
  {
    FlatModelsBetween(work, hi);
    hide FitSes, FitMean, FitCroston;
    c := Fit(name, work).value.level;
  }

  lemma BlendFlat(a: seq<real>, b: seq<real>, x: real, y: real, c: real, d: real, hi: real) returns (e: real)
    requires |a| == |b| && AllEqual(a, c) && AllEqual(b, d) && 0.0 <= c <= hi && 0.0 <= d <= hi
    ensures 0.0 <= e <= hi && AllEqual(Blend(a, b, x, y), e)
  {
    var p, q := InverseWeight(x), InverseWeight(y);
    e := (p * c + q * d) / (p + q);
    BlendBetween(p, q, c, d, 0.0, hi);
  }

  lemma {:induction false} SelectedFlat(values: seq<real>, work: seq<real>, horizon: nat, hi: real) returns (c: real)
    requires |values| > 0 && |work| == |values| && Mean(values) < TREND_MIN_DAILY && hi >= 0.0 && Within(work, 0.0, hi)
    requires var r := RankedScores(values, work, None); |r| > 0 && Usable(r, None)
    ensures 0.0 <= c <= hi
    ensures AllEqual(SelectedPath(RankedScores(values, work, None), work, horizon, None), c)
  {
    hide HorizonPath, Fit, ScoreFit, Blend, RankedScores, Mean;
    var r := RankedScores(values, work, None);
    var n0 := RankedOrigin(values, work, None, r[0]);
    c := FlatPath(n0, work, horizon, hi);
    if Blends(r) {
      var n1 := RankedOrigin(values, work, None, r[1]);
      var d := FlatPath(n1, work, horizon, hi);
      c := BlendFlat(HorizonPath(n0, work, horizon, None), HorizonPath(n1, work, horizon, None),
                     r[0].wmape, r[1].wmape, c, d, hi);
    }
  }

  /** Below ten units a day and without an external candidate, the forecast is one
      constant over the whole horizon, between zero and the largest sale. */
  lemma {:induction false} NoExtrapolationAtLowVelocity(rows: seq<C.Row>, requested: int, correction: bool, root: nat -> real, hi: real)
    returns (c: real)
    requires hi >= 0.0 && forall i :: 0 <= i < |rows| ==> 0.0 <= rows[i].units <= hi
    requires |C.Values(rows)| > 0 ==> Mean(C.Values(rows)) < TREND_MIN_DAILY
    ensures 0.0 <= c <= hi
    ensures AllEqual(Ensemble(rows, requested, None, correction, root).predictions, c)
  {
    hide Mean, C.Values, RankedScores, SelectedPath, RobustSigma, SigmaFloor, LowerBand, UpperBand, Intermittent,
      Round3, Round4, I.Imputed;
    var horizon := ClampHorizon(requested);
    var values := C.Values(rows);
    SeriesWithin(rows, hi);
    var work := Work(values, correction);
    if |values| == 0 || AllZeros(work) {
      c := 0.0;
    } else {
      assert work == values;
      var ranked := RankedScores(values, work, None);
      if |ranked| == 0 {
        c := DefaultFlat(work, horizon, hi);
      } else {
        RankedUsable(values, work, None);
        c := SelectedFlat(values, work, horizon, hi);
      }
    }
  }

  lemma {:induction false} DefaultFlat(work: seq<real>, horizon: nat, hi: real) returns (c: real)
    requires hi >= 0.0 && Within(work, 0.0, hi)
    ensures 0.0 <= c <= hi && AllEqual(Clipped(Predict(DefaultModel(work), horizon)), c)
  {
    FlatModelsBetween(work, hi);
    hide FitSes, FitMean, FitCroston, Intermittent;
    c := DefaultModel(work).level;
  }

  // Hold-out forecasts that earned a ranked score: those of a candidate fitted on the
  // training split, or p, those of the external candidate.
  ghost predicate Earned(y: ModelScore, a: seq<real>, work: seq<real>, external: Option<External>, p: seq<real>) {
    var cut := |work| - HoldoutDays(|work|);
    || (y in ExternalScore(external) && a == p)
    || exists name :: Fit(name, work[..cut]).Some? && y == ScoreFit(Fit(name, work[..cut]).value, work[cut..])
         && a == Predict(Fit(name, work[..cut]).value, |work| - cut)
  }

  // An external candidate is scored on the same hold-out, rounded as the others are.
  ghost predicate ScoredAlike(external: Option<External>, p: seq<real>, actual: seq<real>) {
    external.Some? ==> |p| == |actual| && external.value.wmape == Round4(Wmape(p, actual))
  }

  lemma {:induction false} ForecastOf(values: seq<real>, work: seq<real>, external: Option<External>, p: seq<real>, y: ModelScore)
    returns (a: seq<real>)
    requires |values| > 0 && |work| == |values| && y in RankedScores(values, work, external)
    requires ScoredAlike(external, p, work[|work| - HoldoutDays(|work|)..])
    ensures Earned(y, a, work, external, p) && |a| == HoldoutDays(|work|)
    ensures y.wmape == Round4(Wmape(a, work[|work| - HoldoutDays(|work|)..]))
  {
    hide Fit, Wmape, RankedScores, Predict, Mean, Round4;
    if y in ExternalScore(external) {
      a := p;
    } else {
      var name := RankedOrigin(values, work, external, y);
      a := Predict(Fit(name, work[..|work| - HoldoutDays(|work|)]).value, HoldoutDays(|work|));
    }
  }

  /** Whenever the selector blends two candidates, the same blend of their hold-out
      forecasts loses at most 22/21 of the best recorded score, up to rounding. */
  lemma {:induction false} SelectedBlendLosesLittle(values: seq<real>, work: seq<real>, external: Option<External>, p: seq<real>)
    returns (a: seq<real>, b: seq<real>)
    requires |values| > 0 && |work| == |values| && Blends(RankedScores(values, work, external))
    requires ScoredAlike(external, p, work[|work| - HoldoutDays(|work|)..])
    ensures var r := RankedScores(values, work, external);
      && Earned(r[0], a, work, external, p) && Earned(r[1], b, work, external, p)
      && Wmape(Blend(a, b, r[0].wmape, r[1].wmape), work[|work| - HoldoutDays(|work|)..])
         <= r[0].wmape * 22.0 / 21.0 + 0.00005
  {
    var r := RankedScores(values, work, external);
    RankedAscends(AllScores(work, Candidates(WeeklyStrength(work) >= WEEKLY_STRENGTH_THRESHOLD, Mean(values)), external));
    hide Blend, Wmape, RankedScores, Earned, ScoredAlike, Round4, Ranked, AllScores, Mean, WeeklyStrength;
    assert r[0].wmape <= r[1].wmape;
    a := ForecastOf(values, work, external, p, r[0]);
    b := ForecastOf(values, work, external, p, r[1]);
    RoundedBlendWithinTolerance(a, b, work[|work| - HoldoutDays(|work|)..]);
  }

  // ---- bounded forecasts ----

  /** Only the seasonal fitter declines, exactly below 14 days, and no fitted candidate
      forecasts outside [0, 32.1 * hi] for a history in [0, hi]. */
  lemma {:induction false} FittedIsBounded(name: ModelName, values: seq<real>, h: nat, hi: real)
    requires Within(values, 0.0, hi) && hi >= 0.0
    ensures Fit(name, values).None? <==> name == SeasonalHolt && |values| < 14
    ensures Fit(name, values).Some? ==> Within(Predict(Fit(name, values).value, h), 0.0, 32.1 * hi)
  {
    hide FitSes, FitMean, FitCroston, FitHolt;
    FlatModelsBetween(values, hi);
    if name == Holt {
      HoltForecastIsBounded(values, h, hi);
    } else if name == SeasonalHolt && |values| >= 14 {
      W.WeeklyForecastIsBounded(values, h, hi);
    }
  }

  lemma WorkWithin(rows: seq<C.Row>, correction: bool, hi: real)
    requires hi >= 0.0 && forall i :: 0 <= i < |rows| ==> 0.0 <= rows[i].units <= hi
    ensures Within(Work(C.Values(rows), correction), 0.0, hi)
  {
    hide Mean, C.Values;
    SeriesWithin(rows, hi);
    I.ImputedWithin(C.Values(rows), hi);
  }

  lemma PathBounded(name: ModelName, work: seq<real>, horizon: nat, hi: real)
    requires Within(work, 0.0, hi) && hi >= 0.0
    ensures Within(HorizonPath(name, work, horizon, None), 0.0, 32.1 * hi)
  {
    hide Fit;
    FittedIsBounded(name, work, horizon, hi);
  }

  lemma {:induction false} SelectedPathBounded(ranked: seq<ModelScore>, work: seq<real>, horizon: nat, hi: real)
    requires |ranked| > 0 && Usable(ranked, None) && Within(work, 0.0, hi) && hi >= 0.0
    ensures Within(SelectedPath(ranked, work, horizon, None), 0.0, 32.1 * hi)
  {
    hide HorizonPath;
    PathBounded(ranked[0].name, work, horizon, hi);
    if Blends(ranked) {
      PathBounded(ranked[1].name, work, horizon, hi);
      BlendWithin(HorizonPath(ranked[0].name, work, horizon, None), HorizonPath(ranked[1].name, work, horizon, None),
                  ranked[0].wmape, ranked[1].wmape, 0.0, 32.1 * hi);
    }
  }

  lemma {:induction false} BlendAt(a: seq<real>, b: seq<real>, x: real, y: real, i: nat, lo: real, hi: real)
    requires |a| == |b| && i < |a| && lo <= a[i] <= hi && lo <= b[i] <= hi
    ensures lo <= Blend(a, b, x, y)[i] <= hi
  {
    var p, q := InverseWeight(x), InverseWeight(y);
    assert Blend(a, b, x, y)[i] == (p * a[i] + q * b[i]) / (p + q);
    hide Blend, InverseWeight;
    BlendBetween(p, q, a[i], b[i], lo, hi);
  }

  lemma {:induction false} BlendWithin(a: seq<real>, b: seq<real>, x: real, y: real, lo: real, hi: real)
    requires |a| == |b| && Within(a, lo, hi) && Within(b, lo, hi)
    ensures Within(Blend(a, b, x, y), lo, hi)
  {
    hide Blend;
    forall i | 0 <= i < |a| ensures lo <= Blend(a, b, x, y)[i] <= hi {
      BlendAt(a, b, x, y, i, lo, hi);
    }
  }

  /** Without an external candidate no forecast ever exceeds 32.1 times the largest sale,
      whichever models win, at any horizon and with or without imputation. */
  lemma {:induction false} ForecastIsBounded(rows: seq<C.Row>, requested: int, correction: bool, root: nat -> real, hi: real)
    requires hi >= 0.0 && forall i :: 0 <= i < |rows| ==> 0.0 <= rows[i].units <= hi
    ensures Within(Ensemble(rows, requested, None, correction, root).predictions, 0.0, 32.1 * hi)
  {
    hide Mean, C.Values, RankedScores, SelectedPath, RobustSigma, SigmaFloor, LowerBand, UpperBand, Round3, Round4, Work;
    var horizon := ClampHorizon(requested);
    var values := C.Values(rows);
    var work := Work(values, correction);
    WorkWithin(rows, correction, hi);
    if |values| > 0 && !AllZeros(work) {
      var ranked := RankedScores(values, work, None);
      if |ranked| == 0 {
        var c := DefaultFlat(work, horizon, hi);
      } else {
        RankedUsable(values, work, None);
        SelectedPathBounded(ranked, work, horizon, hi);
      }
    }
  }
}
