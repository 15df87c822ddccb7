/** What a bundle answers: which model its forecast comes from, that no candidate scores
    better, and that a weekly history is continued exactly. */
module Selection {
  import opened Options
  import opened RealSeq
  import opened Models
  import opened HoltTrend
  import opened Smoothing
  import opened Scoring
  import opened RobustSpread
  import W = WeeklySeason
  import C = Calendar
  import I = Imputation
  import E = Ensemble

  // ---- names and what they stand for ----

  // The model a candidate name stands for, fitted on a series.
  ghost predicate FittedBy(name: ModelName, values: seq<real>, m: FittedModel) {
    && (name == Ses ==> m == FitSes(values))
    && (name == Holt ==> m == FitHolt(values))
    && (name == SeasonalHolt ==> |values| >= 14 && W.FitSeasonal(values) == Some(m))
    && (name == Croston ==> m == FitCroston(values))
    && (name in {Mean_, Prophet} || name.Other? ==> m == FitMean(values))
  }

  // A horizon path of a name: the external candidate's, its last value repeated, or the
  // forecast of the named model fitted on the whole series, either one clipped at zero.
  ghost predicate ForecastOf(name: ModelName, work: seq<real>, external: Option<E.External>, path: seq<real>) {
    if name == Prophet && external.Some? then
      var e := external.value.horizonPredictions;
      |e| > 0 && forall i :: 0 <= i < |path| ==> path[i] == Max(0.0, e[if i < |e| then i else |e| - 1])
    else
      exists m :: FittedBy(name, work, m) && WellFormed(m)
        && forall i :: 0 <= i < |path| ==> path[i] == Max(0.0, Predict(m, |path|)[i])
  }

  // The days held out of a series.
  ghost predicate HeldOut(n: nat, h: nat) {
    && (n >= 60 ==> h == 14) && (30 <= n < 60 ==> h == 7) && (21 <= n < 30 ==> h == 5)
    && (14 <= n < 21 ==> h == 3) && (n < 14 ==> h == 0)
  }

  lemma HoldoutTable(n: nat)
    ensures HeldOut(n, E.HoldoutDays(n))
  {
  }

  // A score earned on the last h days by the model fitted on the days before them, or given
  // with the external candidate.
  ghost predicate Scored(name: ModelName, y: ModelScore, work: seq<real>, external: Option<E.External>) {
    || (exists m, h :: EarnedBy(name, y, work, m, h))
    || (external.Some? && name == external.value.name && y.wmape == external.value.wmape && y.bias == external.value.bias
        && y.residuals == external.value.residuals)
  }

  ghost predicate EarnedBy(name: ModelName, y: ModelScore, work: seq<real>, m: FittedModel, h: nat) {
    && HeldOut(|work|, h) && h <= |work| && WellFormed(m) && FittedBy(name, work[..|work| - h], m)
    && var actual := work[|work| - h..];
       && y.wmape == Round4(Wmape(Predict(m, h), actual)) && y.bias == Round4(BiasPct(Predict(m, h), actual))
       && |y.residuals| == h && forall i :: 0 <= i < h ==> y.residuals[i] == Predict(m, h)[i] - actual[i]
  }

  // Trend models compete from ten units a day on, the seasonal one only on a weekly pattern.
  ghost predicate Eligible(name: ModelName, values: seq<real>, work: seq<real>)
    requires |values| > 0
  {
    || name in {Ses, Mean_, Croston}
    || (Mean(values) >= 10.0 && (name == Holt || (name == SeasonalHolt && E.WeeklyStrength(work) >= 0.3)))
  }

  // No eligible candidate other than the named ones scores below a bound.
  ghost predicate NoneBelow(bound: real, but: set<ModelName>, values: seq<real>, work: seq<real>)
    requires |values| > 0
  {
    forall c, y, m, h :: Eligible(c, values, work) && c !in but && EarnedBy(c, y, work, m, h) ==> bound <= y.wmape
  }

  // Each weight is the inverse of its score, floored at a millionth.
  ghost predicate Mixed(path: seq<real>, p: seq<real>, q: seq<real>, u: real, v: real) {
    && |path| == |p| == |q|
    && var (a, b) := (Max(u, 0.000001), Max(v, 0.000001));
       forall i :: 0 <= i < |path| ==> path[i] == (1.0 / a * p[i] + 1.0 / b * q[i]) / (1.0 / a + 1.0 / b)
  }

  // ---- fits, paths and scores say what their names stand for ----

  lemma FitDeclines(name: ModelName, values: seq<real>)
    ensures E.Fit(name, values).Some? <==> name != SeasonalHolt || |values| >= 14
  {
    hide FitSes, FitHolt, FitCroston, FitMean;
  }

  lemma FitIs(name: ModelName, values: seq<real>, m: FittedModel)
    ensures FittedBy(name, values, m) <==> E.Fit(name, values) == Some(m)
  {
    hide FitSes, FitHolt, FitCroston, FitMean;
  }

  lemma HorizonPathIs(name: ModelName, work: seq<real>, horizon: nat, external: Option<E.External>)
    requires name == Prophet && external.Some? ==> |external.value.horizonPredictions| > 0
    requires |work| >= 14 || name in {Croston, Ses}
    ensures ForecastOf(name, work, external, E.HorizonPath(name, work, horizon, external))
  {
    hide FittedBy, E.Fit;
    if !(name == Prophet && external.Some?) {
      FitDeclines(name, work);
      var m := E.Fit(name, work).value;
      FitIs(name, work, m);
      assert FittedBy(name, work, m);
    }
  }

  lemma ScoreIs(name: ModelName, work: seq<real>)
    requires E.HoldoutDays(|work|) > 0 && E.Fit(name, work[..|work| - E.HoldoutDays(|work|)]).Some?
    ensures var h := E.HoldoutDays(|work|);
      var m := E.Fit(name, work[..|work| - h]).value;
      EarnedBy(name, ScoreFit(m, work[|work| - h..]), work, m, h)
  {
    hide FittedBy, E.Fit, Wmape, BiasPct, Round4;
    HoldoutTable(|work|);
    var train := work[..|work| - E.HoldoutDays(|work|)];
    FitIs(name, train, E.Fit(name, train).value);
  }

  // The score is the same whichever way it was earned.
  lemma EarnedIs(c: ModelName, y: ModelScore, work: seq<real>, m: FittedModel, h: nat)
    requires EarnedBy(c, y, work, m, h)
    ensures h == E.HoldoutDays(|work|) && E.Fit(c, work[..|work| - h]) == Some(m)
    ensures y.wmape == ScoreFit(m, work[|work| - h..]).wmape
  {
    hide FittedBy, E.Fit, Wmape, BiasPct, Round4;
    HoldoutTable(|work|);
    FitIs(c, work[..|work| - h], m);
  }

  lemma {:induction false} CandidateScored(names: seq<ModelName>, train: seq<real>, actual: seq<real>, c: ModelName)
    requires c in names && E.Fit(c, train).Some?
    ensures ScoreFit(E.Fit(c, train).value, actual) in E.Scores(names, train, actual)
  {
    hide E.Fit, ScoreFit;
    var n := |names| - 1;
    assert names == names[..n] + [names[n]];
    if c in names[..n] { CandidateScored(names[..n], train, actual, c); }
  }

  // ---- the ranking ----

  lemma EligibleIsCandidate(c: ModelName, values: seq<real>, work: seq<real>)
    requires |values| > 0
    ensures Eligible(c, values, work)
       <==> c in E.Candidates(E.WeeklyStrength(work) >= E.WEEKLY_STRENGTH_THRESHOLD, Mean(values))
  {
    hide Mean, E.WeeklyStrength;
  }

  // An eligible candidate's score stands somewhere in the ranking, under its name.
  lemma CandidateRanked(c: ModelName, y: ModelScore, m: FittedModel, h: nat,
                        values: seq<real>, work: seq<real>, external: Option<E.External>) returns (i: nat)
    requires |values| > 0 && |work| == |values| && |work| >= 14
    requires Eligible(c, values, work) && EarnedBy(c, y, work, m, h)
    ensures var r := E.RankedScores(values, work, external);
      i < |r| && r[i].name == c && r[i].wmape == y.wmape
  {
    hide FittedBy, E.Fit, ScoreFit, E.Scores, E.Ranked, E.Candidates, Eligible, Mean, E.WeeklyStrength, EarnedBy;
    EarnedIs(c, y, work, m, h);
    EligibleIsCandidate(c, values, work);
    var names := E.Candidates(E.WeeklyStrength(work) >= E.WEEKLY_STRENGTH_THRESHOLD, Mean(values));
    var s := ScoreFit(m, work[|work| - h..]);
    CandidateScored(names, work[..|work| - h], work[|work| - h..], c);
    E.RankedMember(E.AllScores(work, names, external), s);
    CandidateName(c, values, work);
    E.FitKeepsName(c, work[..|work| - h]);
    E.ScoreKeepsName(m, work[|work| - h..]);
    i :| 0 <= i < |E.RankedScores(values, work, external)| && E.RankedScores(values, work, external)[i] == s;
  }

  lemma CandidateName(c: ModelName, values: seq<real>, work: seq<real>)
    requires |values| > 0 && Eligible(c, values, work)
    ensures c.Ses? || c.Holt? || c.SeasonalHolt? || c.Mean_? || c.Croston?
  {
    hide Mean, E.WeeklyStrength;
  }

  lemma RankedAscends(values: seq<real>, work: seq<real>, external: Option<E.External>)
    requires |values| > 0
    ensures E.Ascending(E.RankedScores(values, work, external))
  {
    hide E.Ranked, E.AllScores, E.Ascending;
    E.RankedAscends(E.AllScores(work, E.Candidates(E.WeeklyStrength(work) >= E.WEEKLY_STRENGTH_THRESHOLD, Mean(values)), external));
  }

  lemma NobodyBeats(values: seq<real>, work: seq<real>, external: Option<E.External>)
    requires |values| > 0 && |work| == |values| && |work| >= 14
    ensures var r := E.RankedScores(values, work, external);
      && (|r| > 0 ==> NoneBelow(r[0].wmape, {}, values, work))
      && (|r| > 1 ==> NoneBelow(r[1].wmape, {r[0].name}, values, work))
  {
    hide Eligible, EarnedBy, E.RankedScores;
    var r := E.RankedScores(values, work, external);
    RankedAscends(values, work, external);
    forall c, y, m, h | Eligible(c, values, work) && EarnedBy(c, y, work, m, h)
      ensures |r| > 0 ==> r[0].wmape <= y.wmape
      ensures |r| > 1 && c != r[0].name ==> r[1].wmape <= y.wmape
    {
      var i := CandidateRanked(c, y, m, h, values, work, external);
    }
  }

  lemma RankedIsScored(values: seq<real>, work: seq<real>, external: Option<E.External>, y: ModelScore)
    requires |values| > 0 && |work| == |values| && y in E.RankedScores(values, work, external)
    ensures Scored(y.name, y, work, external) && |work| >= 14
  {
    hide E.RankedScores, EarnedBy, E.Fit, ScoreFit;
    if y !in E.ExternalScore(external) {
      var name := E.RankedOrigin(values, work, external, y);
      ScoreIs(name, work);
    } else {
      ExternalNeedsHoldout(values, work, external, y);
    }
  }

  lemma RankedEligible(values: seq<real>, work: seq<real>, y: ModelScore)
    requires |values| > 0 && |work| == |values| && y in E.RankedScores(values, work, None)
    ensures Eligible(y.name, values, work)
  {
    hide E.Fit, ScoreFit, E.Ranked, E.Scores, E.Candidates, Eligible, Mean, E.WeeklyStrength, NameOf;
    var names := E.Candidates(E.WeeklyStrength(work) >= E.WEEKLY_STRENGTH_THRESHOLD, Mean(values));
    E.RankedMember(E.AllScores(work, names, None), y);
    assert E.ExternalScore(None) == [];
    var cut := |work| - E.HoldoutDays(|work|);
    var k := E.ScoreOrigin(names, work[..cut], work[cut..], y);
    EligibleIsCandidate(names[k], values, work);
    CandidateName(names[k], values, work);
    E.FitKeepsName(names[k], work[..cut]);
    E.ScoreKeepsName(E.Fit(names[k], work[..cut]).value, work[cut..]);
  }

  lemma ExternalNeedsHoldout(values: seq<real>, work: seq<real>, external: Option<E.External>, y: ModelScore)
    requires |values| > 0 && y in E.RankedScores(values, work, external)
    ensures |work| >= 14
  {
    hide E.Scores, E.ExternalScore, Mean, E.WeeklyStrength, E.Candidates;
  }

  lemma AlwaysEarned(c: ModelName, work: seq<real>) returns (y: ModelScore, m: FittedModel, h: nat)
    requires |work| >= 14 && c in {Ses, Mean_}
    ensures EarnedBy(c, y, work, m, h)
  {
    h := E.HoldoutDays(|work|);
    assert h > 0;
    hide EarnedBy, FittedBy, E.Fit, ScoreFit, E.HoldoutDays, NameOf, WellFormed;
    var train := work[..|work| - h];
    FitDeclines(c, train);
    ScoreIs(c, work);
    m := E.Fit(c, train).value;
    y := ScoreFit(m, work[|work| - h..]);
  }

  lemma AlwaysRanked(c: ModelName, values: seq<real>, work: seq<real>, external: Option<E.External>) returns (i: nat)
    requires |values| > 0 && |work| == |values| && |work| >= 14 && c in {Ses, Mean_}
    ensures i < |E.RankedScores(values, work, external)| && E.RankedScores(values, work, external)[i].name == c
  {
    AlwaysEligible(values, work);
    hide E.RankedScores, EarnedBy, Eligible;
    var y, m, h := AlwaysEarned(c, work);
    i := CandidateRanked(c, y, m, h, values, work, external);
  }

  lemma SomeAreRanked(values: seq<real>, work: seq<real>, external: Option<E.External>)
    requires |values| > 0 && |work| == |values| && |work| >= 14
    ensures |E.RankedScores(values, work, external)| > 1
  {
    hide E.RankedScores;
    var i := AlwaysRanked(Ses, values, work, external);
    var j := AlwaysRanked(Mean_, values, work, external);
  }

  lemma AlwaysEligible(values: seq<real>, work: seq<real>)
    requires |values| > 0
    ensures Eligible(Ses, values, work) && Eligible(Mean_, values, work) && Eligible(Croston, values, work)
  {
    hide Mean, E.WeeklyStrength;
  }

  lemma {:induction false} ExternalRanked(values: seq<real>, work: seq<real>, external: Option<E.External>)
    requires |values| > 0 && |work| == |values| && |work| >= 14
    requires external.Some? && |external.value.horizonPredictions| > 0
    ensures |E.RankedScores(values, work, external)| > 0 && E.RankedScores(values, work, external)[0].wmape <= external.value.wmape
  {
    hide E.Scores, E.Ranked, Mean, E.WeeklyStrength, E.Candidates;
    var names := E.Candidates(E.WeeklyStrength(work) >= E.WEEKLY_STRENGTH_THRESHOLD, Mean(values));
    var e := external.value;
    E.SelectedIsBest(E.AllScores(work, names, external), ModelScore(e.name, e.wmape, e.bias, e.residuals));
  }

  ghost predicate DistinctNames(s: seq<ModelScore>) {
    forall i, j :: 0 <= i < j < |s| ==> s[i].name != s[j].name
  }

  lemma {:induction false} InsertKeepsDistinct(s: seq<ModelScore>, x: ModelScore)
    requires DistinctNames(s) && forall i :: 0 <= i < |s| ==> s[i].name != x.name
    ensures DistinctNames(E.InsertScore(s, x))
  {
    if |s| > 0 && s[|s| - 1].wmape > x.wmape {
      var n := |s| - 1;
      InsertKeepsDistinct(s[..n], x);
      var t := E.InsertScore(s[..n], x);
      forall i | 0 <= i < |t| ensures t[i].name != s[n].name {
        E.InsertScoreMember(s[..n], x, t[i]);
      }
    }
  }

  lemma {:induction false} RankedKeepsDistinct(s: seq<ModelScore>)
    requires DistinctNames(s)
    ensures DistinctNames(E.Ranked(s))
  {
    if |s| > 0 {
      var n := |s| - 1;
      RankedKeepsDistinct(s[..n]);
      var t := E.Ranked(s[..n]);
      forall i | 0 <= i < |t| ensures t[i].name != s[n].name { E.RankedMember(s[..n], t[i]); }
      InsertKeepsDistinct(t, s[n]);
    }
  }

  lemma {:induction false} ScoresDistinct(names: seq<ModelName>, train: seq<real>, actual: seq<real>)
    requires forall i, j :: 0 <= i < j < |names| ==> names[i] != names[j]
    requires forall i :: 0 <= i < |names| ==> names[i] in {Ses, Holt, SeasonalHolt, Mean_, Croston}
    ensures DistinctNames(E.Scores(names, train, actual))
  {
    hide E.Fit, ScoreFit, NameOf;
    if |names| > 0 {
      var n := |names| - 1;
      ScoresDistinct(names[..n], train, actual);
      var s := E.Scores(names[..n], train, actual);
      if E.Fit(names[n], train).Some? {
        E.FitKeepsName(names[n], train);
        E.ScoreKeepsName(E.Fit(names[n], train).value, actual);
        forall i | 0 <= i < |s| ensures s[i].name != names[n] {
          var k := E.ScoreOrigin(names[..n], train, actual, s[i]);
          E.FitKeepsName(names[k], train);
          E.ScoreKeepsName(E.Fit(names[k], train).value, actual);
        }
      }
    }
  }

  lemma RankedDistinct(values: seq<real>, work: seq<real>)
    requires |values| > 0
    ensures DistinctNames(E.RankedScores(values, work, None))
  {
    hide E.Ranked, E.Scores, Mean, E.WeeklyStrength;
    var names := E.Candidates(E.WeeklyStrength(work) >= E.WEEKLY_STRENGTH_THRESHOLD, Mean(values));
    var h := E.HoldoutDays(|work|);
    if h > 0 { ScoresDistinct(names, work[..|work| - h], work[|work| - h..]); }
    assert E.ExternalScore(None) == [];
    assert E.AllScores(work, names, None) == if h == 0 then [] else E.Scores(names, work[..|work| - h], work[|work| - h..]);
    RankedKeepsDistinct(E.AllScores(work, names, None));
  }

  // ---- what a bundle answers ----

  // The leader's score and what it makes of the bundle's figures.
  ghost predicate Leads(b: E.Bundle, name: ModelName, y: ModelScore, sigma: real, values: seq<real>, work: seq<real>,
                        external: Option<E.External>)
    requires |values| > 0
  {
    && Scored(name, y, work, external) && (external.None? ==> Eligible(name, values, work))
    && NoneBelow(y.wmape, {}, values, work)
    && (external.Some? && |external.value.horizonPredictions| > 0 ==> y.wmape <= external.value.wmape)
    && b.wmape == Round4(y.wmape) && b.bias == Round4(y.bias) && b.sigma == Round3(sigma)
    && sigma == Max(RobustSigma(y.residuals), 0.1 * Max(MeanOrZero(b.predictions), 1.0))
  }

  ghost predicate Banded(b: E.Bundle, sigma: real, root: nat -> real) {
    b.p10 == LowerBand(b.predictions, sigma, root) && b.p90 == UpperBand(b.predictions, sigma, root)
  }

  ghost predicate AllZero(b: E.Bundle) {
    AllEqual(b.predictions, 0.0) && AllEqual(b.p10, 0.0) && AllEqual(b.p90, 0.0)
  }

  ghost predicate MixOf(path: seq<real>, x: ModelName, y: ModelName, u: real, v: real, work: seq<real>, external: Option<E.External>) {
    exists p, q :: ForecastOf(x, work, external, p) && ForecastOf(y, work, external, q) && Mixed(path, p, q, u, v)
  }

  // The days held out, and how many days of the series imputation changed.
  ghost predicate Counted(b: E.Bundle, values: seq<real>, work: seq<real>)
    requires |values| == |work|
  {
    HeldOut(|work|, b.holdoutDays) && b.imputedDays == |set i: nat | i < |values| && work[i] != values[i]|
  }

  // A bundle of one name is that name's forecast, and no other candidate comes within ten
  // percent of its score; a bundle of two is the mix of the best two, which do.
  ghost predicate Answers(b: E.Bundle, first: ModelScore, second: ModelScore, sigma: real,
                          values: seq<real>, work: seq<real>, external: Option<E.External>, root: nat -> real)
    requires |values| == |work|
  {
    match b.model
    case NoHistory => |values| == 0 && AllZero(b)
    case AllZero => |values| > 0 && AllEqual(work, 0.0) && AllZero(b)
    case One(name) =>
      && |values| > 0 && ForecastOf(name, work, external, b.predictions) && Banded(b, sigma, root) && Counted(b, values, work)
      && if |work| < 14 then name == Croston && sigma == 0.1 * Max(MeanOrZero(b.predictions), 1.0)
         else && Leads(b, name, first, sigma, values, work, external)
              && second.wmape > 1.1 * first.wmape && NoneBelow(second.wmape, {name}, values, work)
    case Two(x, y) =>
      && |work| >= 14 && |values| > 0 && MixOf(b.predictions, x, y, first.wmape, second.wmape, work, external) && Banded(b, sigma, root)
      && Counted(b, values, work)
      && Leads(b, x, first, sigma, values, work, external)
      && Scored(y, second, work, external) && NoneBelow(second.wmape, {x}, values, work)
      && first.wmape <= second.wmape <= 1.1 * first.wmape && (external.None? ==> x != y && Eligible(y, values, work))
  }

  lemma SelectedAnswers(values: seq<real>, work: seq<real>, horizon: nat, external: Option<E.External>, root: nat -> real, imputed: nat)
    returns (sigma: real)
    requires |values| > 0 && |work| == |values| && |work| >= 14 && horizon > 0
    requires var r := E.RankedScores(values, work, external); |r| > 1 && E.Usable(r, external)
    requires imputed == |set i: nat | i < |values| && work[i] != values[i]|
    ensures var r := E.RankedScores(values, work, external);
      && Answers(E.SelectedBundle(r, work, horizon, external, root, imputed), r[0], r[1], sigma, values, work, external, root)
      && |E.SelectedBundle(r, work, horizon, external, root, imputed).predictions| == horizon
  {
    hide E.RankedScores, FittedBy, E.Fit, Scored, NoneBelow, Eligible, ForecastOf, Mixed, E.HorizonPath, RobustSigma, LowerBand, UpperBand,
      Round3, Round4, Mean;
    var r := E.RankedScores(values, work, external);
    HoldoutTable(|work|);
    NobodyBeats(values, work, external);
    RankedAscends(values, work, external);
    if external.None? {
      RankedDistinct(values, work);
      RankedEligible(values, work, r[0]);
      RankedEligible(values, work, r[1]);
    }
    RankedIsScored(values, work, external, r[0]);
    RankedIsScored(values, work, external, r[1]);
    if external.Some? && |external.value.horizonPredictions| > 0 { ExternalRanked(values, work, external); }
    HorizonPathIs(r[0].name, work, horizon, external);
    HorizonPathIs(r[1].name, work, horizon, external);
    var path := E.SelectedPath(r, work, horizon, external);
    sigma := E.SelectedSigma(r[0], path);
    var p, q := E.HorizonPath(r[0].name, work, horizon, external), E.HorizonPath(r[1].name, work, horizon, external);
    BlendMixes(p, q, r[0].wmape, r[1].wmape);
    assert E.Blends(r) ==> MixOf(path, r[0].name, r[1].name, r[0].wmape, r[1].wmape, work, external);
  }

  lemma BlendMixes(p: seq<real>, q: seq<real>, u: real, v: real)
    requires |p| == |q|
    ensures Mixed(Blend(p, q, u, v), p, q, u, v)
  {
  }

  lemma DefaultAnswers(values: seq<real>, work: seq<real>, horizon: nat, external: Option<E.External>, root: nat -> real, imputed: nat,
                       y: ModelScore) returns (sigma: real)
    requires 0 < |values| == |work| < 14 && horizon > 0
    requires imputed == |set i: nat | i < |values| && work[i] != values[i]|
    ensures Answers(E.DefaultBundle(work, horizon, root, imputed), y, y, sigma, values, work, external, root)
    ensures |E.DefaultBundle(work, horizon, root, imputed).predictions| == horizon
  {
    var m := E.DefaultModel(work);
    ShortIsIntermittent(work);
    hide FitCroston, FitSes, LowerBand, UpperBand, Round3, Round4, Mean, E.Intermittent;
    assert FittedBy(Croston, work, m);
    var path := Clipped(Predict(m, horizon));
    assert ForecastOf(Croston, work, external, path);
    sigma := Max(E.SigmaFloor(path), 0.0);
  }

  lemma ShortIsIntermittent(work: seq<real>)
    requires |work| < 14
    ensures E.Intermittent(work)
  {
    PositivesAreSome(work);
  }

  lemma {:induction false} PositivesAreSome(s: seq<real>)
    ensures |Positives(s)| <= |s|
  {
    if |s| > 0 { PositivesAreSome(s[..|s| - 1]); }
  }

  /** What every bundle answers. Its forecast is that of the model it names, fitted on the
      whole worked series, or the mix of the two it names, weighted by their inverse
      scores. The score of the first is the least any eligible candidate earns on the
      hold-out days; a second is mixed in exactly when it comes within ten percent. The
      bands have the width of the first one's residuals, and at least a tenth of the mean. */
  lemma BundleAnswers(rows: seq<C.Row>, requested: int, external: Option<E.External>, correction: bool, root: nat -> real)
    returns (first: ModelScore, second: ModelScore, sigma: real)
    ensures var values := C.Values(rows);
      var b := E.Ensemble(rows, requested, external, correction, root);
      && |b.predictions| == E.ClampHorizon(requested)
      && Answers(b, first, second, sigma, values, E.Work(values, correction), external, root)
  {
    hide E.RankedScores, E.Finish, E.SelectedPath, E.DefaultModel, E.SelectedBundle, E.DefaultBundle, C.Values, Answers;
    var horizon := E.ClampHorizon(requested);
    var values := C.Values(rows);
    var work := E.Work(values, correction);
    first := ModelScore(Ses, 0.0, 0.0, []);
    second, sigma := first, 0.0;
    if |values| == 0 || E.AllZeros(work) {
      EmptyCase(values, work, horizon, external, root, first, sigma);
    } else {
      var imputed := if E.Corrects(values, correction) then I.CensoredDays(values, |values|) else 0;
      ImputedCount(values, correction);
      var ranked := E.RankedScores(values, work, external);
      if |work| < 14 {
        if |ranked| > 0 { RankedIsScored(values, work, external, ranked[0]); }
        assert |ranked| == 0;
        sigma := DefaultAnswers(values, work, horizon, external, root, imputed, first);
      } else {
        SomeAreRanked(values, work, external);
        E.RankedUsable(values, work, external);
        first, second := ranked[0], ranked[1];
        sigma := SelectedAnswers(values, work, horizon, external, root, imputed);
      }
    }
  }

  /** The worked series: imputed with stockout correction from ten units a day on, the history itself otherwise. */
  lemma WorkIs(values: seq<real>, correction: bool)
    ensures E.Work(values, correction)
         == if correction && |values| > 0 && Mean(values) >= 10.0 then I.Imputed(values) else values
  {
  }

  lemma ImputedCount(values: seq<real>, correction: bool)
    ensures var work := E.Work(values, correction);
      (if E.Corrects(values, correction) then I.CensoredDays(values, |values|) else 0)
      == |set i: nat | i < |values| && work[i] != values[i]|
  {
    hide Mean, I.Censored;
    var work := E.Work(values, correction);
    var changed := set i: nat | i < |values| && work[i] != values[i];
    if E.Corrects(values, correction) {
      I.CountIsChangedDays(values, |values|);
      assert changed == I.ChangedDays(values, |values|);
    } else {
      assert changed == {};
    }
  }

  lemma EmptyCase(values: seq<real>, work: seq<real>, horizon: nat, external: Option<E.External>, root: nat -> real,
                  y: ModelScore, sigma: real)
    requires |work| == |values| && (|values| == 0 || E.AllZeros(work))
    ensures Answers(E.EmptyBundle(horizon, if |values| == 0 then E.NoHistory else E.AllZero), y, y, sigma, values, work, external, root)
  {
  }

  // ---- a weekly history is continued exactly ----

  // Nobody else fits the hold-out days of the series perfectly, to four decimals.
  ghost predicate OthersMiss(values: seq<real>, work: seq<real>)
    requires |values| > 0
  {
    forall c, y, m, h :: Eligible(c, values, work) && c != SeasonalHolt && EarnedBy(c, y, work, m, h) ==> y.wmape > 0.0
  }

  lemma WeeklyAt(values: seq<real>, i: nat)
    requires W.IsWeekly(values) && i < |values|
    ensures values[i] == values[i % 7] >= 0.0
  {
  }

  lemma WeeklyPrefix(values: seq<real>, n: nat)
    requires W.IsWeekly(values) && 7 <= n <= |values|
    ensures W.IsWeekly(values[..n])
  {
    assert forall i :: 0 <= i < n ==> values[..n][i] == values[i];
  }

  ghost predicate Continues(values: seq<real>, path: seq<real>)
    requires |values| >= 7
  {
    forall i :: 0 <= i < |path| ==> path[i] == values[(|values| + i) % 7]
  }

  lemma SeasonalContinues(values: seq<real>, h: nat)
    requires W.IsWeekly(values) && |values| >= 14
    ensures W.FitSeasonal(values).Some? && Continues(values, Predict(W.FitSeasonal(values).value, h))
  {
    hide W.IsWeekly, W.FitSeasonal, Predict;
    W.ExactWeeklyContinuation(values, h);
  }

  lemma ContinuesInto(work: seq<real>, train: seq<real>, path: seq<real>)
    requires W.IsWeekly(work) && 7 <= |train| <= |work| && work == train + work[|train|..] && |path| == |work| - |train|
    requires Continues(train, path)
    ensures path == work[|train|..]
  {
    hide W.IsWeekly;
    forall i | 0 <= i < |path| ensures path[i] == work[|train|..][i] {
      WeeklyAt(work, |train| + i);
      assert train[(|train| + i) % 7] == work[(|train| + i) % 7];
    }
  }

  lemma SeasonalForecastsHoldout(work: seq<real>, train: seq<real>, actual: seq<real>)
    requires W.IsWeekly(work) && 14 <= |train| && work == train + actual
    ensures W.FitSeasonal(train).Some? && Predict(W.FitSeasonal(train).value, |actual|) == actual
  {
    assert work[..|train|] == train && work[|train|..] == actual;
    WeeklyPrefix(work, |train|);
    hide W.IsWeekly, W.FitSeasonal, Predict, Continues;
    SeasonalContinues(train, |actual|);
    ContinuesInto(work, train, Predict(W.FitSeasonal(train).value, |actual|));
  }

  lemma SeasonalIsPerfect(work: seq<real>) returns (y: ModelScore, m: FittedModel, h: nat)
    requires W.IsWeekly(work) && |work| >= 17
    ensures EarnedBy(SeasonalHolt, y, work, m, h) && y.wmape == 0.0
  {
    h := E.HoldoutDays(|work|);
    assert h > 0 && h + 14 <= |work|;
    hide NameOf, W.IsWeekly, FittedBy, E.Fit, Wmape, Round4, W.FitSeasonal, Predict, EarnedBy, BiasPct, E.HoldoutDays;
    var train, actual := work[..|work| - h], work[|work| - h..];
    SeasonalForecastsHoldout(work, train, actual);
    FitIsSeasonal(train);
    ScoreIs(SeasonalHolt, work);
    m := E.Fit(SeasonalHolt, train).value;
    y := ScoreFit(m, actual);
    PerfectScore(actual);
  }

  lemma FitIsSeasonal(values: seq<real>)
    ensures E.Fit(SeasonalHolt, values) == W.FitSeasonal(values)
  {
  }

  lemma PerfectScore(actual: seq<real>)
    ensures Wmape(actual, actual) == 0.0 && Round4(0.0) == 0.0
  {
    if |actual| > 0 {
      var e := Magnitudes(Errors(actual, actual));
      SumBounds(e, 0.0, 0.0);
    }
  }

  /** On a weekly history with enough and patterned sales, the seasonal model is served on
      its own exactly when no other eligible candidate fits the hold-out perfectly. */
  lemma SeasonalWinsExactly(rows: seq<C.Row>, requested: int, correction: bool, root: nat -> real)
    requires var values := C.Values(rows);
      && W.IsWeekly(values) && |values| >= 17 && E.Work(values, correction) == values
      && Mean(values) >= 10.0 && E.WeeklyStrength(values) >= 0.3
    ensures E.Ensemble(rows, requested, None, correction, root).model == E.One(SeasonalHolt)
       <==> OthersMiss(C.Values(rows), C.Values(rows))
  {
    hide E.Ensemble, C.Values, E.Work, Mean, E.WeeklyStrength, ForecastOf, MixOf, Banded, EarnedBy, W.IsWeekly, Round3, Round4;
    var values := C.Values(rows);
    var b := E.Ensemble(rows, requested, None, correction, root);
    var first, second, sigma := BundleAnswers(rows, requested, None, correction, root);
    var y, m, h := SeasonalIsPerfect(values);
    NotAllZero(values);
    assert Eligible(SeasonalHolt, values, values);
    assert b.model.One? || b.model.Two?;
    assert first.wmape <= 0.0;
    if b.model.One? {
      EarnedNonneg(b.model.name, first, values);
    } else {
      EarnedNonneg(b.model.first, first, values);
    }
  }

  lemma EarnedNonneg(name: ModelName, y: ModelScore, work: seq<real>)
    requires Scored(name, y, work, None)
    ensures y.wmape >= 0.0
  {
    hide FittedBy, Wmape, Round4, BiasPct;
    var m, h :| EarnedBy(name, y, work, m, h);
    WmapeNonneg(Predict(m, h), work[|work| - h..]);
    RoundMono(0.0, Wmape(Predict(m, h), work[|work| - h..]));
    ZeroRounds();
  }

  lemma ZeroRounds()
    ensures Round4(0.0) == 0.0
  {
  }

  lemma NotAllZero(values: seq<real>)
    requires |values| > 0 && Mean(values) >= 10.0
    ensures !AllEqual(values, 0.0)
  {
    if AllEqual(values, 0.0) { MeanBounds(values, 0.0, 0.0); }
  }

  // ---- two weeks are enough to tell: a path that only rises or only falls misses them ----

  ghost predicate Rises(p: seq<real>) {
    forall i, j :: 0 <= i < j < |p| ==> p[i] <= p[j]
  }

  ghost predicate Falls(p: seq<real>) {
    forall i, j :: 0 <= i < j < |p| ==> p[i] >= p[j]
  }

  lemma {:induction false} DampedIsMonotone(level: real, trend: real, i: nat, j: nat)
    requires i <= j
    ensures trend >= 0.0 ==> DampedAt(level, trend, i) <= DampedAt(level, trend, j)
    ensures trend <= 0.0 ==> DampedAt(level, trend, i) >= DampedAt(level, trend, j)
  {
    hide DampedAt;
    if i < j {
      DampedIsMonotone(level, trend, i, j - 1);
      PathFollowsTrend(State(level, trend), j - 1);
    }
  }

  lemma MonotonePath(m: FittedModel, h: nat)
    requires !m.Weekly?
    ensures Rises(Predict(m, h)) || Falls(Predict(m, h))
  {
    hide DampedAt;
    var p := Predict(m, h);
    if m.Damped? {
      forall i, j | 0 <= i < j < h
        ensures m.trend >= 0.0 ==> p[i] <= p[j]
        ensures m.trend <= 0.0 ==> p[i] >= p[j]
      {
        DampedIsMonotone(m.level, m.trend, i + 1, j + 1);
        assert p[i] == Max(0.0, DampedAt(m.level, m.trend, i + 1)) && p[j] == Max(0.0, DampedAt(m.level, m.trend, j + 1));
      }
    }
  }

  lemma {:induction false} SumTwo(s: seq<real>, i: nat, j: nat)
    requires i < j < |s| && forall k :: 0 <= k < |s| ==> s[k] >= 0.0
    ensures Sum(s) >= s[i] + s[j]
  {
    var n := |s| - 1;
    if j < n { SumTwo(s[..n], i, j); } else { SumOne(s[..n], i); }
  }

  lemma {:induction false} SumOne(s: seq<real>, i: nat)
    requires i < |s| && forall k :: 0 <= k < |s| ==> s[k] >= 0.0
    ensures Sum(s) >= s[i]
  {
    var n := |s| - 1;
    if i < n { SumOne(s[..n], i); } else { SumNonneg(s[..n]); }
  }

  // Two days a monotone path orders against the demand cost it at least their difference.
  lemma PairMisses(p: seq<real>, actual: seq<real>, i: nat, j: nat)
    requires |p| == |actual| && i < j < |p|
    requires (p[i] <= p[j] && actual[i] >= actual[j]) || (p[i] >= p[j] && actual[i] <= actual[j])
    ensures Sum(Magnitudes(Errors(p, actual))) >= Abs(actual[i] - actual[j])
  {
    SumTwo(Magnitudes(Errors(p, actual)), i, j);
  }

  ghost predicate Doubled(s: seq<real>) {
    |s| == 14 && forall i :: 7 <= i < 14 ==> s[i] == s[i - 7]
  }

  lemma MonotoneMisses(p: seq<real>, actual: seq<real>, hi: nat, lo: nat)
    requires |p| == |actual| == 14 && (Rises(p) || Falls(p)) && hi < 7 && lo < 7
    requires Doubled(actual)
    requires actual[lo] <= actual[hi]
    ensures Sum(Magnitudes(Errors(p, actual))) >= actual[hi] - actual[lo]
  {
    if Rises(p) {
      assert actual[lo + 7] == actual[lo];
      PairMisses(p, actual, hi, lo + 7);
    } else {
      assert actual[hi + 7] == actual[hi];
      PairMisses(p, actual, lo, hi + 7);
    }
  }

  // Demand in [low, high] that differs by at least a fifth of its upper bound is missed by
  // more than the rounding of a score.
  lemma MissIsSeen(p: seq<real>, actual: seq<real>, high: real, miss: real)
    requires |p| == |actual| == 14 && Within(actual, 0.0, high) && high <= 5.0 * miss && miss >= 1.0
    requires Sum(Magnitudes(Errors(p, actual))) >= miss
    ensures Round4(Wmape(p, actual)) > 0.0
  {
    var a := Magnitudes(actual);
    SumBounds(a, 0.0, high);
    assert Sum(a) <= 14.0 * high;
    assert Scale(actual) <= 70.0 * miss;
    QuotientSeen(Sum(Magnitudes(Errors(p, actual))), Scale(actual), miss);
    HundredthRounds(Wmape(p, actual));
  }

  lemma QuotientSeen(errors: real, scale: real, miss: real)
    requires errors >= miss >= 1.0 && 1.0 <= scale <= 70.0 * miss
    ensures errors / scale >= 0.01
  {
    var q := errors / scale;
    assert q * scale == errors;
    assert q < 0.01 ==> q * scale < 0.01 * scale;
  }

  lemma HundredthRounds(x: real)
    requires x >= 0.01
    ensures Round4(x) > 0.0
  {
    RoundError(x);
    hide Round4;
  }

  // ---- the pattern's extremes ----

  lemma {:induction false} LargestIsOne(s: seq<real>) returns (k: nat)
    requires |s| > 0
    ensures k < |s| && s[k] == E.Largest(s) && forall i :: 0 <= i < |s| ==> s[i] <= s[k]
  {
    var n := |s| - 1;
    if n == 0 {
      k := 0;
    } else {
      k := LargestIsOne(s[..n]);
      if s[n] > s[k] { k := n; }
    }
  }

  lemma {:induction false} SmallestIsOne(s: seq<real>) returns (k: nat)
    requires |s| > 0
    ensures k < |s| && s[k] == E.Smallest(s) && forall i :: 0 <= i < |s| ==> s[i] >= s[k]
  {
    var n := |s| - 1;
    if n == 0 {
      k := 0;
    } else {
      k := SmallestIsOne(s[..n]);
      if s[n] < s[k] { k := n; }
    }
  }

  lemma PhaseMeansOfWeekly(values: seq<real>, k: nat)
    requires W.IsWeekly(values) && k < 7
    ensures W.PhaseMeans(values)[k] == values[k]
  {
    W.WeeklyHistoryFlattens(values);
    hide W.PhaseMean, W.Center;
    assert W.Indices(values)[k] == W.PhaseMeans(values)[k] - W.Center(values);
  }

  // The best and the worst day of the week, as far apart as the strength says.
  lemma Extremes(values: seq<real>) returns (hi: nat, lo: nat)
    requires W.IsWeekly(values) && |values| >= 14 && Mean(values) >= 10.0 && E.WeeklyStrength(values) >= 0.3
    ensures hi < 7 && lo < 7 && values[hi] - values[lo] >= 0.3 * Mean(values) >= 3.0
    ensures forall i :: 0 <= i < |values| ==> values[lo] <= values[i] <= values[hi]
    ensures values[hi] <= 5.0 * (values[hi] - values[lo])
  {
    var means := W.PhaseMeans(values);
    hi := LargestIsOne(means);
    lo := SmallestIsOne(means);
    forall k | 0 <= k < 7 ensures means[k] == values[k] { PhaseMeansOfWeekly(values, k); }
    StrengthIs(values);
    hide E.WeeklyStrength, W.PhaseMeans, Mean;
    forall i | 0 <= i < |values| ensures values[lo] <= values[i] <= values[hi] { assert values[i] == means[i % 7]; }
    MeanBounds(values, values[lo], values[hi]);
    StrengthScalar(E.Largest(means) - E.Smallest(means), Mean(values));
  }

  lemma StrengthIs(values: seq<real>)
    requires |values| >= 14 && Mean(values) > 0.0
    ensures var means := W.PhaseMeans(values);
      E.WeeklyStrength(values) == (E.Largest(means) - E.Smallest(means)) / Mean(values)
  {
  }

  lemma StrengthScalar(d: real, mean: real)
    requires mean >= 10.0 && d / mean >= 0.3
    ensures d >= 0.3 * mean
  {
    var q := d / mean;
    assert q * mean == d;
    assert q * mean >= 0.3 * mean;
  }

  lemma Residue(shift: nat, k: nat) returns (a: nat)
    requires k < 7
    ensures a < 7 && (shift + a) % 7 == k
  {
    a := if k >= shift % 7 then k - shift % 7 else k + 7 - shift % 7;
  }

  // The last two weeks are two copies of the pattern, somewhere shifted.
  lemma LastTwoWeeks(values: seq<real>, k: nat) returns (a: nat)
    requires W.IsWeekly(values) && |values| >= 14 && k < 7
    ensures a < 7 && values[|values| - 14..][a] == values[k]
    ensures Doubled(values[|values| - 14..])
  {
    var shift := |values| - 14;
    a := Residue(shift, k);
    hide W.IsWeekly;
    WeeklyAt(values, shift + a);
    var last := values[shift..];
    forall i | 7 <= i < 14 ensures last[i] == last[i - 7] { WeekApart(values, shift + i - 7); }
  }

  lemma WeekApart(values: seq<real>, i: nat)
    requires W.IsWeekly(values) && i + 7 < |values|
    ensures values[i + 7] == values[i]
  {
    hide W.IsWeekly;
    WeeklyAt(values, i);
    WeeklyAt(values, i + 7);
    assert (i + 7) % 7 == i % 7;
  }

  lemma MonotoneScores(m: FittedModel, values: seq<real>)
    requires W.IsWeekly(values) && |values| >= 60 && Mean(values) >= 10.0 && E.WeeklyStrength(values) >= 0.3
    requires !m.Weekly?
    ensures Round4(Wmape(Predict(m, 14), values[|values| - 14..])) > 0.0
  {
    var hi, lo := Extremes(values);
    var a := LastTwoWeeks(values, hi);
    var b := LastTwoWeeks(values, lo);
    hide Mean, E.WeeklyStrength, Wmape, Round4, Predict, W.IsWeekly;
    var actual := values[|values| - 14..];
    assert Within(actual, 0.0, values[hi]) by {
      forall i | 0 <= i < 14 ensures 0.0 <= actual[i] <= values[hi] { WeeklyAt(values, |values| - 14 + i); }
    }
    MonotonePath(m, 14);
    MonotoneMisses(Predict(m, 14), actual, a, b);
    MissIsSeen(Predict(m, 14), actual, values[hi], values[hi] - values[lo]);
  }

  lemma TwoWeeksTell(values: seq<real>)
    requires W.IsWeekly(values) && |values| >= 60 && Mean(values) >= 10.0 && E.WeeklyStrength(values) >= 0.3
    ensures OthersMiss(values, values)
  {
    hide Mean, E.WeeklyStrength, FittedBy, Wmape, BiasPct, Round4, Predict, Eligible, W.IsWeekly;
    forall c, y, m, h | Eligible(c, values, values) && c != SeasonalHolt && EarnedBy(c, y, values, m, h) ensures y.wmape > 0.0 {
      NotWeekly(c, values[..|values| - h], m);
      MonotoneScores(m, values);
    }
  }

  lemma NotWeekly(c: ModelName, values: seq<real>, m: FittedModel)
    requires c != SeasonalHolt && FittedBy(c, values, m)
    ensures !m.Weekly?
  {
  }

  /** From sixty days of an exactly weekly history on, with at least ten units a day and a
      pattern of at least 0.30, the bundle is the seasonal model's alone and continues the
      history exactly, day by day, over the whole horizon. */
  lemma WeeklyHistoryIsContinued(rows: seq<C.Row>, requested: int, correction: bool, root: nat -> real)
    requires var values := C.Values(rows);
      && W.IsWeekly(values) && |values| >= 60 && E.Work(values, correction) == values
      && Mean(values) >= 10.0 && E.WeeklyStrength(values) >= 0.3
    ensures var values := C.Values(rows);
      var b := E.Ensemble(rows, requested, None, correction, root);
      && b.model == E.One(SeasonalHolt) && b.wmape == 0.0
      && forall i :: 0 <= i < |b.predictions| ==> b.predictions[i] == values[(|values| + i) % 7]
  {
    hide E.Ensemble, C.Values, E.Work, Mean, E.WeeklyStrength, W.IsWeekly, OthersMiss, Answers;
    var values := C.Values(rows);
    TwoWeeksTell(values);
    SeasonalWinsExactly(rows, requested, correction, root);
    var first, second, sigma := BundleAnswers(rows, requested, None, correction, root);
    NotAllZero(values);
    SeasonalAnswer(E.Ensemble(rows, requested, None, correction, root), first, second, sigma, values, root);
  }

  lemma SeasonalAnswer(b: E.Bundle, first: ModelScore, second: ModelScore, sigma: real, values: seq<real>, root: nat -> real)
    requires W.IsWeekly(values) && |values| >= 17 && Mean(values) >= 10.0 && E.WeeklyStrength(values) >= 0.3
    requires b.model == E.One(SeasonalHolt) && Answers(b, first, second, sigma, values, values, None, root)
    ensures b.wmape == 0.0 && Continues(values, b.predictions)
  {
    hide Continues, Mean, E.WeeklyStrength, Banded, EarnedBy, W.IsWeekly, Round3, Round4;
    var y, m, h := SeasonalIsPerfect(values);
    EarnedNonneg(SeasonalHolt, first, values);
    assert Eligible(SeasonalHolt, values, values);
    ZeroRounds();
    SeasonalPath(values, b.predictions);
  }

  lemma SeasonalPath(values: seq<real>, path: seq<real>)
    requires W.IsWeekly(values) && |values| >= 14 && ForecastOf(SeasonalHolt, values, None, path)
    ensures Continues(values, path)
  {
    hide Predict, W.FitSeasonal, W.IsWeekly;
    SeasonalContinues(values, |path|);
    forall i | 0 <= i < |path| ensures path[i] == values[(|values| + i) % 7] {
      WeeklyAt(values, (|values| + i) % 7);
    }
  }

  /** The worked series is the history itself when nothing is to be imputed: without stockout
      correction, or when every day sold something. */
  lemma NothingImputed(values: seq<real>, correction: bool)
    requires !correction || forall i :: 0 <= i < |values| ==> values[i] > 0.0
    ensures E.Work(values, correction) == values
  {
  }
}
