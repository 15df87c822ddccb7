/** One forecasting run over a merchant's SKUs: the engine-keyed cache, the
    concurrent gather and the run-level circuit breaker. */
module ForecastRun {
  import opened Options

  datatype Engine = Ensemble | Exponential | Shadow
  datatype Version = V1 | V2

  datatype Forecast = Forecast(sku: int, version: Version, fallback: bool)

  datatype Key = Key(sku: int, engine: Engine, horizon: nat)

  type Cache = map<Key, Forecast>

  // How computing a forecast ends: in time, with the ensemble succeeding or failing, or not in time.
  datatype Outcome = Ready(ensembleOk: bool) | TimedOut

  /** What one SKU is served under an engine. */
  function Calculate(sku: int, engine: Engine, ensembleOk: bool): Forecast {
    match engine
    case Exponential => Forecast(sku, V1, false)
    case Shadow => if ensembleOk then Forecast(sku, V1, false) else Forecast(sku, V1, true)
    case Ensemble => if ensembleOk then Forecast(sku, V2, false) else Forecast(sku, V1, true)
  }

  // The ensemble is served when it succeeds; when it fails the exponential forecast is,
  // marked as a fallback. The shadow engine always serves exponential forecasts.
  ghost predicate ServedAs(f: Forecast, sku: int, engine: Engine, ensembleOk: bool) {
    && f.sku == sku
    && (f.version == V2 <==> engine == Ensemble && ensembleOk)
    && (f.fallback <==> engine != Exponential && !ensembleOk)
  }

  // A forecast the engine can have produced: only the ensemble engine serves version 2,
  // unless it fell back, and the exponential engine never falls back.
  ghost predicate ProducedBy(f: Forecast, sku: int, engine: Engine) {
    && f.sku == sku
    && (engine == Ensemble ==> (f.version == V2 <==> !f.fallback))
    && (engine != Ensemble ==> f.version == V1)
    && (engine == Exponential ==> !f.fallback)
  }

  lemma CalculateServes(sku: int, engine: Engine, ensembleOk: bool)
    ensures ServedAs(Calculate(sku, engine, ensembleOk), sku, engine, ensembleOk)
    ensures ProducedBy(Calculate(sku, engine, ensembleOk), sku, engine)
  {
  }

  /** A cache entry keyed by an engine was produced by that engine for that SKU. */
  ghost predicate Sound(cache: Cache) {
    forall k :: k in cache ==> ProducedBy(cache[k], k.sku, k.engine)
  }

  // ---- one gather, under every interleaving of its lookups, completions and evictions ----

  datatype Task = Waiting | Computing | Finished(result: Option<Forecast>)

  datatype World = World(cache: Cache, tasks: seq<Task>)

  // A lookup or completion of one SKU, an eviction, or an entry written by another run.
  datatype Event = Start(i: nat) | Complete(i: nat, outcome: Outcome) | Evict(key: Key) | Foreign(key: Key, ensembleOk: bool)

  function Step(w: World, skus: seq<int>, engine: Engine, horizon: nat, e: Event): World
    requires |w.tasks| == |skus|
  {
    match e
    case Start(i) =>
      if i >= |skus| || !w.tasks[i].Waiting? then w
      else
        var key := Key(skus[i], engine, horizon);
        w.(tasks := w.tasks[i := if key in w.cache then Finished(Some(w.cache[key])) else Computing])
    case Complete(i, outcome) =>
      if i >= |skus| || !w.tasks[i].Computing? then w
      else if outcome.TimedOut? then w.(tasks := w.tasks[i := Finished(None)])
      else
        var f := Calculate(skus[i], engine, outcome.ensembleOk);
        World(w.cache[Key(skus[i], engine, horizon) := f], w.tasks[i := Finished(Some(f))])
    case Evict(key) => w.(cache := w.cache - {key})
    case Foreign(key, ensembleOk) => w.(cache := w.cache[key := Calculate(key.sku, key.engine, ensembleOk)])
  }

  function Play(w: World, skus: seq<int>, engine: Engine, horizon: nat, events: seq<Event>): (z: World)
    requires |w.tasks| == |skus|
    ensures |z.tasks| == |skus|
  {
    if |events| == 0 then w
    else Step(Play(w, skus, engine, horizon, events[..|events| - 1]), skus, engine, horizon, events[|events| - 1])
  }

  ghost predicate Honest(w: World, skus: seq<int>, engine: Engine) {
    && Sound(w.cache) && |w.tasks| == |skus|
    && forall i :: 0 <= i < |skus| && w.tasks[i].Finished? && w.tasks[i].result.Some? ==>
         ProducedBy(w.tasks[i].result.value, skus[i], engine)
  }

  lemma StepKeepsHonest(w: World, skus: seq<int>, engine: Engine, horizon: nat, e: Event)
    requires Honest(w, skus, engine)
    ensures Honest(Step(w, skus, engine, horizon, e), skus, engine)
  {
    if e.Complete? && e.i < |skus| && e.outcome.Ready? {
      CalculateServes(skus[e.i], engine, e.outcome.ensembleOk);
    } else if e.Foreign? {
      CalculateServes(e.key.sku, e.key.engine, e.ensembleOk);
    }
  }

  /** However lookups, completions, timeouts, evictions and other runs interleave, every forecast a
      gather delivers was produced by the engine asked for, and the cache stays sound. */
  lemma {:induction false} GatherIsHonest(w: World, skus: seq<int>, engine: Engine, horizon: nat, events: seq<Event>)
    requires Honest(w, skus, engine)
    ensures Honest(Play(w, skus, engine, horizon, events), skus, engine)
  {
    if |events| > 0 {
      GatherIsHonest(w, skus, engine, horizon, events[..|events| - 1]);
      StepKeepsHonest(Play(w, skus, engine, horizon, events[..|events| - 1]), skus, engine, horizon, events[|events| - 1]);
    }
  }

  // ---- the breaker ----

  function Present(results: seq<Option<Forecast>>): (r: seq<Forecast>)
    ensures |r| <= |results|
    ensures forall i :: 0 <= i < |r| ==> Some(r[i]) in results
  {
    if |results| == 0 then []
    else
      var last := results[|results| - 1];
      var r := Present(results[..|results| - 1]);
      if last.Some? then r + [last.value] else r
  }

  function Fallbacks(fs: seq<Forecast>): (n: nat)
    ensures n <= |fs|
  {
    if |fs| == 0 then 0 else Fallbacks(fs[..|fs| - 1]) + if fs[|fs| - 1].fallback then 1 else 0
  }

  function Failures(attempted: nat, served: seq<Forecast>): int {
    attempted - |served| + Fallbacks(served)
  }

  predicate Trips(engine: Engine, attempted: nat, served: seq<Forecast>, threshold: real) {
    engine == Ensemble && attempted > 0 && Failures(attempted, served) as real / attempted as real > threshold
  }

  datatype Run = Run(forecasts: seq<Forecast>, engine: Engine, tripped: bool)

  // The run's report from the first gather and, if the breaker trips, the exponential rerun.
  function Report(engine: Engine, first: seq<Option<Forecast>>, rerun: seq<Option<Forecast>>, threshold: real): Run {
    var served := Present(first);
    if Trips(engine, |first|, served, threshold) then Run(Present(rerun), Exponential, true)
    else Run(served, engine, false)
  }

  // ---- runs in which nothing fails ----

  predicate IsHealthy(f: Forecast) {
    f.version == V2 && !f.fallback
  }

  // Every cached ensemble entry is a successful one.
  ghost predicate Healthy(cache: Cache) {
    forall k :: k in cache && k.engine == Ensemble ==> IsHealthy(cache[k])
  }

  ghost predicate AllHealthy(results: seq<Option<Forecast>>) {
    forall i :: 0 <= i < |results| ==> results[i].Some? && IsHealthy(results[i].value)
  }

  lemma HealthyNeverTrips(results: seq<Option<Forecast>>, threshold: real)
    requires AllHealthy(results) && threshold >= 0.0
    ensures !Trips(Ensemble, |results|, Present(results), threshold) && |Present(results)| == |results|
    ensures forall i :: 0 <= i < |results| ==> IsHealthy(Present(results)[i])
  {
    HealthyResults(results);
    hide Present, Fallbacks;
    if |results| > 0 { assert 0.0 / |results| as real == 0.0; }
  }

  lemma {:induction false} HealthyResults(results: seq<Option<Forecast>>)
    requires AllHealthy(results)
    ensures var fs := Present(results);
      |fs| == |results| && Fallbacks(fs) == 0 && forall i :: 0 <= i < |fs| ==> IsHealthy(fs[i])
  {
    if |results| > 0 { HealthyResults(results[..|results| - 1]); }
  }

  class ForecastRunner {
    var cache: Cache

    constructor ()
      ensures cache == map[]
    {
      cache := map[];
    }

    /** kept says whether a cached entry is still there when asked for. */
    method ForecastOne(sku: int, engine: Engine, horizon: nat, kept: bool, outcome: Outcome) returns (r: Option<Forecast>)
      requires Sound(cache)
      modifies this
      ensures Sound(cache)
      ensures r.Some? ==> ProducedBy(r.value, sku, engine)
      ensures var key := Key(sku, engine, horizon);
        if kept && key in old(cache) then r == Some(old(cache)[key]) && cache == old(cache)
        else match outcome
          case TimedOut => r == None && cache == old(cache) - {key}
          case Ready(ok) => r.Some? && ServedAs(r.value, sku, engine, ok) && cache == old(cache)[key := r.value]
    {
      var key := Key(sku, engine, horizon);
      if !kept {
        cache := cache - {key};
      }
      if key in cache {
        return Some(cache[key]);
      }
      if outcome.TimedOut? {
        return None;
      }
      var f := Calculate(sku, engine, outcome.ensembleOk);
      CalculateServes(sku, engine, outcome.ensembleOk);
      cache := cache[key := f];
      r := Some(f);
    }

    method Gather(skus: seq<int>, engine: Engine, horizon: nat, kept: nat -> bool, outcome: nat -> Outcome)
      returns (results: seq<Option<Forecast>>)
      requires Sound(cache)
      modifies this
      ensures Sound(cache) && |results| == |skus|
      ensures FromEngine(results, skus, engine)
      ensures forall i :: 0 <= i < |skus| && results[i].None? ==> outcome(i).TimedOut?
      ensures engine == Ensemble && old(Healthy(cache)) && (forall i: nat :: outcome(i) == Ready(true)) ==>
        Healthy(cache) && AllHealthy(results)
    {
      results := [];
      for i := 0 to |skus|
        invariant Sound(cache) && |results| == i
        invariant forall j :: 0 <= j < i && results[j].Some? ==> ProducedBy(results[j].value, skus[j], engine)
        invariant forall j :: 0 <= j < i && results[j].None? ==> outcome(j).TimedOut?
        invariant engine == Ensemble && old(Healthy(cache)) && (forall i: nat :: outcome(i) == Ready(true)) ==>
          Healthy(cache) && AllHealthy(results)
      {
        var r := ForecastOne(skus[i], engine, horizon, kept(i), outcome(i));
        results := results + [r];
      }
    }

    /** The node: gather, count failures, and rerun everything on the exponential engine if there are too many. */
    method ForecastNode(skus: seq<int>, engine: Engine, horizon: nat, threshold: real,
                        kept: nat -> bool, outcome: nat -> Outcome, keptAgain: nat -> bool, outcomeAgain: nat -> Outcome)
      returns (run: Run, ghost first: seq<Option<Forecast>>, ghost rerun: seq<Option<Forecast>>)
      requires Sound(cache)
      modifies this
      ensures Sound(cache) && |first| == |skus| && FromEngine(first, skus, engine)
      ensures run.tripped ==> FromEngine(rerun, skus, Exponential)
      ensures run == Report(engine, first, rerun, threshold)
      ensures engine == Ensemble && old(Healthy(cache)) && (forall i: nat :: outcome(i) == Ready(true)) && threshold >= 0.0 ==>
        !run.tripped && |run.forecasts| == |skus| && forall i :: 0 <= i < |skus| ==> IsHealthy(run.forecasts[i])
    {
      var results := Gather(skus, engine, horizon, kept, outcome);
      first, rerun := results, [];
      var served := Present(results);
      if AllHealthy(results) && threshold >= 0.0 { HealthyNeverTrips(results, threshold); }
      assert |results| == |skus|;
      hide FromEngine, ProducedBy, AllHealthy, Sound, Healthy, IsHealthy, Present, Fallbacks;
      if engine == Ensemble && |skus| > 0 {
        var failures := |skus| - |served| + Fallbacks(served);
        if failures as real / |skus| as real > threshold {
          results := Gather(skus, Exponential, horizon, keptAgain, outcomeAgain);
          rerun := results;
          return Run(Present(results), Exponential, true), first, rerun;
        }
      }
      run := Run(served, engine, false);
    }
  }

  // Every result is a forecast of the SKU asked for, produced by the engine asked for.
  ghost predicate FromEngine(results: seq<Option<Forecast>>, skus: seq<int>, engine: Engine) {
    && |results| == |skus|
    && forall i :: 0 <= i < |results| && results[i].Some? ==> ProducedBy(results[i].value, skus[i], engine)
  }

  ghost predicate AllVersion(fs: seq<Forecast>, v: Version) {
    forall i :: 0 <= i < |fs| ==> fs[i].version == v
  }

  ghost predicate Requested(fs: seq<Forecast>, skus: seq<int>) {
    forall i :: 0 <= i < |fs| ==> fs[i].sku in skus
  }

  lemma PresentFromEngine(results: seq<Option<Forecast>>, skus: seq<int>, engine: Engine)
    requires FromEngine(results, skus, engine)
    ensures forall i :: 0 <= i < |Present(results)| ==>
      ProducedBy(Present(results)[i], Present(results)[i].sku, engine)
    ensures Requested(Present(results), skus)
    ensures engine != Ensemble ==> AllVersion(Present(results), V1)
  {
    var r := Present(results);
    forall i | 0 <= i < |r| ensures ProducedBy(r[i], r[i].sku, engine) && r[i].sku in skus {
      var j :| 0 <= j < |results| && results[j] == Some(r[i]);
      assert ProducedBy(results[j].value, skus[j], engine);
    }
  }

  function CountV2(fs: seq<Forecast>): nat {
    if |fs| == 0 then 0 else CountV2(fs[..|fs| - 1]) + if fs[|fs| - 1].version == V2 then 1 else 0
  }

  lemma {:induction false} EnsembleSplits(fs: seq<Forecast>)
    requires forall i :: 0 <= i < |fs| ==> ProducedBy(fs[i], fs[i].sku, Ensemble)
    ensures CountV2(fs) + Fallbacks(fs) == |fs|
  {
    if |fs| > 0 {
      var n := |fs| - 1;
      assert ProducedBy(fs[n], fs[n].sku, Ensemble);
      forall i | 0 <= i < n ensures ProducedBy(fs[..n][i], fs[..n][i].sku, Ensemble) { assert ProducedBy(fs[i], fs[i].sku, Ensemble); }
      EnsembleSplits(fs[..n]);
    }
  }

  // More than threshold of the SKUs attempted.
  ghost predicate TooMany(bad: int, attempted: nat, threshold: real) {
    bad as real > threshold * attempted as real
  }

  // Either the breaker tripped and every forecast is exponential, or under the ensemble
  // engine missing and fallback SKUs are at most threshold of those attempted and all the
  // others are served by the ensemble; other engines serve exponential forecasts only.
  ghost predicate SafeRun(run: Run, engine: Engine, skus: seq<int>, threshold: real) {
    && Requested(run.forecasts, skus)
    && (run.tripped ==> engine == Ensemble && run.engine == Exponential && AllVersion(run.forecasts, V1))
    && (!run.tripped && engine == Ensemble && |skus| > 0 ==>
          && !TooMany(Failures(|skus|, run.forecasts), |skus|, threshold)
          && CountV2(run.forecasts) == |skus| - Failures(|skus|, run.forecasts))
    && (engine != Ensemble ==> AllVersion(run.forecasts, V1))
  }

  lemma ServedWithinThreshold(n: nat, served: seq<Forecast>, threshold: real)
    requires n > 0 && !Trips(Ensemble, n, served, threshold)
    requires forall i :: 0 <= i < |served| ==> ProducedBy(served[i], served[i].sku, Ensemble)
    ensures !TooMany(Failures(n, served), n, threshold)
    ensures CountV2(served) == n - Failures(n, served)
  {
    hide Trips;
    TripsExactly(n, served, threshold);
    hide ProducedBy;
    EnsembleSplits(served);
  }

  /** A report made from honest gathers is safe, for every pattern of timeouts and fallbacks in either. */
  lemma {:induction false} BreakerIsSafe(engine: Engine, skus: seq<int>, first: seq<Option<Forecast>>, rerun: seq<Option<Forecast>>, threshold: real)
    requires FromEngine(first, skus, engine)
    requires Trips(engine, |first|, Present(first), threshold) ==> FromEngine(rerun, skus, Exponential)
    ensures SafeRun(Report(engine, first, rerun, threshold), engine, skus, threshold)
  {
    assert |first| == |skus|;
    hide Trips, Failures, Present, CountV2, FromEngine, AllVersion, Requested, TooMany;
    PresentFromEngine(first, skus, engine);
    OnlyEnsembleTrips(engine, |first|, Present(first), threshold);
    if Trips(engine, |first|, Present(first), threshold) {
      PresentFromEngine(rerun, skus, Exponential);
    } else if engine == Ensemble && |skus| > 0 {
      ServedWithinThreshold(|first|, Present(first), threshold);
    }
  }

  // ---- whole runs, under every interleaving ----

  function Opened(cache: Cache, n: nat): World {
    World(cache, seq(n, _ => Waiting))
  }

  predicate Done(w: World) {
    forall i :: 0 <= i < |w.tasks| ==> w.tasks[i].Finished?
  }

  function Results(w: World): seq<Option<Forecast>>
    requires Done(w)
  {
    seq(|w.tasks|, i requires 0 <= i < |w.tasks| => w.tasks[i].result)
  }

  lemma {:induction false} GatherYields(cache: Cache, skus: seq<int>, engine: Engine, horizon: nat, events: seq<Event>)
    requires Sound(cache) && Done(Play(Opened(cache, |skus|), skus, engine, horizon, events))
    ensures var z := Play(Opened(cache, |skus|), skus, engine, horizon, events);
      Sound(z.cache) && FromEngine(Results(z), skus, engine)
  {
    GatherIsHonest(Opened(cache, |skus|), skus, engine, horizon, events);
  }

  /** Every run is safe, whatever its lookups, completions, timeouts and evictions and
      whatever other runs write meanwhile, in its gather and in a rerun. */
  lemma {:induction false} RunIsSafe(cache: Cache, skus: seq<int>, engine: Engine, horizon: nat, threshold: real,
                  events: seq<Event>, rerunEvents: seq<Event>)
    requires Sound(cache)
    requires var z := Play(Opened(cache, |skus|), skus, engine, horizon, events);
      Done(z) && Done(Play(Opened(z.cache, |skus|), skus, Exponential, horizon, rerunEvents))
    ensures var z := Play(Opened(cache, |skus|), skus, engine, horizon, events);
      var y := Play(Opened(z.cache, |skus|), skus, Exponential, horizon, rerunEvents);
      && Sound(y.cache)
      && SafeRun(Report(engine, Results(z), Results(y), threshold), engine, skus, threshold)
  {
    var z := Play(Opened(cache, |skus|), skus, engine, horizon, events);
    GatherYields(cache, skus, engine, horizon, events);
    GatherYields(z.cache, skus, Exponential, horizon, rerunEvents);
    var y := Play(Opened(z.cache, |skus|), skus, Exponential, horizon, rerunEvents);
    BreakerIsSafe(engine, skus, Results(z), Results(y), threshold);
  }

  lemma OnlyEnsembleTrips(engine: Engine, attempted: nat, served: seq<Forecast>, threshold: real)
    ensures Trips(engine, attempted, served, threshold) ==> engine == Ensemble
  {
  }

  lemma MulLe(a: real, b: real, c: real)
    requires a <= b && c >= 0.0
    ensures a * c <= b * c
  {
  }

  /** The breaker trips exactly when the failures exceed threshold of the attempted SKUs. */
  lemma TripsExactly(attempted: nat, served: seq<Forecast>, threshold: real)
    requires attempted > 0
    ensures Trips(Ensemble, attempted, served, threshold) <==> TooMany(Failures(attempted, served), attempted, threshold)
  {
    var n := attempted as real;
    var q := Failures(attempted, served) as real / n;
    assert q * n == Failures(attempted, served) as real;
    if q <= threshold { MulLe(q, threshold, n); } else { assert q * n > threshold * n; }
  }

  // ---- what a cold run makes of its outcomes ----

  ghost predicate Distinct(skus: seq<int>) {
    forall i, j :: 0 <= i < j < |skus| ==> skus[i] != skus[j]
  }

  // The SKUs' computations end as given, and no other run writes their entries.
  ghost predicate Follows(events: seq<Event>, skus: seq<int>, engine: Engine, horizon: nat, outcome: nat -> Outcome) {
    forall k :: 0 <= k < |events| ==>
      && (events[k].Complete? ==> events[k].outcome == outcome(events[k].i))
      && (events[k].Foreign? ==> forall i :: 0 <= i < |skus| ==> events[k].key != Key(skus[i], engine, horizon))
  }

  // What an SKU's outcome delivers.
  ghost predicate Delivered(r: Option<Forecast>, sku: int, engine: Engine, outcome: Outcome) {
    match outcome
    case TimedOut => r.None?
    case Ready(ok) => r.Some? && ServedAs(r.value, sku, engine, ok)
  }

  ghost predicate Cold(w: World, skus: seq<int>, engine: Engine, horizon: nat, outcome: nat -> Outcome) {
    && |w.tasks| == |skus|
    && forall i :: 0 <= i < |skus| ==>
         if w.tasks[i].Finished? then Delivered(w.tasks[i].result, skus[i], engine, outcome(i))
         else Key(skus[i], engine, horizon) !in w.cache
  }

  lemma StepStaysCold(w: World, skus: seq<int>, engine: Engine, horizon: nat, outcome: nat -> Outcome, e: Event)
    requires Cold(w, skus, engine, horizon, outcome) && Distinct(skus) && Follows([e], skus, engine, horizon, outcome)
    ensures Cold(Step(w, skus, engine, horizon, e), skus, engine, horizon, outcome)
  {
    hide ServedAs;
    assert [e][0] == e;
    if e.Complete? && e.outcome.Ready? && e.i < |skus| { CalculateServes(skus[e.i], engine, e.outcome.ensembleOk); }
  }

  /** In a run that starts without entries for its SKUs, every finished SKU gets exactly
      what its own outcome delivers, however the steps of all of them interleave. */
  lemma {:induction false} ColdGatherDelivers(cache: Cache, skus: seq<int>, engine: Engine, horizon: nat, events: seq<Event>,
                                             outcome: nat -> Outcome)
    requires Distinct(skus) && Follows(events, skus, engine, horizon, outcome)
    requires forall i :: 0 <= i < |skus| ==> Key(skus[i], engine, horizon) !in cache
    ensures Cold(Play(Opened(cache, |skus|), skus, engine, horizon, events), skus, engine, horizon, outcome)
  {
    if |events| > 0 {
      var n := |events| - 1;
      ColdGatherDelivers(cache, skus, engine, horizon, events[..n], outcome);
      assert [events[n]][0] == events[n];
      StepStaysCold(Play(Opened(cache, |skus|), skus, engine, horizon, events[..n]), skus, engine, horizon, outcome, events[n]);
    }
  }

  // No eviction and no other run.
  ghost predicate Undisturbed(events: seq<Event>) {
    forall k :: 0 <= k < |events| ==> !events[k].Evict? && !events[k].Foreign?
  }

  /** Left undisturbed, every forecast a gather delivers is in the cache under its SKU, its
      engine and the horizon when the gather ends. */
  lemma {:induction false} DeliveredIsCached(cache: Cache, skus: seq<int>, engine: Engine, horizon: nat, events: seq<Event>)
    requires Distinct(skus) && Undisturbed(events)
    ensures var z := Play(Opened(cache, |skus|), skus, engine, horizon, events);
      forall i :: 0 <= i < |skus| && z.tasks[i].Finished? && z.tasks[i].result.Some? ==>
        Key(skus[i], engine, horizon) in z.cache && z.cache[Key(skus[i], engine, horizon)] == z.tasks[i].result.value
  {
    if |events| > 0 {
      var n := |events| - 1;
      DeliveredIsCached(cache, skus, engine, horizon, events[..n]);
      assert !events[n].Evict? && !events[n].Foreign?;
    }
  }

  // How many of the first n SKUs time out or fail in the ensemble.
  function BadOutcomes(outcome: nat -> Outcome, n: nat): nat {
    if n == 0 then 0 else BadOutcomes(outcome, n - 1) + if outcome(n - 1) == Ready(true) then 0 else 1
  }

  lemma {:induction false} FailuresAreBad(results: seq<Option<Forecast>>, skus: seq<int>, outcome: nat -> Outcome)
    requires |results| == |skus| && forall i :: 0 <= i < |skus| ==> Delivered(results[i], skus[i], Ensemble, outcome(i))
    ensures Failures(|skus|, Present(results)) == BadOutcomes(outcome, |skus|)
  {
    if |skus| > 0 {
      var n := |skus| - 1;
      FailuresAreBad(results[..n], skus[..n], outcome);
      assert Delivered(results[n], skus[n], Ensemble, outcome(n));
    }
  }

  lemma {:induction false} TripsOnBad(results: seq<Option<Forecast>>, skus: seq<int>, outcome: nat -> Outcome, threshold: real)
    requires |results| == |skus| > 0 && forall i :: 0 <= i < |skus| ==> Delivered(results[i], skus[i], Ensemble, outcome(i))
    ensures Trips(Ensemble, |results|, Present(results), threshold) <==> TooMany(BadOutcomes(outcome, |skus|), |skus|, threshold)
  {
    FailuresAreBad(results, skus, outcome);
    hide Trips, Present, BadOutcomes, Delivered, Failures, TooMany;
    TripsExactly(|results|, Present(results), threshold);
  }

  /** A cold ensemble run trips the breaker exactly when timeouts and ensemble failures
      together exceed threshold of its SKUs. */
  lemma {:induction false} ColdRunTripsExactly(cache: Cache, skus: seq<int>, horizon: nat, events: seq<Event>,
                                              outcome: nat -> Outcome, rerun: seq<Option<Forecast>>, threshold: real)
    requires |skus| > 0 && Distinct(skus) && Follows(events, skus, Ensemble, horizon, outcome)
    requires forall i :: 0 <= i < |skus| ==> Key(skus[i], Ensemble, horizon) !in cache
    requires Done(Play(Opened(cache, |skus|), skus, Ensemble, horizon, events))
    ensures Report(Ensemble, Results(Play(Opened(cache, |skus|), skus, Ensemble, horizon, events)), rerun, threshold).tripped
       <==> TooMany(BadOutcomes(outcome, |skus|), |skus|, threshold)
  {
    ColdGatherDelivers(cache, skus, Ensemble, horizon, events, outcome);
    hide TooMany, Trips, Present, BadOutcomes, Delivered, Play, Opened, Distinct, Follows;
    TripsOnBad(Results(Play(Opened(cache, |skus|), skus, Ensemble, horizon, events)), skus, outcome, threshold);
  }
}
