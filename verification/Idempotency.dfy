/** Replaying requests by idempotency key: an evicting in-process cache in front of a stored record. */
module Idempotency {
  import opened Options

  const CACHE_MAX := 500

  // What the guarded action does when it is run: a response, or an exception.
  datatype Outcome<R> = Done(response: R) | Raised(code: int)

  // The response dictionary in insertion order, and the table of recorded keys.
  datatype Memory<R> = Memory(cache: seq<(string, R)>, recorded: map<string, R>)

  datatype Call<R> = Call(memory: Memory<R>, outcome: Outcome<R>, ran: bool)

  function Find<R>(cache: seq<(string, R)>, key: string): (r: Option<R>)
    ensures r.Some? ==> (key, r.value) in cache
  {
    if |cache| == 0 then None
    else if cache[0].0 == key then Some(cache[0].1)
    else Find(cache[1..], key)
  }

  function Guarded<R>(m: Memory<R>, key: Option<string>, action: Outcome<R>): Call<R> {
    if key.None? || key.value == "" then Call(m, action, true)
    else
      var k := key.value;
      var cached := Find(m.cache, k);
      if cached.Some? then Call(m, Done(cached.value), false)
      else if k in m.recorded then Call(m.(cache := m.cache + [(k, m.recorded[k])]), Done(m.recorded[k]), false)
      else if action.Raised? then Call(m, action, true)
      else
        var kept := if |m.cache| >= CACHE_MAX then m.cache[1..] else m.cache;
        Call(Memory(kept + [(k, action.response)], m.recorded[k := action.response]), action, true)
  }

  class Guard<R> {
    var cache: seq<(string, R)>
    var recorded: map<string, R>

    constructor ()
      ensures cache == [] && recorded == map[]
    {
      cache, recorded := [], map[];
    }

    /** action is the result the guarded action would produce; ran says whether it was run. */
    method RunWithIdempotency(key: Option<string>, action: Outcome<R>) returns (outcome: Outcome<R>, ran: bool)
      modifies this
      ensures Call(Memory(cache, recorded), outcome, ran) == Guarded(Memory(old(cache), old(recorded)), key, action)
      ensures key.None? || key.value == "" ==> ran && outcome == action && cache == old(cache) && recorded == old(recorded)
      ensures ran ==> outcome == action
      ensures ran && key.Some? && key.value != "" ==>
        recorded == if action.Done? then old(recorded)[key.value := action.response] else old(recorded)
      ensures !ran ==> recorded == old(recorded)
      ensures ran && key.Some? && key.value != "" && action.Done? ==>
        cache == (if |old(cache)| >= 500 then old(cache)[1..] else old(cache)) + [(key.value, action.response)]
    {
      var keyed := key.Some? && key.value != "";
      if keyed {
        var cached := Find(cache, key.value);
        if cached.Some? {
          return Done(cached.value), false;
        }
        if key.value in recorded {
          cache := cache + [(key.value, recorded[key.value])];
          return Done(recorded[key.value]), false;
        }
      }
      outcome, ran := action, true;
      if outcome.Raised? {
        return;
      }
      if keyed {
        if |cache| >= CACHE_MAX {
          cache := cache[1..];
        }
        cache := cache + [(key.value, outcome.response)];
        recorded := recorded[key.value := outcome.response];
      }
    }
  }

  // ---- runs of one request after another ----

  datatype Event<R> = Request(key: Option<string>, action: Outcome<R>) | Restart

  function After<R>(events: seq<Event<R>>): Memory<R> {
    if |events| == 0 then Memory([], map[])
    else
      var m := After(events[..|events| - 1]);
      match events[|events| - 1]
      case Request(key, action) => Guarded(m, key, action).memory
      case Restart => m.(cache := [])
  }

  /** The response of the first request with this key whose action succeeds. */
  function First<R>(events: seq<Event<R>>, key: string): Option<R> {
    if |events| == 0 then None
    else
      var earlier := First(events[..|events| - 1], key);
      var e := events[|events| - 1];
      if earlier.Some? then earlier
      else if e.Request? && e.key == Some(key) && e.action.Done? then Some(e.action.response)
      else None
  }

  /** How often an action under this key was run and succeeded. */
  function SuccessfulRuns<R>(events: seq<Event<R>>, key: string): nat {
    if |events| == 0 then 0
    else
      var m := After(events[..|events| - 1]);
      var e := events[|events| - 1];
      SuccessfulRuns(events[..|events| - 1], key)
      + if e.Request? && e.key == Some(key) && e.action.Done? && Guarded(m, e.key, e.action).ran then 1 else 0
  }

  // Cache and table agree with the first successful response of each key.
  ghost predicate Faithful<R>(m: Memory<R>, events: seq<Event<R>>) {
    && (forall k: string :: k in m.recorded ==> First(events, k) == Some(m.recorded[k]))
    && (forall k: string :: k != "" && First(events, k).Some? ==> k in m.recorded)
    && (forall i :: 0 <= i < |m.cache| ==> m.cache[i].0 != "" && First(events, m.cache[i].0) == Some(m.cache[i].1))
  }

  lemma {:induction false} MemoryIsFaithful<R>(events: seq<Event<R>>)
    ensures Faithful(After(events), events)
  {
    if |events| > 0 {
      var prior := events[..|events| - 1];
      MemoryIsFaithful(prior);
      var m := After(prior);
      var e := events[|events| - 1];
      assert forall k: string :: First(prior, k).Some? ==> First(events, k) == First(prior, k);
      if e.Request? && e.key.Some? && e.key.value != "" {
        KeyedStep(m, prior, events, e.key.value, e.action);
      }
    }
  }

  function Recorded<R>(earlier: Option<R>, same: bool, action: Outcome<R>): Option<R> {
    if earlier.Some? then earlier
    else if same && action.Done? then Some(action.response)
    else None
  }

  lemma KeyedStep<R>(m: Memory<R>, prior: seq<Event<R>>, events: seq<Event<R>>, key: string, action: Outcome<R>)
    requires Faithful(m, prior) && key != "" && events == prior + [Request(Some(key), action)]
    ensures Faithful(Guarded(m, Some(key), action).memory, events)
  {
    assert events[..|prior|] == prior;
    assert forall k: string :: First(events, k) == Recorded(First(prior, k), k == key, action);
    CachedIsFirst(m, prior, key);
  }

  lemma CachedIsFirst<R>(m: Memory<R>, events: seq<Event<R>>, key: string)
    requires Faithful(m, events)
    ensures Find(m.cache, key).Some? ==> key != "" && First(events, key) == Find(m.cache, key)
  {
    var cached := Find(m.cache, key);
    if cached.Some? {
      var i :| 0 <= i < |m.cache| && m.cache[i] == (key, cached.value);
    }
  }

  /** After the first success under a key, every later request with that key returns
      that response without running its action, through evictions and restarts. */
  lemma ReplayReturnsFirst<R>(events: seq<Event<R>>, key: string, action: Outcome<R>)
    requires key != "" && First(events, key).Some?
    ensures var c := Guarded(After(events), Some(key), action);
      c.outcome == Done(First(events, key).value) && !c.ran
  {
    MemoryIsFaithful(events);
    CachedIsFirst(After(events), events, key);
  }

  /** Until an action under a key has succeeded, every request with it runs its action. */
  lemma UnrecordedKeyRuns<R>(events: seq<Event<R>>, key: string, action: Outcome<R>)
    requires First(events, key).None?
    ensures Guarded(After(events), Some(key), action).ran
    ensures Guarded(After(events), Some(key), action).outcome == action
  {
    MemoryIsFaithful(events);
    CachedIsFirst(After(events), events, key);
  }

  /** Each key's action succeeds at most once in any sequential run, exactly once if any request could. */
  lemma {:induction false} RunsAtMostOnce<R>(events: seq<Event<R>>, key: string)
    requires key != ""
    ensures SuccessfulRuns(events, key) == if First(events, key).Some? then 1 else 0
  {
    if |events| > 0 {
      var prior := events[..|events| - 1];
      var e := events[|events| - 1];
      RunsAtMostOnce(prior, key);
      if e.Request? && e.key == Some(key) {
        if First(prior, key).Some? {
          ReplayReturnsFirst(prior, key, e.action);
        } else {
          UnrecordedKeyRuns(prior, key, e.action);
        }
      }
    }
  }
}
