/** The in-memory TTL cache with least-recently-used eviction, against the same
    cache with no size bound. Times are seconds on the caller's clock. */
module TtlCache {
  import opened Options

  type Key = string

  datatype Entry<V> = Entry(key: Key, expires: real, value: V)

  // ---- the ordered dictionary: oldest first, newest last ----

  function KeySet<V>(s: seq<Entry<V>>): set<Key> {
    set i | 0 <= i < |s| :: s[i].key
  }

  ghost predicate Unique<V>(s: seq<Entry<V>>) {
    forall i, j :: 0 <= i < j < |s| ==> s[i].key != s[j].key
  }

  function Lookup<V>(s: seq<Entry<V>>, key: Key): (r: Option<Entry<V>>)
    ensures r.Some? ==> r.value in s && r.value.key == key
    ensures r.None? ==> key !in KeySet(s)
  {
    if |s| == 0 then None
    else if s[|s| - 1].key == key then Some(s[|s| - 1])
    else Lookup(s[..|s| - 1], key)
  }

  function Without<V>(s: seq<Entry<V>>, key: Key): seq<Entry<V>> {
    if |s| == 0 then []
    else if s[|s| - 1].key == key then Without(s[..|s| - 1], key)
    else Without(s[..|s| - 1], key) + [s[|s| - 1]]
  }

  function Newest<V>(s: seq<Entry<V>>, max: nat): seq<Entry<V>> {
    if |s| > max then s[|s| - max..] else s
  }

  // ---- operations on the dictionary ----

  datatype Op<V> =
    | Get(key: Key, now: real)
    | Set(key: Key, value: V, expires: real)
    | Invalidate(key: Key)
    | Clear

  datatype Outcome<V> = Outcome(store: seq<Entry<V>>, hit: Option<V>)

  function Apply<V>(s: seq<Entry<V>>, op: Op<V>, max: nat): Outcome<V> {
    match op
    case Get(key, now) =>
      (match Lookup(s, key)
       case None => Outcome(s, None)
       case Some(e) =>
         if now > e.expires then Outcome(Without(s, key), None)
         else Outcome(Without(s, key) + [e], Some(e.value)))
    case Set(key, value, expires) => Outcome(Newest(Without(s, key) + [Entry(key, expires, value)], max), None)
    case Invalidate(key) => Outcome(Without(s, key), None)
    case Clear => Outcome([], None)
  }

  class TTLCache<V> {
    const ttl: real
    const maxSize: nat
    var store: seq<Entry<V>>

    constructor (ttl: real, maxSize: nat)
      ensures this.ttl == ttl && this.maxSize == maxSize && store == []
    {
      this.ttl, this.maxSize := ttl, maxSize;
      store := [];
    }

    method Get(key: Key, now: real) returns (hit: Option<V>)
      modifies this
      ensures Outcome(store, hit) == Apply(old(store), Op.Get(key, now), maxSize)
    {
      var entry := Lookup(store, key);
      if entry.None? {
        return None;
      }
      if now > entry.value.expires {
        store := Without(store, key);
        return None;
      }
      store := Without(store, key) + [entry.value];
      hit := Some(entry.value.value);
    }

    method Set(key: Key, value: V, ttlOverride: Option<real>, now: real)
      modifies this
      ensures var expires := now + (match ttlOverride case Some(t) => t case None => ttl);
        store == Apply(old(store), Op.Set(key, value, expires), maxSize).store
    {
      hide Without;
      var expires := now + (match ttlOverride case Some(t) => t case None => ttl);
      store := Without(store, key) + [Entry(key, expires, value)];
      EvictOldest();
    }

    // The popitem loop at the end of a set.
    method EvictOldest()
      modifies this
      ensures store == Newest(old(store), maxSize)
    {
      ghost var full := store;
      while |store| > maxSize
        invariant |store| <= |full| && store == full[|full| - |store|..]
        invariant |store| >= maxSize || store == full
      {
        store := store[1..];
      }
    }

    method Invalidate(key: Key)
      modifies this
      ensures store == Apply(old(store), Op.Invalidate(key), maxSize).store
    {
      store := Without(store, key);
    }

    method Clear()
      modifies this
      ensures store == []
    {
      store := [];
    }
  }

  // ---- runs ----

  function Run<V>(ops: seq<Op<V>>, max: nat): seq<Entry<V>> {
    if |ops| == 0 then [] else Apply(Run(ops[..|ops| - 1], max), ops[|ops| - 1], max).store
  }

  predicate IsHit<V>(ops: seq<Op<V>>, op: Op<V>, max: nat) {
    op.Get? && Apply(Run(ops, max), op, max).hit.Some?
  }

  /** What the same cache with unlimited room holds for a key. */
  function Unbounded<V>(ops: seq<Op<V>>, key: Key): (r: Option<Entry<V>>)
    ensures r.Some? ==> r.value.key == key
  {
    if |ops| == 0 then None
    else
      var before := Unbounded(ops[..|ops| - 1], key);
      match ops[|ops| - 1]
      case Set(k, v, x) => if k == key then Some(Entry(key, x, v)) else before
      case Invalidate(k) => if k == key then None else before
      case Clear => None
      case Get(k, now) => if k == key && before.Some? && now > before.value.expires then None else before
  }

  /** The last value stored for a key and not invalidated since, however long ago. */
  function LastStored<V>(ops: seq<Op<V>>, key: Key): Option<Entry<V>> {
    if |ops| == 0 then None
    else
      var before := LastStored(ops[..|ops| - 1], key);
      match ops[|ops| - 1]
      case Set(k, v, x) => if k == key then Some(Entry(key, x, v)) else before
      case Invalidate(k) => if k == key then None else before
      case Clear => None
      case Get(_, _) => before
  }

  /** Distinct other keys set or hit since the given key was last set or hit. */
  function Since<V>(ops: seq<Op<V>>, key: Key, max: nat): set<Key> {
    if |ops| == 0 then {}
    else
      var prior := ops[..|ops| - 1];
      var op := ops[|ops| - 1];
      if op.Set? || IsHit(prior, op, max) then
        if op.key == key then {} else Since(prior, key, max) + {op.key}
      else Since(prior, key, max)
  }

  // ---- dictionary lemmas ----

  lemma {:induction false} WithoutMembers<V>(s: seq<Entry<V>>, key: Key, e: Entry<V>)
    ensures e in Without(s, key) <==> e in s && e.key != key
  {
    if |s| > 0 {
      WithoutMembers(s[..|s| - 1], key, e);
      assert s == s[..|s| - 1] + [s[|s| - 1]];
    }
  }

  lemma {:induction false} WithoutUnique<V>(s: seq<Entry<V>>, key: Key)
    requires Unique(s)
    ensures Unique(Without(s, key)) && |Without(s, key)| <= |s|
    ensures key in KeySet(s) ==> |Without(s, key)| < |s|
    ensures forall i :: 0 <= i < |Without(s, key)| ==> Without(s, key)[i].key != key
  {
    if |s| > 0 {
      var n := |s| - 1;
      WithoutUnique(s[..n], key);
      var r := Without(s[..n], key);
      forall i | 0 <= i < |r| ensures r[i].key != s[n].key && r[i].key != key {
        WithoutMembers(s[..n], key, r[i]);
        assert r[i] in s[..n];
      }
    }
  }

  lemma {:induction false} KeyCount<V>(s: seq<Entry<V>>)
    requires Unique(s)
    ensures |KeySet(s)| == |s|
  {
    if |s| == 0 {
      assert KeySet(s) == {};
    } else {
      var n := |s| - 1;
      KeyCount(s[..n]);
      assert KeySet(s) == KeySet(s[..n]) + {s[n].key};
      assert s[n].key !in KeySet(s[..n]);
    }
  }

  lemma SubsetCount(a: set<Key>, b: set<Key>)
    requires a <= b
    ensures |a| <= |b|
  {
    assert b == a + (b - a);
  }

  // ---- the store is well formed after every run ----

  lemma ApplyKeepsShape<V>(s: seq<Entry<V>>, op: Op<V>, max: nat)
    requires Unique(s) && |s| <= max
    ensures Unique(Apply(s, op, max).store) && |Apply(s, op, max).store| <= max
  {
    match op
    case Get(key, now) => WithoutUnique(s, key);
      if Lookup(s, key).Some? {
        var e := Lookup(s, key).value;
        assert e in s && e.key in KeySet(s);
      }
    case Set(key, _, _) => WithoutUnique(s, key);
    case Invalidate(key) => WithoutUnique(s, key);
    case Clear =>
  }

  /** After every run the keys are distinct and the size is within the bound. */
  lemma {:induction false} SizeNeverExceedsBound<V>(ops: seq<Op<V>>, max: nat)
    ensures Unique(Run(ops, max)) && |Run(ops, max)| <= max
  {
    if |ops| > 0 {
      SizeNeverExceedsBound(ops[..|ops| - 1], max);
      ApplyKeepsShape(Run(ops[..|ops| - 1], max), ops[|ops| - 1], max);
    }
  }

  lemma {:induction false} LookupUnique<V>(s: seq<Entry<V>>, e: Entry<V>)
    requires Unique(s) && e in s
    ensures Lookup(s, e.key) == Some(e)
  {
    var n := |s| - 1;
    if s[n] != e {
      assert s == s[..n] + [s[n]];
      assert e in s[..n];
      LookupUnique(s[..n], e);
    }
  }

  // ---- soundness: what is held is what the unbounded cache holds ----

  /** Every entry the bounded cache holds is exactly the entry the unbounded one holds. */
  lemma {:induction false} HeldIsCurrent<V>(ops: seq<Op<V>>, max: nat, e: Entry<V>)
    requires e in Run(ops, max)
    ensures Unbounded(ops, e.key) == Some(e)
  {
    var prior, op := ops[..|ops| - 1], ops[|ops| - 1];
    var s := Run(prior, max);
    SizeNeverExceedsBound(prior, max);
    match op
    case Get(k, now) =>
      WithoutMembers(s, k, e);
      HeldIsCurrent(prior, max, e);
      LookupUnique(s, e);
    case Set(k, v, x) =>
      WithoutMembers(s, k, e);
      if e in s && e.key != k { HeldIsCurrent(prior, max, e); }
    case Invalidate(k) =>
      WithoutMembers(s, k, e);
      HeldIsCurrent(prior, max, e);
    case Clear =>
  }

  lemma {:induction false} UnboundedIsLastStored<V>(ops: seq<Op<V>>, key: Key)
    requires Unbounded(ops, key).Some?
    ensures LastStored(ops, key) == Unbounded(ops, key)
  {
    var op := ops[|ops| - 1];
    if !(op.Set? && op.key == key) {
      UnboundedIsLastStored(ops[..|ops| - 1], key);
    }
  }

  /** Every hit returns the value most recently stored for the key, not expired at the time of the call. */
  lemma {:induction false} HitIsLastStoredAndFresh<V>(ops: seq<Op<V>>, key: Key, now: real, max: nat)
    requires IsHit(ops, Get(key, now), max)
    ensures LastStored(ops, key).Some? && now <= LastStored(ops, key).value.expires
    ensures Apply(Run(ops, max), Get(key, now), max).hit == Some(LastStored(ops, key).value.value)
  {
    var e := Lookup(Run(ops, max), key).value;
    HeldIsCurrent(ops, max, e);
    UnboundedIsLastStored(ops, key);
  }

  // ---- survival ----

  // The entry sits at index i and only keys in `later` come after it.
  ghost predicate HeldBehind<V>(s: seq<Entry<V>>, i: nat, e: Entry<V>, later: set<Key>) {
    i < |s| && s[i] == e && forall j :: i < j < |s| ==> s[j].key in later
  }

  lemma {:induction false} WithoutKeepsPlace<V>(s: seq<Entry<V>>, key: Key, i: nat, e: Entry<V>, later: set<Key>) returns (k: nat)
    requires HeldBehind(s, i, e, later) && e.key != key
    ensures HeldBehind(Without(s, key), k, e, later)
  {
    var n := |s| - 1;
    if i == n {
      k := |Without(s[..n], key)|;
    } else {
      assert HeldBehind(s[..n], i, e, later);
      k := WithoutKeepsPlace(s[..n], key, i, e, later);
    }
  }

  lemma FewLater<V>(s: seq<Entry<V>>, i: nat, e: Entry<V>, later: set<Key>)
    requires Unique(s) && HeldBehind(s, i, e, later)
    ensures |s| - 1 - i <= |later|
  {
    var tail := s[i + 1..];
    KeyCount(tail);
    SubsetCount(KeySet(tail), later);
  }

  // Appending one entry and evicting the oldest keeps an entry with few later keys.
  lemma PushKeeps<V>(s: seq<Entry<V>>, x: Entry<V>, max: nat, i: nat, e: Entry<V>, later: set<Key>) returns (k: nat)
    requires Unique(s + [x]) && HeldBehind(s, i, e, later) && x.key in later && |later| < max
    ensures HeldBehind(Newest(s + [x], max), k, e, later)
  {
    var t := s + [x];
    assert HeldBehind(t, i, e, later);
    FewLater(t, i, e, later);
    k := if |t| > max then i - (|t| - max) else i;
  }

  /** An entry the unbounded cache still holds is held by the bounded one whenever
      fewer than max distinct other keys were set or hit since its last touch. */
  lemma {:induction false} SurvivesWhileRecent<V>(ops: seq<Op<V>>, key: Key, max: nat) returns (i: nat)
    requires Unbounded(ops, key).Some? && |Since(ops, key, max)| < max
    ensures HeldBehind(Run(ops, max), i, Unbounded(ops, key).value, Since(ops, key, max))
  {
    hide Apply, HeldBehind;
    var prior, op := ops[..|ops| - 1], ops[|ops| - 1];
    var s := Run(prior, max);
    var e := Unbounded(ops, key).value;
    SizeNeverExceedsBound(prior, max);
    if (op.Set? || IsHit(prior, op, max)) && op.key == key {
      i := TouchedLast(prior, op, max, e);
    } else {
      SubsetCount(Since(prior, key, max), Since(ops, key, max));
      i := SurvivesWhileRecent(prior, key, max);
      i := KeptByOther(s, op, max, i, e, Since(prior, key, max), Since(ops, key, max));
    }
  }

  // Right after its own touch an entry is the newest one.
  lemma {:induction false} TouchedLast<V>(prior: seq<Op<V>>, op: Op<V>, max: nat, e: Entry<V>) returns (i: nat)
    requires max > 0 && (op.Set? || IsHit(prior, op, max)) && op.key == e.key
    requires Unbounded(prior + [op], e.key) == Some(e)
    ensures HeldBehind(Apply(Run(prior, max), op, max).store, i, e, {})
  {
    var s := Run(prior, max);
    assert (prior + [op])[..|prior|] == prior;
    if op.Get? {
      HeldIsCurrent(prior, max, Lookup(s, e.key).value);
      i := |Without(s, e.key)|;
    } else {
      i := |Newest(Without(s, e.key) + [e], max)| - 1;
    }
  }

  // One operation on another key, or a lookup of this key that misses.
  lemma KeptByOther<V>(s: seq<Entry<V>>, op: Op<V>, max: nat, i: nat, e: Entry<V>, before: set<Key>, after: set<Key>)
    returns (k: nat)
    requires Unique(s) && |s| <= max && HeldBehind(s, i, e, before) && before <= after && |after| < max
    requires op.Get? && op.key == e.key ==> op.now <= e.expires && Apply(s, op, max).hit.None?
    requires op.Set? || (op.Get? && Apply(s, op, max).hit.Some?) ==> op.key in after
    requires !op.Clear? && (op.Set? || op.Invalidate? ==> op.key != e.key)
    ensures HeldBehind(Apply(s, op, max).store, k, e, after)
  {
    assert HeldBehind(s, i, e, after);
    match op
    case Get(key, now) =>
      k := KeptByGet(s, key, now, max, i, e, after);
    case Set(key, value, expires) =>
      hide HeldBehind, Without, Newest;
      var j := WithoutKeepsPlace(s, key, i, e, after);
      PushUnique(s, Entry(key, expires, value));
      k := PushKeeps(Without(s, key), Entry(key, expires, value), max, j, e, after);
    case Invalidate(key) =>
      hide HeldBehind, Without;
      k := WithoutKeepsPlace(s, key, i, e, after);
  }

  lemma PushUnique<V>(s: seq<Entry<V>>, x: Entry<V>)
    requires Unique(s)
    ensures Unique(Without(s, x.key) + [x])
  {
    WithoutUnique(s, x.key);
  }

  lemma KeptByGet<V>(s: seq<Entry<V>>, key: Key, now: real, max: nat, i: nat, e: Entry<V>, later: set<Key>)
    returns (k: nat)
    requires Unique(s) && HeldBehind(s, i, e, later)
    requires key == e.key ==> now <= e.expires && Apply(s, Get(key, now), max).hit.None?
    requires Apply(s, Get(key, now), max).hit.Some? ==> key in later
    ensures HeldBehind(Apply(s, Get(key, now), max).store, k, e, later)
  {
    LookupUnique(s, e);
    k := i;
    if Lookup(s, key).Some? {
      k := WithoutKeepsPlace(s, key, i, e, later);
    }
  }

  // Lookups happen at times that never exceed now.
  ghost predicate NotAfter<V>(ops: seq<Op<V>>, now: real) {
    forall i :: 0 <= i < |ops| && ops[i].Get? ==> ops[i].now <= now
  }

  lemma {:induction false} FreshStaysUnbounded<V>(ops: seq<Op<V>>, key: Key, now: real)
    requires NotAfter(ops, now) && LastStored(ops, key).Some? && now <= LastStored(ops, key).value.expires
    ensures Unbounded(ops, key) == LastStored(ops, key)
  {
    var prior, op := ops[..|ops| - 1], ops[|ops| - 1];
    if !(op.Set? && op.key == key) {
      forall i | 0 <= i < |prior| && prior[i].Get? ensures prior[i].now <= now { assert prior[i] == ops[i]; }
      FreshStaysUnbounded(prior, key, now);
    }
  }

  /** With a clock that never runs backwards: a value that has not expired is
      returned by a lookup if fewer than max distinct other keys were set or hit
      since the key's own last set or hit. */
  lemma {:induction false} FreshAndRecentIsHit<V>(ops: seq<Op<V>>, key: Key, now: real, max: nat)
    requires NotAfter(ops, now) && LastStored(ops, key).Some? && now <= LastStored(ops, key).value.expires
    requires |Since(ops, key, max)| < max
    ensures Apply(Run(ops, max), Get(key, now), max).hit == Some(LastStored(ops, key).value.value)
  {
    hide Unbounded, LastStored, Since, Run, Unique, Lookup;
    FreshStaysUnbounded(ops, key, now);
    var i := SurvivesWhileRecent(ops, key, max);
    SizeNeverExceedsBound(ops, max);
    var s := Run(ops, max);
    assert s[i] in s;
    LookupUnique(s, s[i]);
  }

  // ---- the bound is exact ----

  // Nothing was invalidated, cleared or deleted as expired: only eviction removes.
  predicate OnlyEvictions<V>(ops: seq<Op<V>>, max: nat) {
    |ops| == 0 ||
    (var prior, op := ops[..|ops| - 1], ops[|ops| - 1];
     OnlyEvictions(prior, max) && !op.Invalidate? && !op.Clear? &&
     (op.Get? && Lookup(Run(prior, max), op.key).Some? ==> IsHit(prior, op, max)))
  }

  // The entry at index i has every key of `later` after it.
  ghost predicate AllBehind<V>(s: seq<Entry<V>>, i: nat, later: set<Key>) {
    i < |s| && later <= KeySet(s[i + 1..])
  }

  lemma {:induction false} WithoutKeepsLater<V>(s: seq<Entry<V>>, key: Key, i: nat, later: set<Key>) returns (k: nat)
    requires AllBehind(s, i, later) && s[i].key != key
    ensures AllBehind(Without(s, key), k, later - {key}) && Without(s, key)[k] == s[i]
  {
    var n := |s| - 1;
    if i == n {
      k := |Without(s[..n], key)|;
    } else {
      var fewer := later - {s[n].key};
      assert s[i + 1..] == s[..n][i + 1..] + [s[n]];
      assert fewer <= KeySet(s[..n][i + 1..]);
      k := WithoutKeepsLater(s[..n], key, i, fewer);
      var r := Without(s[..n], key);
      if s[n].key != key {
        assert (r + [s[n]])[k + 1..] == r[k + 1..] + [s[n]];
        KeysOfPush(r[k + 1..], s[n]);
      }
    }
  }

  lemma KeysOfPush<V>(s: seq<Entry<V>>, x: Entry<V>)
    ensures KeySet(s + [x]) == KeySet(s) + {x.key}
  {
    assert forall i :: 0 <= i < |s| ==> (s + [x])[i] == s[i];
    assert (s + [x])[|s|] == x;
  }

  lemma PushedBehind<V>(s: seq<Entry<V>>, x: Entry<V>, i: nat, later: set<Key>)
    requires AllBehind(s, i, later - {x.key})
    ensures AllBehind(s + [x], i, later + {x.key})
  {
    assert (s + [x])[i + 1..] == s[i + 1..] + [x];
    KeysOfPush(s[i + 1..], x);
  }

  /** When only eviction removes entries, a held key has every key touched since
      its own last touch behind it. */
  lemma {:induction false} HeldHasAllBehind<V>(ops: seq<Op<V>>, key: Key, max: nat, e: Entry<V>) returns (i: nat)
    requires OnlyEvictions(ops, max) && e in Run(ops, max) && e.key == key
    ensures AllBehind(Run(ops, max), i, Since(ops, key, max)) && Run(ops, max)[i] == e
  {
    hide AllBehind, Apply;
    var prior, op := ops[..|ops| - 1], ops[|ops| - 1];
    var s := Run(prior, max);
    SizeNeverExceedsBound(prior, max);
    if (op.Set? || IsHit(prior, op, max)) && op.key == key {
      i := NewestHasNoneBehind(s, op, max, e);
    } else {
      StillHeld(s, op, max, e);
      i := HeldHasAllBehind(prior, key, max, e);
      i := OtherGoesBehind(s, op, max, i, e, Since(prior, key, max));
    }
  }

  lemma NewestHasNoneBehind<V>(s: seq<Entry<V>>, op: Op<V>, max: nat, e: Entry<V>) returns (i: nat)
    requires Unique(s) && |s| <= max && e in Apply(s, op, max).store
    requires (op.Set? || (op.Get? && Apply(s, op, max).hit.Some?)) && op.key == e.key
    ensures AllBehind(Apply(s, op, max).store, i, {}) && Apply(s, op, max).store[i] == e
  {
    ApplyKeepsShape(s, op, max);
    var t := Apply(s, op, max).store;
    i := |t| - 1;
  }

  // Nothing but a set of the key itself puts its entry into the store.
  lemma StillHeld<V>(s: seq<Entry<V>>, op: Op<V>, max: nat, e: Entry<V>)
    requires e in Apply(s, op, max).store && (op.Set? ==> op.key != e.key)
    ensures e in s
  {
    if !op.Clear? { WithoutMembers(s, op.key, e); }
  }

  lemma OtherGoesBehind<V>(s: seq<Entry<V>>, op: Op<V>, max: nat, i: nat, e: Entry<V>, later: set<Key>) returns (k: nat)
    requires Unique(s) && AllBehind(s, i, later) && s[i] == e && e in Apply(s, op, max).store
    requires op.Set? || op.Get?
    requires op.Get? && Lookup(s, op.key).Some? ==> Apply(s, op, max).hit.Some?
    requires op.Set? || (op.Get? && Apply(s, op, max).hit.Some?) ==> op.key != e.key
    ensures k < |Apply(s, op, max).store| && Apply(s, op, max).store[k] == e
    ensures AllBehind(Apply(s, op, max).store, k,
      if op.Set? || Apply(s, op, max).hit.Some? then later + {op.key} else later)
  {
    hide Newest;
    match op
    case Get(key, now) =>
      k := i;
      if Lookup(s, key).Some? {
        k := MovedBehind(s, Lookup(s, key).value, i, e, later);
      }
    case Set(key, value, expires) =>
      var x := Entry(key, expires, value);
      k := MovedBehind(s, x, i, e, later);
      PushUnique(s, x);
      k := NewestBehind(Without(s, key) + [x], max, k, later + {key}, e);
  }

  // Taking a key out and putting it back at the newest end.
  lemma MovedBehind<V>(s: seq<Entry<V>>, x: Entry<V>, i: nat, e: Entry<V>, later: set<Key>) returns (k: nat)
    requires AllBehind(s, i, later) && s[i] == e && x.key != e.key
    ensures k < |Without(s, x.key)| && (Without(s, x.key) + [x])[k] == e
    ensures AllBehind(Without(s, x.key) + [x], k, later + {x.key})
  {
    k := WithoutKeepsLater(s, x.key, i, later);
    PushedBehind(Without(s, x.key), x, k, later);
  }

  lemma NewestBehind<V>(t: seq<Entry<V>>, max: nat, i: nat, later: set<Key>, e: Entry<V>) returns (k: nat)
    requires Unique(t) && AllBehind(t, i, later) && t[i] == e && e in Newest(t, max)
    ensures AllBehind(Newest(t, max), k, later) && Newest(t, max)[k] == e
  {
    if |t| > max {
      var d := |t| - max;
      var j :| 0 <= j < |Newest(t, max)| && Newest(t, max)[j] == e;
      assert t[d + j] == e;
      k := i - d;
      assert Newest(t, max)[k + 1..] == t[i + 1..];
    } else {
      k := i;
    }
  }

  /** The bound is exact: when only eviction removes entries, a key is held if and
      only if it was ever stored and fewer than max distinct other keys were set
      or hit since its last touch. */
  lemma LruIsExact<V>(ops: seq<Op<V>>, key: Key, max: nat)
    requires OnlyEvictions(ops, max)
    ensures key in KeySet(Run(ops, max)) <==> Unbounded(ops, key).Some? && |Since(ops, key, max)| < max
  {
    var s := Run(ops, max);
    SizeNeverExceedsBound(ops, max);
    if key in KeySet(s) {
      var e := Lookup(s, key).value;
      HeldIsCurrent(ops, max, e);
      var i := HeldHasAllBehind(ops, key, max, e);
      var tail := s[i + 1..];
      KeyCount(tail);
      SubsetCount(Since(ops, key, max), KeySet(tail));
    }
    if Unbounded(ops, key).Some? && |Since(ops, key, max)| < max {
      var i := SurvivesWhileRecent(ops, key, max);
    }
  }
}
