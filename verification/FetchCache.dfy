/**
 The single-flight cache behind `getCachedCount` and `getCachedListResponse`: a map from keys to
 a value, its expiry and the fetch that is running for it, serving any number of callers.
 */
module FetchCache {
  import opened Common
  import opened Division

  /** A running fetch stands for its promise; identity is all that matters. */
  type Fetch = nat

  datatype Entry<V> = Entry(value: Option<V>, expiresAt: Time, pending: Option<Fetch>)

  /** What a caller is given: the cached value, or the promise of a fetch. */
  datatype Answer<V> = Hit(value: V) | Promise(fetch: Fetch, started: bool)

  // ----- The operations as functions on the map

  function Call<K, V>(entries: map<K, Entry<V>>, key: K, now: Time, next: Fetch): (map<K, Entry<V>>, Answer<V>) {
    if key in entries && entries[key].pending.Some? then (entries, Promise(entries[key].pending.value, false))
    else if key in entries && entries[key].expiresAt > now && entries[key].value.Some?
    then (entries, Hit(entries[key].value.value))
    else
      var entry := if key in entries then entries[key].(pending := Some(next)) else Entry(None, 0, Some(next));
      (entries[key := entry], Promise(next, true))
  }

  function Resolve<K, V>(entries: map<K, Entry<V>>, key: K, value: V, now: Time, ttl: Time): map<K, Entry<V>> {
    entries[key := Entry(Some(value), now + ttl, None)]
  }

  function Reject<K, V>(entries: map<K, Entry<V>>, key: K, fetch: Fetch): map<K, Entry<V>> {
    if key in entries && entries[key].pending == Some(fetch) then entries - {key} else entries
  }

  /** The cache as the service keeps it. */
  class Cache<K(==), V> {
    const ttl: Time
    var entries: map<K, Entry<V>>
    var nextFetch: Fetch

    constructor (ttl: Time)
      ensures this.ttl == ttl && entries == map[] && nextFetch == 0
    {
      this.ttl := ttl;
      entries, nextFetch := map[], 0;
    }

    method Get(key: K, now: Time) returns (answer: Answer<V>)
      modifies this
      ensures (entries, answer) == Call(old(entries), key, now, old(nextFetch))
      ensures nextFetch == old(nextFetch) + if answer.Promise? && answer.started then 1 else 0
    {
      if key in entries {
        var cached := entries[key];
        if cached.pending.Some? {
          return Promise(cached.pending.value, false);
        }
        if cached.expiresAt > now && cached.value.Some? {
          return Hit(cached.value.value);
        }
      }
      var pending := nextFetch;
      nextFetch := nextFetch + 1;
      var value, expiresAt := None, 0;
      if key in entries {
        value, expiresAt := entries[key].value, entries[key].expiresAt;
      }
      entries := entries[key := Entry(value, expiresAt, Some(pending))];
      return Promise(pending, true);
    }

    /** The fetch for `key` delivered. */
    method OnResolved(key: K, value: V, now: Time)
      modifies this`entries
      ensures entries == Resolve(old(entries), key, value, now, ttl)
    {
      entries := entries[key := Entry(Some(value), now + ttl, None)];
    }

    /** The fetch for `key` failed. */
    method OnRejected(key: K, fetch: Fetch)
      modifies this`entries
      ensures entries == Reject(old(entries), key, fetch)
    {
      if key in entries {
        var current := entries[key];
        if current.pending == Some(fetch) {
          entries := entries - {key};
        }
      }
    }
  }

  // ----- Runs

  datatype Event<K, V> =
    | Called(key: K, now: Time)
    | Resolved(fetch: Fetch, value: V, now: Time)
    | Rejected(fetch: Fetch)

  datatype Delivery<K, V> = Delivery(key: K, value: V, at: Time)

  /** The cache together with the outside world: the fetches that are running, and those that have
      delivered so far. */
  datatype State<K, V> = State(
    ttl: Time, entries: map<K, Entry<V>>, next: Fetch,
    running: map<Fetch, K>, delivered: map<Fetch, Delivery<K, V>>)

  function Initial<K, V>(ttl: Time): State<K, V> {
    State(ttl, map[], 0, map[], map[])
  }

  /** A fetch that is not running can neither deliver nor fail. */
  function Step<K, V>(s: State<K, V>, e: Event<K, V>): State<K, V> {
    match e
    case Called(key, now) =>
      var (entries, answer) := Call(s.entries, key, now, s.next);
      if answer.Promise? && answer.started
      then s.(entries := entries, next := s.next + 1, running := s.running[s.next := key])
      else s.(entries := entries)
    case Resolved(fetch, value, now) =>
      if fetch !in s.running then s
      else
        s.(entries := Resolve(s.entries, s.running[fetch], value, now, s.ttl),
           running := s.running - {fetch},
           delivered := s.delivered[fetch := Delivery(s.running[fetch], value, now)])
    case Rejected(fetch) =>
      if fetch !in s.running then s
      else s.(entries := Reject(s.entries, s.running[fetch], fetch), running := s.running - {fetch})
  }

  function Run<K, V>(s: State<K, V>, events: seq<Event<K, V>>): State<K, V> {
    if events == [] then s else Step(Run(s, events[..|events| - 1]), events[|events| - 1])
  }

  /** `value`, expiring at `until`, is what a fetch for `key` delivered one lifetime before. */
  ghost predicate Delivered<K, V>(s: State<K, V>, key: K, value: V, until: Time) {
    exists f :: f in s.delivered && s.delivered[f] == Delivery(key, value, until - s.ttl)
  }

  /** Pending entries and running fetches are the same thing. */
  ghost predicate Linked<K(!new), V>(entries: map<K, Entry<V>>, running: map<Fetch, K>, next: Fetch) {
    && (forall f :: f in running ==>
          f < next && running[f] in entries && entries[running[f]].pending == Some(f))
    && (forall k :: k in entries && entries[k].pending.Some? ==>
          entries[k].pending.value in running && running[entries[k].pending.value] == k)
    && (forall k :: k in entries ==> entries[k].value.Some? || entries[k].pending.Some?)
  }

  /** Cached values are deliveries. */
  ghost predicate Sourced<K(!new), V>(s: State<K, V>) {
    && (forall k :: k in s.entries && s.entries[k].value.Some? ==>
          Delivered(s, k, s.entries[k].value.value, s.entries[k].expiresAt))
    && (forall f :: f in s.delivered ==> f < s.next && f !in s.running)
  }

  ghost predicate Inv<K(!new), V>(s: State<K, V>) {
    Linked(s.entries, s.running, s.next) && Sourced(s)
  }

  lemma LinkedStep<K(!new), V>(s: State<K, V>, e: Event<K, V>)
    requires Linked(s.entries, s.running, s.next)
    ensures Linked(Step(s, e).entries, Step(s, e).running, Step(s, e).next)
  {
  }

  lemma DeliveredStays<K(!new), V>(s: State<K, V>, t: State<K, V>, key: K, value: V, until: Time)
    requires Delivered(s, key, value, until) && t.ttl == s.ttl
    requires forall f :: f in s.delivered ==> f in t.delivered && t.delivered[f] == s.delivered[f]
    ensures Delivered(t, key, value, until)
  {
    var f :| f in s.delivered && s.delivered[f] == Delivery(key, value, until - s.ttl);
    assert f in t.delivered && t.delivered[f] == s.delivered[f];
  }

  lemma SourcedStep<K(!new), V>(s: State<K, V>, e: Event<K, V>)
    requires Inv(s)
    ensures Sourced(Step(s, e))
  {
    var t := Step(s, e);
    forall k | k in t.entries && t.entries[k].value.Some?
      ensures Delivered(t, k, t.entries[k].value.value, t.entries[k].expiresAt)
    {
      if e.Resolved? && e.fetch in s.running && k == s.running[e.fetch] {
        assert t.delivered[e.fetch] == Delivery(k, e.value, t.entries[k].expiresAt - t.ttl);
      } else {
        DeliveredStays(s, t, k, t.entries[k].value.value, t.entries[k].expiresAt);
      }
    }
  }

  lemma {:induction false} RunKeeps<K(!new), V>(ttl: Time, events: seq<Event<K, V>>)
    ensures Inv(Run(Initial(ttl), events)) && Run(Initial<K, V>(ttl), events).ttl == ttl
  {
    if events != [] {
      RunKeeps(ttl, events[..|events| - 1]);
      LinkedStep(Run(Initial(ttl), events[..|events| - 1]), events[|events| - 1]);
      SourcedStep(Run(Initial(ttl), events[..|events| - 1]), events[|events| - 1]);
    }
  }

  /** In every run at most one fetch per key is running, and it is the entry's pending one. */
  lemma SingleFlight<K(!new), V>(ttl: Time, events: seq<Event<K, V>>, f: Fetch, g: Fetch)
    ensures
      var s := Run(Initial<K, V>(ttl), events);
      && (f in s.running && g in s.running && s.running[f] == s.running[g] ==> f == g)
      && (f in s.running ==> s.running[f] in s.entries && s.entries[s.running[f]].pending == Some(f))
  {
    RunKeeps(ttl, events);
  }

  /** What a call is given comes from a fetch that delivered less than one lifetime before, or
      from the one fetch running for the key, or from one the call starts because none is running
      and no delivery is that young. */
  lemma AnswersAreFresh<K(!new), V>(ttl: Time, events: seq<Event<K, V>>, key: K, now: Time)
    ensures
      var s := Run(Initial<K, V>(ttl), events);
      var t := Step(s, Called(key, now));
      match Call(s.entries, key, now, s.next).1
      case Hit(value) =>
        t == s && exists f :: f in s.delivered && s.delivered[f].key == key && s.delivered[f].value == value
                              && now < s.delivered[f].at + ttl
      case Promise(f, started) =>
        && f in t.running && t.running[f] == key
        && (if started
            then f !in s.running && f !in s.delivered && (forall g :: g in s.running ==> s.running[g] != key)
            else t == s)
  {
    RunKeeps(ttl, events);
    var s := Run(Initial<K, V>(ttl), events);
    if key in s.entries && s.entries[key].value.Some? {
      assert Delivered(s, key, s.entries[key].value.value, s.entries[key].expiresAt);
    }
  }

  /** A fetch starts only when its key has no entry, or holds a value whose lifetime is over. */
  lemma StartsOnlyWhenStale<K(!new), V>(ttl: Time, events: seq<Event<K, V>>, key: K, now: Time)
    ensures
      var s := Run(Initial<K, V>(ttl), events);
      var answer := Call(s.entries, key, now, s.next).1;
      (answer.Promise? && answer.started) <==>
        key !in s.entries || (s.entries[key].pending == None && s.entries[key].expiresAt <= now)
  {
    RunKeeps(ttl, events);
  }

  /** A failed fetch leaves no entry for its key and every other key alone, so the next call for
      that key starts afresh. */
  lemma FailureClears<K(!new), V>(ttl: Time, events: seq<Event<K, V>>, f: Fetch, now: Time)
    requires f in Run(Initial<K, V>(ttl), events).running
    ensures
      var s := Run(Initial<K, V>(ttl), events);
      var t := Step(s, Rejected(f));
      && s.running[f] in s.entries && t.entries == s.entries - {s.running[f]}
      && Call(t.entries, s.running[f], now, t.next).1 == Promise(t.next, true)
  {
    RunKeeps(ttl, events);
  }

  // ----- How often fetches start

  /** Fetches for `key` that start during a run, and fetches for it that fail. */
  function Starts<K(==), V>(s: State<K, V>, events: seq<Event<K, V>>, key: K): nat
    decreases |events|
  {
    if events == [] then 0
    else Starts(Step(s, events[0]), events[1..], key) + if StartsFetch(s, events[0], key) then 1 else 0
  }

  function Failures<K(==), V>(s: State<K, V>, events: seq<Event<K, V>>, key: K): nat
    decreases |events|
  {
    if events == [] then 0
    else Failures(Step(s, events[0]), events[1..], key) + if FailsFetch(s, events[0], key) then 1 else 0
  }

  predicate StartsFetch<K(==), V>(s: State<K, V>, e: Event<K, V>, key: K) {
    e.Called? && e.key == key && var answer := Call(s.entries, key, e.now, s.next).1; answer.Promise? && answer.started
  }

  predicate FailsFetch<K(==), V>(s: State<K, V>, e: Event<K, V>, key: K) {
    e.Rejected? && e.fetch in s.running && s.running[e.fetch] == key
  }

  /** The events of a window, in the order of their times; a failure carries none. */
  ghost predicate InWindow<K, V>(events: seq<Event<K, V>>, start: Time, end: Time) {
    && (forall i :: 0 <= i < |events| && !events[i].Rejected? ==> start <= events[i].now <= end)
    && (forall i, j :: 0 <= i < j < |events| && !events[i].Rejected? && !events[j].Rejected? ==> events[i].now <= events[j].now)
  }

  /** Starts still to come up to `end`, when the next event is not before `start`: one for every
      lifetime that fits after the running fetch, the cached value or the present moment. */
  function Budget<K(==), V>(s: State<K, V>, key: K, start: Time, end: Time): int
    requires s.ttl > 0 && start <= end
  {
    if key in s.entries && s.entries[key].pending.Some? then (end - start) / s.ttl
    else
      var from := if key in s.entries && s.entries[key].expiresAt > start then s.entries[key].expiresAt else start;
      if from > end then 0 else 1 + (end - from) / s.ttl
  }

  lemma BudgetLater<K(!new), V>(s: State<K, V>, key: K, start: Time, later: Time, end: Time)
    requires s.ttl > 0 && start <= later <= end
    ensures 0 <= Budget(s, key, later, end) <= Budget(s, key, start, end)
  {
    DivideLess(end - later, end - start, s.ttl);
    if key in s.entries && s.entries[key].pending == None && later < s.entries[key].expiresAt <= end {
      DivideLess(end - s.entries[key].expiresAt, end - start, s.ttl);
    } else if key in s.entries && start < s.entries[key].expiresAt <= later {
      DivideLess(end - later, end - s.entries[key].expiresAt, s.ttl);
    }
  }

  /** What one event does to the budget, at the moment it happens. */
  lemma BudgetStep<K(!new), V>(s: State<K, V>, e: Event<K, V>, key: K, now: Time, end: Time)
    requires Inv(s) && s.ttl > 0 && now <= end
    requires e.Rejected? || e.now == now
    ensures Step(s, e).ttl == s.ttl
    ensures Budget(Step(s, e), key, now, end) + (if StartsFetch(s, e, key) then 1 else 0)
            <= Budget(s, key, now, end) + (if FailsFetch(s, e, key) then 1 else 0)
  {
    DivideLess(0, end - now, s.ttl);
    if e.Resolved? && e.fetch in s.running && s.running[e.fetch] == key && now + s.ttl <= end {
      DivideStep(end - now, s.ttl);
    }
  }

  lemma {:induction false} StartsWithinBudget<K(!new), V>(s: State<K, V>, events: seq<Event<K, V>>, key: K, start: Time, end: Time)
    requires Inv(s) && s.ttl > 0 && start <= end && InWindow(events, start, end)
    ensures Starts(s, events, key) <= Budget(s, key, start, end) + Failures(s, events, key)
    decreases |events|
  {
    BudgetLater(s, key, start, start, end);
    if events != [] {
      var e := events[0];
      var now := if e.Rejected? then start else e.now;
      var t := Step(s, e);
      BudgetLater(s, key, start, now, end);
      BudgetStep(s, e, key, now, end);
      LinkedStep(s, e);
      SourcedStep(s, e);
      assert InWindow(events[1..], now, end);
      StartsWithinBudget(t, events[1..], key, now, end);
    }
  }

  /** Whatever the callers do, in any window of length T of any run at most T / ttl + 1 fetches,
      rounded down, start for a key, plus one for each that failed. */
  lemma FetchesAreRare<K(!new), V>(
      ttl: Time, before: seq<Event<K, V>>, window: seq<Event<K, V>>, key: K, start: Time, length: nat)
    requires ttl > 0 && InWindow(window, start, start + length)
    ensures
      var s := Run(Initial<K, V>(ttl), before);
      Starts(s, window, key) <= length / ttl + 1 + Failures(s, window, key)
  {
    RunKeeps(ttl, before);
    hide Run, Inv, Budget, Starts, Failures;
    var s := Run(Initial<K, V>(ttl), before);
    StartsWithinBudget(s, window, key, start, start + length);
    BudgetAtMost(s, key, start, length);
  }

  lemma BudgetAtMost<K(!new), V>(s: State<K, V>, key: K, start: Time, length: nat)
    requires s.ttl > 0
    ensures Budget(s, key, start, start + length) <= length / s.ttl + 1
  {
    DivideLess(0, length, s.ttl);
    if key in s.entries && start < s.entries[key].expiresAt <= start + length {
      DivideLess(start + length - s.entries[key].expiresAt, length, s.ttl);
    }
  }
}
