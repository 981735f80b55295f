/** `KeyedLimiter`: one bucket per key, created on first use under a double-checked lock. */
module KeyedRateLimit {
  import opened RateLimit

  class KeyedLimiter {
    const rate: real
    const capacity: real
    var limiters: map<string, Limiter>

    ghost predicate Valid()
      reads this, limiters.Values
    {
      && (forall k :: k in limiters ==> limiters[k].rate == rate && limiters[k].capacity == capacity)
      && (forall k, k' :: k in limiters && k' in limiters && k != k' ==> limiters[k] != limiters[k'])
    }

    ghost function Buckets(): map<string, Bucket>
      reads this, limiters.Values
    {
      map k | k in limiters :: limiters[k].State()
    }

    constructor (rate: real, capacity: real)
      ensures Valid() && Buckets() == map[]
    {
      this.rate, this.capacity, limiters := rate, capacity, map[];
    }

    /** `created` and `now` are the clock readings of a creation and of the decision. A new key's bucket is full. */
    method Allow(key: string, created: real, now: real) returns (allowed: bool)
      requires Valid()
      modifies this, limiters.Values
      ensures Valid() && fresh(limiters.Values - old(limiters.Values))
      ensures var b := if key in old(limiters) then old(Buckets())[key] else Bucket(capacity, created);
              && (allowed <==> Refill(rate, capacity, b, now) >= 1.0)
              && Buckets() == old(Buckets())[key := Spend(rate, capacity, b, now)]
    {
      if key !in limiters {
        var lim := new Limiter(rate, capacity, created);
        limiters := limiters[key := lim];
      }
      var lim := limiters[key];
      allowed := lim.Allow(now);
    }
  }

  // Many goroutines inside `Allow` at once. Each lock-protected section is one event.

  datatype Phase =
    | Started(key: string)              // before the read-locked lookup
    | Missed(key: string)               // the lookup found nothing; before the write lock
    | Holding(key: string, slot: nat)   // has a limiter; before its `Allow`

  datatype Call = Call(key: string, time: real, granted: bool)

  /** `limiters` maps a key to a limiter object; `buckets` holds the objects' state by address. */
  datatype State = State(limiters: map<string, nat>, buckets: seq<Bucket>, callers: map<nat, Phase>,
                         clock: real, log: seq<Call>)

  datatype Event =
    | Arrive(caller: nat, key: string)
    | Lookup(caller: nat)
    | Create(caller: nat)
    | Decide(caller: nat)
    | Tick(elapsed: real)

  function Next(p: Policy, s: State, e: Event): State {
    match e
    case Arrive(c, key) =>
      if c in s.callers then s else s.(callers := s.callers[c := Started(key)])
    case Lookup(c) =>
      if c in s.callers && s.callers[c].Started? then
        var key := s.callers[c].key;
        s.(callers := s.callers[c := if key in s.limiters then Holding(key, s.limiters[key]) else Missed(key)])
      else s
    case Create(c) =>
      if c in s.callers && s.callers[c].Missed? then
        var key := s.callers[c].key;
        if key in s.limiters then s.(callers := s.callers[c := Holding(key, s.limiters[key])])
        else
          s.(limiters := s.limiters[key := |s.buckets|],
             buckets := s.buckets + [Bucket(p.capacity, s.clock)],
             callers := s.callers[c := Holding(key, |s.buckets|)])
      else s
    case Decide(c) =>
      if c in s.callers && s.callers[c].Holding? && s.callers[c].slot < |s.buckets| then
        var Holding(key, slot) := s.callers[c];
        var b := s.buckets[slot];
        s.(buckets := s.buckets[slot := Spend(p.rate, p.capacity, b, s.clock)],
           callers := s.callers - {c},
           log := s.log + [Call(key, s.clock, Refill(p.rate, p.capacity, b, s.clock) >= 1.0)])
      else s
    case Tick(dt) =>
      if dt >= 0.0 then s.(clock := s.clock + dt) else s
  }

  /** The state after a run of events, from an empty limiter created at `p.created`. */
  function Run(p: Policy, events: seq<Event>): State {
    if events == [] then State(map[], [], map[], p.created, [])
    else Next(p, Run(p, events[..|events| - 1]), events[|events| - 1])
  }

  /** The keys' buckets, as a `KeyedLimiter` has them. */
  ghost function BucketsOf(s: State): map<string, Bucket> {
    map k | k in s.limiters && s.limiters[k] < |s.buckets| :: s.buckets[s.limiters[k]]
  }

  /** One caller's sections up to its limiter, with nobody in between. */
  function Held(p: Policy, s: State, c: nat, key: string): State {
    Next(p, Next(p, Next(p, s, Arrive(c, key)), Lookup(c)), Create(c))
  }

  /** The whole call; it decides `elapsed` after it looked the key up. */
  function Alone(p: Policy, s: State, c: nat, key: string, elapsed: real): State {
    Next(p, Next(p, Held(p, s, c, key), Tick(elapsed)), Decide(c))
  }

  /** A known key is held after the lookup; nothing is created for it. */
  lemma KnownIsHeld(p: Policy, s: State, c: nat, key: string)
    requires c !in s.callers && key in s.limiters
    ensures Held(p, s, c, key) == Next(p, Next(p, s, Arrive(c, key)), Lookup(c))
  {}

  lemma NewIsHeld(p: Policy, s: State, c: nat, key: string)
    requires c !in s.callers && key !in s.limiters
    ensures Held(p, s, c, key) ==
            s.(limiters := s.limiters[key := |s.buckets|], buckets := s.buckets + [Bucket(p.capacity, s.clock)],
               callers := s.callers[c := Holding(key, |s.buckets|)])
  {
    assert s.callers[c := Started(key)][c := Missed(key)][c := Holding(key, |s.buckets|)] ==
           s.callers[c := Holding(key, |s.buckets|)];
  }

  lemma HeldIs(p: Policy, s: State, c: nat, key: string)
    requires OneBucketPerKey(s) && c !in s.callers
    requires forall k :: k in s.limiters ==> s.limiters[k] < |s.buckets|
    ensures var b := if key in s.limiters then BucketsOf(s)[key] else Bucket(p.capacity, s.clock);
            var s' := Held(p, s, c, key);
            && key in s'.limiters && s'.callers == s.callers[c := Holding(key, s'.limiters[key])]
            && (forall k :: k in s'.limiters ==> s'.limiters[k] < |s'.buckets|)
            && (forall k :: k in s'.limiters && k != key ==> s'.limiters[k] != s'.limiters[key])
            && BucketsOf(s') == BucketsOf(s)[key := b] && s'.clock == s.clock && s'.log == s.log
  {
    if key in s.limiters {
      KnownIsHeld(p, s, c, key);
    } else {
      NewIsHeld(p, s, c, key);
      hide Next;
    }
  }

  /** Together the sections do to the buckets what `KeyedLimiter.Allow` does, and log its answer. */
  lemma AloneIsAllow(p: Policy, s: State, c: nat, key: string, elapsed: real)
    requires OneBucketPerKey(s) && c !in s.callers && elapsed >= 0.0
    requires forall k :: k in s.limiters ==> s.limiters[k] < |s.buckets|
    ensures var b := if key in s.limiters then BucketsOf(s)[key] else Bucket(p.capacity, s.clock);
            var s', now := Alone(p, s, c, key, elapsed), s.clock + elapsed;
            && BucketsOf(s') == BucketsOf(s)[key := Spend(p.rate, p.capacity, b, now)]
            && s'.log == s.log + [Call(key, now, Refill(p.rate, p.capacity, b, now) >= 1.0)]
            && s'.callers == s.callers && s'.clock == now
  {
    hide Spend, Refill, Held, OneBucketPerKey;
    HeldIs(p, s, c, key);
    assert BucketsOf(Held(p, s, c, key))[key] == Held(p, s, c, key).buckets[Held(p, s, c, key).limiters[key]];
  }

  /** When the calls for one key were decided. */
  function Times(log: seq<Call>, key: string): seq<real> {
    if log == [] then []
    else
      var last := log[|log| - 1];
      Times(log[..|log| - 1], key) + if last.key == key then [last.time] else []
  }

  /** And how. */
  function Outcomes(log: seq<Call>, key: string): seq<bool> {
    if log == [] then []
    else
      var last := log[|log| - 1];
      Outcomes(log[..|log| - 1], key) + if last.key == key then [last.granted] else []
  }

  /** The key's bucket is where a private limiter, full since `p.created`, would be after the key's calls. */
  ghost predicate Tracks(p: Policy, s: State, key: string) {
    var ts := Times(s.log, key);
    if key in s.limiters then
      && s.limiters[key] < |s.buckets|
      && (var b := s.buckets[s.limiters[key]];
          if ts == [] then b.tokens == p.capacity && p.created <= b.last <= s.clock
          else b == Before(p, ts, |ts|))
    else ts == []
  }

  ghost predicate OneBucketPerKey(s: State) {
    && (forall k, k' :: k in s.limiters && k' in s.limiters && k != k' ==> s.limiters[k] != s.limiters[k'])
    && (forall c :: c in s.callers && s.callers[c].Holding? ==>
          s.callers[c].key in s.limiters && s.limiters[s.callers[c].key] == s.callers[c].slot)
  }

  ghost predicate Punctual(p: Policy, s: State, key: string) {
    var ts := Times(s.log, key);
    Monotone(p, ts) && (ts != [] ==> ts[|ts| - 1] <= s.clock)
  }

  ghost predicate Inv(p: Policy, s: State) {
    && p.created <= s.clock
    && OneBucketPerKey(s)
    && (forall key :: Tracks(p, s, key))
    && (forall key :: Outcomes(s.log, key) == Decisions(p, Times(s.log, key)))
    && (forall key :: Punctual(p, s, key))
  }

  lemma {:induction false} BeforePrefix(p: Policy, ts: seq<real>, t: real, j: nat)
    requires j <= |ts|
    ensures Before(p, ts + [t], j) == Before(p, ts, j)
  {
    if j > 0 {
      BeforePrefix(p, ts, t, j - 1);
    }
  }

  lemma DecisionsPrefix(p: Policy, ts: seq<real>, t: real)
    ensures Decisions(p, ts + [t])[..|ts|] == Decisions(p, ts)
  {
    forall j | 0 <= j < |ts|
      ensures Granted(p, ts + [t], j) == Granted(p, ts, j)
    {
      BeforePrefix(p, ts, t, j);
    }
  }

  /** One more call of a private limiter. */
  lemma PrivateStep(p: Policy, ts: seq<real>, t: real)
    ensures Decisions(p, ts + [t]) ==
            Decisions(p, ts) + [Refill(p.rate, p.capacity, Before(p, ts, |ts|), t) >= 1.0]
    ensures Before(p, ts + [t], |ts| + 1) == Spend(p.rate, p.capacity, Before(p, ts, |ts|), t)
  {
    hide Spend;
    BeforePrefix(p, ts, t, |ts|);
    DecisionsPrefix(p, ts, t);
    var ds := Decisions(p, ts + [t]);
    assert ds == ds[..|ts|] + [ds[|ts|]];
    assert (ts + [t])[|ts|] == t;
  }

  /** A bucket created late but never used decides like one that was full from the start. */
  lemma LateIsFull(p: Policy, b: Bucket, now: real)
    requires p.rate >= 0.0 && b.tokens == p.capacity && p.created <= b.last <= now
    ensures Refill(p.rate, p.capacity, b, now) == p.capacity
    ensures Refill(p.rate, p.capacity, Bucket(p.capacity, p.created), now) == p.capacity
  {
    RefillGrows(p.rate, b.last, now);
    RefillGrows(p.rate, p.created, now);
  }

  lemma DecideKeepsInv(p: Policy, s: State, c: nat)
    requires p.rate >= 0.0 && Inv(p, s)
    requires c in s.callers && s.callers[c].Holding?
    ensures Inv(p, Next(p, s, Decide(c)))
  {
    var Holding(key, slot) := s.callers[c];
    var s' := Next(p, s, Decide(c));
    assert Tracks(p, s, key);
    DecideOwnKey(p, s, c);
    hide Refill, Decisions, Spend, Tracks, Punctual, Times, Outcomes;
    forall k
      ensures Tracks(p, s', k) && Punctual(p, s', k)
      ensures Outcomes(s'.log, k) == Decisions(p, Times(s'.log, k))
    {
      if k != key { DecideOtherKey(p, s, c, k); }
    }
  }

  /** The decision's own key: the bucket and the log go on as a private limiter's do. */
  lemma DecideOwnKey(p: Policy, s: State, c: nat)
    requires p.rate >= 0.0 && Inv(p, s)
    requires c in s.callers && s.callers[c].Holding?
    ensures var s' := Next(p, s, Decide(c));
            var key := s.callers[c].key;
            && Tracks(p, s', key) && Punctual(p, s', key)
            && Outcomes(s'.log, key) == Decisions(p, Times(s'.log, key))
  {
    var Holding(key, slot) := s.callers[c];
    assert Tracks(p, s, key) && Punctual(p, s, key);
    var b := s.buckets[slot];
    var s' := Next(p, s, Decide(c));
    var ts := Times(s.log, key);
    assert s'.log[..|s'.log| - 1] == s.log;
    if ts == [] {
      LateIsFull(p, b, s.clock);
    }
    assert Refill(p.rate, p.capacity, b, s.clock) == Refill(p.rate, p.capacity, Before(p, ts, |ts|), s.clock);
    assert Spend(p.rate, p.capacity, b, s.clock) == Spend(p.rate, p.capacity, Before(p, ts, |ts|), s.clock);
    PrivateStep(p, ts, s.clock);
    assert Times(s'.log, key) == ts + [s.clock];
    hide Refill, Decisions, Before, Granted, Spend;
  }

  lemma DecideOtherKey(p: Policy, s: State, c: nat, k: string)
    requires Inv(p, s) && c in s.callers && s.callers[c].Holding? && k != s.callers[c].key
    ensures var s' := Next(p, s, Decide(c));
            && Tracks(p, s', k) && Punctual(p, s', k)
            && Outcomes(s'.log, k) == Decisions(p, Times(s'.log, k))
  {
    hide Refill, Spend, Decisions, Before;
    var s' := Next(p, s, Decide(c));
    assert Tracks(p, s, k) && Tracks(p, s, s.callers[c].key) && Punctual(p, s, k);
    assert s'.log[..|s'.log| - 1] == s.log;
    assert Times(s'.log, k) == Times(s.log, k) && Outcomes(s'.log, k) == Outcomes(s.log, k);
  }

  lemma StepKeepsInv(p: Policy, s: State, e: Event)
    requires p.rate >= 0.0 && Inv(p, s)
    ensures Inv(p, Next(p, s, e))
  {
    if e.Decide? && e.caller in s.callers && s.callers[e.caller].Holding? {
      DecideKeepsInv(p, s, e.caller);
    } else {
      var s' := Next(p, s, e);
      assert s'.log == s.log && p.created <= s'.clock;
      QuietOneBucket(p, s, e);
      hide Times, Outcomes, Decisions, Next, Tracks, Punctual, OneBucketPerKey;
      forall k ensures Tracks(p, s', k) && Punctual(p, s', k) {
        QuietTracks(p, s, e, k);
      }
    }
  }

  /** What decides nothing keeps each key's bucket where a private limiter would be. */
  lemma QuietTracks(p: Policy, s: State, e: Event, k: string)
    requires p.created <= s.clock && Tracks(p, s, k) && Punctual(p, s, k)
    requires !(e.Decide? && e.caller in s.callers && s.callers[e.caller].Holding?)
    ensures Tracks(p, Next(p, s, e), k) && Punctual(p, Next(p, s, e), k)
  {
    hide Times, Outcomes, Decisions, Before, Refill, Spend, Monotone;
    assert Next(p, s, e).log == s.log;
  }

  lemma QuietOneBucket(p: Policy, s: State, e: Event)
    requires OneBucketPerKey(s) && forall key :: Tracks(p, s, key)
    requires !(e.Decide? && e.caller in s.callers && s.callers[e.caller].Holding?)
    ensures OneBucketPerKey(Next(p, s, e))
  {
    assert forall key :: key in s.limiters ==> s.limiters[key] < |s.buckets| by {
      forall key | key in s.limiters ensures s.limiters[key] < |s.buckets| { assert Tracks(p, s, key); }
    }
    hide Tracks;
  }

  lemma {:induction false} RunKeepsInv(p: Policy, events: seq<Event>)
    requires p.rate >= 0.0
    ensures Inv(p, Run(p, events))
  {
    if events != [] {
      RunKeepsInv(p, events[..|events| - 1]);
      StepKeepsInv(p, Run(p, events[..|events| - 1]), events[|events| - 1]);
    }
  }

  /** Under every interleaving a key's calls are decided as by one private limiter of its own. */
  lemma KeyDecisionsArePrivate(p: Policy, events: seq<Event>, key: string)
    requires p.rate >= 0.0
    ensures var log := Run(p, events).log;
            Outcomes(log, key) == Decisions(p, Times(log, key))
    ensures OneBucketPerKey(Run(p, events))
  {
    RunKeepsInv(p, events);
  }

  /** So no window of one key's calls ever exceeds its allowance, whatever the goroutines do. */
  lemma KeyConforms(p: Policy, events: seq<Event>, key: string)
    requires p.rate >= 0.0
    ensures var log := Run(p, events).log;
            |Outcomes(log, key)| == |Times(log, key)| && Conforms(p, Times(log, key), Outcomes(log, key))
  {
    RunKeepsInv(p, events);
    assert Punctual(p, Run(p, events), key);
    LimiterConforms(p, Times(Run(p, events).log, key));
  }
}
