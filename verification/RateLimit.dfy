/** The token bucket: `Limiter.Allow` and its exact closed form. */
module RateLimit {

  /** The two fields a limiter changes. */
  datatype Bucket = Bucket(tokens: real, last: real)

  /** What a limiter is created with: tokens per second, burst, and the clock reading of its creation. */
  datatype Policy = Policy(rate: real, capacity: real, created: real)

  /** The token count a call at `now` sees after refilling. */
  function Refill(rate: real, capacity: real, b: Bucket, now: real): real {
    var tokens := b.tokens + rate * (now - b.last);
    if tokens > capacity then capacity else tokens
  }

  lemma RefillIs(rate: real, capacity: real, tokens: real, last: real, now: real)
    ensures var earned := tokens + rate * (now - last);
            Refill(rate, capacity, Bucket(tokens, last), now) == if earned > capacity then capacity else earned
  {}

  function Spend(rate: real, capacity: real, b: Bucket, now: real): Bucket {
    var tokens := Refill(rate, capacity, b, now);
    Bucket(if tokens >= 1.0 then tokens - 1.0 else tokens, now)
  }

  class Limiter {
    const rate: real
    const capacity: real
    var tokens: real
    var lastUpdate: real

    constructor (rate: real, capacity: real, now: real)
      ensures this.rate == rate && this.capacity == capacity
      ensures State() == Bucket(capacity, now)
    {
      this.rate, this.capacity := rate, capacity;
      tokens, lastUpdate := capacity, now;
    }

    function State(): Bucket
      reads this
    {
      Bucket(tokens, lastUpdate)
    }

    method Allow(now: real) returns (allowed: bool)
      modifies this
      ensures var earned := old(tokens) + rate * (now - old(lastUpdate));
              var level := if earned > capacity then capacity else earned;
              && (allowed <==> level >= 1.0)
              && tokens == level - (if allowed then 1.0 else 0.0)
              && lastUpdate == now
      ensures allowed <==> Refill(rate, capacity, old(State()), now) >= 1.0
      ensures State() == Spend(rate, capacity, old(State()), now)
    {
      hide Refill;
      RefillIs(rate, capacity, tokens, lastUpdate, now);
      var elapsed := now - lastUpdate;
      lastUpdate := now;
      assert elapsed * rate == rate * elapsed;
      tokens := tokens + elapsed * rate;
      if tokens > capacity {
        tokens := capacity;
      }
      if tokens >= 1.0 {
        tokens := tokens - 1.0;
        return true;
      }
      return false;
    }
  }

  // A run of one limiter: the clock readings of its calls, in order.

  /** The bucket just before call `j`. */
  function Before(p: Policy, times: seq<real>, j: nat): Bucket
    requires j <= |times|
  {
    if j == 0 then Bucket(p.capacity, p.created)
    else Spend(p.rate, p.capacity, Before(p, times, j - 1), times[j - 1])
  }

  /** The refilled token count that decides call `j`. */
  function Level(p: Policy, times: seq<real>, j: nat): real
    requires j < |times|
  {
    Refill(p.rate, p.capacity, Before(p, times, j), times[j])
  }

  predicate Granted(p: Policy, times: seq<real>, j: nat)
    requires j < |times|
  {
    Level(p, times, j) >= 1.0
  }

  function Decisions(p: Policy, times: seq<real>): (ds: seq<bool>)
    ensures |ds| == |times|
    ensures forall j :: 0 <= j < |ds| ==> ds[j] == Granted(p, times, j)
  {
    DecisionsTo(p, times, |times|)
  }

  function DecisionsTo(p: Policy, times: seq<real>, n: nat): (ds: seq<bool>)
    requires n <= |times|
    ensures |ds| == n
    ensures forall j :: 0 <= j < n ==> ds[j] == Granted(p, times, j)
  {
    if n == 0 then [] else DecisionsTo(p, times, n - 1) + [Granted(p, times, n - 1)]
  }

  /** How many of the decisions `i..j-1` are grants. */
  function Count(ds: seq<bool>, i: nat, j: nat): (n: nat)
    requires i <= j <= |ds|
    ensures n <= j - i
  {
    if i == j then 0 else Count(ds, i, j - 1) + if ds[j - 1] then 1 else 0
  }

  lemma {:induction false} CountSplits(ds: seq<bool>, i: nat, m: nat, j: nat)
    requires i <= m <= j <= |ds|
    ensures Count(ds, i, j) == Count(ds, i, m) + Count(ds, m, j)
  {
    if m < j {
      CountSplits(ds, i, m, j - 1);
    }
  }

  /** What the calls `i..j` may be granted together: the burst and the refill between them. */
  function Allowance(p: Policy, times: seq<real>, i: nat, j: nat): real
    requires i <= j < |times|
  {
    p.capacity + p.rate * (times[j] - times[i])
  }

  /** The same for all calls up to `j`, from the limiter's creation. */
  function AllowanceFromCreation(p: Policy, times: seq<real>, j: nat): real
    requires j < |times|
  {
    p.capacity + p.rate * (times[j] - p.created)
  }

  lemma AllowanceAdds(p: Policy, times: seq<real>, i: nat, m: nat, j: nat)
    requires i <= m <= j < |times|
    ensures Allowance(p, times, i, j) == Allowance(p, times, i, m) + Allowance(p, times, m, j) - p.capacity
  {
    assert p.rate * (times[j] - times[i]) == p.rate * (times[m] - times[i]) + p.rate * (times[j] - times[m]);
  }

  lemma AllowanceFromCreationAdds(p: Policy, times: seq<real>, m: nat, j: nat)
    requires m <= j < |times|
    ensures AllowanceFromCreation(p, times, j) ==
            AllowanceFromCreation(p, times, m) + Allowance(p, times, m, j) - p.capacity
  {
    assert p.rate * (times[j] - p.created) == p.rate * (times[m] - p.created) + p.rate * (times[j] - times[m]);
  }

  lemma RefillGrows(rate: real, from: real, to: real)
    requires rate >= 0.0 && from <= to
    ensures rate * (to - from) >= 0.0
  {}

  /** The allowance of the calls `i..j` less what those before `j` already used. */
  function Window(p: Policy, times: seq<real>, i: nat, j: nat): real
    requires i <= j < |times|
  {
    Allowance(p, times, i, j) - Count(Decisions(p, times), i, j) as real
  }

  function WindowFromCreation(p: Policy, times: seq<real>, j: nat): real
    requires j < |times|
  {
    AllowanceFromCreation(p, times, j) - Count(Decisions(p, times), 0, j) as real
  }

  predicate Monotone(p: Policy, times: seq<real>) {
    && (|times| > 0 ==> p.created <= times[0])
    && (forall i, j :: 0 <= i <= j < |times| ==> times[i] <= times[j])
  }

  /** One refill, in terms of the level of the call before. */
  lemma LevelStep(p: Policy, times: seq<real>, j: nat)
    requires 0 < j < |times|
    ensures var left := Level(p, times, j - 1) - (if Granted(p, times, j - 1) then 1.0 else 0.0)
                        + Allowance(p, times, j - 1, j) - p.capacity;
            Level(p, times, j) == if left > p.capacity then p.capacity else left
  {
    hide Refill;
    var b := Before(p, times, j);
    assert b == Spend(p.rate, p.capacity, Before(p, times, j - 1), times[j - 1]);
    RefillIs(p.rate, p.capacity, b.tokens, times[j - 1], times[j]);
  }

  lemma WindowStep(p: Policy, times: seq<real>, i: nat, j: nat)
    requires i < j < |times|
    ensures Window(p, times, i, j) == Window(p, times, i, j - 1)
              - (if Granted(p, times, j - 1) then 1.0 else 0.0) + Allowance(p, times, j - 1, j) - p.capacity
  {
    hide Allowance;
    AllowanceAdds(p, times, i, j - 1, j);
  }

  lemma {:induction false} LeastWindow(p: Policy, times: seq<real>, j: nat)
    requires j < |times|
    ensures forall i :: 0 <= i <= j ==> Level(p, times, j) <= Window(p, times, i, j)
    ensures Level(p, times, j) <= WindowFromCreation(p, times, j)
    ensures Level(p, times, j) == WindowFromCreation(p, times, j)
            || exists i :: 0 <= i <= j && Level(p, times, j) == Window(p, times, i, j)
  {
    if j == 0 {
      FirstLevel(p, times);
    } else {
      LeastWindow(p, times, j - 1);
      LevelStep(p, times, j);
      AllowanceFromCreationAdds(p, times, j - 1, j);
      assert Window(p, times, j, j) == p.capacity;
      hide Allowance, AllowanceFromCreation, Level;
      forall i | 0 <= i < j
        ensures Window(p, times, i, j) - Level(p, times, j) >= Window(p, times, i, j - 1) - Level(p, times, j - 1)
        ensures Level(p, times, j) < p.capacity ==>
                  Window(p, times, i, j) - Level(p, times, j) == Window(p, times, i, j - 1) - Level(p, times, j - 1)
      {
        WindowStep(p, times, i, j);
      }
      if Level(p, times, j) == p.capacity {
        assert Level(p, times, j) == Window(p, times, j, j);
      } else if Level(p, times, j - 1) != WindowFromCreation(p, times, j - 1) {
        var i :| 0 <= i <= j - 1 && Level(p, times, j - 1) == Window(p, times, i, j - 1);
        assert Level(p, times, j) == Window(p, times, i, j);
      }
    }
  }

  lemma FirstLevel(p: Policy, times: seq<real>)
    requires |times| > 0
    ensures Window(p, times, 0, 0) == p.capacity
    ensures Level(p, times, 0) ==
            if WindowFromCreation(p, times, 0) > p.capacity then p.capacity else WindowFromCreation(p, times, 0)
  {}

  lemma WindowIs(p: Policy, times: seq<real>, i: nat, j: nat)
    requires i <= j < |times|
    ensures Window(p, times, i, j) ==
            p.capacity + p.rate * (times[j] - times[i]) - Count(Decisions(p, times), i, j) as real
  {
    hide Granted, Decisions, Count;
  }

  lemma WindowFromCreationIs(p: Policy, times: seq<real>, j: nat)
    requires j < |times|
    ensures WindowFromCreation(p, times, j) ==
            p.capacity + p.rate * (times[j] - p.created) - Count(Decisions(p, times), 0, j) as real
  {
    hide Granted, Decisions, Count;
  }

  /** The algebra of the closed form, for any rate and any clock: the level is the least of all windows. */
  lemma LevelIsLeast(p: Policy, times: seq<real>, j: nat)
    requires j < |times|
    ensures forall i :: 0 <= i <= j ==>
      Level(p, times, j) <= p.capacity + p.rate * (times[j] - times[i]) - Count(Decisions(p, times), i, j) as real
    ensures var whole := p.capacity + p.rate * (times[j] - p.created) - Count(Decisions(p, times), 0, j) as real;
            && Level(p, times, j) <= whole
            && (|| Level(p, times, j) == whole
                || exists i ::
                     && 0 <= i <= j
                     && Level(p, times, j) ==
                        p.capacity + p.rate * (times[j] - times[i]) - Count(Decisions(p, times), i, j) as real)
  {
    hide Level, Decisions, Count, Allowance, Window, AllowanceFromCreation, WindowFromCreation;
    LeastWindow(p, times, j);
    WindowFromCreationIs(p, times, j);
    forall i | 0 <= i <= j
      ensures Window(p, times, i, j) ==
              p.capacity + p.rate * (times[j] - times[i]) - Count(Decisions(p, times), i, j) as real
    {
      WindowIs(p, times, i, j);
    }
  }

  lemma LeastFromCalls(p: Policy, times: seq<real>, j: nat)
    requires p.rate >= 0.0 && Monotone(p, times) && j < |times|
    ensures forall i :: 0 <= i <= j ==> Level(p, times, j) <= Window(p, times, i, j)
    ensures exists i :: 0 <= i <= j && Level(p, times, j) == Window(p, times, i, j)
  {
    hide Allowance, AllowanceFromCreation, Level, Decisions, Count;
    LeastWindow(p, times, j);
    LaterStart(p, times);
    AllowanceFromCreationAdds(p, times, 0, j);
    assert Window(p, times, 0, j) <= WindowFromCreation(p, times, j);
  }

  lemma LaterStart(p: Policy, times: seq<real>)
    requires p.rate >= 0.0 && Monotone(p, times) && |times| > 0
    ensures AllowanceFromCreation(p, times, 0) >= p.capacity
  {
    RefillGrows(p.rate, p.created, times[0]);
  }

  lemma AllowanceGrows(p: Policy, times: seq<real>, i: nat, j: nat)
    requires p.rate >= 0.0 && Monotone(p, times) && i <= j < |times|
    ensures Allowance(p, times, i, j) >= p.capacity
  {
    RefillGrows(p.rate, times[i], times[j]);
  }

  /** With a clock that never goes back the window from creation is never the tightest. */
  lemma ClosedForm(p: Policy, times: seq<real>, j: nat)
    requires p.rate >= 0.0 && Monotone(p, times) && j < |times|
    ensures forall i :: 0 <= i <= j ==>
      Level(p, times, j) <= p.capacity + p.rate * (times[j] - times[i]) - Count(Decisions(p, times), i, j) as real
    ensures exists i ::
      && 0 <= i <= j
      && Level(p, times, j) == p.capacity + p.rate * (times[j] - times[i]) - Count(Decisions(p, times), i, j) as real
  {
    hide Level, Decisions, Count, Monotone, Allowance, Window;
    LeastFromCalls(p, times, j);
    forall i | 0 <= i <= j
      ensures Window(p, times, i, j) ==
              p.capacity + p.rate * (times[j] - times[i]) - Count(Decisions(p, times), i, j) as real
    {
      WindowIs(p, times, i, j);
    }
  }

  /** Granting call `j` would take the calls `i..j` over their allowance. */
  predicate WouldOverfill(p: Policy, times: seq<real>, i: nat, j: nat)
    requires i <= j < |times|
  {
    (Count(Decisions(p, times), i, j) + 1) as real > Allowance(p, times, i, j)
  }

  /** The decisions `ds` keep the calls `i..j` within their allowance. */
  predicate Keeps(p: Policy, times: seq<real>, ds: seq<bool>, i: nat, j: nat)
    requires i <= j < |times| == |ds|
  {
    Count(ds, i, j + 1) == 0 || Count(ds, i, j + 1) as real <= Allowance(p, times, i, j)
  }

  lemma OverfillIff(p: Policy, times: seq<real>, j: nat)
    requires p.rate >= 0.0 && Monotone(p, times) && j < |times|
    ensures !Granted(p, times, j) <==> exists i :: 0 <= i <= j && WouldOverfill(p, times, i, j)
  {
    LeastFromCalls(p, times, j);
    assert Granted(p, times, j) <==> Level(p, times, j) >= 1.0;
    hide Allowance, Level, Granted, Decisions, Count, Monotone;
    forall i | 0 <= i <= j
      ensures Window(p, times, i, j) < 1.0 <==> WouldOverfill(p, times, i, j)
    {}
    if !Granted(p, times, j) {
      var i :| 0 <= i <= j && Level(p, times, j) == Window(p, times, i, j);
      assert WouldOverfill(p, times, i, j);
    }
  }

  lemma OverfillIs(p: Policy, times: seq<real>, i: nat, j: nat)
    requires i <= j < |times|
    ensures WouldOverfill(p, times, i, j) <==>
            Count(Decisions(p, times), i, j) as real + 1.0 > p.capacity + p.rate * (times[j] - times[i])
  {
    hide Granted, Decisions, Count;
  }

  /** A call is denied exactly when granting it would overfill some window that ends there. */
  lemma DeniedIff(p: Policy, times: seq<real>, j: nat)
    requires p.rate >= 0.0 && Monotone(p, times) && j < |times|
    ensures !Decisions(p, times)[j] <==>
            exists i ::
              && 0 <= i <= j
              && Count(Decisions(p, times), i, j) as real + 1.0 > p.capacity + p.rate * (times[j] - times[i])
  {
    OverfillIff(p, times, j);
    hide Granted, Decisions, Count, Monotone, WouldOverfill;
    forall i | 0 <= i <= j
      ensures WouldOverfill(p, times, i, j) <==>
              Count(Decisions(p, times), i, j) as real + 1.0 > p.capacity + p.rate * (times[j] - times[i])
    {
      OverfillIs(p, times, i, j);
    }
  }

  /** A burst of calls up to the capacity is granted from the start. */
  lemma BurstIsGranted(p: Policy, times: seq<real>, j: nat)
    requires p.rate >= 0.0 && Monotone(p, times) && j < |times| && (j + 1) as real <= p.capacity
    ensures Decisions(p, times)[j]
  {
    OverfillIff(p, times, j);
    hide Monotone, Allowance, Granted;
    forall i | 0 <= i <= j ensures !WouldOverfill(p, times, i, j) {
      AllowanceGrows(p, times, i, j);
    }
  }

  /** `ds` never grants more than the burst plus the refill in any window that has a grant. */
  ghost predicate Conforms(p: Policy, times: seq<real>, ds: seq<bool>)
    requires |ds| == |times|
  {
    forall i, j :: 0 <= i <= j < |times| ==> Keeps(p, times, ds, i, j)
  }

  lemma {:induction false} WindowHolds(p: Policy, times: seq<real>, i: nat, j: nat)
    requires p.rate >= 0.0 && Monotone(p, times) && i <= j < |times|
    ensures Keeps(p, times, Decisions(p, times), i, j)
    decreases j
  {
    hide Allowance, Granted;
    if Granted(p, times, j) {
      OverfillIff(p, times, j);
      assert !WouldOverfill(p, times, i, j);
    } else if i < j {
      WindowHolds(p, times, i, j - 1);
      AllowanceAdds(p, times, i, j - 1, j);
      AllowanceGrows(p, times, j - 1, j);
    }
  }

  /** No window of calls is ever granted more than its allowance. */
  lemma LimiterConforms(p: Policy, times: seq<real>)
    requires p.rate >= 0.0 && Monotone(p, times)
    ensures Conforms(p, times, Decisions(p, times))
  {
    forall i, j | 0 <= i <= j < |times|
      ensures Keeps(p, times, Decisions(p, times), i, j)
    {
      WindowHolds(p, times, i, j);
    }
  }

  /** And no conforming decider, online or not, ever gets ahead of it. */
  lemma {:induction false} LimiterIsOptimal(p: Policy, times: seq<real>, other: seq<bool>, j: nat)
    requires p.rate >= 0.0 && Monotone(p, times)
    requires |other| == |times| && Conforms(p, times, other)
    requires j <= |times|
    ensures Count(other, 0, j) <= Count(Decisions(p, times), 0, j)
    decreases j
  {
    hide Allowance, Granted;
    if j > 0 {
      var ds := Decisions(p, times);
      LimiterIsOptimal(p, times, other, j - 1);
      if other[j - 1] && !ds[j - 1] {
        OverfillIff(p, times, j - 1);
        var i :| 0 <= i <= j - 1 && WouldOverfill(p, times, i, j - 1);
        assert Keeps(p, times, other, i, j - 1);
        assert Count(other, i, j) <= Count(ds, i, j - 1);
        LimiterIsOptimal(p, times, other, i);
        CountSplits(other, 0, i, j);
        CountSplits(ds, 0, i, j - 1);
      }
    }
  }
}
