/** One broker subscription: its bounded queue, as a function of what happens to it. */
module SubscriptionQueue {
  import opened Messages

  datatype Message<P> = Message(topic: string, payload: P)

  /** The fields of a subscription; `queue` is the content of its Go channel. */
  datatype Sub<P> = Sub(topics: set<string>, closed: bool, queue: seq<Message<P>>)

  predicate Wants<P>(s: Sub<P>, m: Message<P>) {
    !s.closed && m.topic in s.topics
  }

  function Offer<P>(s: Sub<P>, m: Message<P>): Sub<P> {
    if Wants(s, m) && |s.queue| < SLOTS then s.(queue := s.queue + [m]) else s
  }

  datatype Event<P> =
    | Publish(message: Message<P>)
    | Receive
    | Unsubscribe(topics: set<string>)
    | Close

  /** A subscription with its history: what was published on its topics while it was open, and what was read. */
  datatype History<P> = History(sub: Sub<P>, offered: seq<Message<P>>, received: seq<Message<P>>)

  function Next<P>(h: History<P>, e: Event<P>): History<P> {
    match e
    case Publish(m) =>
      History(Offer(h.sub, m), if Wants(h.sub, m) then h.offered + [m] else h.offered, h.received)
    case Receive =>
      if h.sub.queue == [] then h
      else History(h.sub.(queue := h.sub.queue[1..]), h.offered, h.received + [h.sub.queue[0]])
    case Unsubscribe(ts) => h.(sub := h.sub.(topics := h.sub.topics - ts))
    case Close => h.(sub := h.sub.(closed := true))
  }

  function Run<P>(topics: set<string>, events: seq<Event<P>>): History<P> {
    if events == [] then History(Sub(topics, false, []), [], [])
    else Next(Run(topics, events[..|events| - 1]), events[|events| - 1])
  }

  /** Everything that was let into the queue, oldest first. */
  function Accepted<P>(h: History<P>): seq<Message<P>> {
    h.received + h.sub.queue
  }

  /** `a` is `b` with some elements left out. */
  predicate Subsequence<T(==)>(a: seq<T>, b: seq<T>) {
    if a == [] then true
    else if b == [] then false
    else if a[|a| - 1] == b[|b| - 1] && Subsequence(a[..|a| - 1], b[..|b| - 1]) then true
    else Subsequence(a, b[..|b| - 1])
  }

  lemma SubsequenceBoth<T>(a: seq<T>, b: seq<T>, x: T)
    requires Subsequence(a, b)
    ensures Subsequence(a + [x], b + [x])
  {
    assert (a + [x])[..|a|] == a && (b + [x])[..|b|] == b;
  }

  lemma SubsequenceSkip<T>(a: seq<T>, b: seq<T>, x: T)
    requires Subsequence(a, b)
    ensures Subsequence(a, b + [x])
  {
    assert (b + [x])[..|b|] == b;
    if a != [] && a[|a| - 1] == x {
      SubsequenceInit(a, b);
    }
  }

  lemma {:induction false} SubsequenceInit<T>(a: seq<T>, b: seq<T>)
    requires a != [] && Subsequence(a, b)
    ensures Subsequence(a[..|a| - 1], b)
  {
    var b' := b[..|b| - 1];
    assert b == b' + [b[|b| - 1]];
    var a' := a[..|a| - 1];
    if a' != [] {
      if a[|a| - 1] == b[|b| - 1] && Subsequence(a', b') {
        if a'[|a'| - 1] == b[|b| - 1] {
          SubsequenceInit(a', b');
        }
      } else {
        SubsequenceInit(a, b');
        if a'[|a'| - 1] == b[|b| - 1] {
          SubsequenceInit(a', b');
        }
      }
    }
  }

  lemma {:induction false} SubsequenceLength<T>(a: seq<T>, b: seq<T>)
    requires Subsequence(a, b)
    ensures |a| <= |b|
    ensures |a| == |b| ==> a == b
  {
    if a != [] {
      var a', b' := a[..|a| - 1], b[..|b| - 1];
      if a[|a| - 1] == b[|b| - 1] && Subsequence(a', b') {
        SubsequenceLength(a', b');
        assert a == a' + [a[|a| - 1]] && b == b' + [b[|b| - 1]];
      } else {
        SubsequenceLength(a, b');
      }
    }
  }

  /** Some message it wanted found the queue full. */
  ghost predicate Overflowed<P>(topics: set<string>, events: seq<Event<P>>) {
    exists i :: 0 <= i < |events| && DropsAt(topics, events, i)
  }

  predicate DropsAt<P>(topics: set<string>, events: seq<Event<P>>, i: nat)
    requires i < |events|
  {
    var s := Run(topics, events[..i]).sub;
    events[i].Publish? && Wants(s, events[i].message) && |s.queue| >= SLOTS
  }

  ghost predicate InOrder<P>(h: History<P>) {
    Subsequence(Accepted(h), h.offered) && |h.sub.queue| <= SLOTS
  }

  lemma PublishAccepts<P>(h: History<P>, m: Message<P>)
    ensures var h' := Next(h, Publish(m));
            Accepted(h') == if Wants(h.sub, m) && |h.sub.queue| < SLOTS then Accepted(h) + [m] else Accepted(h)
  {
    assert Accepted(h) + [m] == h.received + (h.sub.queue + [m]);
  }

  lemma NextInOrder<P>(h: History<P>, e: Event<P>)
    requires InOrder(h)
    ensures InOrder(Next(h, e))
  {
    match e
    case Publish(m) =>
      PublishAccepts(h, m);
      hide Accepted, Subsequence;
      if Wants(h.sub, m) {
        SubsequenceBoth(Accepted(h), h.offered, m);
        SubsequenceSkip(Accepted(h), h.offered, m);
      }
    case Receive =>
      ReceiveAccepts(h);
    case Unsubscribe(_) =>
    case Close =>
  }

  /** Reading moves a message from the queue to the reader and changes nothing else. */
  lemma ReceiveAccepts<P>(h: History<P>)
    ensures Accepted(Next(h, Receive)) == Accepted(h)
  {
    if h.sub.queue != [] {
      assert (h.received + [h.sub.queue[0]]) + h.sub.queue[1..] == Accepted(h);
    }
  }

  lemma {:induction false} AcceptedInOrder<P>(topics: set<string>, events: seq<Event<P>>)
    ensures InOrder(Run(topics, events))
  {
    if events != [] {
      AcceptedInOrder(topics, events[..|events| - 1]);
      NextInOrder(Run(topics, events[..|events| - 1]), events[|events| - 1]);
    }
  }

  lemma {:induction false} DroppedCounted<P>(topics: set<string>, events: seq<Event<P>>)
    ensures var h := Run(topics, events);
            |Accepted(h)| <= |h.offered| && (|Accepted(h)| == |h.offered| <==> !Overflowed(topics, events))
  {
    if events != [] {
      var n := |events| - 1;
      var most := events[..n];
      DroppedCounted(topics, most);
      hide Subsequence;
      assert Overflowed(topics, events) <==> Overflowed(topics, most) || DropsAt(topics, events, n) by {
        forall i | 0 <= i < n ensures DropsAt(topics, events, i) == DropsAt(topics, most, i) {
          assert events[..i] == most[..i];
        }
      }
    }
  }

  /**
   * What a subscription reads, and then still holds, is an in-order part of what was published on its
   * topics while it was open; it is all of it exactly when no wanted message ever met a full queue.
   */
  lemma SubscriptionDelivers<P>(topics: set<string>, events: seq<Event<P>>)
    ensures var h := Run(topics, events);
            && Subsequence(Accepted(h), h.offered)
            && (Accepted(h) == h.offered <==> !Overflowed(topics, events))
  {
    AcceptedInOrder(topics, events);
    DroppedCounted(topics, events);
    var h := Run(topics, events);
    SubsequenceLength(Accepted(h), h.offered);
  }

  /** Nothing enters the queue of a closed subscription; what it holds can still be read. */
  lemma {:induction false} NothingAfterClose<P>(topics: set<string>, events: seq<Event<P>>, later: seq<Event<P>>)
    requires Run(topics, events).sub.closed
    ensures var h, h' := Run(topics, events), Run(topics, events + later);
            h'.sub.closed && Accepted(h') == Accepted(h) && h'.offered == h.offered
  {
    if later == [] {
      assert events + later == events;
    } else {
      var n := |later| - 1;
      NothingAfterClose(topics, events, later[..n]);
      var all := events + later;
      assert all[..|all| - 1] == events + later[..n];
      ReceiveAccepts(Run(topics, events + later[..n]));
    }
  }

  /** One more event does to the fields what the broker's method does. */
  lemma OneMoreEvent<P>(topics: set<string>, events: seq<Event<P>>, e: Event<P>)
    ensures e.Publish? ==>
      var h, h' := Run(topics, events), Run(topics, events + [e]);
      var wanted := !h.sub.closed && e.message.topic in h.sub.topics;
      && h'.offered == h.offered + (if wanted then [e.message] else []) && h'.received == h.received
      && h'.sub == h.sub.(queue := h.sub.queue + if wanted && |h.sub.queue| < 256 then [e.message] else [])
    ensures e.Receive? ==>
      var h, h' := Run(topics, events), Run(topics, events + [e]);
      && h.received + h.sub.queue == h'.received + h'.sub.queue && h'.offered == h.offered
      && |h'.sub.queue| == (if h.sub.queue == [] then 0 else |h.sub.queue| - 1)
      && h'.sub.topics == h.sub.topics && h'.sub.closed == h.sub.closed
    ensures e.Unsubscribe? ==>
      var h := Run(topics, events);
      Run(topics, events + [e]) == h.(sub := h.sub.(topics := h.sub.topics - e.topics))
    ensures e.Close? ==>
      var h := Run(topics, events);
      Run(topics, events + [e]) == h.(sub := h.sub.(closed := true))
  {
    assert (events + [e])[..|events|] == events;
    ReceiveAccepts(Run(topics, events));
  }

  function Reads<P>(n: nat): (events: seq<Event<P>>)
    ensures |events| == n
  {
    seq(n, _ => Receive)
  }

  /** Whatever was accepted can be read, oldest first, also after close. */
  lemma {:induction false} ReadsDrain<P>(topics: set<string>, events: seq<Event<P>>, n: nat)
    requires n <= |Run(topics, events).sub.queue|
    ensures var h, h' := Run(topics, events), Run(topics, events + Reads(n));
            h'.received == h.received + h.sub.queue[..n] && h'.sub.queue == h.sub.queue[n..]
  {
    hide Run, Reads;
    MoreReads(events, n);
    if n > 0 {
      ReadsDrain(topics, events, n - 1);
      OneMoreEvent(topics, events + Reads(n - 1), Receive);
      var first, h, h' := Run(topics, events), Run(topics, events + Reads(n - 1)), Run(topics, events + Reads(n));
      OneMoves(h.received, h.sub.queue, h'.received, h'.sub.queue);
      TakesMore(first.received, first.sub.queue, n);
    }
  }

  lemma MoreReads<P>(events: seq<Event<P>>, n: nat)
    ensures events + Reads(n) == if n == 0 then events else events + Reads(n - 1) + [Receive]
  {}

  lemma TakesMore<T>(r: seq<T>, q: seq<T>, n: nat)
    requires 0 < n <= |q|
    ensures r + q[..n - 1] + [q[n - 1..][0]] == r + q[..n] && q[n - 1..][1..] == q[n..]
  {}

  lemma OneMoves<T>(r: seq<T>, q: seq<T>, r': seq<T>, q': seq<T>)
    requires r + q == r' + q' && q != [] && |q'| == |q| - 1
    ensures r' == r + [q[0]] && q' == q[1..]
  {
    assert r' == (r' + q')[..|r'|] && q' == (r' + q')[|r'|..];
    assert r + [q[0]] == (r + q)[..|r| + 1] && q[1..] == (r + q)[|r| + 1..];
  }
}
