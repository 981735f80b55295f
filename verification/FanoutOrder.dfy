/**
 * Order: what one broker subscription delivers, its connections get in the order in which it was published. The
 * subscription's queue is first in, first out, and its one reader fans out one call at a time.
 */
module FanoutOrder {
  import opened ChannelKeys
  import opened HubIndex
  import opened RequestSigning
  import opened HubSteps
  import opened HubTheorems
  import opened Messages
  import opened Fanout
  import opened FanoutInvariant
  import opened FanoutTheorems

  /** All calls that entered the subscription's queue, oldest first. */
  function Entered(t: Traffic, id: nat): seq<nat> {
    Taken(t, id) + Queue(t, id)
  }

  /** They are the accepted ones, each once. */
  ghost predicate EnteredOK(t: Traffic, id: nat) {
    NoDuplicates(Entered(t, id)) && forall k :: k in Entered(t, id) <==> Accepts(t, k, id)
  }

  /** The reader is done with all calls it took but the last. */
  ghost predicate ReaderOK(h: Hubs, t: Traffic, id: nat) {
    IsSub(h, id) ==> forall i :: 0 <= i < |Taken(t, id)| - 1 ==> Handled(t, NodeOf(h, id), Taken(t, id)[i])
  }

  /** Copies of an earlier call come before those of a later one. */
  ghost predicate InOrder(t: Traffic, c: Client, k: nat, k': nat) {
    Before(Sent(t, c), k, k')
  }

  predicate Before(frames: seq<Frame>, k: nat, k': nat) {
    forall a, b ::
      0 <= a < |frames| && 0 <= b < |frames| && frames[a] == Frame.Event(k) && frames[b] == Frame.Event(k') ==> a < b
  }

  predicate Foreign(t: Traffic, k: nat, node: string) {
    k < |t.calls| && t.calls[k].origin != node
  }

  ghost predicate ConnOK(h: Hubs, t: Traffic, c: Client, id: nat, i: nat, j: nat) {
    var e := Entered(t, id);
    IsSub(h, id) && NodeOf(h, id) == c.node && i < j < |e| && Foreign(t, e[i], c.node) && Foreign(t, e[j], c.node) ==>
      InOrder(t, c, e[i], e[j])
  }

  ghost predicate OrderInv(h: Hubs, t: Traffic) {
    && (forall id :: EnteredOK(t, id))
    && (forall id :: ReaderOK(h, t, id))
    && (forall c, id: nat, i: nat, j: nat :: ConnOK(h, t, c, id, i, j))
  }

  // A call of another hub is fanned out here only after the reader took it.

  lemma FannedOutWasTaken(h: Hubs, t: Traffic, c: Client, k: nat, id: nat)
    requires Serving(t) && Routing(h, t) && EnteredOK(t, id) && IsSub(h, id) && NodeOf(h, id) == c.node
    requires Foreign(t, k, c.node) && Job(c.node, k) in t.jobs && k in Entered(t, id)
    ensures k in Taken(t, id)
  {
    assert FateOK(h, t, k, id);
    hide Serving, Copies;
  }

  /** A connection has a call only if its hub fans it out. */
  lemma HasJob(t: Traffic, c: Client, k: nat)
    requires Serving(t) && Frame.Event(k) in Sent(t, c)
    ensures Job(c.node, k) in t.jobs
  {
    assert Conserved(t, c, k) && JobOK(t, Job(c.node, k));
    assert Copies(t, c, k) > 0;
    hide Copies;
  }

  lemma NotYetAccepted(h: Hubs, t: Traffic, c: Client, k: nat)
    requires Serving(t) && Routing(h, t) && Foreign(t, k, c.node) && k !in t.accepted
    ensures Frame.Event(k) !in Sent(t, c)
  {
    assert RemoteOK(h, t, Job(c.node, k));
    hide Serving;
    if Frame.Event(k) in Sent(t, c) {
      HasJob(t, c, k);
    }
  }

  lemma BeforeAppend(frames: seq<Frame>, f: Frame, k: nat, k': nat)
    requires Before(frames, k, k') && k != k' && !(f == Frame.Event(k) && Frame.Event(k') in frames)
    ensures Before(frames + [f], k, k')
  {}

  // What each step does to the order.

  lemma EnteredBounds(h: Hubs, t: Traffic, id: nat, k: nat)
    requires Routing(h, t) && EnteredOK(t, id) && k in Entered(t, id)
    ensures IsSub(h, id) && k < |t.calls|
  {
    assert TargetOK(h, t, k, id);
  }

  /** Steps that send nothing, publish nothing and take nothing. */
  lemma OrderFrame(h: Hubs, t: Traffic, h': Hubs, t': Traffic)
    requires OrderInv(h, t) && Routing(h, t) && Extends(h, h')
    requires t'.taken == t.taken && t'.queues == t.queues && t'.accepted == t.accepted && t'.sent == t.sent
    requires |t.calls| <= |t'.calls| && forall k :: 0 <= k < |t.calls| ==> t'.calls[k] == t.calls[k]
    requires forall j :: j in t.jobs && t.jobs[j] == Finished ==> j in t'.jobs && t'.jobs[j] == Finished
    ensures OrderInv(h', t')
  {
    forall id ensures Taken(t', id) == Taken(t, id) && Entered(t', id) == Entered(t, id) {}
    forall k, id ensures Accepts(t', k, id) == Accepts(t, k, id) {}
    forall c ensures Sent(t', c) == Sent(t, c) {}
    hide Taken, Queue, Sent, Accepts, Before;
    forall id ensures EnteredOK(t', id) { assert EnteredOK(t, id); }
    forall id ensures ReaderOK(h', t', id) {
      assert EnteredOK(t, id) && ReaderOK(h, t, id);
      forall i: nat | IsSub(h', id) && i < |Taken(t, id)| - 1 ensures Handled(t', NodeOf(h', id), Taken(t, id)[i]) {
        assert Taken(t, id)[i] in Entered(t, id);
        EnteredBounds(h, t, id, Taken(t, id)[i]);
        assert Handled(t, NodeOf(h, id), Taken(t, id)[i]);
      }
    }
    forall c, id: nat, i: nat, j: nat ensures ConnOK(h', t', c, id, i, j) {
      assert ConnOK(h, t, c, id, i, j) && EnteredOK(t, id);
      if i < j < |Entered(t, id)| {
        EnteredBounds(h, t, id, Entered(t, id)[i]);
        EnteredBounds(h, t, id, Entered(t, id)[j]);
      }
    }
  }

  /** The frame is no copy of a call that entered a queue before one that the connection has already got. */
  ghost predicate Fits(h: Hubs, t: Traffic, c: Client, f: Frame, id: nat, i: nat, j: nat) {
    var e := Entered(t, id);
    (IsSub(h, id) && NodeOf(h, id) == c.node && i < j < |e| && Foreign(t, e[i], c.node) && Foreign(t, e[j], c.node)
     && f == Frame.Event(e[i])) ==> Frame.Event(e[j]) !in Sent(t, c)
  }

  /** Steps that only append one frame to one connection's channel. */
  lemma AppendKeepsOrder(h: Hubs, t: Traffic, t': Traffic, c: Client, f: Frame)
    requires OrderInv(h, t) && t'.calls == t.calls
    requires t'.taken == t.taken && t'.queues == t.queues && t'.accepted == t.accepted
    requires t'.sent == t.sent[c := Sent(t, c) + [f]]
    requires forall j :: j in t.jobs && t.jobs[j] == Finished ==> j in t'.jobs && t'.jobs[j] == Finished
    requires forall id: nat, i: nat, j: nat :: Fits(h, t, c, f, id, i, j)
    ensures OrderInv(h, t')
  {
    forall id ensures Taken(t', id) == Taken(t, id) && Entered(t', id) == Entered(t, id) {}
    forall k, id ensures Accepts(t', k, id) == Accepts(t, k, id) {}
    forall d ensures Sent(t', d) == if d == c then Sent(t, c) + [f] else Sent(t, d) {}
    hide Taken, Queue, Sent, Accepts, Before;
    forall id ensures EnteredOK(t', id) { assert EnteredOK(t, id); }
    forall id ensures ReaderOK(h, t', id) { assert ReaderOK(h, t, id); }
    forall d, id: nat, i: nat, j: nat ensures ConnOK(h, t', d, id, i, j) {
      assert ConnOK(h, t, d, id, i, j) && EnteredOK(t, id) && Fits(h, t, c, f, id, i, j);
      var e := Entered(t, id);
      if d == c && IsSub(h, id) && NodeOf(h, id) == c.node && i < j < |e|
         && Foreign(t, e[i], c.node) && Foreign(t, e[j], c.node) {
        BeforeAppend(Sent(t, c), f, e[i], e[j]);
      }
    }
  }

  /** Once a connection has got a call, its hub is done with those that entered the queue before. */
  lemma EarlierHandled(h: Hubs, t: Traffic, c: Client, id: nat, a: nat, b: nat)
    requires OrderInv(h, t) && Serving(t) && Routing(h, t) && IsSub(h, id) && NodeOf(h, id) == c.node
    requires var e := Entered(t, id); a < b < |e| && Foreign(t, e[b], c.node) && Frame.Event(e[b]) in Sent(t, c)
    ensures Handled(t, c.node, Entered(t, id)[a])
  {
    assert EnteredOK(t, id) && ReaderOK(h, t, id);
    hide Serving, Routing, OrderInv, Accepts, Sent, Taken, Queue;
    var e := Entered(t, id);
    HasJob(t, c, e[b]);
    FannedOutWasTaken(h, t, c, e[b], id);
    var i :| 0 <= i < |Taken(t, id)| && Taken(t, id)[i] == e[b];
    assert e[i] == e[b] && e[a] == Taken(t, id)[a];
  }

  lemma SendFits(h: Hubs, t: Traffic, j: Job, c: Client, id: nat, a: nat, b: nat)
    requires OrderInv(h, t) && Serving(t) && Routing(h, t)
    requires j in t.jobs && t.jobs[j].Sending? && c in t.jobs[j].left
    ensures Fits(h, t, c, Frame.Event(j.call), id, a, b)
  {
    assert JobOK(t, j) && SnapOK(t, j, c);
    hide Serving, Routing, OrderInv, Sent, Entered, Copies;
    var e := Entered(t, id);
    if IsSub(h, id) && NodeOf(h, id) == c.node && a < b < |e| && Foreign(t, e[b], c.node)
       && Frame.Event(e[b]) in Sent(t, c) {
      EarlierHandled(h, t, c, id, a, b);
    }
  }

  lemma SendKeepsOrder(h: Hubs, t: Traffic, j: Job, c: Client)
    requires OrderInv(h, t) && Serving(t) && Routing(h, t)
    requires j in t.jobs && t.jobs[j].Sending? && c in t.jobs[j].left
    ensures OrderInv(h, DoSend(t, j, c))
  {
    SendEffect(t, j, c);
    hide OrderInv, Serving, Routing, Fits, Sent, HasRoom;
    if HasRoom(t, c) {
      forall id: nat, a: nat, b: nat ensures Fits(h, t, c, Frame.Event(j.call), id, a, b) {
        SendFits(h, t, j, c, id, a, b);
      }
      AppendKeepsOrder(h, t, DoSend(t, j, c), c, Frame.Event(j.call));
    } else {
      OrderFrame(h, t, h, DoSend(t, j, c));
    }
  }

  /** A publication enters each queue last. */
  lemma PublishEnters(h: Hubs, t: Traffic, j: Job, id: nat)
    requires j.call < |t.calls| && j.call !in t.accepted && EnteredOK(t, id)
    ensures var t' := DoPublish(h, t, j);
            && t'.calls == t.calls && t'.sent == t.sent && Taken(t', id) == Taken(t, id)
            && Entered(t', id) == Entered(t, id) + (if Accepts(t', j.call, id) then [j.call] else [])
            && (forall k :: k != j.call ==> (Accepts(t', k, id) <==> Accepts(t, k, id)))
            && EnteredOK(t', id)
  {
    hide Targets;
    var t' := DoPublish(h, t, j);
    assert !Accepts(t, j.call, id);
    assert Queue(t', id) == Queue(t, id) + (if Accepts(t', j.call, id) then [j.call] else []);
    assert forall k :: k != j.call ==> (Accepts(t', k, id) <==> Accepts(t, k, id));
    hide DoPublish, Queue, Taken, Accepts;
  }

  lemma PublishKeepsOrder(h: Hubs, t: Traffic, j: Job)
    requires OrderInv(h, t) && Serving(t) && Routing(h, t) && InPhase(t, j, ToPublish) && j.call !in t.accepted
    ensures OrderInv(h, DoPublish(h, t, j))
  {
    var t' := DoPublish(h, t, j);
    forall k, node ensures Handled(t, node, k) ==> Handled(t', node, k) {}
    forall id ensures EnteredOK(t', id) && Taken(t', id) == Taken(t, id) {
      assert EnteredOK(t, id);
      PublishEnters(h, t, j, id);
    }
    hide DoPublish, Serving, Routing, EnteredOK, Taken, Handled;
    forall id ensures ReaderOK(h, t', id) { assert ReaderOK(h, t, id); }
    forall c, id: nat, a: nat, b: nat ensures ConnOK(h, t', c, id, a, b) {
      PublishConn(h, t, j, c, id, a, b);
    }
  }

  lemma PublishConn(h: Hubs, t: Traffic, j: Job, c: Client, id: nat, a: nat, b: nat)
    requires OrderInv(h, t) && Serving(t) && Routing(h, t) && InPhase(t, j, ToPublish) && j.call !in t.accepted
    ensures ConnOK(h, DoPublish(h, t, j), c, id, a, b)
  {
    hide Serving, Routing, EnteredOK, Entered, Accepts, DoPublish, ConnOK, ReaderOK, Sent;
    assert EnteredOK(t, id) && ConnOK(h, t, c, id, a, b);
    PublishEnters(h, t, j, id);
    var t' := DoPublish(h, t, j);
    if Foreign(t, j.call, c.node) {
      NotYetAccepted(h, t, c, j.call);
    }
    ConnGrows(h, t, t', c, id, a, b, if Accepts(t', j.call, id) then [j.call] else []);
  }

  /** A call that enters a queue last, and that the connection has not got yet. */
  lemma ConnGrows(h: Hubs, t: Traffic, t': Traffic, c: Client, id: nat, a: nat, b: nat, more: seq<nat>)
    requires t'.calls == t.calls && t'.sent == t.sent && Entered(t', id) == Entered(t, id) + more && |more| <= 1
    requires ConnOK(h, t, c, id, a, b)
    requires forall k :: k in more && Foreign(t, k, c.node) ==> Frame.Event(k) !in Sent(t, c)
    ensures ConnOK(h, t', c, id, a, b)
  {
    hide Entered;
  }

  lemma ReadEnters(h: Hubs, t: Traffic, id: nat, x: nat)
    requires IsSub(h, id) && Queue(t, id) != [] && Queue(t, id)[0] < |t.calls|
    ensures var t' := DoRead(h, t, id);
            && Entered(t', x) == Entered(t, x)
            && Taken(t', x) == if x == id then Taken(t, id) + [Queue(t, id)[0]] else Taken(t, x)
  {
    var q := Queue(t, id);
    assert (Taken(t, id) + [q[0]]) + q[1..] == Taken(t, id) + q;
  }

  lemma ReadHandled(h: Hubs, t: Traffic, id: nat, k: nat, node: string)
    requires Routing(h, t) && IsSub(h, id) && Queue(t, id) != [] && Queue(t, id)[0] < |t.calls|
    requires Handled(t, node, k)
    ensures Handled(DoRead(h, t, id), node, k)
  {
    var k0 := Queue(t, id)[0];
    assert k0 in Queue(t, id) && QueueOK(t, id) && FateOK(h, t, k0, id);
    hide Routing, Queue, Taken, Accepts;
  }

  lemma ReadKeepsOrder(h: Hubs, t: Traffic, id: nat)
    requires OrderInv(h, t) && Routing(h, t) && IsSub(h, id) && ReaderFree(h, t, id)
    requires Queue(t, id) != [] && Queue(t, id)[0] < |t.calls|
    ensures OrderInv(h, DoRead(h, t, id))
  {
    var t' := DoRead(h, t, id);
    ReadFields(h, t, id);
    forall k, x ensures Accepts(t', k, x) == Accepts(t, k, x) {}
    forall c ensures Sent(t', c) == Sent(t, c) {}
    hide DoRead, Routing, Accepts, Sent, Queue, Taken, Entered, Handled;
    forall x ensures EnteredOK(t', x) {
      assert EnteredOK(t, x);
      ReadEnters(h, t, id, x);
    }
    forall x ensures ReaderOK(h, t', x) {
      assert ReaderOK(h, t, x);
      ReadEnters(h, t, id, x);
      forall i: nat | IsSub(h, x) && i < |Taken(t', x)| - 1 ensures Handled(t', NodeOf(h, x), Taken(t', x)[i]) {
        assert Taken(t', x)[i] == Taken(t, x)[i] && Handled(t, NodeOf(h, x), Taken(t, x)[i]);
        ReadHandled(h, t, id, Taken(t, x)[i], NodeOf(h, x));
      }
    }
    forall c, x: nat, a: nat, b: nat ensures ConnOK(h, t', c, x, a, b) {
      assert ConnOK(h, t, c, x, a, b);
      ReadEnters(h, t, id, x);
    }
  }

  lemma OtherKeepsOrder(h: Hubs, t: Traffic, c: Client)
    requires OrderInv(h, t)
    ensures OrderInv(h, t.(sent := t.sent[c := Sent(t, c) + [Other]]))
  {
    AppendKeepsOrder(h, t, t.(sent := t.sent[c := Sent(t, c) + [Other]]), c, Other);
  }

  lemma NextKeepsOrder(hs: Hashes, w: World, e: Event)
    requires WorldInv(w) && OrderInv(w.hubs, w.traffic)
    ensures OrderInv(Next(hs, w, e).hubs, Next(hs, w, e).traffic)
  {
    var h, t := w.hubs, w.traffic;
    hide Inv, Serving, Routing, OrderInv, Step, ReaderFree, HasRoom, Queue, ColonFree, HasPrefix, DoSend, DoRead,
         DoPublish, Written;
    match e
    case SendOne(j, c) =>
      if j in t.jobs && t.jobs[j].Sending? && c in t.jobs[j].left { SendKeepsOrder(h, t, j, c); }
    case Publish(j) =>
      OnlyOnce(w, j);
      if InPhase(t, j, ToPublish) { PublishKeepsOrder(h, t, j); }
    case ReadQueue(id) =>
      if id < |h.shared.subs| && ReaderFree(h, t, id) && Queue(t, id) != [] && Queue(t, id)[0] < |t.calls| {
        ReadKeepsOrder(h, t, id);
      }
    case OtherFrame(c) => OtherKeepsOrder(h, t, c);
    case _ =>
      NextExtends(hs, w, e);
      QuietJobs(hs, w, e);
      hide Next;
      OrderFrame(h, t, Next(hs, w, e).hubs, Next(hs, w, e).traffic);
  }

  /** Finished fan-outs stay finished, and no call changes. */
  ghost predicate Quiet(t: Traffic, t': Traffic) {
    && t'.taken == t.taken && t'.queues == t.queues && t'.accepted == t.accepted && t'.sent == t.sent
    && |t.calls| <= |t'.calls| && (forall k :: 0 <= k < |t.calls| ==> t'.calls[k] == t.calls[k])
    && (forall j :: j in t.jobs && t.jobs[j] == Finished ==> j in t'.jobs && t'.jobs[j] == Finished)
  }

  lemma NewCallQuiet(t: Traffic, p: Payload)
    requires Serving(t)
    ensures Quiet(t, NewCall(t, p))
  {
    assert JobOK(t, Job(p.origin, |t.calls|));
    hide Serving;
  }

  lemma PhaseQuiet(t: Traffic, j: Job, p: Phase, t': Traffic)
    requires j in t.jobs && t.jobs[j] != Finished && t' == t.(jobs := t.jobs[j := p], snaps := t'.snaps)
    ensures Quiet(t, t')
  {}

  lemma QuietJobs(hs: Hashes, w: World, e: Event)
    requires WorldInv(w)
    requires !e.SendOne? && !e.Publish? && !e.ReadQueue? && !e.OtherFrame?
    ensures Quiet(w.traffic, Next(hs, w, e).traffic)
  {
    var t, t' := w.traffic, Next(hs, w, e).traffic;
    Parts(w);
    hide Step, ColonFree, HasPrefix, Written, Sent, RecipientsOf, WorldInv, NewCall, Quiet, Serving;
    forall p ensures Quiet(t, NewCall(t, p)) { NewCallQuiet(t, p); }
    assert Quiet(t, t) && Quiet(t, t.(written := t'.written)) by { SameQuiet(t, t'); }
    match e
    case TakeSnapshot(j) => if InPhase(t, j, ToSnapshot) { PhaseQuiet(t, j, t'.jobs[j], t'); }
    case EndSends(j) => if InPhase(t, j, Sending({})) { PhaseQuiet(t, j, t'.jobs[j], t'); }
    case _ =>
  }

  lemma SameQuiet(t: Traffic, t': Traffic)
    ensures Quiet(t, t) && Quiet(t, t.(written := t'.written))
  {}

  // Runs.

  lemma {:induction false} AfterKeepsOrder(hs: Hashes, nodes: set<string>, events: seq<Event>)
    ensures var w := WorldAfter(hs, nodes, events); OrderInv(w.hubs, w.traffic)
  {
    if events != [] {
      AfterKeepsOrder(hs, nodes, events[..|events| - 1]);
      AfterKeepsInv(hs, nodes, events[..|events| - 1]);
      hide OrderInv, Next, WorldInv;
      NextKeepsOrder(hs, WorldAfter(hs, nodes, events[..|events| - 1]), events[|events| - 1]);
    }
  }

  lemma NextEnters(hs: Hashes, w: World, e: Event, id: nat)
    requires WorldInv(w) && OrderInv(w.hubs, w.traffic)
    ensures Entered(w.traffic, id) <= Entered(Next(hs, w, e).traffic, id)
  {
    var h, t := w.hubs, w.traffic;
    assert EnteredOK(t, id);
    hide WorldInv, OrderInv, Step, ReaderFree, HasRoom, ColonFree, HasPrefix, DoRead, DoPublish, Written, EnteredOK;
    match e
    case SendOne(j, c) =>
    case Publish(j) =>
      OnlyOnce(w, j);
      if InPhase(t, j, ToPublish) { PublishEnters(h, t, j, id); }
    case ReadQueue(x) =>
      if x < |h.shared.subs| && Queue(t, x) != [] && Queue(t, x)[0] < |t.calls| { ReadEnters(h, t, x, id); }
    case OtherFrame(c) =>
    case _ => QuietJobs(hs, w, e);
  }

  lemma {:induction false} EnteredStays(hs: Hashes, nodes: set<string>, events: seq<Event>, p: nat, id: nat)
    requires p <= |events|
    ensures Entered(WorldAfter(hs, nodes, events[..p]).traffic, id) <=
            Entered(WorldAfter(hs, nodes, events).traffic, id)
  {
    if p == |events| {
      assert events[..p] == events;
    } else {
      var before := events[..|events| - 1];
      EnteredStays(hs, nodes, before, p, id);
      assert before[..p] == events[..p];
      AfterKeepsInv(hs, nodes, before);
      AfterKeepsOrder(hs, nodes, before);
      hide Next, Entered, WorldInv, OrderInv;
      NextEnters(hs, WorldAfter(hs, nodes, before), events[|events| - 1], id);
    }
  }

  /** What entered a subscription's queue first, a connection on its hub gets first. */
  lemma DeliveredInOrder(hs: Hashes, nodes: set<string>, events: seq<Event>, p: nat, k: nat, k': nat, id: nat,
                         c: Client)
    requires p <= |events|
    requires var t := WorldAfter(hs, nodes, events[..p]).traffic; Accepts(t, k, id) && !Accepts(t, k', id)
    requires var w := WorldAfter(hs, nodes, events);
             && Accepts(w.traffic, k', id) && IsSub(w.hubs, id) && NodeOf(w.hubs, id) == c.node
             && Foreign(w.traffic, k, c.node) && Foreign(w.traffic, k', c.node)
    ensures Before(Sent(WorldAfter(hs, nodes, events).traffic, c), k, k')
  {
    var t0, w := WorldAfter(hs, nodes, events[..p]).traffic, WorldAfter(hs, nodes, events);
    AfterKeepsOrder(hs, nodes, events[..p]);
    AfterKeepsOrder(hs, nodes, events);
    EnteredStays(hs, nodes, events, p, id);
    assert EnteredOK(t0, id) && EnteredOK(w.traffic, id);
    hide WorldAfter, OrderInv, Accepts, Before, Sent, Entered;
    var e := Entered(w.traffic, id);
    var i: nat :| i < |Entered(t0, id)| && Entered(t0, id)[i] == k;
    var j: nat :| j < |e| && e[j] == k';
    assert e[i] == k && i < j;
    OrderedAt(w.hubs, w.traffic, c, id, i, j);
  }

  lemma OrderedAt(h: Hubs, t: Traffic, c: Client, id: nat, i: nat, j: nat)
    requires OrderInv(h, t) && IsSub(h, id) && NodeOf(h, id) == c.node && i < j < |Entered(t, id)|
    requires Foreign(t, Entered(t, id)[i], c.node) && Foreign(t, Entered(t, id)[j], c.node)
    ensures Before(Sent(t, c), Entered(t, id)[i], Entered(t, id)[j])
  {
    assert ConnOK(h, t, c, id, i, j);
  }

  /** A publication is entered into the records when it happens, and nothing about it changes later. */
  lemma PublishedAt(hs: Hashes, nodes: set<string>, events: seq<Event>, p: nat, j: Job, q: nat, id: nat)
    requires p < q <= |events| && events[p] == Event.Publish(j)
    requires InPhase(WorldAfter(hs, nodes, events[..p]).traffic, j, ToPublish)
    requires Accepts(WorldAfter(hs, nodes, events).traffic, j.call, id)
    ensures Accepts(WorldAfter(hs, nodes, events[..q]).traffic, j.call, id)
    ensures !Accepts(WorldAfter(hs, nodes, events[..p]).traffic, j.call, id)
  {
    AfterKeepsInv(hs, nodes, events[..p]);
    OnlyOnce(WorldAfter(hs, nodes, events[..p]), j);
    assert events[..p + 1][..p] == events[..p] && events[..q][..p + 1] == events[..p + 1];
    assert j.call in WorldAfter(hs, nodes, events[..p + 1]).traffic.accepted;
    RunGrows(hs, nodes, events[..q], p + 1);
    RunGrows(hs, nodes, events, q);
    hide WorldAfter, WorldInv;
  }

  /**
   * Two publications that one broker subscription accepts, of any other hubs: a connection gets their copies in
   * the order in which they were published.
   */
  lemma PublishedInOrder(hs: Hashes, nodes: set<string>, events: seq<Event>, p: nat, p': nat, j: Job, j': Job,
                         id: nat, c: Client)
    requires p < p' < |events| && events[p] == Event.Publish(j) && events[p'] == Event.Publish(j')
    requires InPhase(WorldAfter(hs, nodes, events[..p]).traffic, j, ToPublish)
    requires InPhase(WorldAfter(hs, nodes, events[..p']).traffic, j', ToPublish)
    requires var w := WorldAfter(hs, nodes, events);
             && Accepts(w.traffic, j.call, id) && Accepts(w.traffic, j'.call, id)
             && IsSub(w.hubs, id) && NodeOf(w.hubs, id) == c.node
             && Foreign(w.traffic, j.call, c.node) && Foreign(w.traffic, j'.call, c.node)
    ensures Before(Sent(WorldAfter(hs, nodes, events).traffic, c), j.call, j'.call)
  {
    hide WorldAfter, Before, Sent, InPhase, Accepts;
    PublishedAt(hs, nodes, events, p, j, p', id);
    PublishedAt(hs, nodes, events, p', j', p' + 1, id);
    DeliveredInOrder(hs, nodes, events, p', j.call, j'.call, id, c);
  }
}
