/** Delivery across the cluster: what holds of the traffic after every run, whatever the interleaving. */
module FanoutTheorems {
  import opened ChannelKeys
  import opened HubIndex
  import opened RequestSigning
  import opened HubSteps
  import opened HubMembership
  import opened HubTheorems
  import opened Messages
  import opened Fanout
  import opened FanoutInvariant

  ghost predicate WorldInv(w: World) {
    Inv(w.hubs) && TrafficInv(w.hubs, w.traffic)
  }

  lemma Parts(w: World)
    requires WorldInv(w)
    ensures Inv(w.hubs) && Serving(w.traffic) && Routing(w.hubs, w.traffic)
  {}

  lemma HubMoveKeeps(hs: Hashes, w: World, m: Move)
    requires WorldInv(w)
    ensures WorldInv(w.(hubs := Step(hs, w.hubs, m)))
  {
    StepKeepsInv(hs, w.hubs, m);
    StepExtends(hs, w.hubs, m);
    HubStepKeeps(w.hubs, Step(hs, w.hubs, m), w.traffic);
    hide Inv, Step, Serving, Routing;
  }

  lemma NewCallKeeps(w: World, p: Payload)
    requires WorldInv(w) && ColonFree(p.app)
    ensures WorldInv(w.(traffic := NewCall(w.traffic, p)))
  {
    NewCallServes(w.traffic, p);
    RoutingFrame(w.hubs, w.traffic, NewCall(w.traffic, p));
    hide Inv, Serving, Routing, ColonFree;
  }

  lemma AwaitingKeeps(hs: Hashes, w: World, c: Client, p: Payload)
    requires WorldInv(w) && ColonFree(p.app)
    ensures WorldInv(Awaiting(hs, w, c, p))
  {
    NewCallKeeps(w, p);
    HubMoveKeeps(hs, w.(traffic := NewCall(w.traffic, p)), Do(c, Await(|w.traffic.calls|)));
    hide WorldInv, Step, NewCall, ColonFree;
  }

  /** A change that leaves the calls, the queues and the publications alone, and adds no job. */
  lemma ServingKeeps(w: World, t: Traffic)
    requires WorldInv(w) && Serving(t)
    requires t.calls == w.traffic.calls && t.jobs.Keys == w.traffic.jobs.Keys
    requires t.accepted == w.traffic.accepted && t.refused == w.traffic.refused && t.queues == w.traffic.queues
    ensures WorldInv(w.(traffic := t))
  {
    assert forall j :: j in t.jobs <==> j in w.traffic.jobs;
    RoutingFrame(w.hubs, w.traffic, t);
    hide Inv, Serving, Routing, ColonFree;
  }

  lemma FrameKeeps(w: World, t: Traffic)
    requires WorldInv(w) && t == w.traffic.(sent := t.sent, written := t.written)
    requires forall c, k :: Copies(t, c, k) == Copies(w.traffic, c, k)
    ensures WorldInv(w.(traffic := t))
  {
    FrameServes(w.traffic, t);
    hide Copies, Serving, Inv, Routing;
    ServingKeeps(w, t);
  }

  lemma OtherFrameCopies(t: Traffic, c: Client)
    ensures forall d, k :: Copies(t.(sent := t.sent[c := Sent(t, c) + [Other]]), d, k) == Copies(t, d, k)
  {
    var s := Sent(t, c);
    assert multiset(s + [Other]) == multiset(s) + multiset{Other};
  }

  lemma SnapshotKeeps(w: World, j: Job)
    requires WorldInv(w) && InPhase(w.traffic, j, ToSnapshot)
    ensures WorldInv(w.(traffic := DoSnapshot(w.hubs, w.traffic, j)))
  {
    SnapshotServes(w.hubs, w.traffic, j);
    hide Serving, Routing, Inv, WorldInv, RecipientsOf;
    ServingKeeps(w, DoSnapshot(w.hubs, w.traffic, j));
  }

  lemma SendKeeps(w: World, j: Job, c: Client)
    requires WorldInv(w) && j in w.traffic.jobs && w.traffic.jobs[j].Sending? && c in w.traffic.jobs[j].left
    ensures WorldInv(w.(traffic := DoSend(w.traffic, j, c)))
  {
    Parts(w);
    SendEffect(w.traffic, j, c);
    hide Serving, WorldInv, DoSend;
    SendServes(w.traffic, j, c);
    ServingKeeps(w, DoSend(w.traffic, j, c));
  }

  lemma PublishKeeps(w: World, j: Job)
    requires WorldInv(w) && InPhase(w.traffic, j, ToPublish)
    ensures WorldInv(w.(traffic := DoPublish(w.hubs, w.traffic, j)))
  {
    PublishServes(w.hubs, w.traffic, j);
    PublishRoutes(w.hubs, w.traffic, j);
    assert DoPublish(w.hubs, w.traffic, j).calls == w.traffic.calls;
    hide Inv, Serving, Routing, DoPublish, ColonFree;
  }

  lemma ReadKeeps(w: World, id: nat)
    requires WorldInv(w) && IsSub(w.hubs, id)
    requires Queue(w.traffic, id) != [] && Queue(w.traffic, id)[0] < |w.traffic.calls|
    ensures WorldInv(w.(traffic := DoRead(w.hubs, w.traffic, id)))
  {
    ReadServes(w.hubs, w.traffic, id);
    ReadRoutes(w.hubs, w.traffic, id);
    assert DoRead(w.hubs, w.traffic, id).calls == w.traffic.calls;
    hide Inv, Serving, Routing, DoRead, Queue, ColonFree;
  }

  lemma EndSendsKeeps(hs: Hashes, w: World, j: Job)
    requires WorldInv(w) && InPhase(w.traffic, j, Sending({}))
    ensures WorldInv(Next(hs, w, EndSends(j)))
  {
    Parts(w);
    hide Serving, WorldInv;
    EndSendsServes(w.traffic, j);
    ServingKeeps(w, Next(hs, w, EndSends(j)).traffic);
  }

  lemma AppsColonFree(w: World)
    requires WorldInv(w)
    ensures forall c :: c in w.hubs.conns ==> ColonFree(c.app)
  {
    hide ChannelsInv, SubsInv, PresenceInv, IndexInv, UserPhase, TrafficInv;
  }

  lemma HubEventKeeps(hs: Hashes, w: World, e: Event)
    requires WorldInv(w) && (e.HubMove? || e.Announce? || e.ClientEvent? || e.Return?)
    ensures WorldInv(Next(hs, w, e))
  {
    var h := w.hubs;
    hide WorldInv, Step, Awaiting, ColonFree, HasPrefix, InPhase;
    AppsColonFree(w);
    match e
    case HubMove(m) => HubMoveKeeps(hs, w, m);
    case Announce(c) =>
      if c in h.conns && h.conns[c].pc.Announcing? { AwaitingKeeps(hs, w, c, Announcement(c, h.conns[c].pc)); }
    case ClientEvent(c, ch, event, data) =>
      if c in h.conns { AwaitingKeeps(hs, w, c, Payload(c.node, c.app, ch, event, data, c.socket)); }
    case Return(c) => if c in h.conns { HubMoveKeeps(hs, w, Do(c, Resume)); }
  }

  lemma JobEventKeeps(hs: Hashes, w: World, e: Event)
    requires WorldInv(w) && (e.TakeSnapshot? || e.SendOne? || e.EndSends?)
    ensures WorldInv(Next(hs, w, e))
  {
    var t := w.traffic;
    hide WorldInv, DoSnapshot, DoSend;
    match e
    case TakeSnapshot(j) => if InPhase(t, j, ToSnapshot) { SnapshotKeeps(w, j); }
    case SendOne(j, c) => if j in t.jobs && t.jobs[j].Sending? && c in t.jobs[j].left { SendKeeps(w, j, c); }
    case EndSends(j) => if InPhase(t, j, Sending({})) { EndSendsKeeps(hs, w, j); }
  }

  lemma BrokerEventKeeps(hs: Hashes, w: World, e: Event)
    requires WorldInv(w) && (e.Publish? || e.ReadQueue?)
    ensures WorldInv(Next(hs, w, e))
  {
    var h, t := w.hubs, w.traffic;
    hide WorldInv, DoPublish, DoRead, Queue;
    match e
    case Publish(j) => if InPhase(t, j, ToPublish) { PublishKeeps(w, j); }
    case ReadQueue(id) => if IsSub(h, id) && Queue(t, id) != [] && Queue(t, id)[0] < |t.calls| { ReadKeeps(w, id); }
  }

  lemma NextKeepsInv(hs: Hashes, w: World, e: Event)
    requires WorldInv(w)
    ensures WorldInv(Next(hs, w, e))
  {
    match e
    case Broadcast(p) =>
      if ColonFree(p.app) { NewCallKeeps(w, p); }
      hide WorldInv, ColonFree, NewCall;
    case HubMove(_) => HubEventKeeps(hs, w, e);
    case Announce(_) => HubEventKeeps(hs, w, e);
    case ClientEvent(_, _, _, _) => HubEventKeeps(hs, w, e);
    case Return(_) => HubEventKeeps(hs, w, e);
    case Publish(_) => BrokerEventKeeps(hs, w, e);
    case ReadQueue(_) => BrokerEventKeeps(hs, w, e);
    case WriteFrame(_) => FramesKeep(hs, w, e);
    case OtherFrame(_) => FramesKeep(hs, w, e);
    case _ => JobEventKeeps(hs, w, e);
  }

  lemma FramesKeep(hs: Hashes, w: World, e: Event)
    requires WorldInv(w) && (e.WriteFrame? || e.OtherFrame?)
    ensures WorldInv(Next(hs, w, e))
  {
    var w' := Next(hs, w, e);
    assert e.WriteFrame? ==> w'.traffic.sent == w.traffic.sent;
    if e.OtherFrame? {
      OtherFrameCopies(w.traffic, e.c);
    } else {
      SameCopies(w.traffic, w'.traffic);
    }
    hide WorldInv, Copies, HasRoom, Sent, Written;
    FrameKeeps(w, w'.traffic);
  }

  lemma {:induction false} AfterKeepsInv(hs: Hashes, nodes: set<string>, events: seq<Event>)
    ensures WorldInv(WorldAfter(hs, nodes, events))
  {
    if events != [] {
      AfterKeepsInv(hs, nodes, events[..|events| - 1]);
      NextKeepsInv(hs, WorldAfter(hs, nodes, events[..|events| - 1]), events[|events| - 1]);
    } else {
      RunKeepsInv(hs, nodes, []);
    }
  }

  // Records are for good: a call, a snapshot and the fate of a publication never change.

  ghost predicate Grows(w: World, w': World) {
    Lasts(w.traffic, w'.traffic) && Extends(w.hubs, w'.hubs)
  }

  ghost predicate Lasts(t: Traffic, t': Traffic) {
    && |t.calls| <= |t'.calls|
    && (forall k :: 0 <= k < |t.calls| ==> t'.calls[k] == t.calls[k])
    && (forall j :: j in t.snaps ==> j in t'.snaps && t'.snaps[j] == t.snaps[j])
    && (forall k :: k in t.accepted ==> k in t'.accepted && t'.accepted[k] == t.accepted[k])
    && (forall k :: k in t.refused ==> k in t'.refused && t'.refused[k] == t.refused[k])
  }

  /** No snapshot is taken twice and no call published twice. */
  lemma OnlyOnce(w: World, j: Job)
    requires WorldInv(w)
    ensures InPhase(w.traffic, j, ToSnapshot) ==> j !in w.traffic.snaps
    ensures InPhase(w.traffic, j, ToPublish) ==> j.call !in w.traffic.accepted && j.call !in w.traffic.refused
  {
    hide Inv, Routing, Conserved, SnapOK;
    assert JobOK(w.traffic, j) && CallOK(w.traffic, j.call);
  }

  lemma NextGrows(hs: Hashes, w: World, e: Event)
    requires WorldInv(w)
    ensures Grows(w, Next(hs, w, e))
  {
    NextExtends(hs, w, e);
    if e.TakeSnapshot? || e.Publish? {
      OnlyOnce(w, e.j);
    }
    hide WorldInv, Extends, Next, InPhase;
    NextLasts(hs, w, e);
  }

  lemma NextLasts(hs: Hashes, w: World, e: Event)
    requires e.TakeSnapshot? && InPhase(w.traffic, e.j, ToSnapshot) ==> e.j !in w.traffic.snaps
    requires e.Publish? && InPhase(w.traffic, e.j, ToPublish) ==>
               e.j.call !in w.traffic.accepted && e.j.call !in w.traffic.refused
    ensures Lasts(w.traffic, Next(hs, w, e).traffic)
  {
    hide Lasts, Step, NewCall, HasRoom, DoSend, DoRead, DoPublish, DoSnapshot, Queue, ColonFree, HasPrefix, Sent,
         Written, ReaderFree;
    var h, t := w.hubs, w.traffic;
    forall p ensures Lasts(t, NewCall(t, p)) { NewCallLasts(t, p); }
    SameLasts(t, Next(hs, w, e).traffic);
    match e
    case SendOne(j, c) => if j in t.jobs && t.jobs[j].Sending? { SendLasts(t, j, c); }
    case TakeSnapshot(j) => if InPhase(t, j, ToSnapshot) { SnapshotLasts(h, t, j); }
    case Publish(j) => if InPhase(t, j, ToPublish) { PublishLasts(h, t, j); }
    case ReadQueue(id) =>
      if IsSub(h, id) && Queue(t, id) != [] && Queue(t, id)[0] < |t.calls| { ReadLasts(h, t, id); }
    case _ =>
  }

  lemma NewCallLasts(t: Traffic, p: Payload)
    ensures Lasts(t, NewCall(t, p))
  {}

  lemma SendLasts(t: Traffic, j: Job, c: Client)
    requires j in t.jobs && t.jobs[j].Sending?
    ensures Lasts(t, DoSend(t, j, c))
  {
    hide HasRoom, Sent;
  }

  lemma SnapshotLasts(h: Hubs, t: Traffic, j: Job)
    requires j.call < |t.calls| && j !in t.snaps
    ensures Lasts(t, DoSnapshot(h, t, j))
  {
    hide RecipientsOf;
  }

  lemma SameLasts(t: Traffic, t': Traffic)
    ensures t'.calls == t.calls && t'.snaps == t.snaps && t'.accepted == t.accepted && t'.refused == t.refused
            ==> Lasts(t, t')
  {}

  lemma PublishLasts(h: Hubs, t: Traffic, j: Job)
    requires j.call < |t.calls| && j.call !in t.accepted && j.call !in t.refused
    ensures Lasts(t, DoPublish(h, t, j))
  {
    hide Targets, Queue;
  }

  lemma ReadLasts(h: Hubs, t: Traffic, id: nat)
    requires IsSub(h, id) && Queue(t, id) != [] && Queue(t, id)[0] < |t.calls|
    ensures Lasts(t, DoRead(h, t, id))
  {
    hide Queue, Taken;
  }

  lemma NextExtends(hs: Hashes, w: World, e: Event)
    ensures Extends(w.hubs, Next(hs, w, e).hubs)
  {
    match e
    case HubMove(m) => StepExtends(hs, w.hubs, m);
    case Announce(c) => StepExtends(hs, w.hubs, Do(c, Await(|w.traffic.calls|)));
    case ClientEvent(c, _, _, _) => StepExtends(hs, w.hubs, Do(c, Await(|w.traffic.calls|)));
    case Return(c) => StepExtends(hs, w.hubs, Do(c, Resume));
    case _ =>
  }

  lemma GrowsTransitive(u: World, v: World, w: World)
    requires Grows(u, v) && Grows(v, w)
    ensures Grows(u, w)
  {}

  lemma {:induction false} RunGrows(hs: Hashes, nodes: set<string>, events: seq<Event>, p: nat)
    requires p <= |events|
    ensures Grows(WorldAfter(hs, nodes, events[..p]), WorldAfter(hs, nodes, events))
    decreases |events|
  {
    if p == |events| {
      assert events[..p] == events;
    } else {
      var before := events[..|events| - 1];
      assert before[..p] == events[..p];
      RunGrows(hs, nodes, before, p);
      AfterKeepsInv(hs, nodes, before);
      NextGrows(hs, WorldAfter(hs, nodes, before), events[|events| - 1]);
      hide WorldInv, Next, Grows;
      GrowsTransitive(WorldAfter(hs, nodes, events[..p]), WorldAfter(hs, nodes, before), WorldAfter(hs, nodes, events));
    }
  }

  // The theorems.

  /**
   * No connection gets a call twice. One that gets it is in the call's application, is not the excluded socket
   * and was found by its hub's fan-out; a send that found its channel full is not repeated.
   */
  lemma AtMostOnce(hs: Hashes, nodes: set<string>, events: seq<Event>, c: Client, k: nat)
    ensures var t := WorldAfter(hs, nodes, events).traffic;
            && Copies(t, c, k) <= 1
            && (Copies(t, c, k) == 1 || (c, k) in t.lost ==>
                  && Chosen(t, c, k)
                  && k < |t.calls| && c.app == t.calls[k].app
                  && (t.calls[k].exclude != "" ==> c.socket != t.calls[k].exclude))
            && (Copies(t, c, k) == 1 ==> (c, k) !in t.lost)
  {
    var w := WorldAfter(hs, nodes, events);
    AfterKeepsInv(hs, nodes, events);
    hide WorldAfter, Inv, Routing, Copies, ColonFree;
    var j := Job(c.node, k);
    assert Conserved(w.traffic, c, k) && SnapOK(w.traffic, j, c) && JobOK(w.traffic, j);
  }

  /** Nothing of the call is under way any more. */
  ghost predicate Settled(t: Traffic, k: nat) {
    && (forall j :: j in t.jobs && j.call == k ==> t.jobs[j] == Finished)
    && (forall id :: k !in Queue(t, id))
  }

  /**
   * A settled call has been fanned out on its own hub and on exactly the hubs whose subscription accepted it,
   * and each recipient there got it once or found its channel full.
   */
  lemma SettledDelivery(hs: Hashes, nodes: set<string>, events: seq<Event>, k: nat)
    requires var t := WorldAfter(hs, nodes, events).traffic; k < |t.calls| && Settled(t, k)
    ensures var w := WorldAfter(hs, nodes, events);
            var t := w.traffic;
            && (forall c :: Copies(t, c, k) == if Chosen(t, c, k) && (c, k) !in t.lost then 1 else 0)
            && (forall c :: (c, k) in t.lost ==> Chosen(t, c, k))
            && k in t.accepted
            && (forall n :: Job(n, k) in t.snaps <==>
                  || n == t.calls[k].origin
                  || exists id :: Accepts(t, k, id) && IsSub(w.hubs, id) && NodeOf(w.hubs, id) == n)
  {
    var w := WorldAfter(hs, nodes, events);
    var t := w.traffic;
    AfterKeepsInv(hs, nodes, events);
    hide WorldAfter, Inv, Copies, ColonFree;
    assert CallOK(t, k);
    forall c ensures Copies(t, c, k) == if Chosen(t, c, k) && (c, k) !in t.lost then 1 else 0
      ensures (c, k) in t.lost ==> Chosen(t, c, k)
    {
      assert Conserved(t, c, k);
      assert !Due(t, c, k);
    }
    forall n ensures Job(n, k) in t.snaps <==>
      n == t.calls[k].origin || exists id :: Accepts(t, k, id) && IsSub(w.hubs, id) && NodeOf(w.hubs, id) == n
    {
      SettledJob(w.hubs, t, k, n);
    }
  }

  lemma SettledJob(h: Hubs, t: Traffic, k: nat, n: string)
    requires Serving(t) && Routing(h, t) && k < |t.calls| && Settled(t, k)
    ensures Job(n, k) in t.snaps <==>
      n == t.calls[k].origin || exists id :: Accepts(t, k, id) && IsSub(h, id) && NodeOf(h, id) == n
  {
    hide Conserved, SnapOK, Accepts, Queue, OnePerHub, TargetOK;
    var j := Job(n, k);
    assert JobOK(t, j) && CallOK(t, k) && RemoteOK(h, t, j);
    if n != t.calls[k].origin {
      if id :| Accepts(t, k, id) && IsSub(h, id) && NodeOf(h, id) == n {
        assert FateOK(h, t, k, id);
      }
    }
  }

  /** The connection is among those a fan-out of the call on its hub would now send to. */
  ghost predicate Listens(w: World, c: Client, k: nat) {
    k < |w.traffic.calls| && c in RecipientsOf(w.hubs, w.traffic.calls[k], c.node)
  }

  lemma OtherEventsKeepSnaps(hs: Hashes, w: World, e: Event)
    requires !e.TakeSnapshot?
    ensures Next(hs, w, e).traffic.snaps == w.traffic.snaps
  {
    hide Step, HasRoom, ColonFree, HasPrefix, DoSend, DoRead, DoPublish, NewCall, Queue, Sent, Written, ReaderFree;
    var h, t := w.hubs, w.traffic;
    forall p ensures NewCall(t, p).snaps == t.snaps { NewCallSnaps(t, p); }
    match e
    case SendOne(j, c) => if j in t.jobs && t.jobs[j].Sending? { SendEffect(t, j, c); }
    case Publish(j) => if j.call < |t.calls| { PublishSnaps(h, t, j); }
    case ReadQueue(id) => if IsSub(h, id) && Queue(t, id) != [] && Queue(t, id)[0] < |t.calls| { ReadFields(h, t, id); }
    case _ =>
  }

  lemma NewCallSnaps(t: Traffic, p: Payload)
    ensures NewCall(t, p).snaps == t.snaps
  {}

  lemma PublishSnaps(h: Hubs, t: Traffic, j: Job)
    requires j.call < |t.calls|
    ensures DoPublish(h, t, j).snaps == t.snaps
  {
    hide Targets, Queue;
  }

  lemma NextChooses(hs: Hashes, w: World, e: Event, c: Client, k: nat)
    requires Job(c.node, k) !in w.traffic.snaps
    ensures var t' := Next(hs, w, e).traffic;
            var j := Job(c.node, k);
            && (j in t'.snaps <==> e == TakeSnapshot(j) && InPhase(w.traffic, j, ToSnapshot))
            && (j in t'.snaps ==> (Chosen(t', c, k) <==> Listens(w, c, k)))
  {
    if !e.TakeSnapshot? {
      OtherEventsKeepSnaps(hs, w, e);
    } else {
      SnapshotSnaps(hs, w, e.j);
    }
    hide Next, RecipientsOf;
  }

  lemma SnapshotSnaps(hs: Hashes, w: World, j: Job)
    ensures Next(hs, w, TakeSnapshot(j)).traffic.snaps ==
            if InPhase(w.traffic, j, ToSnapshot) then
              w.traffic.snaps[j := RecipientsOf(w.hubs, w.traffic.calls[j.call], j.node)]
            else w.traffic.snaps
  {
    hide RecipientsOf;
  }

  /** Event `q` fixes the recipients of the job. */
  ghost predicate SnapsAt(hs: Hashes, nodes: set<string>, events: seq<Event>, q: nat, j: Job)
    requires q < |events|
  {
    events[q] == TakeSnapshot(j) && InPhase(WorldAfter(hs, nodes, events[..q]).traffic, j, ToSnapshot)
  }

  /** And the connection is then listening. */
  ghost predicate FoundAt(hs: Hashes, nodes: set<string>, events: seq<Event>, q: nat, c: Client, k: nat)
    requires q < |events|
  {
    SnapsAt(hs, nodes, events, q, Job(c.node, k)) && Listens(WorldAfter(hs, nodes, events[..q]), c, k)
  }

  lemma AfterOneMore(hs: Hashes, nodes: set<string>, events: seq<Event>, p: nat)
    requires p < |events|
    ensures WorldAfter(hs, nodes, events[..p + 1]) == Next(hs, WorldAfter(hs, nodes, events[..p]), events[p])
  {
    assert events[..p + 1][..p] == events[..p];
  }

  /** What a snapshot makes of a connection is final. */
  lemma SnapshotDecides(hs: Hashes, nodes: set<string>, events: seq<Event>, q: nat, c: Client, k: nat)
    requires q < |events| && SnapsAt(hs, nodes, events, q, Job(c.node, k))
    ensures var t := WorldAfter(hs, nodes, events).traffic;
            Job(c.node, k) in t.snaps && (Chosen(t, c, k) <==> Listens(WorldAfter(hs, nodes, events[..q]), c, k))
  {
    var w := WorldAfter(hs, nodes, events[..q]);
    AfterKeepsInv(hs, nodes, events[..q]);
    OnlyOnce(w, Job(c.node, k));
    NextChooses(hs, w, events[q], c, k);
    AfterOneMore(hs, nodes, events, q);
    RunGrows(hs, nodes, events, q + 1);
    hide WorldAfter, WorldInv, Next, Listens, Extends;
  }

  lemma {:induction false} SnapshotMoment(hs: Hashes, nodes: set<string>, events: seq<Event>, c: Client, k: nat)
    requires Job(c.node, k) in WorldAfter(hs, nodes, events).traffic.snaps
    ensures exists q: nat :: q < |events| && SnapsAt(hs, nodes, events, q, Job(c.node, k))
  {
    if events != [] {
      var n := |events| - 1;
      hide Next;
      if Job(c.node, k) in WorldAfter(hs, nodes, events[..n]).traffic.snaps {
        SnapshotMoment(hs, nodes, events[..n], c, k);
        var q: nat :| q < n && SnapsAt(hs, nodes, events[..n], q, Job(c.node, k));
        assert events[..n][..q] == events[..q];
        assert SnapsAt(hs, nodes, events, q, Job(c.node, k));
      } else {
        NextChooses(hs, WorldAfter(hs, nodes, events[..n]), events[n], c, k);
        assert SnapsAt(hs, nodes, events, n, Job(c.node, k));
      }
    }
  }

  /** The recipients of a call are those who listen at the moment their hub fixes them. */
  lemma ChosenIff(hs: Hashes, nodes: set<string>, events: seq<Event>, c: Client, k: nat)
    ensures Chosen(WorldAfter(hs, nodes, events).traffic, c, k) <==>
            exists q: nat :: q < |events| && FoundAt(hs, nodes, events, q, c, k)
  {
    hide WorldAfter, SnapsAt, Listens;
    if Chosen(WorldAfter(hs, nodes, events).traffic, c, k) {
      SnapshotMoment(hs, nodes, events, c, k);
      var q: nat :| q < |events| && SnapsAt(hs, nodes, events, q, Job(c.node, k));
      SnapshotDecides(hs, nodes, events, q, c, k);
      assert FoundAt(hs, nodes, events, q, c, k);
    }
    if q: nat :| q < |events| && FoundAt(hs, nodes, events, q, c, k) {
      SnapshotDecides(hs, nodes, events, q, c, k);
    }
  }

  /** Who has a finished call: exactly those who listened at that moment and whose send channel had room for it. */
  lemma DeliveredIff(hs: Hashes, nodes: set<string>, events: seq<Event>, c: Client, k: nat)
    requires var t := WorldAfter(hs, nodes, events).traffic; k < |t.calls| && Settled(t, k)
    ensures var t := WorldAfter(hs, nodes, events).traffic;
            && Copies(t, c, k) <= 1
            && (Copies(t, c, k) == 1 <==>
                  (c, k) !in t.lost && exists q: nat :: q < |events| && FoundAt(hs, nodes, events, q, c, k))
  {
    SettledDelivery(hs, nodes, events, k);
    ChosenIff(hs, nodes, events, c, k);
    hide WorldAfter, Settled, FoundAt, Copies, Chosen;
  }

  /** A publication reaches each hub's recorded subscription to its topic; only a full queue refuses it. */
  lemma PublishReachesRecorded(hs: Hashes, w: World, j: Job, n: string)
    requires WorldInv(w) && InPhase(w.traffic, j, ToPublish)
    requires SpotOf(w.traffic.calls[j.call], n) in w.hubs.shared.index.subs
    ensures var id := w.hubs.shared.index.subs[SpotOf(w.traffic.calls[j.call], n)];
            var t' := Next(hs, w, Event.Publish(j)).traffic;
            && IsSub(w.hubs, id) && NodeOf(w.hubs, id) == n
            && j.call in t'.accepted && j.call in t'.refused
            && (if |Queue(w.traffic, id)| < SLOTS then id in t'.accepted[j.call] else id in t'.refused[j.call])
  {
    hide Key, Serving, Routing, Known, ChannelsInv, PresenceInv, IndexInv, UserPhase;
  }

  /** The connection listens whenever its hub fixes the call's recipients. */
  ghost predicate ListensThen(hs: Hashes, nodes: set<string>, events: seq<Event>, c: Client, k: nat) {
    forall q: nat :: q < |events| && SnapsAt(hs, nodes, events, q, Job(c.node, k)) ==>
      Listens(WorldAfter(hs, nodes, events[..q]), c, k)
  }

  lemma FannedOutIsDelivered(hs: Hashes, nodes: set<string>, events: seq<Event>, c: Client, k: nat)
    requires var t := WorldAfter(hs, nodes, events).traffic;
             && k < |t.calls| && Settled(t, k) && (c, k) !in t.lost && Job(c.node, k) in t.snaps
    requires ListensThen(hs, nodes, events, c, k)
    ensures Copies(WorldAfter(hs, nodes, events).traffic, c, k) == 1
  {
    DeliveredIff(hs, nodes, events, c, k);
    hide WorldAfter, Settled, SnapsAt, Listens, Copies;
    SnapshotMoment(hs, nodes, events, c, k);
    var q: nat :| q < |events| && SnapsAt(hs, nodes, events, q, Job(c.node, k));
    assert FoundAt(hs, nodes, events, q, c, k);
  }

  /**
   * Exactly once, on the other hubs. If the hub has recorded the topic's subscription when the call is published
   * and its queue has room, a connection that listens when the hub fixes the recipients has the call once when
   * it is settled, unless its own full send channel dropped it.
   */
  lemma RemoteExactlyOnce(hs: Hashes, nodes: set<string>, events: seq<Event>, p: nat, j: Job, c: Client)
    requires p < |events| && events[p] == Event.Publish(j)
    requires HasOpening(WorldAfter(hs, nodes, events[..p]), j, c.node)
    requires ListensThen(hs, nodes, events, c, j.call)
    requires var t := WorldAfter(hs, nodes, events).traffic; Settled(t, j.call) && (c, j.call) !in t.lost
    ensures Copies(WorldAfter(hs, nodes, events).traffic, c, j.call) == 1
  {
    RemoteAccepted(hs, nodes, events, p, j, c.node);
    SettledDelivery(hs, nodes, events, j.call);
    hide WorldAfter, Copies, Settled, ListensThen, HasOpening, Accepts, NodeOf;
    FannedOutIsDelivered(hs, nodes, events, c, j.call);
  }

  /** The call is about to be published, and hub `n`, not its own, has recorded the topic's subscription, with room. */
  ghost predicate HasOpening(w: World, j: Job, n: string) {
    && InPhase(w.traffic, j, ToPublish)
    && n != w.traffic.calls[j.call].origin
    && SpotOf(w.traffic.calls[j.call], n) in w.hubs.shared.index.subs
    && |Queue(w.traffic, w.hubs.shared.index.subs[SpotOf(w.traffic.calls[j.call], n)])| < SLOTS
  }

  lemma RemoteAccepted(hs: Hashes, nodes: set<string>, events: seq<Event>, p: nat, j: Job, n: string)
    requires p < |events| && events[p] == Event.Publish(j)
    requires HasOpening(WorldAfter(hs, nodes, events[..p]), j, n)
    ensures var w := WorldAfter(hs, nodes, events);
            && j.call < |w.traffic.calls|
            && exists id :: Accepts(w.traffic, j.call, id) && IsSub(w.hubs, id) && NodeOf(w.hubs, id) == n
  {
    var w := WorldAfter(hs, nodes, events[..p]);
    var end := WorldAfter(hs, nodes, events);
    var id := w.hubs.shared.index.subs[SpotOf(w.traffic.calls[j.call], n)];
    AfterKeepsInv(hs, nodes, events[..p]);
    PublishReachesRecorded(hs, w, j, n);
    AfterOneMore(hs, nodes, events, p);
    RunGrows(hs, nodes, events, p);
    RunGrows(hs, nodes, events, p + 1);
    hide WorldAfter, WorldInv, Next, Key, Queue;
    assert Accepts(end.traffic, j.call, id);
    assert IsSub(end.hubs, id) && NodeOf(end.hubs, id) == n;
  }

  /** Exactly once, on the call's own hub: whoever listens when the hub fixes the recipients. */
  lemma LocalExactlyOnce(hs: Hashes, nodes: set<string>, events: seq<Event>, c: Client, k: nat)
    requires var t := WorldAfter(hs, nodes, events).traffic;
             k < |t.calls| && t.calls[k].origin == c.node && Settled(t, k) && (c, k) !in t.lost
    requires ListensThen(hs, nodes, events, c, k)
    ensures Copies(WorldAfter(hs, nodes, events).traffic, c, k) == 1
  {
    SettledDelivery(hs, nodes, events, k);
    hide WorldAfter, Copies, Settled, ListensThen;
    FannedOutIsDelivered(hs, nodes, events, c, k);
  }

  // Who listens, and client events.

  /** In terms of the connections' own sets: the members of the channel and of `"*"`, less the excluded socket. */
  lemma ListensIff(hs: Hashes, nodes: set<string>, events: seq<Event>, c: Client, k: nat)
    requires k < |WorldAfter(hs, nodes, events).traffic.calls|
    ensures var w := WorldAfter(hs, nodes, events);
            var p := w.traffic.calls[k];
            Listens(w, c, k) <==>
              && c.app == p.app
              && (p.channel in Mine(w.hubs, c) || "*" in Mine(w.hubs, c))
              && !(p.exclude != "" && c.socket == p.exclude)
  {
    var w := WorldAfter(hs, nodes, events);
    AfterKeepsInv(hs, nodes, events);
    hide WorldAfter, Inv, Serving, Routing, RecipientsOf, ColonFree;
    RecipientIff(w.hubs, w.traffic.calls[k], c);
  }

  lemma RecipientIff(h: Hubs, p: Payload, c: Client)
    requires Inv(h) && ColonFree(p.app)
    ensures c in RecipientsOf(h, p, c.node) <==>
              && c.app == p.app
              && (p.channel in Mine(h, c) || "*" in Mine(h, c))
              && !(p.exclude != "" && c.socket == p.exclude)
  {
    if c in RecipientsOf(h, p, c.node) {
      RecipientFacts(h, p, c.node, c);
    }
    assert SetsAgree(h);
    hide Key, Inv, Mine;
    if c.app == p.app {
      assert SpotOf(p, c.node) == ChannelSpot(c, p.channel) && Spot(c.node, Key(p.app, "*")) == ChannelSpot(c, "*");
    }
  }

  /** Event `q` is the passing of the checks of a subscription of the connection to the channel. */
  ghost predicate PassesAt(hs: Hashes, nodes: set<string>, events: seq<Event>, q: nat, c: Client, ch: string)
    requires q < |events|
  {
    events[q].HubMove? && Passes(hs, WorldAfter(hs, nodes, events[..q]).hubs, events[q].m, c, ch)
  }

  lemma NextHolds(hs: Hashes, w: World, e: Event, c: Client, ch: string)
    requires Holds(Next(hs, w, e).hubs, c, ch) && !Holds(w.hubs, c, ch)
    ensures e.HubMove? && Passes(hs, w.hubs, e.m, c, ch)
  {
    match e
    case HubMove(m) => StepHolds(hs, w.hubs, m, c, ch);
    case Announce(d) => StepHolds(hs, w.hubs, Do(d, Await(|w.traffic.calls|)), c, ch);
    case ClientEvent(d, _, _, _) => StepHolds(hs, w.hubs, Do(d, Await(|w.traffic.calls|)), c, ch);
    case Return(d) => StepHolds(hs, w.hubs, Do(d, Resume), c, ch);
    case _ =>
  }

  lemma {:induction false} HoldersPassedAt(hs: Hashes, nodes: set<string>, events: seq<Event>, c: Client, ch: string)
    requires Holds(WorldAfter(hs, nodes, events).hubs, c, ch)
    ensures exists q: nat :: PassedAndStayedAt(hs, nodes, events, q, c, ch)
  {
    hide Next, Holds, Passes;
    if events == [] {
      StartHoldsNothing(nodes, c, ch);
    } else {
      var n := |events| - 1;
      assert events[..n + 1] == events;
      if Holds(WorldAfter(hs, nodes, events[..n]).hubs, c, ch) {
        HoldersPassedAt(hs, nodes, events[..n], c, ch);
        var q: nat :| PassedAndStayedAt(hs, nodes, events[..n], q, c, ch);
        StaysOnAt(hs, nodes, events, q, c, ch);
      } else {
        NextHolds(hs, WorldAfter(hs, nodes, events[..n]), events[n], c, ch);
        assert PassedAndStayedAt(hs, nodes, events, n, c, ch);
      }
    }
  }

  /** At event `q` the connection passed the checks for the channel, and it has not left since. */
  ghost predicate PassedAndStayedAt(hs: Hashes, nodes: set<string>, events: seq<Event>, q: nat, c: Client, ch: string) {
    && q < |events| && PassesAt(hs, nodes, events, q, c, ch)
    && forall r :: q < r <= |events| ==> Holds(WorldAfter(hs, nodes, events[..r]).hubs, c, ch)
  }

  lemma StaysOnAt(hs: Hashes, nodes: set<string>, events: seq<Event>, q: nat, c: Client, ch: string)
    requires events != [] && PassedAndStayedAt(hs, nodes, events[..|events| - 1], q, c, ch)
    requires Holds(WorldAfter(hs, nodes, events).hubs, c, ch)
    ensures PassedAndStayedAt(hs, nodes, events, q, c, ch)
  {
    hide WorldAfter, Holds, Passes;
    var n := |events| - 1;
    assert events[..n][..q] == events[..q] && events[..n + 1] == events;
    forall r | q < r <= n ensures Holds(WorldAfter(hs, nodes, events[..r]).hubs, c, ch) {
      assert events[..n][..r] == events[..r];
    }
  }

  /**
   * A client event is forwarded only for a member of a private or presence channel, who got in by a subscription
   * whose auth string for exactly this socket and channel was right under the application's key and secret at
   * that step; it is forwarded as an event of that channel that excludes the sender.
   */
  lemma ClientEventsAreAuthorized(hs: Hashes, nodes: set<string>, events: seq<Event>, c: Client,
                                  ch: string, event: string, data: string)
    requires var w := WorldAfter(hs, nodes, events); Next(hs, w, Event.ClientEvent(c, ch, event, data)) != w
    ensures var w := WorldAfter(hs, nodes, events);
            var w' := Next(hs, w, Event.ClientEvent(c, ch, event, data));
            && (HasPrefix(ch, "private-") || HasPrefix(ch, "presence-")) && HasPrefix(event, "client-") && |event| > 7
            && c in w.hubs.conns && c in Members(w.hubs.shared.index, ChannelSpot(c, ch))
            && w'.traffic.calls == w.traffic.calls + [Payload(c.node, c.app, ch, event, data, c.socket)]
            && InPhase(w'.traffic, Job(c.node, |w.traffic.calls|), ToSnapshot)
            && (forall d :: Mine(w'.hubs, d) == Mine(w.hubs, d))
    ensures exists q: nat :: PassedAndStayedAt(hs, nodes, events, q, c, ch)
  {
    var w := WorldAfter(hs, nodes, events);
    ForwardedFacts(hs, w, c, ch, event, data);
    AfterKeepsInv(hs, nodes, events);
    MineIsMember(w.hubs, c, ch);
    hide WorldAfter, WorldInv, Next, Passes;
    HoldersPassedAt(hs, nodes, events, c, ch);
  }

  lemma ForwardedFacts(hs: Hashes, w: World, c: Client, ch: string, event: string, data: string)
    requires Next(hs, w, Event.ClientEvent(c, ch, event, data)) != w
    ensures var w' := Next(hs, w, Event.ClientEvent(c, ch, event, data));
            && (HasPrefix(ch, "private-") || HasPrefix(ch, "presence-")) && HasPrefix(event, "client-") && |event| > 7
            && ch in Mine(w.hubs, c) && Holds(w.hubs, c, ch)
            && w'.traffic.calls == w.traffic.calls + [Payload(c.node, c.app, ch, event, data, c.socket)]
            && InPhase(w'.traffic, Job(c.node, |w.traffic.calls|), ToSnapshot)
            && (forall d :: Mine(w'.hubs, d) == Mine(w.hubs, d))
  {
    AwaitKeepsMine(hs, w.hubs, c, |w.traffic.calls|);
    hide Step;
  }

  lemma MineIsMember(h: Hubs, c: Client, ch: string)
    requires Inv(h) && ch in Mine(h, c)
    ensures c in h.conns && c in Members(h.shared.index, ChannelSpot(c, ch))
  {
    hide Key, SubsInv, PresenceInv, IndexInv, UserPhase;
  }

  lemma AwaitKeepsMine(hs: Hashes, h: Hubs, c: Client, k: nat)
    ensures forall d :: Mine(Step(hs, h, Do(c, Await(k))), d) == Mine(h, d)
  {}

  /**
   * And nobody gets it but those who, when their hub fixes the recipients after the event, are members of that
   * channel or of `"*"` in the same application, the sender excepted.
   */
  lemma ClientEventsStayInChannel(hs: Hashes, nodes: set<string>, events: seq<Event>, p: nat, d: Client)
    requires p < |events| && events[p].ClientEvent?
    requires var w := WorldAfter(hs, nodes, events[..p]); Next(hs, w, events[p]) != w
    ensures var e := events[p];
            var k := |WorldAfter(hs, nodes, events[..p]).traffic.calls|;
            var t := WorldAfter(hs, nodes, events).traffic;
            Copies(t, d, k) == 1 ==>
              && d != e.c && d.app == e.c.app
              && exists q | p < q < |events| :: SnapsAt(hs, nodes, events, q, Job(d.node, k))
                   && var m := Mine(WorldAfter(hs, nodes, events[..q]).hubs, d); e.ch in m || "*" in m
  {
    var e := events[p];
    var w := WorldAfter(hs, nodes, events[..p]);
    var k := |w.traffic.calls|;
    var made := Payload(e.c.node, e.c.app, e.ch, e.event, e.data, e.c.socket);
    AfterKeepsInv(hs, nodes, events[..p]);
    SenderHasSocket(w, e.c);
    ForwardedFacts(hs, w, e.c, e.ch, e.event, e.data);
    AfterOneMore(hs, nodes, events, p);
    RunGrows(hs, nodes, events, p + 1);
    AtMostOnce(hs, nodes, events, d, k);
    hide WorldAfter, WorldInv, Next, RecipientsOf, Copies, InPhase, Mine, Extends, SnapsAt;
    if Copies(WorldAfter(hs, nodes, events).traffic, d, k) == 1 {
      ChosenIff(hs, nodes, events, d, k);
      var q: nat :| q < |events| && FoundAt(hs, nodes, events, q, d, k);
      CallsCome(hs, nodes, events, p, q);
      ListensIff(hs, nodes, events[..q], d, k);
      RunGrows(hs, nodes, events, q);
      var m := Mine(WorldAfter(hs, nodes, events[..q]).hubs, d);
      assert e.ch in m || "*" in m;
    }
  }

  /** A call that is there after `q` events and not after `p` came in between. */
  lemma CallsCome(hs: Hashes, nodes: set<string>, events: seq<Event>, p: nat, q: nat)
    requires p <= |events| && q <= |events|
    ensures |WorldAfter(hs, nodes, events[..p]).traffic.calls| < |WorldAfter(hs, nodes, events[..q]).traffic.calls|
            ==> p < q
  {
    if q <= p {
      assert events[..p][..q] == events[..q];
      RunGrows(hs, nodes, events[..p], q);
      hide WorldAfter;
    }
  }

  lemma SenderHasSocket(w: World, c: Client)
    requires WorldInv(w)
    ensures c in w.hubs.conns ==> c.socket != ""
  {
    hide ChannelsInv, SubsInv, PresenceInv, IndexInv, UserPhase, TrafficInv;
  }

  /** The hubs' moves as events of the cluster. */
  function MovesOf(moves: seq<Move>): (events: seq<Event>)
    ensures |events| == |moves|
  {
    seq(|moves|, i requires 0 <= i < |moves| => HubMove(moves[i]))
  }

  /** Every run of the hubs without broadcasts is a run of the cluster, with nothing in flight. */
  lemma {:induction false} HubRunsInside(hs: Hashes, nodes: set<string>, moves: seq<Move>)
    requires forall i :: 0 <= i < |moves| && moves[i].Do? ==> !moves[i].action.Await? && !moves[i].action.Resume?
    ensures WorldAfter(hs, nodes, MovesOf(moves)) == Begin(nodes).(hubs := Run(hs, nodes, moves))
  {
    hide Step;
    if moves != [] {
      var most := moves[..|moves| - 1];
      HubRunsInside(hs, nodes, most);
      assert MovesOf(moves)[..|moves| - 1] == MovesOf(most);
    }
  }
}
