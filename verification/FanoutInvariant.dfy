/** Every step of the cluster keeps the traffic invariant. */
module FanoutInvariant {
  import opened ChannelKeys
  import opened HubIndex
  import opened Presence
  import opened RequestSigning
  import opened HubSteps
  import opened HubMembership
  import opened HubTheorems
  import opened Messages
  import opened Fanout

  /** Subscriptions keep their numbers and their topics. */
  ghost predicate Extends(h: Hubs, h': Hubs) {
    && |h.shared.subs| <= |h'.shared.subs|
    && (forall id :: 0 <= id < |h.shared.subs| ==> h'.shared.subs[id].spot == h.shared.subs[id].spot)
  }

  lemma StepExtends(hs: Hashes, h: Hubs, m: Move)
    ensures Extends(h, Step(hs, h, m))
  {
    hide Key, Authorized, IsPresence, MemoryAdd, MemoryRemove;
  }

  lemma HubStepKeeps(h: Hubs, h': Hubs, t: Traffic)
    requires Routing(h, t) && Extends(h, h')
    ensures Routing(h', t)
  {
    hide Key;
    forall k, id ensures TargetOK(h', t, k, id) { assert TargetOK(h, t, k, id); }
    forall k, id, id' ensures OnePerHub(h', t, k, id, id') {
      assert OnePerHub(h, t, k, id, id') && TargetOK(h, t, k, id) && TargetOK(h, t, k, id');
    }
    forall k, id ensures FateOK(h', t, k, id) {
      assert FateOK(h, t, k, id) && TargetOK(h, t, k, id);
    }
    forall j ensures RemoteOK(h', t, j) {
      assert RemoteOK(h, t, j);
      if id :| Accepts(t, j.call, id) && IsSub(h, id) && NodeOf(h, id) == j.node {
        assert Accepts(t, j.call, id) && IsSub(h', id) && NodeOf(h', id) == j.node;
      }
    }
  }

  // What leaves queues and publications alone keeps the routing.

  lemma RoutingFrame(h: Hubs, t: Traffic, t': Traffic)
    requires Routing(h, t) && (forall j :: JobOK(t, j))
    requires t'.accepted == t.accepted && t'.refused == t.refused && t'.queues == t.queues
    requires |t.calls| <= |t'.calls| && t'.calls[..|t.calls|] == t.calls
    requires forall j :: j in t'.jobs && j !in t.jobs ==>
             j.call == |t.calls| < |t'.calls| && j.node == t'.calls[j.call].origin
    requires forall j :: j in t.jobs ==> j in t'.jobs
    ensures Routing(h, t')
  {
    hide Key;
    assert forall k :: 0 <= k < |t.calls| ==> t'.calls[k] == t.calls[k];
    forall k, id ensures Reaches(t', k, id) == Reaches(t, k, id) && Accepts(t', k, id) == Accepts(t, k, id) {}
    forall k, id ensures TargetOK(h, t', k, id) { assert TargetOK(h, t, k, id); }
    forall k, id, id' ensures OnePerHub(h, t', k, id, id') { assert OnePerHub(h, t, k, id, id'); }
    forall id ensures QueueOK(t', id) { assert QueueOK(t, id); }
    forall k, id ensures FateOK(h, t', k, id) { assert FateOK(h, t, k, id) && TargetOK(h, t, k, id); }
    forall j ensures RemoteOK(h, t', j) { assert RemoteOK(h, t, j) && JobOK(t, j); }
  }

  lemma NewCallServes(t: Traffic, p: Payload)
    requires Serving(t)
    ensures Serving(NewCall(t, p))
  {
    var t' := NewCall(t, p);
    SameCopies(t, t');
    hide Copies;
    assert JobOK(t, Job(p.origin, |t.calls|));
    assert CallOK(t, |t.calls|);
    forall j ensures JobOK(t', j) { assert JobOK(t, j); }
    forall k ensures CallOK(t', k) { assert CallOK(t, k); }
    forall j, c ensures SnapOK(t', j, c) { assert SnapOK(t, j, c) && JobOK(t, j); }
    forall c, k ensures Conserved(t', c, k) { assert Conserved(t, c, k); }
  }

  lemma SameCopies(t: Traffic, t': Traffic)
    requires t'.sent == t.sent
    ensures forall c, k :: Copies(t', c, k) == Copies(t, c, k)
  {}

  lemma SendServes(t: Traffic, j: Job, c: Client)
    requires Serving(t) && j in t.jobs && t.jobs[j].Sending? && c in t.jobs[j].left
    ensures Serving(DoSend(t, j, c))
  {
    var t' := DoSend(t, j, c);
    assert JobOK(t, j) && SnapOK(t, j, c);
    forall d, k ensures Conserved(t', d, k) {
      assert Conserved(t, d, k);
      SendConserves(t, j, c, d, k);
    }
    SendKeepsRecords(t, j, c);
    hide Conserved;
  }

  lemma SendEffect(t: Traffic, j: Job, c: Client)
    requires j in t.jobs && t.jobs[j].Sending?
    ensures var t' := DoSend(t, j, c);
            && t'.jobs == t.jobs[j := Sending(t.jobs[j].left - {c})]
            && t'.calls == t.calls && t'.snaps == t.snaps && t'.queues == t.queues
            && t'.accepted == t.accepted && t'.refused == t.refused
  {}

  lemma SendKeepsRecords(t: Traffic, j: Job, c: Client)
    requires Serving(t) && j in t.jobs && t.jobs[j].Sending?
    ensures var t' := DoSend(t, j, c);
            && (forall i :: JobOK(t', i)) && (forall k :: CallOK(t', k)) && (forall i, d :: SnapOK(t', i, d))
  {
    var t' := DoSend(t, j, c);
    var left := t.jobs[j].left;
    SendEffect(t, j, c);
    hide DoSend, Conserved;
    assert JobOK(t, j);
    forall i ensures JobOK(t', i) { assert JobOK(t, i); }
    forall k ensures CallOK(t', k) { assert CallOK(t, k); }
    forall i, d ensures SnapOK(t', i, d) { assert SnapOK(t, i, d); }
  }

  lemma SendConserves(t: Traffic, j: Job, c: Client, d: Client, k: nat)
    requires j in t.jobs && t.jobs[j].Sending? && c in t.jobs[j].left
    requires JobOK(t, j) && SnapOK(t, j, c) && Conserved(t, d, k)
    ensures Conserved(DoSend(t, j, c), d, k)
  {
    SendCopies(t, j, c);
    hide Copies, HasRoom;
  }

  lemma SendCopies(t: Traffic, j: Job, c: Client)
    requires j in t.jobs && t.jobs[j].Sending?
    ensures var t' := DoSend(t, j, c);
            forall d, k :: Copies(t', d, k) == Copies(t, d, k) + if HasRoom(t, c) && d == c && k == j.call then 1 else 0
  {
    var s := Sent(t, c);
    assert multiset(s + [Frame.Event(j.call)]) == multiset(s) + multiset{Frame.Event(j.call)};
  }

  lemma EndSendsServes(t: Traffic, j: Job)
    requires Serving(t) && InPhase(t, j, Sending({}))
    ensures Serving(t.(jobs := t.jobs[j := if t.calls[j.call].origin == j.node then ToPublish else Finished]))
  {
    var t' := t.(jobs := t.jobs[j := if t.calls[j.call].origin == j.node then ToPublish else Finished]);
    SameCopies(t, t');
    hide Copies;
    assert JobOK(t, j);
    forall i ensures JobOK(t', i) { assert JobOK(t, i); }
    forall k ensures CallOK(t', k) { assert CallOK(t, k); }
    forall i, d ensures SnapOK(t', i, d) { assert SnapOK(t, i, d); }
    forall d, k ensures Conserved(t', d, k) { assert Conserved(t, d, k); }
  }

  /** Taking a frame to the wire, queueing one that is no broadcast, or taking a message from the broker. */
  lemma FrameServes(t: Traffic, t': Traffic)
    requires Serving(t) && t' == t.(sent := t'.sent, written := t'.written, queues := t'.queues, taken := t'.taken)
    requires forall c, k :: Copies(t', c, k) == Copies(t, c, k)
    ensures Serving(t')
  {
    hide Copies;
    forall i ensures JobOK(t', i) { assert JobOK(t, i); }
    forall k ensures CallOK(t', k) { assert CallOK(t, k); }
    forall i, d ensures SnapOK(t', i, d) { assert SnapOK(t, i, d); }
    forall d, k ensures Conserved(t', d, k) { assert Conserved(t, d, k); }
  }

  /** A fan-out of a known call starts on another hub than the call's own. */
  lemma StartServes(t: Traffic, j: Job)
    requires Serving(t) && j !in t.jobs && j.call < |t.calls| && j.node != t.calls[j.call].origin
    ensures Serving(t.(jobs := t.jobs[j := ToSnapshot]))
  {
    var t' := t.(jobs := t.jobs[j := ToSnapshot]);
    SameCopies(t, t');
    hide Copies;
    assert JobOK(t, j);
    forall i ensures JobOK(t', i) { assert JobOK(t, i); }
    forall k ensures CallOK(t', k) { assert CallOK(t, k); }
    forall i, d ensures SnapOK(t', i, d) { assert SnapOK(t, i, d); }
    forall d, k ensures Conserved(t', d, k) { assert Conserved(t, d, k); }
  }

  /** A recipient found under `h.mu` is a connection of that hub and application, and not the excluded one. */
  lemma RecipientFacts(h: Hubs, p: Payload, node: string, c: Client)
    requires Inv(h) && ColonFree(p.app) && c in RecipientsOf(h, p, node)
    ensures c in h.conns && c.node == node && c.app == p.app && !(p.exclude != "" && c.socket == p.exclude)
  {
    hide UserPhase, SubsInv, PresenceInv, IndexInv;
    var i := h.shared.index;
    var s := if c in Members(i, SpotOf(p, node)) then SpotOf(p, node) else Spot(node, Key(p.app, "*"));
    var name := if c in Members(i, SpotOf(p, node)) then p.channel else "*";
    assert c in Members(i, s) && OwnSpot(c, s);
    var ch :| s == ChannelSpot(c, ch);
    assert ch in Mine(h, c);
    KeyInjective(c.app, ch, p.app, name);
  }

  lemma SnapshotServes(h: Hubs, t: Traffic, j: Job)
    requires Inv(h) && TrafficInv(h, t) && InPhase(t, j, ToSnapshot)
    ensures Serving(DoSnapshot(h, t, j))
  {
    var t' := DoSnapshot(h, t, j);
    var r := RecipientsOf(h, t.calls[j.call], j.node);
    forall d | d in r
      ensures d.node == j.node && d.app == t.calls[j.call].app
      ensures !(t.calls[j.call].exclude != "" && d.socket == t.calls[j.call].exclude)
    {
      RecipientFacts(h, t.calls[j.call], j.node, d);
    }
    SameCopies(t, t');
    hide Key, RecipientsOf, Inv, Copies, Routing;
    assert JobOK(t, j);
    forall i ensures JobOK(t', i) { assert JobOK(t, i); }
    forall k ensures CallOK(t', k) { assert CallOK(t, k); }
    forall i, d ensures SnapOK(t', i, d) { assert SnapOK(t, i, d); }
    forall d, k ensures Conserved(t', d, k) {
      assert Conserved(t, d, k) && JobOK(t, Job(d.node, k));
      if j == Job(d.node, k) { SnapshotConserves(h, t, j, d); }
    }
  }

  lemma SnapshotConserves(h: Hubs, t: Traffic, j: Job, d: Client)
    requires Inv(h) && InPhase(t, j, ToSnapshot) && j == Job(d.node, j.call)
    requires JobOK(t, j) && Conserved(t, d, j.call)
    ensures Conserved(DoSnapshot(h, t, j), d, j.call)
  {
    SameCopies(t, DoSnapshot(h, t, j));
    hide Copies, RecipientsOf, Inv;
  }

  /** At any moment a hub has at most one open broker subscription to a topic. */
  lemma OpenUnique(h: Hubs, id: nat, id': nat)
    requires SubsInv(h) && IsSub(h, id) && IsSub(h, id')
    requires h.shared.subs[id].open && h.shared.subs[id'].open && h.shared.subs[id].spot == h.shared.subs[id'].spot
    ensures id == id'
  {
    hide Key;
    var spot := h.shared.subs[id].spot;
    OpenSubIff(h, spot, id);
    OpenSubIff(h, spot, id');
    forall c | PendingAt(h, c, spot) ensures spot !in h.shared.index.subs {
      assert PendingOK(h, c);
    }
  }

  lemma PublishServes(h: Hubs, t: Traffic, j: Job)
    requires Serving(t) && InPhase(t, j, ToPublish)
    ensures Serving(DoPublish(h, t, j))
  {
    hide Targets;
    var t' := DoPublish(h, t, j);
    SameCopies(t, t');
    hide Copies;
    assert JobOK(t, j) && CallOK(t, j.call);
    assert t'.jobs == t.jobs[j := Finished] && t'.snaps == t.snaps && t'.calls == t.calls;
    forall i ensures JobOK(t', i) { assert JobOK(t, i); }
    forall k ensures CallOK(t', k) { assert CallOK(t, k); }
    forall i, d ensures SnapOK(t', i, d) { assert SnapOK(t, i, d); }
    forall d, k ensures Conserved(t', d, k) { assert Conserved(t, d, k); }
  }

  /** Where a publication goes. */
  lemma PublishReaches(h: Hubs, t: Traffic, j: Job)
    requires j.call < |t.calls|
    ensures var t' := DoPublish(h, t, j);
            var targets := Targets(h.shared, t.calls[j.call]);
            && (forall k, id :: Reaches(t', k, id) <==> if k == j.call then id in targets else Reaches(t, k, id))
            && (forall k, id :: Accepts(t', k, id) <==>
                  if k == j.call then id in targets && |Queue(t, id)| < SLOTS else Accepts(t, k, id))
            && (forall id :: Queue(t', id) ==
                  if id in targets && |Queue(t, id)| < SLOTS then Queue(t, id) + [j.call] else Queue(t, id))
  {
    hide Targets;
  }

  /** A publication's targets are subscriptions to its topic, of each hub at most one. */
  lemma TargetsOnePerHub(h: Hubs, p: Payload)
    requires SubsInv(h)
    ensures forall id :: id in Targets(h.shared, p) ==>
            IsSub(h, id) && h.shared.subs[id].spot == SpotOf(p, NodeOf(h, id))
    ensures forall id, id' ::
      (id in Targets(h.shared, p) && id' in Targets(h.shared, p) && NodeOf(h, id) == NodeOf(h, id')) ==> id == id'
  {
    forall id, id' | id in Targets(h.shared, p) && id' in Targets(h.shared, p) && NodeOf(h, id) == NodeOf(h, id')
      ensures id == id'
    {
      OpenUnique(h, id, id');
    }
  }

  lemma PublishRoutes(h: Hubs, t: Traffic, j: Job)
    requires SubsInv(h) && Serving(t) && Routing(h, t) && InPhase(t, j, ToPublish)
    ensures Routing(h, DoPublish(h, t, j))
  {
    var t' := DoPublish(h, t, j);
    assert JobOK(t, j) && CallOK(t, j.call);
    PublishTargets(h, t, j);
    forall id ensures QueueOK(t', id) {
      assert QueueOK(t, id);
      PublishQueue(h, t, j, id);
    }
    forall k, id ensures FateOK(h, t', k, id) {
      assert FateOK(h, t, k, id) && QueueOK(t, id);
      PublishFate(h, t, j, k, id);
    }
    forall i ensures RemoteOK(h, t', i) {
      assert RemoteOK(h, t, i);
      PublishRemote(h, t, j, i);
    }
  }

  lemma PublishTargets(h: Hubs, t: Traffic, j: Job)
    requires SubsInv(h) && Routing(h, t) && j.call < |t.calls|
    ensures var t' := DoPublish(h, t, j);
            && (forall k, id :: TargetOK(h, t', k, id))
            && (forall k, id, id' :: OnePerHub(h, t', k, id, id'))
  {
    var t' := DoPublish(h, t, j);
    TargetsOnePerHub(h, t.calls[j.call]);
    PublishReaches(h, t, j);
    assert t'.calls == t.calls;
    hide Key, SubsInv, DoPublish, Targets, Reaches, SpotOf;
    forall k, id ensures TargetOK(h, t', k, id) { assert TargetOK(h, t, k, id); }
    forall k, id, id' ensures OnePerHub(h, t', k, id, id') { assert OnePerHub(h, t, k, id, id'); }
  }

  lemma PublishFate(h: Hubs, t: Traffic, j: Job, k: nat, id: nat)
    requires InPhase(t, j, ToPublish) && j.call !in t.accepted
    requires FateOK(h, t, k, id) && QueueOK(t, id) && forall i :: RemoteOK(h, t, i)
    ensures FateOK(h, DoPublish(h, t, j), k, id)
  {
    var t' := DoPublish(h, t, j);
    PublishReaches(h, t, j);
    NotAccepted(t, j.call);
    assert t'.jobs.Keys == t.jobs.Keys && t'.calls == t.calls;
    hide DoPublish, Targets, Accepts, Queue;
    if k == j.call && IsSub(h, id) {
      assert RemoteOK(h, t, Job(NodeOf(h, id), k));
    }
  }

  lemma PublishRemote(h: Hubs, t: Traffic, j: Job, i: Job)
    requires InPhase(t, j, ToPublish) && j.call !in t.accepted && RemoteOK(h, t, i)
    ensures RemoteOK(h, DoPublish(h, t, j), i)
  {
    var t' := DoPublish(h, t, j);
    PublishReaches(h, t, j);
    NotAccepted(t, j.call);
    assert t'.jobs.Keys == t.jobs.Keys && t'.calls == t.calls;
    hide DoPublish, Targets, Accepts;
  }

  lemma NotAccepted(t: Traffic, k: nat)
    ensures k !in t.accepted ==> forall id :: !Accepts(t, k, id)
  {}

  lemma PublishQueue(h: Hubs, t: Traffic, j: Job, id: nat)
    requires j.call < |t.calls| && QueueOK(t, id) && j.call !in t.accepted
    ensures QueueOK(DoPublish(h, t, j), id)
  {
    PublishReaches(h, t, j);
    hide DoPublish, Targets, Queue;
    assert j.call !in Queue(t, id);
  }

  lemma ReadServes(h: Hubs, t: Traffic, id: nat)
    requires Serving(t) && Routing(h, t) && IsSub(h, id) && Queue(t, id) != [] && Queue(t, id)[0] < |t.calls|
    ensures Serving(DoRead(h, t, id))
  {
    var t' := DoRead(h, t, id);
    var k0 := Queue(t, id)[0];
    var j := Job(NodeOf(h, id), k0);
    assert k0 in Queue(t, id) && QueueOK(t, id) && FateOK(h, t, k0, id);
    SameCopies(t, t');
    if t.calls[k0].origin == j.node {
      hide Serving, Copies;
      FrameServes(t, t');
    } else {
      assert j !in t.jobs;
      var u := t.(jobs := t.jobs[j := ToSnapshot]);
      SameCopies(t, u);
      StartServes(t, j);
      hide Serving, Copies;
      FrameServes(u, t');
    }
  }

  /** Reading takes the head out of one queue. */
  lemma ReadQueueEffect(h: Hubs, t: Traffic, id: nat)
    requires IsSub(h, id) && Queue(t, id) != [] && Queue(t, id)[0] < |t.calls| && QueueOK(t, id)
    ensures var t' := DoRead(h, t, id);
            var k0 := Queue(t, id)[0];
            && (forall x :: QueueOK(t, x) ==> NoDuplicates(Queue(t', x)))
            && (forall x, k :: k in Queue(t', x) <==> k in Queue(t, x) && !(x == id && k == k0))
            && (forall j :: j in t'.jobs <==>
                  j in t.jobs || (j == Job(NodeOf(h, id), k0) && t.calls[k0].origin != NodeOf(h, id)))
  {
    HeadAndRest(Queue(t, id));
    ReadQueues(h, t, id);
    ReadJobs(h, t, id);
    hide NoDuplicates, DoRead, Queue;
  }

  lemma ReadQueues(h: Hubs, t: Traffic, id: nat)
    requires IsSub(h, id) && Queue(t, id) != [] && Queue(t, id)[0] < |t.calls|
    ensures var t' := DoRead(h, t, id);
            forall x :: Queue(t', x) == if x == id then Queue(t, id)[1..] else Queue(t, x)
  {}

  lemma ReadJobs(h: Hubs, t: Traffic, id: nat)
    requires IsSub(h, id) && Queue(t, id) != [] && Queue(t, id)[0] < |t.calls|
    ensures var t' := DoRead(h, t, id);
            var k0 := Queue(t, id)[0];
            forall j :: j in t'.jobs <==>
              j in t.jobs || (j == Job(NodeOf(h, id), k0) && t.calls[k0].origin != NodeOf(h, id))
  {
    hide Queue;
  }

  lemma HeadAndRest(q: seq<nat>)
    requires q != [] && NoDuplicates(q)
    ensures NoDuplicates(q[1..]) && forall k :: k in q[1..] <==> k in q && k != q[0]
  {}

  lemma ReadRoutes(h: Hubs, t: Traffic, id: nat)
    requires Routing(h, t) && IsSub(h, id) && Queue(t, id) != [] && Queue(t, id)[0] < |t.calls|
    ensures Routing(h, DoRead(h, t, id))
  {
    hide Key, DoRead, Queue, Reaches, Accepts, NoDuplicates, SpotOf;
    var t' := DoRead(h, t, id);
    assert QueueOK(t, id) && Queue(t, id)[0] in Queue(t, id);
    ReadQueueEffect(h, t, id);
    ReadRecords(h, t, id);
    forall k, x ensures TargetOK(h, t', k, x) { assert TargetOK(h, t, k, x); }
    forall k, x, x' ensures OnePerHub(h, t', k, x, x') { assert OnePerHub(h, t, k, x, x'); }
    forall x ensures QueueOK(t', x) { assert QueueOK(t, x); }
    forall k, x ensures FateOK(h, t', k, x) {
      assert FateOK(h, t, k, x) && OnePerHub(h, t, k, x, id);
      ReadFate(h, t, id, k, x);
    }
    forall i ensures RemoteOK(h, t', i) { assert RemoteOK(h, t, i); }
  }

  lemma ReadFate(h: Hubs, t: Traffic, id: nat, k: nat, x: nat)
    requires IsSub(h, id) && Queue(t, id) != [] && Queue(t, id)[0] < |t.calls| && QueueOK(t, id)
    requires FateOK(h, t, k, x) && OnePerHub(h, t, k, x, id)
    ensures FateOK(h, DoRead(h, t, id), k, x)
  {
    AcceptsReaches(t, k, x);
    AcceptsReaches(t, k, id);
    hide DoRead, Queue, Reaches, Accepts, NoDuplicates;
    assert Queue(t, id)[0] in Queue(t, id);
    ReadQueueEffect(h, t, id);
    ReadRecords(h, t, id);
  }

  lemma ReadRecords(h: Hubs, t: Traffic, id: nat)
    requires IsSub(h, id) && Queue(t, id) != [] && Queue(t, id)[0] < |t.calls|
    ensures var t' := DoRead(h, t, id);
            && t'.calls == t.calls
            && forall k, x :: Reaches(t', k, x) == Reaches(t, k, x) && Accepts(t', k, x) == Accepts(t, k, x)
  {
    ReadFields(h, t, id);
    hide DoRead, Queue;
  }

  lemma ReadFields(h: Hubs, t: Traffic, id: nat)
    requires IsSub(h, id) && Queue(t, id) != [] && Queue(t, id)[0] < |t.calls|
    ensures var t' := DoRead(h, t, id);
            && t'.calls == t.calls && t'.accepted == t.accepted && t'.refused == t.refused
            && t'.snaps == t.snaps && t'.sent == t.sent
  {}

  lemma AcceptsReaches(t: Traffic, k: nat, id: nat)
    ensures Accepts(t, k, id) ==> Reaches(t, k, id)
  {}
}
