/**
 * The messages in a hub's channels are the frames of the step system, which sends them one at a time: a fan-out on
 * the hub's fields is the steps of one fan-out, in whichever order they send, with no other step in between.
 */
module LocalEvents {
  import opened ChannelKeys
  import opened HubEffects
  import opened HubIndex
  import opened Messages
  import opened RequestSigning
  import opened HubSteps
  import opened Fanout
  import opened LocalRefinement  // with its names `PR` for `PresenceRuns` and `HS` for `HubState`

  /** The channel holds the frames that were sent and not yet written; what is no event may be any message. */
  ghost predicate Pending(t: Traffic, d: Client, q: seq<PusherMessage>) {
    var sent, n := Sent(t, d), Written(t, d);
    && n <= |sent| && |q| == |sent| - n
    && forall i :: 0 <= i < |q| && sent[n + i].Event? ==> IsCall(t, sent[n + i].call, q[i])
  }

  predicate IsCall(t: Traffic, k: nat, m: PusherMessage) {
    k < |t.calls| && m == PusherMessage(t.calls[k].event, t.calls[k].channel, t.calls[k].data)
  }

  /** The hub's fields are its part of the cluster, and so are its connections' channels. */
  ghost predicate Mirrors(s: HS.State, w: World, node: string) {
    Strip(s) == ViewOf(w.hubs, node) && forall d :: d in s.conns ==> Pending(w.traffic, d, s.conns[d].sendCh)
  }

  /** The sends of a fan-out in some order, last one last. */
  function SendsOf(hs: Hashes, w: World, j: Job, order: seq<Client>): World {
    if order == [] then w
    else Next(hs, SendsOf(hs, w, j, order[..|order| - 1]), SendOne(j, order[|order| - 1]))
  }

  /** One fan-out: the recipients, the sends, the end. */
  function FannedOut(hs: Hashes, w: World, j: Job, order: seq<Client>): World {
    Next(hs, SendsOf(hs, Next(hs, w, TakeSnapshot(j)), j, order), EndSends(j))
  }

  /** The order has each of the call's recipients on the job's hub once. */
  ghost predicate Lists(order: seq<Client>, h: Hubs, p: Payload, node: string) {
    && (forall x, y :: 0 <= x < y < |order| ==> order[x] != order[y])
    && (forall d :: d in order <==> d in RecipientsOf(h, p, node))
  }

  lemma OneSend(hs: Hashes, w: World, j: Job, c: Client, d: Client)
    requires j in w.traffic.jobs && w.traffic.jobs[j].Sending? && c in w.traffic.jobs[j].left
    ensures var t, w' := w.traffic, Next(hs, w, SendOne(j, c));
            && w'.hubs == w.hubs && w'.traffic.calls == t.calls && w'.traffic.written == t.written
            && w'.traffic.queues == t.queues && w'.traffic.jobs == t.jobs[j := Sending(t.jobs[j].left - {c})]
            && Sent(w'.traffic, d) == Sent(t, d) + if d == c && HasRoom(t, c) then [Frame.Event(j.call)] else []
  {}

  predicate MayTake(w: World, j: Job, order: seq<Client>) {
    && j in w.traffic.jobs && w.traffic.jobs[j].Sending? && (forall x :: x in order ==> x in w.traffic.jobs[j].left)
    && (forall x, y :: 0 <= x < y < |order| ==> order[x] != order[y])
  }

  lemma OneMore(left: set<Client>, most: seq<Client>, last: Client)
    ensures left - (set x | x in most + [last]) == left - (set x | x in most) - {last}
  {}

  lemma {:induction false} SendsKeep(hs: Hashes, w: World, j: Job, order: seq<Client>)
    requires MayTake(w, j, order)
    ensures var t, w' := w.traffic, SendsOf(hs, w, j, order);
            && w'.hubs == w.hubs && w'.traffic.calls == t.calls && w'.traffic.written == t.written
            && w'.traffic.queues == t.queues
            && w'.traffic.jobs == t.jobs[j := Sending(t.jobs[j].left - set x | x in order)]
  {
    hide Next;
    var left := w.traffic.jobs[j].left;
    if order == [] {
      assert left - (set x | x in order) == left;
    } else {
      var most, last := order[..|order| - 1], order[|order| - 1];
      SendsKeep(hs, w, j, most);
      OneSend(hs, SendsOf(hs, w, j, most), j, last, last);
      assert order == most + [last];
      OneMore(left, most, last);
    }
  }

  lemma {:induction false} SendsTo(hs: Hashes, w: World, j: Job, order: seq<Client>, d: Client)
    requires MayTake(w, j, order)
    ensures Sent(SendsOf(hs, w, j, order).traffic, d) ==
            Sent(w.traffic, d) + if d in order && HasRoom(w.traffic, d) then [Frame.Event(j.call)] else []
  {
    hide Next, Sent;
    if order != [] {
      var most, last := order[..|order| - 1], order[|order| - 1];
      SendsTo(hs, w, j, most, d);
      SendsTo(hs, w, j, most, last);
      SendsKeep(hs, w, j, most);
      OneSend(hs, SendsOf(hs, w, j, most), j, last, d);
      assert order == most + [last];
    }
  }

  lemma FannedOutIs(hs: Hashes, w: World, j: Job, order: seq<Client>)
    requires InPhase(w.traffic, j, ToSnapshot) && Lists(order, w.hubs, w.traffic.calls[j.call], j.node)
    ensures var w' := FannedOut(hs, w, j, order);
            var next := if w.traffic.calls[j.call].origin == j.node then ToPublish else Finished;
            && w'.hubs == w.hubs && w'.traffic.calls == w.traffic.calls && w'.traffic.written == w.traffic.written
            && w'.traffic.queues == w.traffic.queues && w'.traffic.jobs == w.traffic.jobs[j := next]
            && forall d :: Sent(w'.traffic, d) ==
                 Sent(w.traffic, d) + if d in order && HasRoom(w.traffic, d) then [Frame.Event(j.call)] else []
  {
    hide Next, HasRoom, RecipientsOf;
    SnapshotIs(hs, w, j);
    var w1 := Next(hs, w, TakeSnapshot(j));
    var w2 := SendsOf(hs, w1, j, order);
    SendsKeep(hs, w1, j, order);
    assert RecipientsOf(w.hubs, w.traffic.calls[j.call], j.node) - (set x | x in order) == {};
    EndIs(hs, w2, j);
    forall d ensures Sent(w2.traffic, d) ==
                     Sent(w.traffic, d) + if d in order && HasRoom(w.traffic, d) then [Frame.Event(j.call)] else []
    {
      SendsTo(hs, w1, j, order, d);
      SameRoom(w.traffic, w1.traffic, d);
    }
  }

  lemma SnapshotIs(hs: Hashes, w: World, j: Job)
    requires InPhase(w.traffic, j, ToSnapshot)
    ensures Next(hs, w, TakeSnapshot(j)) == w.(traffic := DoSnapshot(w.hubs, w.traffic, j))
  {
    hide DoSnapshot;
  }

  lemma EndIs(hs: Hashes, w: World, j: Job)
    requires InPhase(w.traffic, j, Sending({}))
    ensures var next := if w.traffic.calls[j.call].origin == j.node then ToPublish else Finished;
            Next(hs, w, EndSends(j)) == w.(traffic := w.traffic.(jobs := w.traffic.jobs[j := next]))
  {}

  lemma SameRoom(t: Traffic, t': Traffic, d: Client)
    requires t'.sent == t.sent && t'.written == t.written
    ensures HasRoom(t', d) == HasRoom(t, d) && Sent(t', d) == Sent(t, d)
  {}

  /** The recipients in the step system are the connections that the hub's fields give. */
  lemma RecipientIff(h: Hubs, i: Index<string, ()>, p: Payload, node: string, d: Client)
    requires i == IndexAt(h.shared.index, node)
    ensures d in RecipientsOf(h, p, node) <==> Listening(i, p.app, p.channel, p.exclude, d)
  {
    LookupAt(h.shared.index.channels, node, Key(p.app, p.channel));
    LookupAt(h.shared.index.channels, node, Key(p.app, "*"));
    hide Key, At;
  }

  lemma SentPending(t: Traffic, t': Traffic, d: Client, q: seq<PusherMessage>, to: bool, k: nat)
    requires Pending(t, d, q) && t.calls <= t'.calls && k < |t'.calls| && Written(t', d) == Written(t, d)
    requires Sent(t', d) == Sent(t, d) + if to && HasRoom(t, d) then [Frame.Event(k)] else []
    ensures var p := t'.calls[k];
            Pending(t', d, q + if to && |q| < 256 then [PusherMessage(p.event, p.channel, p.data)] else [])
  {
    var n, sent := Written(t, d), Sent(t, d);
    assert Sent(t', d)[..|sent|] == sent;
  }

  lemma KeepsPending(t: Traffic, t': Traffic, d: Client, q: seq<PusherMessage>)
    requires Pending(t, d, q) && t.calls <= t'.calls && t'.sent == t.sent && t'.written == t.written
    ensures Pending(t', d, q)
  {}

  /** Steps that change neither the hub's part of the cluster nor its connections' frames. */
  lemma KeepsMirrors(s: HS.State, s': HS.State, w: World, w': World, node: string)
    requires Mirrors(s, w, node) && Strip(s') == Strip(s) && s'.conns == s.conns
    requires ViewOf(w'.hubs, node) == ViewOf(w.hubs, node) && w.traffic.calls <= w'.traffic.calls
    requires w'.traffic.sent == w.traffic.sent && w'.traffic.written == w.traffic.written
    ensures Mirrors(s', w', node)
  {
    hide Pending, Strip, ViewOf;
    forall d | d in s'.conns ensures Pending(w'.traffic, d, s'.conns[d].sendCh) {
      KeepsPending(w.traffic, w'.traffic, d, s.conns[d].sendCh);
    }
  }

  lemma LocalBroadcastTo(s: HS.State, p: Payload, d: Client)
    requires d in s.conns
    ensures var s' := HS.LocalBroadcast(s, p.app, p.channel, p.event, p.data, p.exclude);
            && s'.conns.Keys == s.conns.Keys && Strip(s') == Strip(s)
            && s'.conns[d] == Told(s.conns[d], Listening(s.index, p.app, p.channel, p.exclude, d),
                                   PusherMessage(p.event, p.channel, p.data))
  {
    BroadcastTo(s, p, d);
    StripBroadcast(s, p);
    assert HS.ClusterBroadcast(s, p).conns ==
           HS.LocalBroadcast(s, p.app, p.channel, p.event, p.data, p.exclude).conns;
    StripSendAll(s, Recipients(s.index, Key(p.app, p.channel), Key(p.app, "*"), p.exclude),
                 PusherMessage(p.event, p.channel, p.data));
    hide Key, Strip;
  }

  /** The hub's own fan-out gives its connections what the steps of the cluster give them. */
  lemma FanOutMirrors(hs: Hashes, w: World, s: HS.State, j: Job, order: seq<Client>)
    requires InPhase(w.traffic, j, ToSnapshot) && Mirrors(s, w, j.node)
    requires Lists(order, w.hubs, w.traffic.calls[j.call], j.node)
    ensures var p := w.traffic.calls[j.call];
            var s' := HS.LocalBroadcast(s, p.app, p.channel, p.event, p.data, p.exclude);
            Mirrors(s', FannedOut(hs, w, j, order), j.node)
  {
    var p, w' := w.traffic.calls[j.call], FannedOut(hs, w, j, order);
    var s' := HS.LocalBroadcast(s, p.app, p.channel, p.event, p.data, p.exclude);
    BroadcastStrips(s, p);
    FannedOutIs(hs, w, j, order);
    hide FannedOut, HS.LocalBroadcast, Strip, ViewOf, Pending, Lists;
    forall d | d in s'.conns ensures Pending(w'.traffic, d, s'.conns[d].sendCh) {
      FanOutPending(hs, w, s, j, order, d);
    }
  }

  lemma FanOutPending(hs: Hashes, w: World, s: HS.State, j: Job, order: seq<Client>, d: Client)
    requires InPhase(w.traffic, j, ToSnapshot) && Mirrors(s, w, j.node) && d in s.conns
    requires Lists(order, w.hubs, w.traffic.calls[j.call], j.node)
    ensures var p := w.traffic.calls[j.call];
            var s' := HS.LocalBroadcast(s, p.app, p.channel, p.event, p.data, p.exclude);
            d in s'.conns && Pending(FannedOut(hs, w, j, order).traffic, d, s'.conns[d].sendCh)
  {
    hide FannedOut, HS.LocalBroadcast, Pending, Told, Listening, RecipientsOf, IndexAt, Sent, HasRoom, Key;
    var p, w' := w.traffic.calls[j.call], FannedOut(hs, w, j, order);
    assert s.index == IndexAt(w.hubs.shared.index, j.node) && Pending(w.traffic, d, s.conns[d].sendCh);
    hide Strip, ViewOf;
    RecipientIff(w.hubs, s.index, p, j.node, d);
    LocalBroadcastTo(s, p, d);
    FannedOutIs(hs, w, j, order);
    SentPending(w.traffic, w'.traffic, d, s.conns[d].sendCh, d in order, j.call);
  }

  lemma BroadcastStrips(s: HS.State, p: Payload)
    ensures var s' := HS.LocalBroadcast(s, p.app, p.channel, p.event, p.data, p.exclude);
            Strip(s') == Strip(s) && s'.conns.Keys == s.conns.Keys
  {
    StripSendAll(s, Recipients(s.index, Key(p.app, p.channel), Key(p.app, "*"), p.exclude),
                 PusherMessage(p.event, p.channel, p.data));
    hide Strip, Recipients;
  }

  // A broadcast from the HTTP interface.

  /** The call enters the subscription's queue if it is open, to the payload's topic, and has room. */
  ghost predicate Takes(w: World, p: Payload, k: nat, w': World, id: nat) {
    Queue(w'.traffic, id) ==
    Queue(w.traffic, id) + if id in Targets(w.hubs.shared, p) && |Queue(w.traffic, id)| < 256 then [k] else []
  }

  lemma PublishedIs(hs: Hashes, w: World, j: Job)
    requires InPhase(w.traffic, j, ToPublish)
    ensures var w' := Next(hs, w, Fanout.Publish(j));
            && w'.hubs == w.hubs && w'.traffic.calls == w.traffic.calls
            && w'.traffic.jobs == w.traffic.jobs[j := Finished]
            && w'.traffic.sent == w.traffic.sent && w'.traffic.written == w.traffic.written
            && forall id :: Takes(w, w.traffic.calls[j.call], j.call, w', id)
  {
    hide Targets;
  }

  /** `BroadcastCluster`, with no other step in between. */
  function BroadcastRun(hs: Hashes, w: World, p: Payload, order: seq<Client>): World {
    var j := Job(p.origin, |w.traffic.calls|);
    Next(hs, FannedOut(hs, Next(hs, w, Broadcast(p)), j, order), Fanout.Publish(j))
  }

  /**
   * The same connections have the event, the same payload is out, and on each hub the open subscription to its topic
   * has it queued if there was room.
   */
  lemma BroadcastMirrors(hs: Hashes, w: World, s: HS.State, p: Payload, order: seq<Client>)
    requires Mirrors(s, w, p.origin) && p.origin in w.hubs.nodes && ColonFree(p.app)
    requires Lists(order, w.hubs, p, p.origin)
    ensures var s', w' := HS.ClusterBroadcast(s, p), BroadcastRun(hs, w, p, order);
            && Mirrors(s', w', p.origin) && w'.hubs == w.hubs
            && w'.traffic.calls == w.traffic.calls + [p] && s'.published == s.published + [p]
            && forall id :: Takes(w, p, |w.traffic.calls|, w', id)
  {
    var k := |w.traffic.calls|;
    var j, w1 := Job(p.origin, k), Next(hs, w, Broadcast(p));
    assert w1 == w.(traffic := NewCall(w.traffic, p));
    hide Next;
    CallRuns(hs, w, w1, s, p, order);
  }

  /** From a call's beginning to its publication. */
  lemma CallRuns(hs: Hashes, w: World, w1: World, s: HS.State, p: Payload, order: seq<Client>)
    requires Mirrors(s, w, p.origin) && Lists(order, w.hubs, p, p.origin)
    requires w1.traffic == NewCall(w.traffic, p) && w1.hubs.shared == w.hubs.shared
    requires ViewOf(w1.hubs, p.origin) == ViewOf(w.hubs, p.origin)
    ensures var j := Job(p.origin, |w.traffic.calls|);
            var s', w' := HS.ClusterBroadcast(s, p), Next(hs, FannedOut(hs, w1, j, order), Fanout.Publish(j));
            && Mirrors(s', w', p.origin) && w'.hubs == w1.hubs && w'.traffic.calls == w.traffic.calls + [p]
            && InPhase(w'.traffic, j, Finished)
            && s'.published == s.published + [p] && forall id :: Takes(w, p, |w.traffic.calls|, w', id)
  {
    hide Next, ViewOf, Strip, Key, Pending, FannedOut, Targets;
    var j := Job(p.origin, |w.traffic.calls|);
    var w2 := FannedOut(hs, w1, j, order);
    KeepsMirrors(s, s, w, w1, p.origin);
    assert RecipientsOf(w1.hubs, p, p.origin) == RecipientsOf(w.hubs, p, p.origin);
    hide RecipientsOf;
    FannedOutIs(hs, w1, j, order);
    FanOutMirrors(hs, w1, s, j, order);
    PublishedIs(hs, w2, j);
    var s1 := HS.LocalBroadcast(s, p.app, p.channel, p.event, p.data, p.exclude);
    var w' := Next(hs, w2, Fanout.Publish(j));
    PublishedStrips(s1, p);
    KeepsMirrors(s1, s1.(published := s1.published + [p]), w2, w', p.origin);
    forall id ensures Takes(w, p, j.call, w', id) {
      assert Takes(w2, p, j.call, w', id);
    }
  }

  lemma PublishedStrips(s: HS.State, p: Payload)
    ensures Strip(s.(published := s.published + [p])) == Strip(s)
  {}

  /** A goroutine's announcement of a member is a broadcast too. */
  lemma AnnouncedIs(hs: Hashes, w: World, c: Client)
    requires c in w.hubs.conns && w.hubs.conns[c].pc.Announcing?
    ensures var k, pc := |w.traffic.calls|, w.hubs.conns[c].pc;
            var event := if pc.change.Added? then "pusher_internal:member_added" else "pusher_internal:member_removed";
            Next(hs, w, Announce(c)) ==
            World(w.hubs.(conns := w.hubs.conns[c := w.hubs.conns[c].(pc := Waiting(k, pc.next))]),
                  NewCall(w.traffic, Payload(c.node, c.app, pc.ch, event, pc.user, c.socket)))
  {
    hide NewCall;
  }

  // A client event.

  lemma CalledIs(hs: Hashes, w: World, c: Client, ch: string, event: string, data: string)
    requires PR.IsIdle(w.hubs, c) && HasPrefix(event, "client-") && |event| > 7
    requires (HasPrefix(ch, "private-") || HasPrefix(ch, "presence-")) && ch in w.hubs.conns[c].mine
    ensures var k, p := |w.traffic.calls|, Payload(c.node, c.app, ch, event, data, c.socket);
            Next(hs, w, Event.ClientEvent(c, ch, event, data)) ==
            World(w.hubs.(conns := w.hubs.conns[c := w.hubs.conns[c].(pc := Waiting(k, Back))]), NewCall(w.traffic, p))
  {
    hide HasPrefix, NewCall;
  }

  lemma ReturnedIs(hs: Hashes, w: World, c: Client, k: nat)
    requires c in w.hubs.conns && w.hubs.conns[c].pc == Waiting(k, Back)
    requires InPhase(w.traffic, Job(c.node, k), Finished)
    ensures Next(hs, w, Return(c)) ==
            w.(hubs := w.hubs.(conns := w.hubs.conns[c := w.hubs.conns[c].(pc := Idle)]))
  {}

  /** `HandleClientEvent` of a member, with no other step in between. */
  function EventRun(hs: Hashes, w: World, c: Client, ch: string, event: string, data: string, order: seq<Client>): World
  {
    var j := Job(c.node, |w.traffic.calls|);
    var called := Next(hs, w, Event.ClientEvent(c, ch, event, data));
    Next(hs, Next(hs, FannedOut(hs, called, j, order), Fanout.Publish(j)), Return(c))
  }

  lemma OwnChannels(h: Hubs, s: HS.State, c: Client)
    requires Strip(s) == ViewOf(h, c.node) && c in h.conns
    ensures c in s.conns && HS.ConnOf(s, c).channels == h.conns[c].mine
    ensures s.index == IndexAt(h.shared.index, c.node)
  {
    assert c in ViewOf(h, c.node).conns && c in Strip(s).conns;
    assert Strip(s).conns[c] == ViewOf(h, c.node).conns[c];
    hide IndexAt;
  }

  lemma ForwardedKeys(s: HS.State, enc: Encoder, node: string, c: Client, ch: string, event: string, data: string)
    ensures var s' := HS.Forwarded(s, enc, node, c, ch, event, data);
            s'.conns.Keys == s.conns.Keys && Strip(s') == Strip(s)
  {
    var p := Payload(node, c.app, ch, event, data, c.socket);
    StripBroadcast(s, p);
    StripSendAll(s, {c}, PusherMessage("pusher:error", "", enc.error(4009)));
    assert HS.ClusterBroadcast(s, p).conns.Keys == s.conns.Keys;
    hide HasPrefix, HS.ClusterBroadcast;
  }

  /** For a member of a private or presence channel it does all that, and what goes out is the step system's call. */
  lemma ForwardedMirrors(hs: Hashes, enc: Encoder, w: World, s: HS.State, c: Client, ch: string, event: string,
                         data: string, order: seq<Client>)
    requires Mirrors(s, w, c.node) && PR.IsIdle(w.hubs, c) && HasPrefix(event, "client-") && |event| > 7
    requires (HasPrefix(ch, "private-") || HasPrefix(ch, "presence-")) && ch in w.hubs.conns[c].mine
    requires Lists(order, w.hubs, Payload(c.node, c.app, ch, event, data, c.socket), c.node)
    ensures var p := Payload(c.node, c.app, ch, event, data, c.socket);
            var s', w' := HS.Forwarded(s, enc, c.node, c, ch, event, data), EventRun(hs, w, c, ch, event, data, order);
            && Mirrors(s', w', c.node) && w'.hubs == w.hubs
            && w'.traffic.calls == w.traffic.calls + [p] && s'.published == s.published + [p]
            && forall id :: Takes(w, p, |w.traffic.calls|, w', id)
  {
    var k, p := |w.traffic.calls|, Payload(c.node, c.app, ch, event, data, c.socket);
    var w1 := Next(hs, w, Event.ClientEvent(c, ch, event, data));
    CalledIs(hs, w, c, ch, event, data);
    WaitingView(w.hubs, c, k);
    OwnChannels(w.hubs, s, c);
    hide Next, ViewOf, Strip, HasPrefix, FannedOut, HS.ClusterBroadcast, Lists, Pending, Takes;
    CallRuns(hs, w, w1, s, p, order);
    var w2 := Next(hs, FannedOut(hs, w1, Job(c.node, k), order), Fanout.Publish(Job(c.node, k)));
    ReturnedIs(hs, w2, c, k);
    var s1 := HS.ClusterBroadcast(s, p);
    var s', w' := HS.Forwarded(s, enc, c.node, c, ch, event, data), EventRun(hs, w, c, ch, event, data, order);
    WaitingView(w.hubs, c, k);
    NotifiedStrips(s1, HS.ClientEvent(c.app, ch, event, data, c.socket, HS.ConnOf(s, c).userID));
    KeepsMirrors(s1, s', w2, w', c.node);
    forall id ensures Takes(w, p, k, w', id) {
      SameTakes(w, p, k, w2, w', id);
    }
  }

  lemma SameTakes(w: World, p: Payload, k: nat, w1: World, w2: World, id: nat)
    requires Takes(w, p, k, w1, id) && w2.traffic == w1.traffic
    ensures Takes(w, p, k, w2, id)
  {}

  lemma NotifiedStrips(s: HS.State, h: HS.Hook)
    ensures Strip(HS.Notified(s, h)) == Strip(s)
  {}

  /** The goroutine's program counter is no part of the hub's fields. */
  lemma WaitingView(h: Hubs, c: Client, k: nat)
    requires PR.IsIdle(h, c)
    ensures ViewOf(h.(conns := h.conns[c := h.conns[c].(pc := Waiting(k, Back))]), c.node) == ViewOf(h, c.node)
    ensures h.conns[c := h.conns[c].(pc := Waiting(k, Back))][c := h.conns[c]] == h.conns
    ensures h.conns[c].(pc := Waiting(k, Back)).(pc := Idle) == h.conns[c]
  {
    hide IndexAt;
  }

  lemma RefusedStep(hs: Hashes, w: World, c: Client, ch: string, event: string, data: string)
    requires c in w.hubs.conns
    requires !((HasPrefix(ch, "private-") || HasPrefix(ch, "presence-")) && ch in w.hubs.conns[c].mine)
    ensures Next(hs, w, Event.ClientEvent(c, ch, event, data)) == w
  {
    hide HasPrefix;
  }

  lemma OtherFrameIs(hs: Hashes, w: World, c: Client, d: Client)
    ensures var w' := Next(hs, w, OtherFrame(c));
            && w'.hubs == w.hubs && w'.traffic.calls == w.traffic.calls && w'.traffic.written == w.traffic.written
            && Sent(w'.traffic, d) == Sent(w.traffic, d) + if d == c && HasRoom(w.traffic, d) then [Other] else []
  {}

  lemma OtherPending(t: Traffic, t': Traffic, d: Client, q: seq<PusherMessage>, to: bool, m: PusherMessage)
    requires Pending(t, d, q) && t.calls <= t'.calls && Written(t', d) == Written(t, d)
    requires Sent(t', d) == Sent(t, d) + if to && HasRoom(t, d) then [Other] else []
    ensures Pending(t', d, q + if to && |q| < 256 then [m] else [])
  {
    assert Sent(t', d)[..|Sent(t, d)|] == Sent(t, d);
  }

  /** And a refused one does nothing there but send an error. */
  lemma RefusalMirrors(hs: Hashes, enc: Encoder, w: World, s: HS.State, c: Client, ch: string, event: string,
                       data: string)
    requires Mirrors(s, w, c.node) && c in w.hubs.conns
    requires !((HasPrefix(ch, "private-") || HasPrefix(ch, "presence-")) && ch in w.hubs.conns[c].mine)
    ensures Next(hs, w, Event.ClientEvent(c, ch, event, data)) == w
    ensures Mirrors(HS.Forwarded(s, enc, c.node, c, ch, event, data), Next(hs, w, OtherFrame(c)), c.node)
  {
    hide HasPrefix;
    RefusedStep(hs, w, c, ch, event, data);
    hide HS.Forwarded, Strip, Told, Listening, ViewOf, Next, Pending;
    var s', w' := HS.Forwarded(s, enc, c.node, c, ch, event, data), Next(hs, w, OtherFrame(c));
    OwnChannels(w.hubs, s, c);
    ForwardedKeys(s, enc, c.node, c, ch, event, data);
    OtherFrameIs(hs, w, c, c);
    forall d | d in s'.conns ensures Pending(w'.traffic, d, s'.conns[d].sendCh) {
      ForwardedTo(s, enc, c.node, c, ch, event, data, d);
      OtherFrameIs(hs, w, c, d);
      OtherPending(w.traffic, w'.traffic, d, s.conns[d].sendCh, d == c,
                   PusherMessage("pusher:error", "", enc.error(4009)));
    }
  }

  // A message from the broker, and the connection's writer.

  /** `ReadQueue` and what follows. */
  function ReadRun(hs: Hashes, w: World, id: nat, order: seq<Client>): World
    requires id < |w.hubs.shared.subs| && Queue(w.traffic, id) != []
  {
    FannedOut(hs, Next(hs, w, ReadQueue(id)), Job(w.hubs.shared.subs[id].spot.node, Queue(w.traffic, id)[0]), order)
  }

  /** A call is queued, and the reader has skipped or fanned out whatever it took last. */
  predicate MayRead(w: World, id: nat) {
    && id < |w.hubs.shared.subs| && w.hubs.shared.subs[id].started
    && Queue(w.traffic, id) != [] && Queue(w.traffic, id)[0] < |w.traffic.calls|
    && (Taken(w.traffic, id) != [] ==>
          var node, last := w.hubs.shared.subs[id].spot.node, Taken(w.traffic, id)[|Taken(w.traffic, id)| - 1];
          && last < |w.traffic.calls|
          && (|| w.traffic.calls[last].origin == node
              || (Job(node, last) in w.traffic.jobs && w.traffic.jobs[Job(node, last)] == Finished)))
  }

  lemma ReadIs(hs: Hashes, w: World, id: nat)
    requires MayRead(w, id)
    ensures Next(hs, w, ReadQueue(id)) == w.(traffic := DoRead(w.hubs, w.traffic, id))
  {
    hide DoRead;
  }

  lemma ReadTraffic(h: Hubs, t: Traffic, id: nat)
    requires id < |h.shared.subs| && Queue(t, id) != [] && Queue(t, id)[0] < |t.calls|
    ensures var t', j := DoRead(h, t, id), Job(h.shared.subs[id].spot.node, Queue(t, id)[0]);
            && t'.calls == t.calls && t'.sent == t.sent && t'.written == t.written
            && Queue(t', id) == Queue(t, id)[1..]
            && (t.calls[j.call].origin != j.node ==> InPhase(t', j, ToSnapshot))
  {}

  lemma SameLists(order: seq<Client>, w: World, w1: World, p: Payload, node: string)
    requires Lists(order, w.hubs, p, node) && w1.hubs == w.hubs
    ensures Lists(order, w1.hubs, p, node)
  {
    hide RecipientsOf;
  }

  /** What `HandleMessage` does with the oldest message the steps do: nothing if it is the hub's own, or a fan-out. */
  lemma HandledMirrors(hs: Hashes, w: World, s: HS.State, id: nat, order: seq<Client>)
    requires MayRead(w, id)
    requires var node, k := w.hubs.shared.subs[id].spot.node, Queue(w.traffic, id)[0];
             && Mirrors(s, w, node) && node != ""
             && Lists(order, w.hubs, w.traffic.calls[k], node)
    ensures var node, p := w.hubs.shared.subs[id].spot.node, w.traffic.calls[Queue(w.traffic, id)[0]];
            var w' := if p.origin == node then Next(hs, w, ReadQueue(id)) else ReadRun(hs, w, id, order);
            && Queue(w'.traffic, id) == Queue(w.traffic, id)[1..] && w'.hubs == w.hubs
            && Mirrors(if p.origin != "" && p.origin == node then s
                       else HS.LocalBroadcast(s, p.app, p.channel, p.event, p.data, p.exclude), w', node)
  {
    var node, k := w.hubs.shared.subs[id].spot.node, Queue(w.traffic, id)[0];
    var p, w1 := w.traffic.calls[k], Next(hs, w, ReadQueue(id));
    ReadIs(hs, w, id);
    ReadTraffic(w.hubs, w.traffic, id);
    hide Next, ViewOf, Strip, FannedOut, Pending, RecipientsOf, HS.LocalBroadcast, DoRead, Mirrors, Lists;
    KeepsMirrors(s, s, w, w1, node);
    if p.origin != node {
      SameLists(order, w, w1, p, node);
      FannedOutIs(hs, w1, Job(node, k), order);
      FanOutMirrors(hs, w1, s, Job(node, k), order);
    }
  }

  /** `WritePump` takes the oldest frame from the channel. */
  lemma WrittenMirrors(hs: Hashes, w: World, s: HS.State, d: Client)
    requires Mirrors(s, w, d.node) && d in s.conns && s.conns[d].sendCh != []
    ensures var s' := s.(conns := s.conns[d := s.conns[d].(sendCh := s.conns[d].sendCh[1..])]);
            Mirrors(s', Next(hs, w, WriteFrame(d)), d.node)
  {
    var s' := s.(conns := s.conns[d := s.conns[d].(sendCh := s.conns[d].sendCh[1..])]);
    assert Pending(w.traffic, d, s.conns[d].sendCh);
    WriteIs(hs, w, d);
    TakenStrips(s, d);
    var t, t' := w.traffic, Next(hs, w, WriteFrame(d)).traffic;
    hide Next, Strip, ViewOf, Pending;
    forall x | x in s'.conns ensures Pending(t', x, s'.conns[x].sendCh) {
      if x == d {
        TakenPending(t, t', d, s.conns[d].sendCh);
      } else {
        OthersPending(t, t', x, s.conns[x].sendCh);
      }
    }
  }

  lemma TakenStrips(s: HS.State, d: Client)
    requires d in s.conns && s.conns[d].sendCh != []
    ensures Strip(s.(conns := s.conns[d := s.conns[d].(sendCh := s.conns[d].sendCh[1..])])) == Strip(s)
  {}

  lemma OthersPending(t: Traffic, t': Traffic, d: Client, q: seq<PusherMessage>)
    requires Pending(t, d, q) && t'.calls == t.calls && Sent(t', d) == Sent(t, d) && Written(t', d) == Written(t, d)
    ensures Pending(t', d, q)
  {}

  lemma WriteIs(hs: Hashes, w: World, d: Client)
    requires Written(w.traffic, d) < |Sent(w.traffic, d)|
    ensures Next(hs, w, WriteFrame(d)) ==
            w.(traffic := w.traffic.(written := w.traffic.written[d := Written(w.traffic, d) + 1]))
  {}

  lemma TakenPending(t: Traffic, t': Traffic, d: Client, q: seq<PusherMessage>)
    requires Pending(t, d, q) && q != [] && t'.calls == t.calls
    requires Sent(t', d) == Sent(t, d) && Written(t', d) == Written(t, d) + 1
    ensures Pending(t', d, q[1..])
  {
    var n := Written(t, d);
    forall i | 0 <= i < |q[1..]| && Sent(t', d)[n + 1 + i].Event?
      ensures IsCall(t', Sent(t', d)[n + 1 + i].call, q[1..][i])
    {
      assert q[1..][i] == q[i + 1] && Sent(t, d)[n + (i + 1)].Event?;
    }
  }

  // Exactly when the steps are possible.

  /** A client event is forwarded exactly for an idle connection in a private or presence channel. */
  lemma ForwardedIff(hs: Hashes, w: World, c: Client, ch: string, event: string, data: string)
    ensures Next(hs, w, Event.ClientEvent(c, ch, event, data)) != w <==>
            && PR.IsIdle(w.hubs, c) && HasPrefix(event, "client-") && |event| > 7
            && (HasPrefix(ch, "private-") || HasPrefix(ch, "presence-")) && ch in w.hubs.conns[c].mine
  {
    hide HasPrefix;
  }

  /** A broadcasting goroutine goes on exactly when its own fan-out and publication are over. */
  lemma ReturnedIff(hs: Hashes, w: World, c: Client)
    ensures Next(hs, w, Return(c)) != w <==>
            && c in w.hubs.conns && w.hubs.conns[c].pc.Waiting?
            && w.hubs.conns[c].pc.call < |w.traffic.calls|
            && var j := Job(c.node, w.hubs.conns[c].pc.call);
               j in w.traffic.jobs && w.traffic.jobs[j] == Finished
  {
    if c in w.hubs.conns && w.hubs.conns[c].pc.Waiting? {
      assert HubSteps.After(w.hubs.conns[c].pc.next) != w.hubs.conns[c].pc;
    }
  }

  /** A reader takes a message exactly when one is queued and it is done with the last. */
  lemma ReadIff(hs: Hashes, w: World, id: nat)
    ensures Next(hs, w, ReadQueue(id)) != w <==> MayRead(w, id)
  {
    if MayRead(w, id) {
      ReadIs(hs, w, id);
      ReadTraffic(w.hubs, w.traffic, id);
      hide Next, DoRead;
      assert |Queue(w.traffic, id)[1..]| < |Queue(w.traffic, id)|;
    }
  }

  /** A writer takes a frame exactly when one is waiting. */
  lemma WrittenIff(hs: Hashes, w: World, d: Client)
    ensures Next(hs, w, WriteFrame(d)) != w <==> Written(w.traffic, d) < |Sent(w.traffic, d)|
  {
    assert Written(Next(hs, w, WriteFrame(d)).traffic, d) ==
           Written(w.traffic, d) + if Written(w.traffic, d) < |Sent(w.traffic, d)| then 1 else 0;
  }
}
