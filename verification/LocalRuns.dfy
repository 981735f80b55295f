/**
 * Runs of a whole cluster of hubs, from the clients' side: what a client decodes from the messages that its hub
 * put into its channel is what the broker reports.
 */
module LocalRuns {
  import opened HubIndex
  import opened ChannelKeys
  import opened Messages
  import opened Presence
  import opened RequestSigning
  import opened HubSteps
  import opened LocalRefinement  // with its names `PR` for `PresenceRuns` and `HS` for `HubState`
  import opened LocalFrames
  import opened RosterRuns
  import opened Fanout

  /** The hubs of a cluster; `got` has the messages that each connection's `WritePump` has taken, oldest first. */
  datatype Net = Net(hubs: map<string, HS.State>, got: map<Client, seq<PusherMessage>>)

  function Got(net: Net, d: Client): seq<PusherMessage> {
    if d in net.got then net.got[d] else []
  }

  /** It stands for every frame that is no presence message. */
  const PONG := PusherMessage("pusher:pong", "", "")

  function Taken(s: HS.State, c: Client): HS.State {
    if c in s.conns && s.conns[c].sendCh != [] then
      s.(conns := s.conns[c := s.conns[c].(sendCh := s.conns[c].sendCh[1..])])
    else s
  }

  /** What a call does to the fields of its connection's hub; `w` says where the connection's goroutine is. */
  function OwnStep(hs: Hashes, enc: Encoder, w: PR.Cluster, s: HS.State, k: PR.Call): HS.State
    requires !k.SetApp?
  {
    match k
    case Arrive(c) => if CanConnect(w.hubs, c) then HS.Registered(s, enc, c) else s
    case Subscribe(c, req) =>
      if PR.IsJoin(w, k) then HS.Subscribed(s, hs, enc, c.node, c, AppOf(w.hubs.shared, c), req) else s
    case Unregister(c, order) => if Unregisters(w, c, order) then HS.ClientDropped(s, c) else s
    case Write(c) => Taken(s, c)
    case SendUnrelated(c) => HS.SendAll(s, {c}, PONG)
    case _ => if PR.IsLeave(w, k) then HS.Unsubscribed(s, enc, k.c.node, k.c, PR.LeftBy(w, k)) else s
  }

  predicate Unregisters(w: PR.Cluster, c: Client, order: seq<string>) {
    PR.IsIdle(w.hubs, c) && (set ch | ch in order) == w.hubs.conns[c].mine
  }

  /** The call on its own hub, while the others handle what that hub publishes. */
  function NetStep(hs: Hashes, enc: Encoder, w: PR.Cluster, net: Net, k: PR.Call): Net {
    if k.SetApp? || k.c.node !in net.hubs then net
    else
      var own := net.hubs[k.c.node];
      var own' := OwnStep(hs, enc, w, own, k);
      var others := map node | node in net.hubs ::
        if node == k.c.node then own' else Heard(net.hubs[node].(tables := own'.tables), HS.News(own, own'));
      Net(others,
          if k.Write? && k.c in own.conns && own.conns[k.c].sendCh != []
          then net.got[k.c := Got(net, k.c) + [own.conns[k.c].sendCh[0]]] else net.got)
  }

  function NetAfter(hs: Hashes, enc: Encoder, nodes: set<string>, calls: seq<PR.Call>): Net {
    if calls == [] then Net(map node | node in nodes :: HS.State(Empty(), map[], Tables(map[], map[]), [], []), map[])
    else
      var before := calls[..|calls| - 1];
      NetStep(hs, enc, PR.Performed(hs, nodes, before), NetAfter(hs, enc, nodes, before), calls[|calls| - 1])
  }

  // Every hub of the run is its part of the cluster.

  ghost predicate AllShow(enc: Encoder, net: Net, w: PR.Cluster) {
    && net.hubs.Keys == w.hubs.nodes
    && forall node :: node in net.hubs ==> Shows(enc, net.hubs[node], w, node)
  }

  /** Frames go to connections only, and no more are written than were sent. */
  ghost predicate Addressed(w: PR.Cluster) {
    && (forall d :: PR.SentTo(w, d) != [] ==> d in w.hubs.conns)
    && (forall d :: PR.WrittenTo(w, d) <= |PR.SentTo(w, d)|)
  }

  /** The frames sent so far stay, and new ones go to connections of the new state. */
  ghost predicate Grows(w: PR.Cluster, w': PR.Cluster) {
    && w'.written == w.written
    && forall d :: PR.SentTo(w, d) <= PR.SentTo(w', d)
                   && (PR.SentTo(w', d) != [] ==> d in w'.hubs.conns || PR.SentTo(w', d) == PR.SentTo(w, d))
  }

  lemma DeliverGrows(w: PR.Cluster, to: set<Client>, n: PR.Note)
    requires to <= w.hubs.conns.Keys
    ensures Grows(w, PR.Deliver(w, to, n))
  {}

  lemma GrowsOn(w: PR.Cluster, w1: PR.Cluster, w2: PR.Cluster)
    requires Grows(w, w1) && Grows(w1, w2) && w2.hubs.conns.Keys >= w1.hubs.conns.Keys
    ensures Grows(w, w2)
  {
    hide PR.SentTo;
  }

  lemma SameSent(w: PR.Cluster, w': PR.Cluster)
    requires w'.sent == w.sent && w'.written == w.written
    ensures Grows(w, w')
  {
    assert forall d :: PR.SentTo(w', d) == PR.SentTo(w, d);
  }

  lemma AudienceConnected(h: Hubs, p: Payload)
    ensures PR.Audience(h, p) <= h.conns.Keys
  {}

  lemma GreetGrows(w: PR.Cluster, c: Client, ch: string, user: string)
    requires c in w.hubs.conns
    ensures Grows(w, PR.Greet(w, c, ch, user))
  {
    hide IsPresence, Users, PR.RosterAt, PR.Audience, PR.Deliver, Grows, Announcement;
    DeliverGrows(w, {c}, PR.Unrelated);
    var n := PR.Succeeded(ch, Users(PR.RosterAt(w.hubs, c.app, ch)));
    var p := Announcement(c, Announcing(Added, ch, user, Back));
    DeliverGrows(w, {c}, n);
    PR.DeliverHubs(w, {c}, n);
    AudienceConnected(w.hubs, p);
    DeliverGrows(PR.Deliver(w, {c}, n), PR.Audience(w.hubs, p), PR.MemberAdded(ch, user));
    PR.DeliverHubs(PR.Deliver(w, {c}, n), PR.Audience(w.hubs, p), PR.MemberAdded(ch, user));
    if IsPresence(ch) {
      GrowsOn(w, PR.Deliver(w, {c}, n), PR.Greet(w, c, ch, user));
    }
  }

  lemma NotifyGrows(w: PR.Cluster, app: string, ch: string, occupied: bool)
    ensures Grows(w, PR.Notify(w, app, ch, occupied)) && PR.Notify(w, app, ch, occupied).hubs == w.hubs
  {
    hide Grows, PR.RosterAt, MemoryOccupancy, Key;
    SameSent(w, PR.Notify(w, app, ch, occupied));
  }

  lemma JoinGrows(hs: Hashes, w: PR.Cluster, c: Client, req: SubscribeRequest)
    requires PR.IsIdle(w.hubs, c) && req.ch != ""
    ensures var w' := PR.DoSubscribe(hs, w, c, req); Grows(w, w') && w'.hubs.conns.Keys == w.hubs.conns.Keys
  {
    JoinKeys(hs, w.hubs, c, req);
    hide PR.IsIdle, PR.Subscribed, Authorized, PR.Greet, PR.Notify, PR.Deliver, Grows;
    var w1 := w.(hubs := PR.Subscribed(hs, w.hubs, c, req));
    SameSent(w, w1);
    DeliverGrows(w1, {c}, PR.Unrelated);
    PR.DeliverHubs(w1, {c}, PR.Unrelated);
    GreetGrows(w1, c, req.ch, UserOf(req));
    PR.GreetHubs(w1, c, req.ch, UserOf(req));
    var w2 := PR.Greet(w1, c, req.ch, UserOf(req));
    NotifyGrows(w2, c.app, req.ch, true);
    GrowsOn(w1, w2, PR.Notify(w2, c.app, req.ch, true));
    GrowsOn(w, w1, PR.DoSubscribe(hs, w, c, req));
  }

  lemma JoinKeys(hs: Hashes, h: Hubs, c: Client, req: SubscribeRequest)
    requires PR.IsIdle(h, c) && req.ch != ""
    ensures PR.Subscribed(hs, h, c, req).conns.Keys == h.conns.Keys && c in h.conns
    ensures PR.Subscribed(hs, h, c, req).nodes == h.nodes
  {
    PR.SubscribedEffect(hs, h, c, req);
    hide PR.Subscribed, Authorized, PR.EnteredConn, PR.EnteredIndex, PR.EnteredTables;
  }

  lemma LeaveKeys(hs: Hashes, h: Hubs, c: Client, a: Action, ch: string)
    requires PR.Departs(h, c, a, ch)
    ensures PR.Left(hs, h, c, a).conns.Keys == h.conns.Keys && PR.Left(hs, h, c, a).nodes == h.nodes
  {
    PR.LeftEffect(hs, h, c, a, ch);
    hide PR.Left, PR.Departs, PR.LeftConn, PR.LeftTables, Leave;
  }

  lemma LeaveGrows(hs: Hashes, w: PR.Cluster, c: Client, ch: string, a: Action)
    requires PR.Departs(w.hubs, c, a, ch)
    ensures var w' := PR.DoUnsubscribe(hs, w, c, ch, a); Grows(w, w') && w'.hubs.conns.Keys == w.hubs.conns.Keys
  {
    LeaveKeys(hs, w.hubs, c, a, ch);
    hide PR.Departs, PR.Left, PR.Dismiss, PR.Notify, Grows, MemoryRemove, Key;
    var w1 := w.(hubs := PR.Left(hs, w.hubs, c, a));
    var user := MemoryRemove(w.hubs.shared.tables, Key(c.app, ch), c.socket).1;
    SameSent(w, w1);
    DismissGrows(w1, c, ch, user);
    PR.DismissHubs(w1, c, ch, user);
    NotifyGrows(PR.Dismiss(w1, c, ch, user), c.app, ch, false);
    GrowsOn(w1, PR.Dismiss(w1, c, ch, user), PR.DoUnsubscribe(hs, w, c, ch, a));
    GrowsOn(w, w1, PR.DoUnsubscribe(hs, w, c, ch, a));
  }

  lemma DismissGrows(w: PR.Cluster, c: Client, ch: string, user: string)
    ensures Grows(w, PR.Dismiss(w, c, ch, user))
  {
    hide IsPresence, PR.Audience, PR.Deliver, Grows, Announcement;
    var p := Announcement(c, Announcing(Removed, ch, user, Back));
    SameSent(w, w);
    AudienceConnected(w.hubs, p);
    DeliverGrows(w, PR.Audience(w.hubs, p), PR.MemberRemoved(ch, user));
  }

  lemma QuietGrows(hs: Hashes, w: PR.Cluster, k: PR.Call)
    requires !PR.IsJoin(w, k) && !PR.IsLeave(w, k) && !k.Write?
    ensures var w' := PR.Perform(hs, w, k); Grows(w, w') && w'.hubs.conns.Keys >= w.hubs.conns.Keys
  {
    hide PR.Deliver, Grows, CanConnect, Register, Key, Drop, PR.DoSubscribe, PR.DoUnsubscribe;
    SameSent(w, w);
    match k
    case Arrive(c) =>
      var w1 := w.(hubs := DoConnect(w.hubs, c));
      SameSent(w, w1);
      DeliverGrows(w1, {c}, PR.Unrelated);
      PR.DeliverHubs(w1, {c}, PR.Unrelated);
      GrowsOn(w, w1, PR.Deliver(w1, {c}, PR.Unrelated));
    case SendUnrelated(c) =>
      if c in w.hubs.conns { DeliverGrows(w, {c}, PR.Unrelated); }
      PR.DeliverHubs(w, {c}, PR.Unrelated);
    case _ => SameSent(w, PR.Perform(hs, w, k));
  }

  lemma PerformGrows(hs: Hashes, w: PR.Cluster, k: PR.Call)
    requires !k.Write?
    ensures var w' := PR.Perform(hs, w, k); Grows(w, w') && w'.hubs.conns.Keys >= w.hubs.conns.Keys
  {
    PR.PerformIs(hs, w, k);
    hide PR.Perform, Grows, PR.DoSubscribe, PR.DoUnsubscribe, PR.Departs, PR.LeaveAction, PR.LeftBy;
    if PR.IsJoin(w, k) {
      JoinGrows(hs, w, k.c, k.req);
    } else if PR.IsLeave(w, k) {
      LeaveGrows(hs, w, k.c, PR.LeftBy(w, k), PR.LeaveAction(k));
    } else {
      QuietGrows(hs, w, k);
    }
  }

  lemma PerformAddressed(hs: Hashes, w: PR.Cluster, k: PR.Call)
    requires Addressed(w)
    ensures Addressed(PR.Perform(hs, w, k))
  {
    if !k.Write? {
      PerformGrows(hs, w, k);
      hide PR.Perform, PR.SentTo;
      var w' := PR.Perform(hs, w, k);
      forall d ensures PR.WrittenTo(w', d) <= |PR.SentTo(w', d)| && (PR.SentTo(w', d) != [] ==> d in w'.hubs.conns) {
        assert PR.WrittenTo(w', d) == PR.WrittenTo(w, d);
      }
    } else {
      assert forall d :: PR.SentTo(PR.Perform(hs, w, k), d) == PR.SentTo(w, d);
      hide PR.SentTo;
    }
  }

  // One call, on its own hub and on the others.

  lemma SameView(h: Hubs, h': Hubs, node: string)
    requires h'.shared.index == h.shared.index && h'.shared.tables == h.shared.tables && h'.conns.Keys == h.conns.Keys
    requires forall c :: c in h.conns ==> h'.conns[c].mine == h.conns[c].mine && h'.conns[c].user == h.conns[c].user
    ensures ViewOf(h', node) == ViewOf(h, node)
  {
    hide IndexAt;
  }

  /** Calls that change neither maps nor tables and send nothing. */
  lemma StillShows(enc: Encoder, s: HS.State, w: PR.Cluster, w': PR.Cluster, node: string)
    requires Shows(enc, s, w, node) && ViewOf(w'.hubs, node) == ViewOf(w.hubs, node)
    requires w'.sent == w.sent && w'.written == w.written
    ensures Shows(enc, s, w', node)
  {
    hide Waits, ViewOf, Strip;
    LocalFrames.SameFrames(enc, s, w, s, w');
  }

  lemma SetAppShows(hs: Hashes, enc: Encoder, s: HS.State, w: PR.Cluster, k: PR.Call, node: string)
    requires k.SetApp? && Shows(enc, s, w, node)
    ensures Shows(enc, s, PR.Perform(hs, w, k), node)
  {
    hide Shows, ViewOf;
    SameView(w.hubs, PR.Perform(hs, w, k).hubs, node);
    StillShows(enc, s, w, PR.Perform(hs, w, k), node);
  }

  /** The last step of `Unregister`. */
  lemma FinishShows(hs: Hashes, enc: Encoder, s: HS.State, w: PR.Cluster, c: Client, node: string)
    requires !PR.IsDraining(w.hubs, c) && Shows(enc, s, w, node)
    ensures Shows(enc, s, PR.Perform(hs, w, PR.Drain(c)), node)
  {
    hide Shows, ViewOf, Step;
    if c in w.hubs.conns && w.hubs.conns[c].pc.Draining? {
      FinishConns(hs, w.hubs, c);
      SameView(w.hubs, PR.Perform(hs, w, PR.Drain(c)).hubs, node);
      StillShows(enc, s, w, PR.Perform(hs, w, PR.Drain(c)), node);
    }
  }

  lemma FinishConns(hs: Hashes, h: Hubs, c: Client)
    requires c in h.conns && h.conns[c].pc == Draining([])
    ensures Step(hs, h, Do(c, DrainNext)) == h.(conns := h.conns[c := h.conns[c].(pc := Gone)])
  {}

  lemma ShownConn(enc: Encoder, s: HS.State, w: PR.Cluster, d: Client, node: string)
    requires Shows(enc, s, w, node)
    ensures d in s.conns <==> d in w.hubs.conns && d.node == node
    ensures d in s.conns ==> Waits(enc, s.conns[d].sendCh, w, d)
    ensures d in s.conns ==> s.conns[d].channels == w.hubs.conns[d].mine
  {
    hide Waits;
    assert d in s.conns <==> d in Strip(s).conns;
    assert d in w.hubs.conns && d.node == node <==> d in ViewOf(w.hubs, node).conns;
    assert d in s.conns ==> Strip(s).conns[d] == ViewOf(w.hubs, node).conns[d];
  }

  lemma WriteShows(hs: Hashes, enc: Encoder, s: HS.State, w: PR.Cluster, c: Client, node: string)
    requires Addressed(w) && Shows(enc, s, w, node)
    ensures Shows(enc, if c.node == node then Taken(s, c) else s, PR.Perform(hs, w, PR.Write(c)), node)
  {
    ShownConn(enc, s, w, c, node);
    TakenStrip(s, c);
    TakenConns(s, c);
    WriteHubs(hs, w, c);
    hide Strip, ViewOf, Waits, Taken, PR.Perform, Addressed;
    var s' := if c.node == node then Taken(s, c) else s;
    forall d | d in s'.conns ensures Waits(enc, s'.conns[d].sendCh, PR.Perform(hs, w, PR.Write(c)), d) {
      WriteHolds(hs, enc, s.conns[d].sendCh, w, c, d);
    }
  }

  lemma TakenConns(s: HS.State, c: Client)
    ensures Taken(s, c).conns.Keys == s.conns.Keys
    ensures forall d :: d in s.conns ==>
              var q := s.conns[d].sendCh; Taken(s, c).conns[d].sendCh == if d == c && q != [] then q[1..] else q
  {}

  lemma WriteHubs(hs: Hashes, w: PR.Cluster, c: Client)
    ensures PR.Perform(hs, w, PR.Write(c)).hubs == w.hubs
  {}

  lemma TakenStrip(s: HS.State, c: Client)
    ensures Strip(Taken(s, c)) == Strip(s)
  {}

  lemma WriteHolds(hs: Hashes, enc: Encoder, q: seq<PusherMessage>, w: PR.Cluster, c: Client, d: Client)
    requires Waits(enc, q, w, d)
    ensures Waits(enc, if d == c && q != [] then q[1..] else q, PR.Perform(hs, w, PR.Write(c)), d)
  {
    hide Renders;
    assert PR.SentTo(PR.Perform(hs, w, PR.Write(c)), d) == PR.SentTo(w, d);
  }

  lemma SendNobody(s: HS.State, to: set<Client>, m: PusherMessage)
    requires forall d :: d in s.conns ==> d !in to
    ensures HS.SendAll(s, to, m) == s
  {
    assert HS.SendAll(s, to, m).conns == s.conns;
  }

  lemma PongRenders(enc: Encoder)
    ensures Renders(enc, PONG, PR.Unrelated)
  {}

  lemma UnrelatedIs(hs: Hashes, w: PR.Cluster, c: Client)
    ensures PR.Perform(hs, w, PR.SendUnrelated(c)) == if c in w.hubs.conns then PR.Deliver(w, {c}, PR.Unrelated) else w
  {}

  lemma UnrelatedShows(hs: Hashes, enc: Encoder, s: HS.State, w: PR.Cluster, c: Client)
    requires Shows(enc, s, w, c.node)
    ensures Shows(enc, HS.SendAll(s, {c}, PONG), PR.Perform(hs, w, PR.SendUnrelated(c)), c.node)
  {
    ShownConn(enc, s, w, c, c.node);
    PongRenders(enc);
    UnrelatedIs(hs, w, c);
    StripSendAll(s, {c}, PONG);
    hide Strip, ViewOf, Frames, PR.Deliver, HS.SendAll, Renders, PR.Perform, Waits;
    if c in w.hubs.conns {
      PR.DeliverHubs(w, {c}, PR.Unrelated);
      SendFrames(enc, s, w, {c}, {c}, PONG, PR.Unrelated);
    } else {
      SendNobody(s, {c}, PONG);
    }
  }

  lemma OwnShows(hs: Hashes, enc: Encoder, w: PR.Cluster, s: HS.State, k: PR.Call)
    requires !k.SetApp? && Addressed(w) && Shows(enc, s, w, k.c.node)
    ensures Shows(enc, OwnStep(hs, enc, w, s, k), PR.Perform(hs, w, k), k.c.node)
  {
    PR.PerformIs(hs, w, k);
    hide Shows, PR.DoSubscribe, PR.DoUnsubscribe, PR.Departs, HS.Subscribed, HS.Unsubscribed, HS.Registered,
         HS.ClientDropped, HS.SendAll, CanConnect, Taken, AppOf, Addressed, PR.SentTo;
    match k
    case Arrive(c) =>
      if CanConnect(w.hubs, c) {
        NothingSent(w, c);
        RegisterShows(hs, enc, s, w, c);
      }
    case Subscribe(c, req) => if PR.IsJoin(w, k) { SubscribeShows(hs, enc, s, w, c, req); }
    case Unregister(c, order) =>
      UnregisterCall(hs, w, c, order);
      if Unregisters(w, c, order) { BegunShows(hs, enc, s, w, c, order); }
    case Write(c) => WriteShows(hs, enc, s, w, c, c.node);
    case SendUnrelated(c) => UnrelatedShows(hs, enc, s, w, c);
    case Unsubscribe(c, ch) => if PR.IsLeave(w, k) { UnsubscribeShows(hs, enc, s, w, c, BeginUnsubscribe(ch), ch); }
    case Drain(c) =>
      if PR.IsLeave(w, k) {
        UnsubscribeShows(hs, enc, s, w, c, DrainNext, PR.LeftBy(w, k));
      } else {
        FinishShows(hs, enc, s, w, c, c.node);
      }
  }

  lemma NothingSent(w: PR.Cluster, c: Client)
    requires Addressed(w) && CanConnect(w.hubs, c)
    ensures PR.SentTo(w, c) == [] && PR.WrittenTo(w, c) == 0
  {
    hide PR.SentTo, PR.WrittenTo;
  }

  lemma UnregisterCall(hs: Hashes, w: PR.Cluster, c: Client, order: seq<string>)
    ensures if Unregisters(w, c, order)
            then PR.Perform(hs, w, PR.Unregister(c, order)) == DrainCalls(hs, w, c, order, 0)
            else PR.Perform(hs, w, PR.Unregister(c, order)) == w
  {}

  /** Another hub, once it has handled what the call made its own hub publish. */
  lemma OthersShow(hs: Hashes, enc: Encoder, w: PR.Cluster, own: HS.State, s: HS.State, k: PR.Call, node: string)
    requires !k.SetApp? && Addressed(w) && Shows(enc, own, w, k.c.node) && Shows(enc, s, w, node) && node != k.c.node
    ensures var own' := OwnStep(hs, enc, w, own, k);
            Shows(enc, Heard(s.(tables := own'.tables), HS.News(own, own')), PR.Perform(hs, w, k), node)
  {
    var w' := PR.Perform(hs, w, k);
    var own' := OwnStep(hs, enc, w, own, k);
    PR.PerformIs(hs, w, k);
    OwnShows(hs, enc, w, own, k);
    ShownTables(enc, own', w', k.c.node);
    ShownTables(enc, own, w, k.c.node);
    ShownTables(enc, s, w, node);
    hide Shows, PR.DoSubscribe, PR.DoUnsubscribe, PR.Departs, HS.Subscribed, HS.Unsubscribed, HS.Registered, HS.News,
         Heard, HS.ClientDropped, HS.SendAll, CanConnect, Taken, AppOf, Addressed, PR.SentTo;
    if !Speaks(w, k) {
      QuietHeard(hs, enc, w, own, s, k, node);
    } else if PR.IsJoin(w, k) {
      PR.DoSubscribeHubs(hs, w, k.c, k.req);
      SubscribeHeard(hs, enc, own, s, w, k.c, k.req, node);
    } else if PR.IsLeave(w, k) {
      UnsubscribeHeard(hs, enc, own, s, w, k.c, PR.LeaveAction(k), PR.LeftBy(w, k), node);
    } else if k.Arrive? {
      RegisterHeard(hs, enc, own, s, w, k.c, node);
    } else {
      UnregisterCall(hs, w, k.c, k.order);
      BegunHeard(hs, enc, s, w, k.c, k.order, node);
      DroppedNews(own, k.c);
      HeardNone(s.(tables := own'.tables));
    }
  }

  /** Calls that may change maps or tables. */
  predicate Speaks(w: PR.Cluster, k: PR.Call) {
    || PR.IsJoin(w, k) || PR.IsLeave(w, k) || (k.Arrive? && CanConnect(w.hubs, k.c))
    || (k.Unregister? && Unregisters(w, k.c, k.order))
  }

  lemma QuietNews(hs: Hashes, enc: Encoder, w: PR.Cluster, s: HS.State, k: PR.Call)
    requires !k.SetApp? && !Speaks(w, k)
    ensures var s' := OwnStep(hs, enc, w, s, k); s'.tables == s.tables && HS.News(s, s') == []
  {
    HS.NoNews(s);
    if k.SendUnrelated? { HS.SentNews(s, {k.c}, PONG); }
    hide HS.Subscribed, HS.Unsubscribed, HS.Registered, CanConnect;
  }

  lemma QuietHeard(hs: Hashes, enc: Encoder, w: PR.Cluster, own: HS.State, s: HS.State, k: PR.Call, node: string)
    requires !k.SetApp? && !Speaks(w, k) && Addressed(w) && Shows(enc, s, w, node) && node != k.c.node
    requires own.tables == s.tables
    ensures var own' := OwnStep(hs, enc, w, own, k);
            Shows(enc, Heard(s.(tables := own'.tables), HS.News(own, own')), PR.Perform(hs, w, k), node)
  {
    QuietNews(hs, enc, w, own, k);
    HeardNone(s);
    assert s.(tables := s.tables) == s;
    QuietShows(hs, enc, w, s, k, node);
    hide Shows, PR.Perform, OwnStep, HS.News, Heard, Addressed, Speaks;
  }

  lemma QuietShows(hs: Hashes, enc: Encoder, w: PR.Cluster, s: HS.State, k: PR.Call, node: string)
    requires !k.SetApp? && !Speaks(w, k) && Addressed(w) && Shows(enc, s, w, node) && node != k.c.node
    ensures Shows(enc, s, PR.Perform(hs, w, k), node)
  {
    hide Shows, Addressed, CanConnect, Step, PR.DoSubscribe, PR.DoUnsubscribe;
    match k
    case Write(c) => WriteShows(hs, enc, s, w, c, node);
    case SendUnrelated(c) => AsideShows(hs, enc, s, w, c, node);
    case Drain(c) => FinishShows(hs, enc, s, w, c, node);
    case Unregister(c, order) => UnregisterCall(hs, w, c, order);
    case _ =>
  }

  lemma AsideShows(hs: Hashes, enc: Encoder, s: HS.State, w: PR.Cluster, c: Client, node: string)
    requires Shows(enc, s, w, node) && node != c.node
    ensures Shows(enc, s, PR.Perform(hs, w, PR.SendUnrelated(c)), node)
  {
    ShownConn(enc, s, w, c, node);
    UnrelatedIs(hs, w, c);
    hide Strip, ViewOf, Frames, PR.Deliver, PR.Perform;
    PR.DeliverHubs(w, {c}, PR.Unrelated);
    AsideFrames(enc, s, w, {c}, PR.Unrelated);
  }

  // Whole runs.

  /** What the client has read so far are the frames written so far. */
  ghost predicate ReadBy(enc: Encoder, net: Net, w: PR.Cluster, d: Client) {
    Upto(enc, Got(net, d), PR.SentTo(w, d), PR.WrittenTo(w, d))
  }

  ghost predicate Upto(enc: Encoder, messages: seq<PusherMessage>, notes: seq<PR.Note>, n: nat) {
    n <= |notes| && Carries(enc, messages, notes[..n])
  }

  lemma UptoGrows(enc: Encoder, messages: seq<PusherMessage>, notes: seq<PR.Note>, more: seq<PR.Note>, n: nat)
    requires Upto(enc, messages, notes, n) && notes <= more
    ensures Upto(enc, messages, more, n)
  {
    hide Renders;
    assert more[..n] == notes[..n];
  }

  lemma UptoNext(enc: Encoder, messages: seq<PusherMessage>, notes: seq<PR.Note>, n: nat, q: seq<PusherMessage>)
    requires Upto(enc, messages, notes, n) && n < |notes| && Carries(enc, q, notes[n..])
    ensures q != [] && Upto(enc, messages + [q[0]], notes, n + 1)
  {
    hide Renders;
    assert notes[n..][0] == notes[n] && notes[..n + 1] == notes[..n] + [notes[n]];
  }

  ghost predicate NetInv(enc: Encoder, net: Net, w: PR.Cluster) {
    AllShow(enc, net, w) && Addressed(w) && forall d :: ReadBy(enc, net, w, d)
  }

  lemma PerformNodes(hs: Hashes, w: PR.Cluster, k: PR.Call)
    ensures PR.Perform(hs, w, k).hubs.nodes == w.hubs.nodes
  {
    PR.PerformIs(hs, w, k);
    hide PR.Departs, PR.DoSubscribe, PR.DoUnsubscribe, PR.LeaveAction, PR.LeftBy, PR.Deliver;
    PR.DeliverKeepsHubs();
    if PR.IsJoin(w, k) {
      PR.DoSubscribeHubs(hs, w, k.c, k.req);
      JoinKeys(hs, w.hubs, k.c, k.req);
    } else if PR.IsLeave(w, k) {
      PR.DoUnsubscribeHubs(hs, w, k.c, PR.LeftBy(w, k), PR.LeaveAction(k));
      LeaveKeys(hs, w.hubs, k.c, PR.LeaveAction(k), PR.LeftBy(w, k));
    }
  }

  /** Nobody is connected to a hub that does not exist. */
  lemma NoSuchHub(hs: Hashes, w: PR.Cluster, k: PR.Call)
    requires PR.Calm(w.hubs) && Addressed(w) && !k.SetApp? && k.c.node !in w.hubs.nodes
    ensures PR.Perform(hs, w, k) == w
  {
    assert k.c !in w.hubs.conns;
    hide PR.Calm, PR.SentTo;
  }

  lemma StepShows(hs: Hashes, enc: Encoder, net: Net, w: PR.Cluster, k: PR.Call)
    requires AllShow(enc, net, w) && Addressed(w) && PR.Calm(w.hubs)
    ensures AllShow(enc, NetStep(hs, enc, w, net, k), PR.Perform(hs, w, k))
  {
    PerformNodes(hs, w, k);
    hide Shows, PR.Perform, OwnStep, PR.Calm, Addressed, Heard, HS.News;
    var net' := NetStep(hs, enc, w, net, k);
    forall node | node in net'.hubs ensures Shows(enc, net'.hubs[node], PR.Perform(hs, w, k), node) {
      if k.SetApp? {
        SetAppShows(hs, enc, net.hubs[node], w, k, node);
      } else if k.c.node !in net.hubs {
        NoSuchHub(hs, w, k);
      } else if node == k.c.node {
        OwnShows(hs, enc, w, net.hubs[node], k);
      } else {
        OthersShow(hs, enc, w, net.hubs[k.c.node], net.hubs[node], k, node);
      }
    }
  }

  lemma StepReads(hs: Hashes, enc: Encoder, net: Net, w: PR.Cluster, k: PR.Call, d: Client)
    requires NetInv(enc, net, w) && PR.Calm(w.hubs)
    ensures ReadBy(enc, NetStep(hs, enc, w, net, k), PR.Perform(hs, w, k), d)
  {
    assert ReadBy(enc, net, w, d);
    if k.Write? {
      WriteReads(hs, enc, net, w, k.c, d);
    } else {
      PerformGrows(hs, w, k);
      QuietGot(hs, enc, net, w, k, d);
      hide PR.Perform, NetStep, AllShow, Addressed, PR.Calm, Upto, Got;
      var w' := PR.Perform(hs, w, k);
      assert PR.WrittenTo(w', d) == PR.WrittenTo(w, d) && PR.SentTo(w, d) <= PR.SentTo(w', d);
      UptoGrows(enc, Got(net, d), PR.SentTo(w, d), PR.SentTo(w', d), PR.WrittenTo(w, d));
    }
  }

  lemma QuietGot(hs: Hashes, enc: Encoder, net: Net, w: PR.Cluster, k: PR.Call, d: Client)
    requires !k.Write?
    ensures Got(NetStep(hs, enc, w, net, k), d) == Got(net, d)
  {
    hide OwnStep, Heard, HS.News;
  }

  lemma WriteReads(hs: Hashes, enc: Encoder, net: Net, w: PR.Cluster, c: Client, d: Client)
    requires NetInv(enc, net, w) && PR.Calm(w.hubs)
    ensures ReadBy(enc, NetStep(hs, enc, w, net, PR.Write(c)), PR.Perform(hs, w, PR.Write(c)), d)
  {
    hide NetStep, PR.Perform, PR.Calm, AllShow, Addressed, Upto, Carries, PR.SentTo, PR.WrittenTo, Got;
    assert ReadBy(enc, net, w, d);
    WriteGot(hs, enc, net, w, c, d);
    WriteIs(hs, w, c, d);
    if d == c {
      WriterHas(enc, net, w, c);
      if PR.WrittenTo(w, c) < |PR.SentTo(w, c)| {
        UptoNext(enc, Got(net, c), PR.SentTo(w, c), PR.WrittenTo(w, c), net.hubs[c.node].conns[c].sendCh);
      }
    }
  }

  lemma WriteIs(hs: Hashes, w: PR.Cluster, c: Client, d: Client)
    ensures var w', n, notes := PR.Perform(hs, w, PR.Write(c)), PR.WrittenTo(w, d), PR.SentTo(w, d);
            PR.SentTo(w', d) == notes && PR.WrittenTo(w', d) == if d == c && n < |notes| then n + 1 else n
  {}

  /** There is a frame to write exactly if the connection's channel on its hub is not empty. */
  lemma WriterHas(enc: Encoder, net: Net, w: PR.Cluster, c: Client)
    requires NetInv(enc, net, w) && PR.Calm(w.hubs)
    ensures PR.WrittenTo(w, c) < |PR.SentTo(w, c)| <==>
            c.node in net.hubs && c in net.hubs[c.node].conns && net.hubs[c.node].conns[c].sendCh != []
    ensures PR.WrittenTo(w, c) < |PR.SentTo(w, c)| ==>
            Carries(enc, net.hubs[c.node].conns[c].sendCh, PR.SentTo(w, c)[PR.WrittenTo(w, c)..])
  {
    if c in w.hubs.conns { assert c.node in w.hubs.nodes; }
    hide PR.Calm, Shows, Renders;
    if c.node in net.hubs { ShownConn(enc, net.hubs[c.node], w, c, c.node); }
  }

  lemma WriteGot(hs: Hashes, enc: Encoder, net: Net, w: PR.Cluster, c: Client, d: Client)
    ensures Got(NetStep(hs, enc, w, net, PR.Write(c)), d) ==
            if d == c && c.node in net.hubs && c in net.hubs[c.node].conns && net.hubs[c.node].conns[c].sendCh != []
            then Got(net, c) + [net.hubs[c.node].conns[c].sendCh[0]] else Got(net, d)
  {
    hide OwnStep, Heard, HS.News;
  }

  /** At any moment of a run every hub is its part of the cluster, and clients have read what was written. */
  lemma {:induction false} NetRuns(hs: Hashes, enc: Encoder, nodes: set<string>, calls: seq<PR.Call>)
    ensures NetInv(enc, NetAfter(hs, enc, nodes, calls), PR.Performed(hs, nodes, calls))
  {
    if calls == [] {
      StartShows(enc, nodes);
    } else {
      var before, k := calls[..|calls| - 1], calls[|calls| - 1];
      var w, net := PR.Performed(hs, nodes, before), NetAfter(hs, enc, nodes, before);
      NetRuns(hs, enc, nodes, before);
      PR.PerformedCalm(hs, nodes, before);
      StepShows(hs, enc, net, w, k);
      PerformAddressed(hs, w, k);
      hide PR.Perform, NetStep, ReadBy, AllShow, Addressed, PR.Calm;
      forall d ensures ReadBy(enc, NetStep(hs, enc, w, net, k), PR.Perform(hs, w, k), d) {
        StepReads(hs, enc, net, w, k, d);
      }
    }
  }

  lemma StartShows(enc: Encoder, nodes: set<string>)
    ensures NetInv(enc, Net(map node | node in nodes :: HS.State(Empty(), map[], Tables(map[], map[]), [], []), map[]),
                   PR.Cluster(Start(nodes), map[], map[], {}, []))
  {}

  // What clients make of it.

  /** How a client reads the messages' data. */
  datatype Decoder = Decoder(roster: string -> set<string>, added: string -> string, removed: string -> string)

  ghost predicate Decodes(enc: Encoder, dec: Decoder) {
    && (forall users :: dec.roster(enc.roster(users)) == users)
    && (forall user, info :: dec.added(enc.memberAdded(user, info)) == user)
    && (forall user :: dec.removed(enc.memberRemoved(user)) == user)
  }

  /** The roster of a channel that a client pieces together from its messages. */
  function Pieced(dec: Decoder, messages: seq<PusherMessage>, ch: string): set<string> {
    if messages == [] then {}
    else
      var users, m := Pieced(dec, messages[..|messages| - 1], ch), messages[|messages| - 1];
      if m.channel != ch then users
      else if m.event == "pusher_internal:subscription_succeeded" then dec.roster(m.data)
      else if m.event == "pusher_internal:member_added" then users + {dec.added(m.data)}
      else if m.event == "pusher_internal:member_removed" then users - {dec.removed(m.data)}
      else users
  }

  lemma {:induction false} PiecedIsFold(enc: Encoder, dec: Decoder, messages: seq<PusherMessage>,
                                        notes: seq<PR.Note>, ch: string)
    requires Decodes(enc, dec) && IsPresence(ch) && Carries(enc, messages, notes)
    ensures Pieced(dec, messages, ch) == Fold(notes, ch)
  {
    hide IsPresence;
    if messages != [] {
      var n := |messages| - 1;
      PiecedIsFold(enc, dec, messages[..n], notes[..n], ch);
      assert Renders(enc, messages[n], notes[n]);
    }
  }

  lemma CarriesBoth(enc: Encoder, q: seq<PusherMessage>, r: seq<PusherMessage>, notes: seq<PR.Note>, n: nat)
    requires n <= |notes| && Carries(enc, q, notes[..n]) && Carries(enc, r, notes[n..])
    ensures Carries(enc, q + r, notes)
  {
    hide Renders;
  }

  lemma AllCarried(enc: Encoder, net: Net, w: PR.Cluster, d: Client)
    requires NetInv(enc, net, w) && d.node in net.hubs && d in net.hubs[d.node].conns
    ensures Carries(enc, Got(net, d) + net.hubs[d.node].conns[d].sendCh, PR.SentTo(w, d))
  {
    assert ReadBy(enc, net, w, d);
    ShownConn(enc, net.hubs[d.node], w, d, d.node);
    hide Carries, Shows;
    CarriesBoth(enc, Got(net, d), net.hubs[d.node].conns[d].sendCh, PR.SentTo(w, d), PR.WrittenTo(w, d));
  }

  /**
   * In harmless runs whoever subscribes to a presence channel and lost no message decodes, from what it read and
   * what is still in its channel, exactly the users that the broker reports.
   */
  lemma ClientsAgreeWithBroker(hs: Hashes, enc: Encoder, dec: Decoder, nodes: set<string>, calls: seq<PR.Call>,
                               d: Client, ch: string)
    requires Decodes(enc, dec) && HarmlessRun(hs, nodes, calls) && HasPrefix(ch, "presence-")
    requires var net := NetAfter(hs, enc, nodes, calls);
             && d.node in net.hubs && d in net.hubs[d.node].conns && ch in net.hubs[d.node].conns[d].channels
             && d !in PR.Performed(hs, nodes, calls).lost
    ensures var net := NetAfter(hs, enc, nodes, calls);
            var s := net.hubs[d.node];
            Pieced(dec, Got(net, d) + s.conns[d].sendCh, ch) == Users(MemoryRoster(s.tables, Key(d.app, ch)))
  {
    var net, w := NetAfter(hs, enc, nodes, calls), PR.Performed(hs, nodes, calls);
    NetRuns(hs, enc, nodes, calls);
    AllCarried(enc, net, w, d);
    ShownConn(enc, net.hubs[d.node], w, d, d.node);
    ShownTables(enc, net.hubs[d.node], w, d.node);
    HarmlessInStep(hs, nodes, calls, d, ch);
    hide NetAfter, PR.Performed, HarmlessRun, Decodes, Carries, Users, Key, Fold, Pieced, HasPrefix;
    PiecedIsFold(enc, dec, Got(net, d) + net.hubs[d.node].conns[d].sendCh, PR.SentTo(w, d), ch);
  }

  lemma HarmlessInStep(hs: Hashes, nodes: set<string>, calls: seq<PR.Call>, d: Client, ch: string)
    requires HarmlessRun(hs, nodes, calls)
    ensures InStep(PR.Performed(hs, nodes, calls), d, ch)
  {
    RostersConvergeIff(hs, nodes, calls);
    hide PR.Performed, HarmlessRun, InStep, PR.Calm;
    assert calls[..|calls|] == calls;
  }
}
