/**
 * What one hub's operations do to its fields is what uninterrupted runs of the step system do to that hub's
 * part of the cluster, and no run of one hub's connection touches another hub's part.
 */
module LocalRefinement {
  import opened ChannelKeys
  import opened HubIndex
  import opened Messages
  import opened Options
  import opened Presence
  import opened RequestSigning
  import opened HubSteps
  import opened HubMembership
  import opened HubTheorems
  import PR = PresenceRuns
  import HS = HubState

  /** One hub's part of a map of the cluster. */
  function At<V>(m: map<Spot, V>, node: string): (r: map<string, V>)
    ensures forall key :: key in r <==> Spot(node, key) in m
    ensures forall key :: key in r ==> r[key] == m[Spot(node, key)]
  {
    map key | key in (set s | s in m && s.node == node :: s.key) :: m[Spot(node, key)]
  }

  function IndexAt(i: Index<Spot, nat>, node: string): Index<string, ()> {
    Index((set c | c in i.clients && c.node == node),
          At(i.byID, node), At(i.byUser, node), At(i.channels, node), Recorded(i.subs, node))
  }

  /** The channels of the hub with a recorded broker subscription. */
  function Recorded(m: map<Spot, nat>, node: string): map<string, ()> {
    map key | key in At(m, node) :: ()
  }

  /** A hub and its connections without their channels and without what went out. */
  datatype View = View(index: Index<string, ()>, conns: map<Client, (set<string>, string)>, tables: Tables)

  function ViewOf(h: Hubs, node: string): View {
    View(IndexAt(h.shared.index, node),
         map c | c in h.conns && c.node == node :: (h.conns[c].mine, h.conns[c].user),
         h.shared.tables)
  }

  function Strip(s: HS.State): View {
    View(s.index, map c | c in s.conns :: (s.conns[c].channels, s.conns[c].userID), s.tables)
  }

  /** The views when one connection has changed. */
  lemma ViewUpdate(h: Hubs, h': Hubs, c: Client, k: Conn)
    requires h'.conns == h.conns[c := k]
    ensures ViewOf(h', c.node) ==
            View(IndexAt(h'.shared.index, c.node), ViewOf(h, c.node).conns[c := (k.mine, k.user)], h'.shared.tables)
  {
    hide IndexAt;
  }

  lemma StripUpdate(s: HS.State, s': HS.State, c: Client, k: HS.ConnState)
    requires s'.conns == s.conns[c := k]
    ensures Strip(s') == View(s'.index, Strip(s).conns[c := (k.channels, k.userID)], s'.tables)
  {}

  // Parts of maps.

  lemma AtUpdate<V>(m: map<Spot, V>, spot: Spot, v: V, node: string)
    ensures At(m[spot := v], node) == if spot.node == node then At(m, node)[spot.key := v] else At(m, node)
  {}

  lemma AtRemove<V>(m: map<Spot, V>, spot: Spot, node: string)
    ensures At(m - {spot}, node) == if spot.node == node then At(m, node) - {spot.key} else At(m, node)
  {}

  lemma LookupAt(m: map<Spot, set<Client>>, node: string, key: string)
    ensures Lookup(At(m, node), key) == Lookup(m, Spot(node, key))
  {}

  lemma AtWithout(m: map<Spot, set<Client>>, c: Client, key: string)
    ensures At(Without(m, c, Spot(c.node, key)), c.node) == Without(At(m, c.node), c, key)
  {
    AtUpdate(m, Spot(c.node, key), Lookup(m, Spot(c.node, key)) - {c}, c.node);
    AtRemove(m, Spot(c.node, key), c.node);
  }

  lemma AddUserAt(i: Index<Spot, nat>, c: Client, key: string)
    ensures IndexAt(AddUser(i, c, Spot(c.node, key)), c.node) == AddUser(IndexAt(i, c.node), c, key)
  {
    LookupAt(i.byUser, c.node, key);
    AtUpdate(i.byUser, Spot(c.node, key), Lookup(i.byUser, Spot(c.node, key)) + {c}, c.node);
  }

  lemma JoinAt(i: Index<Spot, nat>, c: Client, key: string)
    ensures IndexAt(HubIndex.Join(i, c, Spot(c.node, key)), c.node) == HubIndex.Join(IndexAt(i, c.node), c, key)
    ensures IsFirst(i, Spot(c.node, key)) == IsFirst(IndexAt(i, c.node), key)
  {
    LookupAt(i.channels, c.node, key);
    AtUpdate(i.channels, Spot(c.node, key), Members(i, Spot(c.node, key)) + {c}, c.node);
  }

  lemma SubAt(i: Index<Spot, nat>, spot: Spot, id: nat)
    ensures var j := IndexAt(i, spot.node);
            IndexAt(i.(subs := i.subs[spot := id]), spot.node) == j.(subs := j.subs[spot.key := ()])
  {
    RecordedAt(i.subs, spot, id);
    hide Recorded, At;
  }

  lemma RecordedAt(m: map<Spot, nat>, spot: Spot, id: nat)
    ensures Recorded(m[spot := id], spot.node) == Recorded(m, spot.node)[spot.key := ()]
    ensures Recorded(m - {spot}, spot.node) == Recorded(m, spot.node) - {spot.key}
  {
    AtUpdate(m, spot, id, spot.node);
    AtRemove(m, spot, spot.node);
    hide At;
  }

  lemma LeaveAt(i: Index<Spot, nat>, c: Client, key: string)
    ensures IndexAt(Leave(i, c, Spot(c.node, key)), c.node) == Leave(IndexAt(i, c.node), c, key)
  {
    AtWithout(i.channels, c, key);
    RecordedAt(i.subs, Spot(c.node, key), 0);
    hide Without, Recorded;
  }

  lemma RegisterAt(i: Index<Spot, nat>, c: Client)
    ensures IndexAt(Register(i, c, SocketSpot(c)), c.node) == Register(IndexAt(i, c.node), c, c.socket)
  {
    AtUpdate(i.byID, SocketSpot(c), c, c.node);
    hide At, Recorded;
    assert (set d | d in i.clients + {c} && d.node == c.node) == (set d | d in i.clients && d.node == c.node) + {c};
  }

  lemma DropAt(i: Index<Spot, nat>, c: Client, hasUser: bool, key: string)
    ensures IndexAt(Drop(i, c, SocketSpot(c), hasUser, Spot(c.node, key)), c.node) ==
            Drop(IndexAt(i, c.node), c, c.socket, hasUser, key)
  {
    AtRemove(i.byID, SocketSpot(c), c.node);
    AtWithout(i.byUser, c, key);
    hide Without, At, Recorded;
    assert (set d | d in i.clients - {c} && d.node == c.node) == (set d | d in i.clients && d.node == c.node) - {c};
  }

  // What goes out does not show in the view.

  lemma StripSendAll(s: HS.State, to: set<Client>, m: PusherMessage)
    ensures Strip(HS.SendAll(s, to, m)) == Strip(s)
  {}

  lemma StripBroadcast(s: HS.State, p: Payload)
    ensures Strip(HS.ClusterBroadcast(s, p)) == Strip(s)
  {
    hide Key, Recipients;
    StripSendAll(s, Recipients(s.index, Key(p.app, p.channel), Key(p.app, "*"), p.exclude),
                 PusherMessage(p.event, p.channel, p.data));
  }

  lemma WelcomedView(s: HS.State, enc: Encoder, node: string, c: Client, ch: string, user: string, info: string)
    ensures Strip(HS.Welcomed(s, enc, node, c, ch, user, info)) ==
            Strip(s).(tables := MemoryAdd(s.tables, Key(c.app, ch), Member(user, info, c.socket)))
  {
    hide Key, MemoryAdd, HS.SendAll, HS.ClusterBroadcast, Users;
    var s1 := s.(tables := MemoryAdd(s.tables, Key(c.app, ch), Member(user, info, c.socket)));
    var m := PusherMessage("pusher_internal:subscription_succeeded", ch,
                           enc.roster(Users(MemoryRoster(s1.tables, Key(c.app, ch)))));
    StripSendAll(s1, {c}, m);
    StripBroadcast(HS.SendAll(s1, {c}, m), Payload(node, c.app, ch, "pusher_internal:member_added",
                                                   enc.memberAdded(user, info), c.socket));
  }

  lemma DismissedView(s: HS.State, enc: Encoder, node: string, c: Client, ch: string)
    ensures Strip(HS.Dismissed(s, enc, node, c, ch)) ==
            Strip(s).(tables := MemoryRemove(s.tables, Key(c.app, ch), c.socket).0)
  {
    hide Key, MemoryRemove, HS.ClusterBroadcast;
    var (t, user) := MemoryRemove(s.tables, Key(c.app, ch), c.socket);
    StripBroadcast(s.(tables := t), Payload(node, c.app, ch, "pusher_internal:member_removed",
                                            enc.memberRemoved(user), c.socket));
  }

  /** The hub's and the client's own fields after an accepted subscription. */
  function EnteredView(v: View, c: Client, ch: string, user: string): View
    requires c in v.conns
  {
    var key := Key(c.app, ch);
    var (mine, was) := v.conns[c];
    var i1 := if IsPresence(ch) then AddUser(v.index, c, Key(c.app, user)) else v.index;
    var i2 := HubIndex.Join(i1, c, key);
    View(if IsFirst(i1, key) then i2.(subs := i2.subs[key := ()]) else i2,
         v.conns[c := (mine + {ch}, if IsPresence(ch) then user else was)],
         v.tables)
  }

  lemma EnteredIsView(s: HS.State, c: Client, ch: string, user: string)
    requires c in s.conns
    ensures Strip(HS.Entered(s, c, ch, if IsPresence(ch) then Some(user) else None)) ==
            EnteredView(Strip(s), c, ch, user)
  {
    hide Key, IsPresence, IsFirst, HubIndex.Join, AddUser;
  }

  lemma AdmittedView(s: HS.State, enc: Encoder, node: string, c: Client, r: SubscribeRequest)
    requires c in s.conns && (IsPresence(r.ch) ==> r.member.Some?)
    ensures Strip(HS.Admitted(s, enc, node, c, r)) ==
            EnteredView(Strip(s), c, r.ch, UserOf(r)).(tables := PR.EnteredTables(s.tables, c, r))
  {
    hide Key, IsPresence, MemoryAdd, HS.SendAll, HS.Welcomed, HS.Entered, EnteredView, MemoryOccupancy;
    var user := if IsPresence(r.ch) then Some(UserOf(r)) else None;
    var entered := HS.Entered(s, c, r.ch, user);
    EnteredIsView(s, c, r.ch, UserOf(r));
    SameTables(s, c, r.ch, user);
    WelcomedView(entered, enc, node, c, r.ch, UserOf(r), InfoOf(r));
    StripSendAll(entered, {c}, PusherMessage("pusher_internal:subscription_succeeded", r.ch, "{}"));
  }

  lemma SameTables(s: HS.State, c: Client, ch: string, user: Option<string>)
    ensures HS.Entered(s, c, ch, user).tables == s.tables
  {}

  /** The view after an accepted subscription, seen from the step runs. */
  lemma SubscribedView(hs: Hashes, h: Hubs, c: Client, r: SubscribeRequest)
    requires PR.IsIdle(h, c) && r.ch != ""
    ensures var v := ViewOf(h, c.node);
            ViewOf(PR.Subscribed(hs, h, c, r), c.node) ==
            if Authorized(hs, h.shared, c, r)
            then EnteredView(v, c, r.ch, UserOf(r)).(tables := PR.EnteredTables(v.tables, c, r)) else v
  {
    hide Key, IsPresence, PR.EnteredTables, PR.Subscribed, Authorized, AddUser, HubIndex.Join, IsFirst, IndexAt;
    var h' := PR.Subscribed(hs, h, c, r);
    PR.SubscribedEffect(hs, h, c, r);
    EnteredAt(h.shared.index, c, r, |h.shared.subs|);
    ViewUpdate(h, h', c, h'.conns[c]);
    assert ViewOf(h, c.node).conns[c := ViewOf(h, c.node).conns[c]] == ViewOf(h, c.node).conns;
  }

  lemma EnteredAt(i: Index<Spot, nat>, c: Client, r: SubscribeRequest, id: nat)
    ensures var key := Key(c.app, r.ch);
            var i0 := IndexAt(i, c.node);
            var i1 := if IsPresence(r.ch) then AddUser(i0, c, Key(c.app, UserOf(r))) else i0;
            var i2 := HubIndex.Join(i1, c, key);
            IndexAt(PR.EnteredIndex(i, c, r, id), c.node) ==
            if IsFirst(i1, key) then i2.(subs := i2.subs[key := ()]) else i2
  {
    hide IsPresence, AddUser, HubIndex.Join, IsFirst, IndexAt;
    AddUserAt(i, c, Key(c.app, UserOf(r)));
    var j := if IsPresence(r.ch) then AddUser(i, c, UserSpot(c, UserOf(r))) else i;
    JoinAt(j, c, Key(c.app, r.ch));
    SubAt(HubIndex.Join(j, c, ChannelSpot(c, r.ch)), ChannelSpot(c, r.ch), id);
  }

  /** What the store has for the client's application. */
  function AppOf(s: Shared, c: Client): Option<Credentials> {
    if c.app in s.store then Some(s.store[c.app]) else None
  }

  /**
   * `Subscribe` on one hub's fields refines the step run: from states that agree they go to states that agree,
   * whatever the outcome of the checks.
   */
  lemma SubscribeRefines(hs: Hashes, enc: Encoder, h: Hubs, s: HS.State, c: Client, r: SubscribeRequest)
    requires PR.IsIdle(h, c) && r.ch != "" && Strip(s) == ViewOf(h, c.node)
    ensures Strip(HS.Subscribed(s, hs, enc, c.node, c, AppOf(h.shared, c), r)) ==
            ViewOf(PR.Subscribed(hs, h, c, r), c.node)
  {
    assert c in ViewOf(h, c.node).conns && c in s.conns && s.tables == h.shared.tables;
    hide Key, IsPresence, EnteredView, PR.EnteredTables, HS.Subscribed, HS.Admitted, HS.Refused, PR.Subscribed,
         Authorized, ViewOf, Strip;
    SubscribedView(hs, h, c, r);
    SubscribedIsChecked(hs, enc, s, h.shared, c, r);
    if Authorized(hs, h.shared, c, r) {
      AdmittedView(s, enc, c.node, c, r);
    }
    RefusedView(s, enc, c, 4001);
    RefusedView(s, enc, c, 4009);
    ViewTables(h, c.node);
  }

  lemma ViewTables(h: Hubs, node: string)
    ensures ViewOf(h, node).tables == h.shared.tables
  {}

  lemma RefusedView(s: HS.State, enc: Encoder, c: Client, code: int)
    ensures Strip(HS.Refused(s, enc, c, code)) == Strip(s)
  {
    StripSendAll(s, {c}, PusherMessage("pusher:error", "", enc.error(code)));
  }

  /** The checks of `Subscribe`, in one. */
  lemma SubscribedIsChecked(hs: Hashes, enc: Encoder, s: HS.State, shared: Shared, c: Client, r: SubscribeRequest)
    ensures var s' := HS.Subscribed(s, hs, enc, c.node, c, AppOf(shared, c), r);
            if Authorized(hs, shared, c, r) then
              (IsPresence(r.ch) ==> r.member.Some?) && s' == HS.Admitted(s, enc, c.node, c, r)
            else s' == HS.Refused(s, enc, c, 4001) || s' == HS.Refused(s, enc, c, 4009)
  {
    hide IsPrivate, IsPresence, VerifyChannelAuth, HS.Admitted, HS.Refused;
  }

  /** The view after an unsubscription, seen from either side. */
  function DepartedView(v: View, c: Client, ch: string): View
    requires c in v.conns
  {
    View(Leave(v.index, c, Key(c.app, ch)),
         v.conns[c := (v.conns[c].0 - {ch}, v.conns[c].1)],
         PR.LeftTables(v.tables, c, ch))
  }

  lemma UnsubscribedView(s: HS.State, enc: Encoder, node: string, c: Client, ch: string)
    requires c in s.conns
    ensures Strip(HS.Unsubscribed(s, enc, node, c, ch)) == DepartedView(Strip(s), c, ch)
  {
    hide Key, IsPresence, MemoryRemove, HS.Dismissed, HS.Departed, MemoryOccupancy, Leave;
    var s1 := HS.Departed(s, c, ch);
    DismissedView(s1, enc, node, c, ch);
    LeaveOnce(s, c, ch);
    StripUpdate(s, s1, c, s.conns[c].(channels := s.conns[c].channels - {ch}));
    assert s.conns[c].channels == Strip(s).conns[c].0;
    var s2 := if IsPresence(ch) then HS.Dismissed(s1, enc, node, c, ch) else s1;
    assert Strip(s2.(hooks := s2.hooks + [HS.ChannelVacated(c.app, ch)])) == Strip(s2);
    hide Strip;
  }

  lemma LeaveOnce(s: HS.State, c: Client, ch: string)
    requires c in s.conns
    ensures var s' := HS.Departed(s, c, ch);
            && s'.index == Leave(s.index, c, Key(c.app, ch)) && s'.tables == s.tables
            && s'.conns == s.conns[c := s.conns[c].(channels := s.conns[c].channels - {ch})]
  {
    hide Key, Without;
  }

  lemma LeftView(hs: Hashes, h: Hubs, c: Client, a: Action, ch: string)
    requires PR.Departs(h, c, a, ch)
    ensures c in ViewOf(h, c.node).conns
    ensures ViewOf(PR.Left(hs, h, c, a), c.node) == DepartedView(ViewOf(h, c.node), c, ch)
  {
    hide Key, IsPresence, MemoryRemove, PR.Left, Leave, IndexAt;
    PR.LeftEffect(hs, h, c, a, ch);
    LeaveAt(h.shared.index, c, Key(c.app, ch));
    ViewUpdate(h, PR.Left(hs, h, c, a), c, PR.Left(hs, h, c, a).conns[c]);
  }

  /** So does `Unsubscribe`, from the read loop or from `Unregister`. */
  lemma UnsubscribeRefines(hs: Hashes, enc: Encoder, h: Hubs, s: HS.State, c: Client, a: Action, ch: string)
    requires PR.Departs(h, c, a, ch) && Strip(s) == ViewOf(h, c.node)
    ensures Strip(HS.Unsubscribed(s, enc, c.node, c, ch)) == ViewOf(PR.Left(hs, h, c, a), c.node)
  {
    LeftView(hs, h, c, a, ch);
    assert c in s.conns;
    hide ViewOf, DepartedView, HS.Unsubscribed, PR.Left, Strip;
    UnsubscribedView(s, enc, c.node, c, ch);
  }

  /** `Unregister` as a step run, up to the first `n` channels of its copy. */
  function Drained(hs: Hashes, h: Hubs, c: Client, order: seq<string>, n: nat): Hubs {
    if n == 0 then Step(hs, h, Do(c, BeginUnregister(order)))
    else PR.Left(hs, Drained(hs, h, c, order, n - 1), c, DrainNext)
  }

  lemma BegunView(hs: Hashes, h: Hubs, s: HS.State, c: Client, order: seq<string>)
    requires PR.IsIdle(h, c) && (set ch | ch in order) == h.conns[c].mine && Strip(s) == ViewOf(h, c.node)
    ensures var h' := Drained(hs, h, c, order, 0);
            && Strip(HS.ClientDropped(s, c)) == ViewOf(h', c.node)
            && c in h'.conns && h'.conns[c].pc == Draining(order)
  {
    hide Key, IndexAt, Drop, Drained, ViewOf, Strip;
    var k := h.conns[c];
    ViewConn(h, s, c);
    BegunHubs(hs, h, c, order);
    DropAt(h.shared.index, c, k.user != "", Key(c.app, k.user));
    ViewUpdate(h, Drained(hs, h, c, order, 0), c, k.(pc := Draining(order)));
    assert s.conns[c := s.conns[c]] == s.conns;
    StripUpdate(s, HS.ClientDropped(s, c), c, s.conns[c]);
  }

  lemma ViewConn(h: Hubs, s: HS.State, c: Client)
    requires c in h.conns && Strip(s) == ViewOf(h, c.node)
    ensures c in s.conns && s.conns[c].channels == h.conns[c].mine && s.conns[c].userID == h.conns[c].user
    ensures s.index == IndexAt(h.shared.index, c.node) && s.tables == h.shared.tables
  {
    assert c in ViewOf(h, c.node).conns && c in Strip(s).conns;
    assert Strip(s).conns[c] == ViewOf(h, c.node).conns[c];
  }

  lemma BegunHubs(hs: Hashes, h: Hubs, c: Client, order: seq<string>)
    requires PR.IsIdle(h, c) && (set ch | ch in order) == h.conns[c].mine
    ensures var k := h.conns[c];
            var h' := Drained(hs, h, c, order, 0);
            && h'.conns == h.conns[c := k.(pc := Draining(order))] && h'.shared.tables == h.shared.tables
            && h'.shared.index == Drop(h.shared.index, c, SocketSpot(c), k.user != "", Spot(c.node, Key(c.app, k.user)))
  {
    hide Drop, Key;
  }

  lemma {:induction false} DrainRefines(hs: Hashes, enc: Encoder, h: Hubs, s: HS.State, c: Client,
                                        order: seq<string>, n: nat)
    requires PR.IsIdle(h, c) && (set ch | ch in order) == h.conns[c].mine && Strip(s) == ViewOf(h, c.node)
    requires n <= |order|
    ensures var h' := Drained(hs, h, c, order, n);
            && Strip(HS.UnsubscribedAll(HS.ClientDropped(s, c), enc, c.node, c, order[..n])) == ViewOf(h', c.node)
            && c in h'.conns && h'.conns[c].pc == Draining(order[n..])
  {
    hide Strip, ViewOf, PR.Left, HS.Unsubscribed, HS.ClientDropped;
    if n == 0 {
      BegunView(hs, h, s, c, order);
      assert order[0..] == order;
    } else {
      var before := Drained(hs, h, c, order, n - 1);
      DrainRefines(hs, enc, h, s, c, order, n - 1);
      assert order[n - 1..][1..] == order[n..] && order[..n][..n - 1] == order[..n - 1];
      PR.LeftEffect(hs, before, c, DrainNext, order[n - 1]);
      UnsubscribeRefines(hs, enc, before, HS.UnsubscribedAll(HS.ClientDropped(s, c), enc, c.node, c, order[..n - 1]),
                         c, DrainNext, order[n - 1]);
    }
  }

  /** And `Unregister`, for each order in which it may copy the client's channels. */
  lemma UnregisterRefines(hs: Hashes, enc: Encoder, h: Hubs, s: HS.State, c: Client, order: seq<string>)
    requires Inv(h) && PR.IsIdle(h, c) && (set ch | ch in order) == h.conns[c].mine
    requires Strip(s) == ViewOf(h, c.node)
    ensures Strip(HS.Unregistered(s, enc, c.node, c, order)) == ViewOf(Drained(hs, h, c, order, |order|), c.node)
  {
    hide Inv, PR.IsIdle, Drained, Strip, ViewOf, HS.UnsubscribedAll, HS.ClientDropped;
    StillRegistered(h, s, c);
    DrainRefines(hs, enc, h, s, c, order, |order|);
    assert order[..|order|] == order;
  }

  lemma StillRegistered(h: Hubs, s: HS.State, c: Client)
    requires Inv(h) && PR.IsIdle(h, c) && Strip(s) == ViewOf(h, c.node)
    ensures c in s.index.clients
  {
    ViewConn(h, s, c);
    hide ChannelsInv, SubsInv, PresenceInv, UserPhase, Known, Strip, ViewOf;
    assert RegisteredOK(h, c);
  }

  /** `Register` too. */
  lemma RegisterRefines(enc: Encoder, h: Hubs, s: HS.State, c: Client)
    requires CanConnect(h, c) && Strip(s) == ViewOf(h, c.node)
    ensures Strip(HS.Registered(s, enc, c)) == ViewOf(DoConnect(h, c), c.node)
  {
    StripSendAll(HS.ClientAdded(s, c), {c},
                 PusherMessage("pusher:connection_established", "", enc.established(c.socket)));
    RegisterAt(h.shared.index, c);
    ViewUpdate(h, DoConnect(h, c), c, Conn(Idle, {}, "", {}));
    StripUpdate(s, HS.ClientAdded(s, c), c, HS.ConnState({}, "", [], false));
    hide IndexAt, HubIndex.Register, CanConnect, HS.SendAll;
    assert s.index == IndexAt(h.shared.index, c.node) && s.tables == h.shared.tables;
    hide ViewOf, Strip;
  }

  // So what holds of the step runs holds of the hub's own fields, for instance after `Unregister`.

  lemma {:induction false} DrainedKeepsInv(hs: Hashes, h: Hubs, c: Client, order: seq<string>, n: nat)
    requires Inv(h)
    ensures Inv(Drained(hs, h, c, order, n))
  {
    hide Inv, Step, PR.Left;
    if n == 0 {
      StepKeepsInv(hs, h, Do(c, BeginUnregister(order)));
    } else {
      DrainedKeepsInv(hs, h, c, order, n - 1);
      PR.LeftKeepsInv(hs, Drained(hs, h, c, order, n - 1), c, DrainNext);
    }
  }

  /** With nothing left to drain the goroutine ends, and nothing else changes. */
  lemma LastStep(hs: Hashes, h: Hubs, c: Client)
    requires c in h.conns && h.conns[c].pc == Draining([])
    ensures var h' := Step(hs, h, Do(c, DrainNext));
            && c in h'.conns && h'.conns[c] == h.conns[c].(pc := Gone) && h'.shared == h.shared
  {}

  lemma GoneIsNowhere(h: Hubs, c: Client, node: string)
    requires Inv(h) && c in h.conns && h.conns[c].pc.Gone?
    ensures var v := ViewOf(h, node);
            && c !in v.index.clients
            && (forall id :: id in v.index.byID ==> v.index.byID[id] != c)
            && (forall key :: c !in Members(v.index, key))
            && (forall key :: c.socket !in MemoryRoster(v.tables, key))
  {
    hide Key, SubsInv, MemoryRoster;
    assert PhaseOK(h.conns[c]) && RegisteredOK(h, c);
    assert Mine(h, c) == {};
    forall key ensures c !in Members(ViewOf(h, node).index, key) {
      LookupAt(h.shared.index.channels, node, key);
      MemberHasChannel(h, c, Spot(node, key));
    }
    forall key ensures c.socket !in MemoryRoster(h.shared.tables, key) {
      EntryHasChannel(h, c, key);
    }
  }

  lemma UserPartIff(h: Hubs, c: Client)
    requires Inv(h) && c in h.conns && h.conns[c].pc.Gone?
    ensures var k, v := h.conns[c], ViewOf(h, c.node);
            (forall key :: c !in Lookup(v.index.byUser, key)) <==>
            (forall u :: u in k.usersSeen ==> u == k.user && u != "")
  {
    UserEntriesIff(h, c);
    OwnUserEntries(h, c);
    var m, v := h.shared.index.byUser, ViewOf(h, c.node);
    assert v.index.byUser == At(m, c.node);
    hide Inv, Key, ViewOf, IndexAt, At, Lookup;
    forall key ensures Lookup(v.index.byUser, key) == Lookup(m, Spot(c.node, key)) { LookupAt(m, c.node, key); }
    if forall key :: c !in Lookup(v.index.byUser, key) {
      forall s ensures c !in Lookup(m, s) {
        if s.node == c.node {
          assert c !in Lookup(v.index.byUser, s.key) && s == Spot(c.node, s.key);
        }
      }
    }
  }

  /** A client's user entries are on its own hub. */
  lemma OwnUserEntries(h: Hubs, c: Client)
    requires Inv(h)
    ensures forall s :: c in Lookup(h.shared.index.byUser, s) ==> s.node == c.node
  {
    hide Key, SubsInv, ChannelsInv, PresenceInv, UserPhase;
    forall s | c in Lookup(h.shared.index.byUser, s) ensures s.node == c.node {
      assert UserOwned(h, c, s);
    }
  }

  /** `Unregister` leaves the client's user IDs as they are. */
  lemma {:induction false} DrainedKeepsUser(hs: Hashes, h: Hubs, s: HS.State, enc: Encoder, c: Client,
                                            order: seq<string>, n: nat)
    requires PR.IsIdle(h, c) && (set ch | ch in order) == h.conns[c].mine && Strip(s) == ViewOf(h, c.node)
    requires n <= |order|
    ensures var h' := Drained(hs, h, c, order, n);
            c in h'.conns && h'.conns[c].user == h.conns[c].user && h'.conns[c].usersSeen == h.conns[c].usersSeen
  {
    hide Strip, ViewOf, PR.Left;
    if n == 0 {
      BegunHubs(hs, h, c, order);
    } else {
      DrainedKeepsUser(hs, h, s, enc, c, order, n - 1);
      DrainRefines(hs, enc, h, s, c, order, n - 1);
      PR.LeftEffect(hs, Drained(hs, h, c, order, n - 1), c, DrainNext, order[n - 1]);
    }
  }

  /**
   * The client is in none of the hub's sets of clients and channel members and not under its socket ID, and the
   * socket in no presence table, whatever the order. It is under no user ID either exactly if it was only ever
   * indexed under its last one, and that is not empty.
   */
  lemma UnregisterLeavesNothing(hs: Hashes, enc: Encoder, h: Hubs, s: HS.State, c: Client, order: seq<string>)
    requires Inv(h) && PR.IsIdle(h, c) && (set ch | ch in order) == h.conns[c].mine
    requires Strip(s) == ViewOf(h, c.node)
    ensures var s' := HS.Unregistered(s, enc, c.node, c, order);
            && c !in s'.index.clients
            && (forall id :: id in s'.index.byID ==> s'.index.byID[id] != c)
            && (forall key :: c !in Members(s'.index, key))
            && (forall key :: c.socket !in MemoryRoster(s'.tables, key))
            && ((forall key :: c !in Lookup(s'.index.byUser, key)) <==>
                (forall u :: u in h.conns[c].usersSeen ==> u == h.conns[c].user && u != ""))
  {
    hide Inv, Lookup, PR.IsIdle, Drained, ViewOf, HS.Unregistered, HS.UnsubscribedAll, HS.ClientDropped, Step,
         MemoryRoster, Members;
    var h1 := Drained(hs, h, c, order, |order|);
    var h2 := Step(hs, h1, Do(c, DrainNext));
    UnregisterRefines(hs, enc, h, s, c, order);
    DrainRefines(hs, enc, h, s, c, order, |order|);
    assert order[|order|..] == [];
    DrainedKeepsInv(hs, h, c, order, |order|);
    StepKeepsInv(hs, h1, Do(c, DrainNext));
    LastStep(hs, h1, c);
    GoneIsNowhere(h2, c, c.node);
    DrainedKeepsUser(hs, h, s, enc, c, order, |order|);
    UserPartIff(h2, c);
    SameParts(h1, h2, c.node);
  }

  lemma SameParts(h: Hubs, h': Hubs, node: string)
    requires h'.shared == h.shared
    ensures ViewOf(h', node).index == ViewOf(h, node).index && ViewOf(h', node).tables == ViewOf(h, node).tables
  {}

  // Other hubs.

  lemma OtherSpot(i: Index<Spot, nat>, j: Index<Spot, nat>, spot: Spot, v: set<Client>, id: nat, node: string)
    requires node != spot.node
    requires j == i.(byUser := i.byUser[spot := v]) || j == i.(channels := i.channels[spot := v])
             || j == i.(channels := i.channels - {spot}) || j == i.(subs := i.subs[spot := id])
             || j == i.(subs := i.subs - {spot})
    ensures IndexAt(j, node) == IndexAt(i, node)
  {
    AtUpdate(i.byUser, spot, v, node);
    AtUpdate(i.channels, spot, v, node);
    AtRemove(i.channels, spot, node);
    AtUpdate(i.subs, spot, id, node);
    AtRemove(i.subs, spot, node);
    hide At;
  }

  lemma EnteredElsewhere(i: Index<Spot, nat>, c: Client, r: SubscribeRequest, id: nat, node: string)
    requires node != c.node
    ensures IndexAt(PR.EnteredIndex(i, c, r, id), node) == IndexAt(i, node)
  {
    hide Key, IsPresence, IndexAt;
    var u, spot := UserSpot(c, UserOf(r)), ChannelSpot(c, r.ch);
    var i1 := if IsPresence(r.ch) then AddUser(i, c, u) else i;
    var i2 := HubIndex.Join(i1, c, spot);
    if IsPresence(r.ch) {
      OtherSpot(i, i1, u, Lookup(i.byUser, u) + {c}, id, node);
    }
    OtherSpot(i1, i2, spot, Members(i1, spot) + {c}, id, node);
    if IsFirst(i1, spot) {
      OtherSpot(i2, i2.(subs := i2.subs[spot := id]), spot, {}, id, node);
    }
  }

  lemma LeaveElsewhere(i: Index<Spot, nat>, c: Client, spot: Spot, node: string)
    requires node != spot.node
    ensures IndexAt(Leave(i, c, spot), node) == IndexAt(i, node)
  {
    hide IndexAt;
    var rest := Members(i, spot) - {c};
    var i1 := i.(channels := Without(i.channels, c, spot));
    if spot in i.channels {
      OtherSpot(i, i1, spot, rest, 0, node);
    }
    if IsLast(i, c, spot) {
      OtherSpot(i1, i1.(subs := i1.subs - {spot}), spot, rest, 0, node);
    }
  }

  lemma ViewElsewhere(h: Hubs, h': Hubs, c: Client, k: Conn, node: string)
    requires node != c.node && h'.conns == h.conns[c := k]
    requires IndexAt(h'.shared.index, node) == IndexAt(h.shared.index, node)
    ensures ViewOf(h', node) == ViewOf(h, node).(tables := h'.shared.tables)
  {
    hide IndexAt;
  }

  /** A subscription changes nothing in another hub's maps and connections. */
  lemma SubscribeElsewhere(hs: Hashes, h: Hubs, c: Client, r: SubscribeRequest, node: string)
    requires PR.IsIdle(h, c) && r.ch != "" && node != c.node
    ensures var h' := PR.Subscribed(hs, h, c, r);
            ViewOf(h', node) == ViewOf(h, node).(tables := h'.shared.tables)
  {
    hide Key, IsPresence, PR.Subscribed, Authorized, IndexAt, PR.EnteredIndex, PR.EnteredTables, ViewOf;
    var h' := PR.Subscribed(hs, h, c, r);
    PR.SubscribedEffect(hs, h, c, r);
    EnteredElsewhere(h.shared.index, c, r, |h.shared.subs|, node);
    ViewElsewhere(h, h', c, h'.conns[c], node);
  }

  /** Nor does an unsubscription. */
  lemma UnsubscribeElsewhere(hs: Hashes, h: Hubs, c: Client, a: Action, ch: string, node: string)
    requires PR.Departs(h, c, a, ch) && node != c.node
    ensures var h' := PR.Left(hs, h, c, a); ViewOf(h', node) == ViewOf(h, node).(tables := h'.shared.tables)
  {
    hide Key, IsPresence, PR.Left, PR.Departs, PR.LeftTables, IndexAt, Leave, ViewOf;
    var h' := PR.Left(hs, h, c, a);
    PR.LeftEffect(hs, h, c, a, ch);
    LeaveElsewhere(h.shared.index, c, ChannelSpot(c, ch), node);
    ViewElsewhere(h, h', c, h'.conns[c], node);
  }

  lemma NewElsewhere(i: Index<Spot, nat>, c: Client, node: string)
    requires node != c.node
    ensures IndexAt(HubIndex.Register(i, c, SocketSpot(c)), node) == IndexAt(i, node)
  {
    AtUpdate(i.byID, SocketSpot(c), c, node);
    hide At, Recorded;
    assert (set d | d in i.clients + {c} && d.node == node) == (set d | d in i.clients && d.node == node);
  }

  /** Nor does `Register`. */
  lemma RegisterElsewhere(h: Hubs, c: Client, node: string)
    requires CanConnect(h, c) && node != c.node
    ensures ViewOf(DoConnect(h, c), node) == ViewOf(h, node)
  {
    NewElsewhere(h.shared.index, c, node);
    hide IndexAt, HubIndex.Register, CanConnect, ViewOf;
    ViewElsewhere(h, DoConnect(h, c), c, Conn(Idle, {}, "", {}), node);
  }

  lemma DropElsewhere(i: Index<Spot, nat>, c: Client, hasUser: bool, user: string, node: string)
    requires node != c.node
    ensures IndexAt(Drop(i, c, SocketSpot(c), hasUser, UserSpot(c, user)), node) == IndexAt(i, node)
  {
    var u := UserSpot(c, user);
    AtRemove(i.byID, SocketSpot(c), node);
    AtUpdate(i.byUser, u, Lookup(i.byUser, u) - {c}, node);
    AtRemove(i.byUser, u, node);
    hide At, Recorded, Key;
    assert (set d | d in i.clients - {c} && d.node == node) == (set d | d in i.clients && d.node == node);
  }

  /** Nor does `Unregister`, at any point. */
  lemma {:induction false} UnregisterElsewhere(hs: Hashes, h: Hubs, c: Client, order: seq<string>, n: nat, node: string)
    requires PR.IsIdle(h, c) && (set ch | ch in order) == h.conns[c].mine && n <= |order| && node != c.node
    ensures var h' := Drained(hs, h, c, order, n);
            && ViewOf(h', node) == ViewOf(h, node).(tables := h'.shared.tables)
            && c in h'.conns && h'.conns[c].pc == Draining(order[n..])
  {
    hide PR.Left, ViewOf, Key;
    var h' := Drained(hs, h, c, order, n);
    if n == 0 {
      BegunHubs(hs, h, c, order);
      DropElsewhere(h.shared.index, c, h.conns[c].user != "", h.conns[c].user, node);
      ViewElsewhere(h, h', c, h'.conns[c], node);
      assert order[0..] == order;
    } else {
      var before := Drained(hs, h, c, order, n - 1);
      UnregisterElsewhere(hs, h, c, order, n - 1, node);
      assert order[n - 1..][1..] == order[n..];
      PR.LeftEffect(hs, before, c, DrainNext, order[n - 1]);
      UnsubscribeElsewhere(hs, before, c, DrainNext, order[n - 1], node);
    }
  }
}
