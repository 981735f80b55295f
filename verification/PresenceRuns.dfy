/**
 * Presence rosters and webhooks, with each hub operation as one step. An operation is a sequence of its own
 * connection's steps with nobody else's in between; what it broadcasts reaches its audience at once.
 */
module PresenceRuns {
  import opened ChannelKeys
  import opened HubIndex
  import opened Presence
  import opened RequestSigning
  import opened HubSteps
  import opened HubMembership
  import opened HubTheorems
  import opened Messages
  import opened Options
  import opened Fanout

  /** What a presence subscriber reads: the roster on subscribing, then who comes and goes. */
  datatype Note =
    | Succeeded(ch: string, users: set<string>)
    | MemberAdded(ch: string, user: string)
    | MemberRemoved(ch: string, user: string)
    | Unrelated

  /** A `channel_occupied` or `channel_vacated` notification. */
  datatype Hook = Hook(app: string, ch: string, occupied: bool)

  /** `lost` holds the connections whose send channel was once found full. */
  datatype Cluster = Cluster(
    hubs: Hubs,
    sent: map<Client, seq<Note>>,
    written: map<Client, nat>,
    lost: set<Client>,
    hooks: seq<Hook>)

  datatype Call =
    | Arrive(c: Client)
    | Subscribe(c: Client, req: SubscribeRequest)
    | Unsubscribe(c: Client, ch: string)
    | Unregister(c: Client, order: seq<string>)
    | Drain(c: Client)               // `Unregister` unsubscribes the next channel of its copy
    | Write(c: Client)               // `WritePump` takes a frame
    | SendUnrelated(c: Client)       // a frame that is no presence message
    | SetApp(app: string, credentials: Option<Credentials>)

  function SentTo(s: Cluster, c: Client): seq<Note> {
    if c in s.sent then s.sent[c] else []
  }

  function WrittenTo(s: Cluster, c: Client): nat {
    if c in s.written then s.written[c] else 0
  }

  function Deliver(s: Cluster, to: set<Client>, n: Note): Cluster {
    var ok := set d | d in to && |SentTo(s, d)| < WrittenTo(s, d) + SLOTS;
    s.(sent := map d | d in s.sent.Keys + ok :: if d in ok then SentTo(s, d) + [n] else s.sent[d],
       lost := s.lost + (to - ok))
  }

  /** Who a broadcast reaches: recipients on its own hub, and on each hub that has recorded its topic. */
  function Audience(h: Hubs, p: Payload): set<Client> {
    set d | d in h.conns && d in RecipientsOf(h, p, d.node)
            && (d.node == p.origin || SpotOf(p, d.node) in h.shared.index.subs)
  }

  // The hubs' part of an operation, as a run of its connection's steps.

  function Subscribed(hs: Hashes, h: Hubs, c: Client, req: SubscribeRequest): Hubs {
    var h := Step(hs, h, Do(c, BeginSubscribe(req)));
    var h := Step(hs, h, Do(c, IndexUser));
    var h := Step(hs, h, Do(c, JoinChannel));
    var h := Step(hs, h, Do(c, OpenSub));
    var h := Step(hs, h, Do(c, RecordSub));
    Announced(hs, Step(hs, h, Do(c, AddPresence)), c)
  }

  function Announced(hs: Hashes, h: Hubs, c: Client): Hubs {
    Step(hs, Step(hs, h, Do(c, Await(0))), Do(c, Resume))
  }

  /** `a` is the step that leaves the channel. */
  function Left(hs: Hashes, h: Hubs, c: Client, a: Action): Hubs {
    Announced(hs, Step(hs, Step(hs, h, Do(c, a)), Do(c, RemovePresence)), c)
  }

  predicate IsIdle(h: Hubs, c: Client) {
    c in h.conns && h.conns[c].pc.Idle?
  }

  predicate IsDraining(h: Hubs, c: Client) {
    c in h.conns && h.conns[c].pc.Draining? && h.conns[c].pc.rest != []
  }

  function RosterAt(h: Hubs, app: string, ch: string): Roster {
    MemoryRoster(h.shared.tables, Key(app, ch))
  }

  function Notify(s: Cluster, app: string, ch: string, occupied: bool): Cluster {
    var n := MemoryOccupancy(s.hubs.shared.tables, Key(app, ch));
    if n == (if occupied then 1 else 0) then s.(hooks := s.hooks + [Hook(app, ch, occupied)]) else s
  }

  /** The frames of an accepted subscription; `s` has the hubs after it. */
  function Greet(s: Cluster, c: Client, ch: string, user: string): Cluster {
    if !IsPresence(ch) then Deliver(s, {c}, Unrelated)
    else
      var welcomed := Deliver(s, {c}, Succeeded(ch, Users(RosterAt(s.hubs, c.app, ch))));
      Deliver(welcomed, Audience(s.hubs, Announcement(c, Announcing(Added, ch, user, Back))), MemberAdded(ch, user))
  }

  function DoSubscribe(hs: Hashes, s: Cluster, c: Client, req: SubscribeRequest): Cluster {
    var s' := s.(hubs := Subscribed(hs, s.hubs, c, req));
    if !Authorized(hs, s.hubs.shared, c, req) then Deliver(s', {c}, Unrelated)
    else Notify(Greet(s', c, req.ch, UserOf(req)), c.app, req.ch, true)
  }

  /** The frames of an unsubscription; `user` is the presence entry's, or empty when there was none. */
  function Dismiss(s: Cluster, c: Client, ch: string, user: string): Cluster {
    if !IsPresence(ch) || user == "" then s
    else Deliver(s, Audience(s.hubs, Announcement(c, Announcing(Removed, ch, user, Back))), MemberRemoved(ch, user))
  }

  /** `Unsubscribe`, called by the read loop or by `Unregister`. */
  function DoUnsubscribe(hs: Hashes, s: Cluster, c: Client, ch: string, a: Action): Cluster {
    var user := MemoryRemove(s.hubs.shared.tables, Key(c.app, ch), c.socket).1;
    Notify(Dismiss(s.(hubs := Left(hs, s.hubs, c, a)), c, ch, user), c.app, ch, false)
  }

  /** The state after a call; a call that is not possible changes nothing. */
  function Perform(hs: Hashes, s: Cluster, k: Call): Cluster {
    match k
    case Arrive(c) => if CanConnect(s.hubs, c) then Deliver(s.(hubs := DoConnect(s.hubs, c)), {c}, Unrelated) else s
    case Subscribe(c, req) =>
      if IsIdle(s.hubs, c) && req.ch != "" then DoSubscribe(hs, s, c, req) else s
    case Unsubscribe(c, ch) =>
      if IsIdle(s.hubs, c) && ch != "" then DoUnsubscribe(hs, s, c, ch, BeginUnsubscribe(ch)) else s
    case Unregister(c, order) =>
      if IsIdle(s.hubs, c) then s.(hubs := Step(hs, s.hubs, Do(c, BeginUnregister(order)))) else s
    case Drain(c) =>
      if IsDraining(s.hubs, c) then DoUnsubscribe(hs, s, c, s.hubs.conns[c].pc.rest[0], DrainNext)
      else if c in s.hubs.conns && s.hubs.conns[c].pc.Draining? then s.(hubs := Step(hs, s.hubs, Do(c, DrainNext)))
      else s
    case Write(c) =>
      if WrittenTo(s, c) < |SentTo(s, c)| then s.(written := s.written[c := WrittenTo(s, c) + 1]) else s
    case SendUnrelated(c) => if c in s.hubs.conns then Deliver(s, {c}, Unrelated) else s
    case SetApp(app, credentials) => s.(hubs := DoSetApp(s.hubs, app, credentials))
  }

  function Performed(hs: Hashes, nodes: set<string>, calls: seq<Call>): Cluster {
    if calls == [] then Cluster(Start(nodes), map[], map[], {}, [])
    else Perform(hs, Performed(hs, nodes, calls[..|calls| - 1]), calls[|calls| - 1])
  }

  // Between operations every connection rests.

  predicate Rests(p: PC) {
    p.Idle? || p.Draining? || p.Gone?
  }

  ghost predicate Calm(h: Hubs) {
    Inv(h) && forall c :: c in h.conns ==> Rests(h.conns[c].pc)
  }

  // The effect of an operation, from the effects of its steps.

  /** A connection's step, seen by itself and the shared state. */
  function Try(hs: Hashes, c: Client, k: Conn, s: Shared, a: Action): (Conn, Shared) {
    if Enabled(k, s, a) then Act(hs, c, k, s, a) else (k, s)
  }

  lemma StepIsTry(hs: Hashes, h: Hubs, h': Hubs, c: Client, k: Conn, s: Shared, a: Action)
    requires Moved(h, h', c, k, s)
    ensures var (k', s') := Try(hs, c, k, s, a); Moved(h, Step(hs, h', Do(c, a)), c, k', s')
  {
    hide Act, Enabled;
    var (k', s') := Try(hs, c, k, s, a);
    assert h.conns[c := k][c := k'] == h.conns[c := k'];
    assert Step(hs, h', Do(c, a)).conns == h.conns[c := k'];
  }

  /** What an operation does to its own connection, to the indexes and to the presence tables. */
  ghost predicate Does(h: Hubs, h': Hubs, c: Client, k: Conn, index: Index<Spot, nat>, tables: Tables) {
    && c in h.conns
    && h'.nodes == h.nodes && h'.sockets == h.sockets
    && h'.conns == h.conns[c := k]
    && h'.shared.index == index && h'.shared.tables == tables && h'.shared.store == h.shared.store
  }

  /** The connection after an accepted subscription. */
  function EnteredConn(k: Conn, req: SubscribeRequest): Conn {
    var k' := k.(mine := k.mine + {req.ch});
    if IsPresence(req.ch) then k'.(user := UserOf(req), usersSeen := k.usersSeen + {UserOf(req)}) else k'
  }

  /** The indexes; `id` is the new broker subscription's number. */
  function EnteredIndex(i: Index<Spot, nat>, c: Client, req: SubscribeRequest, id: nat): Index<Spot, nat> {
    var i' := if IsPresence(req.ch) then AddUser(i, c, UserSpot(c, UserOf(req))) else i;
    JoinedIndex(i', c, ChannelSpot(c, req.ch), id)
  }

  function JoinedIndex(i: Index<Spot, nat>, c: Client, spot: Spot, id: nat): Index<Spot, nat> {
    var j := HubIndex.Join(i, c, spot);
    if IsFirst(i, spot) then j.(subs := j.subs[spot := id]) else j
  }

  /** The presence tables. */
  function EnteredTables(t: Tables, c: Client, req: SubscribeRequest): Tables {
    if IsPresence(req.ch) then MemoryAdd(t, Key(c.app, req.ch), Member(UserOf(req), InfoOf(req), c.socket)) else t
  }

  /** The connection after it has left a channel, and the presence tables. */
  function LeftConn(k: Conn, ch: string): Conn {
    k.(mine := k.mine - {ch}, pc := if k.pc.Draining? && k.pc.rest != [] then Draining(k.pc.rest[1..]) else Idle)
  }

  function LeftTables(t: Tables, c: Client, ch: string): Tables {
    if IsPresence(ch) then MemoryRemove(t, Key(c.app, ch), c.socket).0 else t
  }

  lemma AnnounceEffect(hs: Hashes, c: Client, k: Conn, s: Shared)
    requires Rests(k.pc) || k.pc.Announcing?
    ensures var (k1, s1) := Try(hs, c, k, s, Await(0));
            var (k2, s2) := Try(hs, c, k1, s1, Resume);
            s2 == s && k2 == k.(pc := if k.pc.Announcing? then HubSteps.After(k.pc.next) else k.pc)
  {
    hide Key, Authorized, IsPresence, MemoryAdd, MemoryRemove, SubsAfterLeave;
  }

  /** The checks and the `clientsByUser` section. */
  lemma EntryEffect(hs: Hashes, c: Client, k: Conn, s: Shared, req: SubscribeRequest)
    requires k.pc.Idle? && req.ch != ""
    ensures var (k1, s1) := Try(hs, c, k, s, BeginSubscribe(req));
            var (k2, s2) := Try(hs, c, k1, s1, IndexUser);
            if !Authorized(hs, s, c, req) then k2 == k && s2 == s
            else if IsPresence(req.ch) then
              && k2 == EnteredConn(k, req).(mine := k.mine, pc := Joining(req.ch, UserOf(req), InfoOf(req)))
              && s2 == s.(index := AddUser(s.index, c, UserSpot(c, UserOf(req))))
            else k2 == k.(pc := Joining(req.ch, "", "")) && s2 == s
  {
    hide Key, Authorized, IsPresence, MemoryAdd, MemoryRemove, SubsAfterLeave;
  }

  lemma JoinEffect(hs: Hashes, c: Client, k: Conn, s: Shared)
    requires k.pc.Idle? || k.pc.Joining?
    ensures var (k1, s1) := Try(hs, c, k, s, JoinChannel);
            var (k2, s2) := Try(hs, c, k1, s1, OpenSub);
            var (k3, s3) := Try(hs, c, k2, s2, RecordSub);
            && s3.tables == s.tables && s3.store == s.store
            && if k.pc.Idle? then k3 == k && s3 == s
               else
                 && k3 == k.(pc := Adding(k.pc.ch, k.pc.user, k.pc.info), mine := k.mine + {k.pc.ch})
                 && s3.index == JoinedIndex(s.index, c, ChannelSpot(c, k.pc.ch), |s.subs|)
  {
    hide Key, Authorized, IsPresence, MemoryAdd, MemoryRemove, SubsAfterLeave;
  }

  lemma AddEffect(hs: Hashes, c: Client, k: Conn, s: Shared)
    requires k.pc.Idle? || k.pc.Adding?
    ensures var (k1, s1) := Try(hs, c, k, s, AddPresence);
            if k.pc.Idle? then k1 == k && s1 == s
            else if IsPresence(k.pc.ch) then
              && k1 == k.(pc := Announcing(Added, k.pc.ch, k.pc.user, Back))
              && s1 == s.(tables := MemoryAdd(s.tables, Key(c.app, k.pc.ch), Member(k.pc.user, k.pc.info, c.socket)))
            else k1 == k.(pc := Idle) && s1 == s
  {
    hide Key, Authorized, IsPresence, MemoryAdd, MemoryRemove, SubsAfterLeave;
  }

  lemma SubscribedEffect(hs: Hashes, h: Hubs, c: Client, req: SubscribeRequest)
    requires IsIdle(h, c) && req.ch != ""
    ensures var h' := Subscribed(hs, h, c, req);
            var k, s := h.conns[c], h.shared;
            if Authorized(hs, s, c, req) then
              Does(h, h', c, EnteredConn(k, req), EnteredIndex(s.index, c, req, |s.subs|),
                   EnteredTables(s.tables, c, req))
            else Does(h, h', c, k, s.index, s.tables)
  {
    hide Act, Step, Authorized, Key, IsPresence, MemoryAdd, AddUser, JoinedIndex;
    var k, s := h.conns[c], h.shared;
    assert Moved(h, h, c, k, s) by { assert h.conns[c := k] == h.conns; }
    EntryEffect(hs, c, k, s, req);
    var (k1, s1) := Try(hs, c, k, s, BeginSubscribe(req));
    StepIsTry(hs, h, h, c, k, s, BeginSubscribe(req));
    var h1 := Step(hs, h, Do(c, BeginSubscribe(req)));
    var (k2, s2) := Try(hs, c, k1, s1, IndexUser);
    StepIsTry(hs, h, h1, c, k1, s1, IndexUser);
    var h2 := Step(hs, h1, Do(c, IndexUser));
    JoinEffect(hs, c, k2, s2);
    var (k3, s3) := Try(hs, c, k2, s2, JoinChannel);
    StepIsTry(hs, h, h2, c, k2, s2, JoinChannel);
    var h3 := Step(hs, h2, Do(c, JoinChannel));
    var (k4, s4) := Try(hs, c, k3, s3, OpenSub);
    StepIsTry(hs, h, h3, c, k3, s3, OpenSub);
    var h4 := Step(hs, h3, Do(c, OpenSub));
    var (k5, s5) := Try(hs, c, k4, s4, RecordSub);
    StepIsTry(hs, h, h4, c, k4, s4, RecordSub);
    var h5 := Step(hs, h4, Do(c, RecordSub));
    AddEffect(hs, c, k5, s5);
    var (k6, s6) := Try(hs, c, k5, s5, AddPresence);
    StepIsTry(hs, h, h5, c, k5, s5, AddPresence);
    hide Try, Subscribed, Enabled;
    AnnouncedEffect(hs, h, Step(hs, h5, Do(c, AddPresence)), c, k6, s6);
  }

  lemma AnnouncedEffect(hs: Hashes, h: Hubs, h1: Hubs, c: Client, k: Conn, s: Shared)
    requires Moved(h, h1, c, k, s) && (Rests(k.pc) || k.pc.Announcing?)
    ensures Moved(h, Announced(hs, h1, c), c,
                  k.(pc := if k.pc.Announcing? then HubSteps.After(k.pc.next) else k.pc), s)
  {
    hide Act, Step, Enabled;
    AnnounceEffect(hs, c, k, s);
    var (k1, s1) := Try(hs, c, k, s, Await(0));
    StepIsTry(hs, h, h1, c, k, s, Await(0));
    StepIsTry(hs, h, Step(hs, h1, Do(c, Await(0))), c, k1, s1, Resume);
  }

  /** `a` leaves `ch`, from the read loop or from `Unregister`. */
  predicate Departs(h: Hubs, c: Client, a: Action, ch: string) {
    || (IsIdle(h, c) && ch != "" && a == BeginUnsubscribe(ch))
    || (IsDraining(h, c) && ch == h.conns[c].pc.rest[0] && a == DrainNext)
  }

  lemma LeaveEffect(hs: Hashes, h: Hubs, c: Client, k: Conn, s: Shared, a: Action, ch: string)
    requires Departs(h, c, a, ch) && k == h.conns[c]
    ensures var (k1, s1) := Try(hs, c, k, s, a);
            var (k2, s2) := Try(hs, c, k1, s1, RemovePresence);
            && (Rests(k2.pc) || k2.pc.Announcing?)
            && k2.(pc := if k2.pc.Announcing? then HubSteps.After(k2.pc.next) else k2.pc) == LeftConn(k, ch)
            && s2.index == Leave(s.index, c, ChannelSpot(c, ch))
            && s2.tables == LeftTables(s.tables, c, ch) && s2.store == s.store
  {
    hide Key, Authorized, IsPresence, MemoryAdd, MemoryRemove, SubsAfterLeave, Leave;
  }

  lemma LeftEffect(hs: Hashes, h: Hubs, c: Client, a: Action, ch: string)
    requires Departs(h, c, a, ch)
    ensures var k, s := h.conns[c], h.shared;
            Does(h, Left(hs, h, c, a), c, LeftConn(k, ch), Leave(s.index, c, ChannelSpot(c, ch)),
                 LeftTables(s.tables, c, ch))
  {
    hide Act, Step, Enabled, Key, IsPresence, MemoryRemove, LeftConn, LeftTables, Leave;
    var k, s := h.conns[c], h.shared;
    assert Moved(h, h, c, k, s) by { assert h.conns[c := k] == h.conns; }
    LeaveEffect(hs, h, c, k, s, a, ch);
    var (k1, s1) := Try(hs, c, k, s, a);
    StepIsTry(hs, h, h, c, k, s, a);
    var h1 := Step(hs, h, Do(c, a));
    var (k2, s2) := Try(hs, c, k1, s1, RemovePresence);
    StepIsTry(hs, h, h1, c, k1, s1, RemovePresence);
    AnnouncedEffect(hs, h, Step(hs, h1, Do(c, RemovePresence)), c, k2, s2);
  }

  /**
   * On the way out the goroutine announces exactly the user ID of its socket's presence entry, and nothing if there
   * is none or it is empty.
   */
  lemma LeaveAnnounces(hs: Hashes, h: Hubs, c: Client, a: Action, ch: string)
    requires Departs(h, c, a, ch)
    ensures var h' := Step(hs, Step(hs, h, Do(c, a)), Do(c, RemovePresence));
            var r := RosterAt(h, c.app, ch);
            var next := if a.DrainNext? then Then.Drain(h.conns[c].pc.rest[1..]) else Back;
            && c in h'.conns
            && h'.conns[c].pc ==
               if HasPrefix(ch, "presence-") && c.socket in r && r[c.socket].userID != ""
               then Announcing(Removed, ch, r[c.socket].userID, next)
               else if a.DrainNext? then Draining(h.conns[c].pc.rest[1..]) else Idle
  {
    var k, s := h.conns[c], h.shared;
    assert Moved(h, h, c, k, s) by { assert h.conns[c := k] == h.conns; }
    LeavePhase(hs, h, c, k, s, a, ch);
    hide Act, Step, Enabled, Key, HasPrefix, MemoryRemove, Departs;
    var (k1, s1) := Try(hs, c, k, s, a);
    StepIsTry(hs, h, h, c, k, s, a);
    StepIsTry(hs, h, Step(hs, h, Do(c, a)), c, k1, s1, RemovePresence);
    RemovedUser(s.tables, Key(c.app, ch), c.socket);
  }

  lemma LeavePhase(hs: Hashes, h: Hubs, c: Client, k: Conn, s: Shared, a: Action, ch: string)
    requires Departs(h, c, a, ch) && k == h.conns[c]
    ensures var (k1, s1) := Try(hs, c, k, s, a);
            var (k2, s2) := Try(hs, c, k1, s1, RemovePresence);
            var user := MemoryRemove(s.tables, Key(c.app, ch), c.socket).1;
            var next := if a.DrainNext? then Then.Drain(k.pc.rest[1..]) else Back;
            k2.pc == if HasPrefix(ch, "presence-") && user != "" then Announcing(Removed, ch, user, next)
                     else HubSteps.After(next)
  {
    hide Key, Authorized, HasPrefix, MemoryAdd, MemoryRemove, SubsAfterLeave, Leave;
  }

  lemma RemovedUser(t: Tables, key: string, socket: string)
    ensures var r := MemoryRoster(t, key);
            MemoryRemove(t, key, socket).1 == if socket in r then r[socket].userID else ""
  {}

  lemma SubscribedKeepsInv(hs: Hashes, h: Hubs, c: Client, req: SubscribeRequest)
    requires Inv(h)
    ensures Inv(Subscribed(hs, h, c, req))
  {
    hide Inv, Step;
    var h1 := Step(hs, h, Do(c, BeginSubscribe(req)));
    StepKeepsInv(hs, h, Do(c, BeginSubscribe(req)));
    var h2 := Step(hs, h1, Do(c, IndexUser));
    StepKeepsInv(hs, h1, Do(c, IndexUser));
    var h3 := Step(hs, h2, Do(c, JoinChannel));
    StepKeepsInv(hs, h2, Do(c, JoinChannel));
    var h4 := Step(hs, h3, Do(c, OpenSub));
    StepKeepsInv(hs, h3, Do(c, OpenSub));
    var h5 := Step(hs, h4, Do(c, RecordSub));
    StepKeepsInv(hs, h4, Do(c, RecordSub));
    StepKeepsInv(hs, h5, Do(c, AddPresence));
    AnnouncedKeepsInv(hs, Step(hs, h5, Do(c, AddPresence)), c);
  }

  lemma AnnouncedKeepsInv(hs: Hashes, h: Hubs, c: Client)
    requires Inv(h)
    ensures Inv(Announced(hs, h, c))
  {
    hide Inv, Step;
    StepKeepsInv(hs, h, Do(c, Await(0)));
    StepKeepsInv(hs, Step(hs, h, Do(c, Await(0))), Do(c, Resume));
  }

  lemma LeftKeepsInv(hs: Hashes, h: Hubs, c: Client, a: Action)
    requires Inv(h)
    ensures Inv(Left(hs, h, c, a))
  {
    hide Inv, Step;
    StepKeepsInv(hs, h, Do(c, a));
    StepKeepsInv(hs, Step(hs, h, Do(c, a)), Do(c, RemovePresence));
    AnnouncedKeepsInv(hs, Step(hs, Step(hs, h, Do(c, a)), Do(c, RemovePresence)), c);
  }

  lemma NotEmpty(ch: string)
    ensures IsPresence(ch) ==> ch != ""
  {}

  lemma AppColonFree(h: Hubs, c: Client)
    requires Calm(h) && c in h.conns
    ensures ColonFree(c.app) && c.socket != ""
  {}

  lemma DistinctSockets(h: Hubs, c: Client, d: Client)
    requires Calm(h) && c in h.conns && d in h.conns && c != d
    ensures c.socket != d.socket
  {}

  lemma SubscribedCalm(hs: Hashes, h: Hubs, c: Client, req: SubscribeRequest)
    requires Calm(h) && IsIdle(h, c) && req.ch != ""
    ensures Calm(Subscribed(hs, h, c, req))
  {
    SubscribedEffect(hs, h, c, req);
    SubscribedKeepsInv(hs, h, c, req);
    hide Inv, Subscribed, Authorized, EnteredIndex, EnteredTables, IsPresence;
  }

  lemma LeftCalm(hs: Hashes, h: Hubs, c: Client, a: Action, ch: string)
    requires Calm(h) && Departs(h, c, a, ch)
    ensures Calm(Left(hs, h, c, a))
  {
    LeftEffect(hs, h, c, a, ch);
    LeftKeepsInv(hs, h, c, a);
    hide Inv, Left, Departs, LeftTables, Leave, Key, IsPresence;
  }

  lemma DeliverKeepsHubs()
    ensures forall s, to, n :: Deliver(s, to, n).hubs == s.hubs
  {}

  lemma DeliverHubs(s: Cluster, to: set<Client>, n: Note)
    ensures Deliver(s, to, n).hubs == s.hubs && Deliver(s, to, n).hooks == s.hooks
  {}

  lemma DoSubscribeHubs(hs: Hashes, s: Cluster, c: Client, req: SubscribeRequest)
    ensures DoSubscribe(hs, s, c, req).hubs == Subscribed(hs, s.hubs, c, req)
  {
    DeliverKeepsHubs();
    hide Deliver, Subscribed, Authorized, IsPresence, Users, RosterAt, MemoryOccupancy, Audience;
  }

  lemma DoUnsubscribeHubs(hs: Hashes, s: Cluster, c: Client, ch: string, a: Action)
    ensures DoUnsubscribe(hs, s, c, ch, a).hubs == Left(hs, s.hubs, c, a)
  {
    DeliverKeepsHubs();
    hide Deliver, Left, IsPresence, MemoryRemove, MemoryOccupancy, Audience;
  }

  // Three kinds of calls: subscriptions, unsubscriptions, and those that touch no channel.

  predicate IsJoin(s: Cluster, k: Call) {
    k.Subscribe? && IsIdle(s.hubs, k.c) && k.req.ch != ""
  }

  /** The call takes its connection out of a channel, from the read loop or from `Unregister`. */
  predicate IsLeave(s: Cluster, k: Call) {
    (k.Unsubscribe? && IsIdle(s.hubs, k.c) && k.ch != "") || (k.Drain? && IsDraining(s.hubs, k.c))
  }

  function LeftBy(s: Cluster, k: Call): string
    requires IsLeave(s, k)
  {
    if k.Unsubscribe? then k.ch else s.hubs.conns[k.c].pc.rest[0]
  }

  function LeaveAction(k: Call): Action
    requires k.Unsubscribe? || k.Drain?
  {
    if k.Unsubscribe? then BeginUnsubscribe(k.ch) else DrainNext
  }

  lemma PerformIs(hs: Hashes, s: Cluster, k: Call)
    ensures IsJoin(s, k) ==> Perform(hs, s, k) == DoSubscribe(hs, s, k.c, k.req)
    ensures IsLeave(s, k) ==>
              && Departs(s.hubs, k.c, LeaveAction(k), LeftBy(s, k))
              && Perform(hs, s, k) == DoUnsubscribe(hs, s, k.c, LeftBy(s, k), LeaveAction(k))
  {
    hide DoSubscribe, DoUnsubscribe;
  }

  /** The other calls touch no channel, no presence table and no notification. */
  lemma QuietCall(hs: Hashes, s: Cluster, k: Call)
    requires !IsJoin(s, k) && !IsLeave(s, k)
    ensures var s' := Perform(hs, s, k);
            && s'.hubs.shared.tables == s.hubs.shared.tables && s'.hooks == s.hooks
            && forall d :: Mine(s'.hubs, d) <= Mine(s.hubs, d)
  {
    hide Step, DoConnect, DoSetApp, Deliver, DoSubscribe, DoUnsubscribe;
    match k
    case Arrive(c) =>
      DeliverHubs(s.(hubs := DoConnect(s.hubs, c)), {c}, Unrelated);
      QuietConnect(s.hubs, c);
    case SendUnrelated(c) => DeliverHubs(s, {c}, Unrelated);
    case SetApp(app, credentials) => QuietSetApp(s.hubs, app, credentials);
    case Unregister(c, order) => QuietStep(hs, s.hubs, c, BeginUnregister(order));
    case Drain(c) => if c in s.hubs.conns && s.hubs.conns[c].pc.Draining? { QuietStep(hs, s.hubs, c, DrainNext); }
    case _ =>
  }

  lemma QuietConnect(h: Hubs, c: Client)
    ensures var h' := DoConnect(h, c);
            h'.shared.tables == h.shared.tables && forall d :: Mine(h', d) <= Mine(h, d)
  {
    hide Register;
  }

  lemma QuietSetApp(h: Hubs, app: string, credentials: Option<Credentials>)
    ensures var h' := DoSetApp(h, app, credentials);
            h'.shared.tables == h.shared.tables && forall d :: Mine(h', d) <= Mine(h, d)
  {}

  lemma QuietStep(hs: Hashes, h: Hubs, c: Client, a: Action)
    requires a.BeginUnregister? || (a.DrainNext? && c in h.conns && h.conns[c].pc == Draining([]))
    ensures var h' := Step(hs, h, Do(c, a));
            h'.shared.tables == h.shared.tables && forall d :: Mine(h', d) <= Mine(h, d)
  {
    hide Key, Drop;
  }

  lemma PerformCalm(hs: Hashes, s: Cluster, k: Call)
    requires Calm(s.hubs)
    ensures Calm(Perform(hs, s, k).hubs)
  {
    PerformIs(hs, s, k);
    hide Calm, DoSubscribe, DoUnsubscribe, Perform, Departs, LeaveAction, LeftBy;
    if IsJoin(s, k) {
      SubscribedCalm(hs, s.hubs, k.c, k.req);
      DoSubscribeHubs(hs, s, k.c, k.req);
    } else if IsLeave(s, k) {
      LeftCalm(hs, s.hubs, k.c, LeaveAction(k), LeftBy(s, k));
      DoUnsubscribeHubs(hs, s, k.c, LeftBy(s, k), LeaveAction(k));
    } else {
      QuietCalm(hs, s, k);
    }
  }

  lemma QuietCalm(hs: Hashes, s: Cluster, k: Call)
    requires Calm(s.hubs) && !IsJoin(s, k) && !IsLeave(s, k)
    ensures Calm(Perform(hs, s, k).hubs)
  {
    hide Inv, Deliver, DoSubscribe, DoUnsubscribe;
    DeliverKeepsHubs();
    match k
    case Arrive(c) => if CanConnect(s.hubs, c) { StepKeepsInv(hs, s.hubs, Connect(c)); }
    case Unregister(c, order) => StepKeepsInv(hs, s.hubs, Do(c, BeginUnregister(order)));
    case SetApp(app, credentials) => StepKeepsInv(hs, s.hubs, Move.SetApp(app, credentials));
    case Drain(c) => StepKeepsInv(hs, s.hubs, Do(c, DrainNext));
    case _ =>
  }

  lemma {:induction false} PerformedCalm(hs: Hashes, nodes: set<string>, calls: seq<Call>)
    ensures Calm(Performed(hs, nodes, calls).hubs)
  {
    if calls == [] {
      RunKeepsInv(hs, nodes, []);
    } else {
      PerformedCalm(hs, nodes, calls[..|calls| - 1]);
      PerformCalm(hs, Performed(hs, nodes, calls[..|calls| - 1]), calls[|calls| - 1]);
    }
  }

  lemma OtherKeys(app: string, ch: string, app': string, ch': string)
    requires ColonFree(app) && ColonFree(app')
    ensures Key(app, ch) == Key(app', ch') <==> app == app' && ch == ch'
  {
    if Key(app, ch) == Key(app', ch') {
      KeyInjective(app, ch, app', ch');
    }
  }

  lemma AddedRoster(h: Hubs, c: Client, req: SubscribeRequest, h': Hubs)
    requires h'.shared.tables == EnteredTables(h.shared.tables, c, req)
    ensures RosterAt(h', c.app, req.ch) ==
            var r := RosterAt(h, c.app, req.ch);
            if IsPresence(req.ch) then r[c.socket := Member(UserOf(req), InfoOf(req), c.socket)] else r
    ensures forall key :: key != Key(c.app, req.ch) ==>
              MemoryRoster(h'.shared.tables, key) == MemoryRoster(h.shared.tables, key)
  {
    hide Key, IsPresence, MemoryAdd, MemoryRoster;
    AddedRosters(h.shared.tables, Key(c.app, req.ch), Member(UserOf(req), InfoOf(req), c.socket));
  }

  lemma RemovedRoster(h: Hubs, c: Client, ch: string, h': Hubs)
    requires h'.shared.tables == LeftTables(h.shared.tables, c, ch)
    ensures RosterAt(h', c.app, ch) ==
            if IsPresence(ch) then RosterAt(h, c.app, ch) - {c.socket} else RosterAt(h, c.app, ch)
    ensures forall key :: key != Key(c.app, ch) ==>
              MemoryRoster(h'.shared.tables, key) == MemoryRoster(h.shared.tables, key)
  {
    hide Key, IsPresence, MemoryRemove, MemoryRoster;
    RemovedRosters(h.shared.tables, Key(c.app, ch), c.socket);
  }

  lemma GreetHubs(s: Cluster, c: Client, ch: string, user: string)
    ensures Greet(s, c, ch, user).hubs == s.hubs && Greet(s, c, ch, user).hooks == s.hooks
  {
    hide IsPresence, Users, RosterAt, Audience;
  }

  lemma DismissHubs(s: Cluster, c: Client, ch: string, user: string)
    ensures Dismiss(s, c, ch, user).hubs == s.hubs && Dismiss(s, c, ch, user).hooks == s.hooks
  {
    hide IsPresence, Audience;
  }
}
