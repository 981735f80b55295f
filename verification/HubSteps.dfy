/**
 * The hubs of a cluster as an interleaved step system. Each connection is one sequential goroutine with a
 * program counter; a step is one section under `h.mu` or one broker call. Every other connection may move
 * between any two steps.
 */
module HubSteps {
  import opened ChannelKeys
  import opened HubIndex
  import opened Messages
  import opened Options
  import opened Presence
  import opened RequestSigning

  /** Where the goroutine goes after an unsubscribe: back to its read loop, or on with `Unregister`. */
  datatype Then = Back | Drain(rest: seq<string>)

  datatype Change = Added | Removed

  datatype PC =
    | Idle                                                              // reading the next frame
    | Indexing(ch: string, user: string, info: string)                  // before the `clientsByUser` section
    | Joining(ch: string, user: string, info: string)                   // before the `channels` section
    | Opening(ch: string, user: string, info: string)                   // before `pubsub.Subscribe`
    | Recording(ch: string, user: string, info: string, sub: nat)       // before the `channelSubs` section
    | Adding(ch: string, user: string, info: string)                    // before `AddPresenceMember`
    | Removing(ch: string, next: Then)                                  // before `RemovePresenceMember`
    | Announcing(change: Change, ch: string, user: string, next: Then)  // before the member broadcast
    | Waiting(call: nat, next: Then)                                    // inside a broadcast
    | Draining(rest: seq<string>)                                       // in the loop of `Unregister`
    | Gone

  /** A key of one hub's maps. The maps of all hubs form one index whose keys carry the hub. */
  datatype Spot = Spot(node: string, key: string)

  /** A broker subscription; `opener` is the client that opened it. */
  datatype SubRecord = SubRecord(spot: Spot, open: bool, started: bool, opener: Client)

  /**
   * A connection's own state: its program counter, its `channels` and its `userID`. `usersSeen` records history:
   * the user IDs it was indexed under.
   */
  datatype Conn = Conn(pc: PC, mine: set<string>, user: string, usersSeen: set<string>)

  /**
   * What the connections share: the hubs' maps, the broker's subscriptions and its presence tables, and the
   * store's applications.
   */
  datatype Shared = Shared(
    index: Index<Spot, nat>, subs: seq<SubRecord>, tables: Tables, store: map<string, Credentials>)

  datatype Hubs = Hubs(nodes: set<string>, sockets: map<string, Client>, conns: map<Client, Conn>, shared: Shared)

  datatype Action =
    | BeginSubscribe(r: SubscribeRequest)
    | IndexUser
    | JoinChannel
    | OpenSub
    | RecordSub
    | AddPresence
    | BeginUnsubscribe(ch: string)
    | RemovePresence
    | BeginUnregister(order: seq<string>)
    | DrainNext
    | Await(call: nat)
    | Resume

  /** The spot of a channel on the client's hub. */
  function ChannelSpot(c: Client, ch: string): Spot {
    Spot(c.node, Key(c.app, ch))
  }

  function UserSpot(c: Client, user: string): Spot {
    Spot(c.node, Key(c.app, user))
  }

  function SocketSpot(c: Client): Spot {
    Spot(c.node, c.socket)
  }

  function After(next: Then): PC {
    if next.Back? then Idle else Draining(next.rest)
  }

  // The actions. Each is one section under `h.mu` or one broker call of `c`'s goroutine.

  /** The checks of `Subscribe`, under the key and secret that the store now has for the client's application. */
  predicate Authorized(hs: Hashes, s: Shared, c: Client, r: SubscribeRequest) {
    && c.app in s.store
    && (IsGuarded(r.ch) ==>
          && r.auth != ""
          && VerifyChannelAuth(hs, r.auth, s.store[c.app].appKey, s.store[c.app].secret, c.socket, r.ch, r.channelData))
    && (IsPresence(r.ch) ==> r.member.Some?)
  }

  /** What comes before the first locked section of `Subscribe`. A failed check sends an error and changes nothing. */
  function DoBeginSubscribe(hs: Hashes, c: Client, k: Conn, s: Shared, r: SubscribeRequest): Conn {
    if !Authorized(hs, s, c, r) then k
    else if IsPresence(r.ch) then k.(pc := Indexing(r.ch, UserOf(r), InfoOf(r)), user := UserOf(r))
    else k.(pc := Joining(r.ch, "", ""))
  }

  function DoIndexUser(c: Client, k: Conn, s: Shared): (Conn, Shared)
    requires k.pc.Indexing?
  {
    var p := k.pc;
    (k.(pc := Joining(p.ch, p.user, p.info), usersSeen := k.usersSeen + {p.user}),
     s.(index := AddUser(s.index, c, UserSpot(c, p.user))))
  }

  function DoJoin(c: Client, k: Conn, s: Shared): (Conn, Shared)
    requires k.pc.Joining?
  {
    var p := k.pc;
    var spot := ChannelSpot(c, p.ch);
    (k.(pc := if IsFirst(s.index, spot) then Opening(p.ch, p.user, p.info) else Adding(p.ch, p.user, p.info),
        mine := k.mine + {p.ch}),
     s.(index := Join(s.index, c, spot)))
  }

  /** The first local subscriber opens the channel's broker subscription. */
  function DoOpen(c: Client, k: Conn, s: Shared): (Conn, Shared)
    requires k.pc.Opening?
  {
    var p := k.pc;
    (k.(pc := Recording(p.ch, p.user, p.info, |s.subs|)),
     s.(subs := s.subs + [SubRecord(ChannelSpot(c, p.ch), true, false, c)]))
  }

  /** The `channelSubs` write, after which the subscription's reader goroutine starts. */
  function DoRecord(c: Client, k: Conn, s: Shared): (Conn, Shared)
    requires k.pc.Recording? && k.pc.sub < |s.subs|
  {
    var p := k.pc;
    (k.(pc := Adding(p.ch, p.user, p.info)),
     s.(index := s.index.(subs := s.index.subs[ChannelSpot(c, p.ch) := p.sub]),
        subs := s.subs[p.sub := s.subs[p.sub].(started := true)]))
  }

  function DoAddPresence(c: Client, k: Conn, s: Shared): (Conn, Shared)
    requires k.pc.Adding?
  {
    var p := k.pc;
    if IsPresence(p.ch) then
      (k.(pc := Announcing(Added, p.ch, p.user, Back)),
       s.(tables := MemoryAdd(s.tables, Key(c.app, p.ch), Member(p.user, p.info, c.socket))))
    else (k.(pc := Idle), s)
  }

  /** The broker subscriptions after `c` leaves: the last local member closes the channel's one. */
  function SubsAfterLeave(s: Shared, c: Client, spot: Spot): seq<SubRecord> {
    if IsLast(s.index, c, spot) && spot in s.index.subs && s.index.subs[spot] < |s.subs| then
      s.subs[s.index.subs[spot] := s.subs[s.index.subs[spot]].(open := false)]
    else s.subs
  }

  /** The locked section of `Unsubscribe`. */
  function DoLeave(c: Client, k: Conn, s: Shared, ch: string, next: Then): (Conn, Shared) {
    var spot := ChannelSpot(c, ch);
    (k.(pc := if IsPresence(ch) then Removing(ch, next) else After(next), mine := k.mine - {ch}),
     s.(index := Leave(s.index, c, spot), subs := SubsAfterLeave(s, c, spot)))
  }

  function DoRemovePresence(c: Client, k: Conn, s: Shared): (Conn, Shared)
    requires k.pc.Removing?
  {
    var p := k.pc;
    var (t, id) := MemoryRemove(s.tables, Key(c.app, p.ch), c.socket);
    (k.(pc := if id == "" then After(p.next) else Announcing(Removed, p.ch, id, p.next)), s.(tables := t))
  }

  /** The locked section of `Unregister`. */
  function DoBeginUnregister(c: Client, k: Conn, s: Shared, order: seq<string>): (Conn, Shared) {
    (k.(pc := Draining(order)),
     s.(index := Drop(s.index, c, SocketSpot(c), k.user != "", UserSpot(c, k.user))))
  }

  function DoDrainNext(c: Client, k: Conn, s: Shared): (Conn, Shared)
    requires k.pc.Draining?
  {
    if k.pc.rest == [] then (k.(pc := Gone), s) else DoLeave(c, k, s, k.pc.rest[0], Drain(k.pc.rest[1..]))
  }

  /** The goroutine is at the point where the action comes next. */
  predicate Enabled(k: Conn, s: Shared, a: Action) {
    match a
    case BeginSubscribe(r) => k.pc.Idle? && r.ch != ""
    case IndexUser => k.pc.Indexing?
    case JoinChannel => k.pc.Joining?
    case OpenSub => k.pc.Opening?
    case RecordSub => k.pc.Recording? && k.pc.sub < |s.subs|
    case AddPresence => k.pc.Adding?
    case BeginUnsubscribe(ch) => k.pc.Idle? && ch != ""
    case RemovePresence => k.pc.Removing?
    case BeginUnregister(order) => k.pc.Idle? && (set ch | ch in order) == k.mine
    case DrainNext => k.pc.Draining?
    case Await(_) => k.pc.Idle? || k.pc.Announcing?
    case Resume => k.pc.Waiting?
  }

  function Act(hs: Hashes, c: Client, k: Conn, s: Shared, a: Action): (Conn, Shared)
    requires Enabled(k, s, a)
  {
    match a
    case BeginSubscribe(r) => (DoBeginSubscribe(hs, c, k, s, r), s)
    case IndexUser => DoIndexUser(c, k, s)
    case JoinChannel => DoJoin(c, k, s)
    case OpenSub => DoOpen(c, k, s)
    case RecordSub => DoRecord(c, k, s)
    case AddPresence => DoAddPresence(c, k, s)
    case BeginUnsubscribe(ch) => DoLeave(c, k, s, ch, Back)
    case RemovePresence => DoRemovePresence(c, k, s)
    case BeginUnregister(order) => DoBeginUnregister(c, k, s, order)
    case DrainNext => DoDrainNext(c, k, s)
    case Await(call) => (k.(pc := Waiting(call, if k.pc.Announcing? then k.pc.next else Back)), s)
    case Resume => (k.(pc := After(k.pc.next)), s)
  }

  // Steps and runs of the cluster.

  /** `SetApp` creates, changes or deletes an application in the store. */
  datatype Move =
    | Connect(c: Client)
    | Do(c: Client, action: Action)
    | SetApp(app: string, credentials: Option<Credentials>)

  predicate CanConnect(h: Hubs, c: Client) {
    c.node in h.nodes && c !in h.conns && c.socket !in h.sockets && c.socket != "" && ColonFree(c.app)
  }

  /** `Register`, on a connection with a fresh socket ID. */
  function DoConnect(h: Hubs, c: Client): Hubs {
    h.(sockets := h.sockets[c.socket := c],
       conns := h.conns[c := Conn(Idle, {}, "", {})],
       shared := h.shared.(index := Register(h.shared.index, c, SocketSpot(c))))
  }

  function DoAct(hs: Hashes, h: Hubs, c: Client, a: Action): Hubs
    requires c in h.conns && Enabled(h.conns[c], h.shared, a)
  {
    var (k, s) := Act(hs, c, h.conns[c], h.shared, a);
    h.(conns := h.conns[c := k], shared := s)
  }

  function DoSetApp(h: Hubs, app: string, credentials: Option<Credentials>): Hubs {
    var store := h.shared.store;
    h.(shared := h.shared.(store := if credentials.None? then store - {app} else store[app := credentials.value]))
  }

  /** The state after a move; a move that is not possible changes nothing. */
  function Step(hs: Hashes, h: Hubs, m: Move): Hubs {
    match m
    case Connect(c) => if CanConnect(h, c) then DoConnect(h, c) else h
    case Do(c, a) => if c in h.conns && Enabled(h.conns[c], h.shared, a) then DoAct(hs, h, c, a) else h
    case SetApp(app, credentials) => DoSetApp(h, app, credentials)
  }

  /** A cluster of hubs with nobody connected. */
  function Start(nodes: set<string>): Hubs {
    Hubs(nodes, map[], map[], Shared(Empty(), [], Tables(map[], map[]), map[]))
  }
}
