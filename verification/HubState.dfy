/** One hub with its connections, as a value: what each operation of the hub makes of it. */
module HubState {
  import opened ChannelKeys
  import opened HubIndex
  import opened Messages
  import opened Options
  import opened Presence
  import opened RequestSigning

  datatype Hook =
    | ChannelOccupied(app: string, ch: string)
    | ChannelVacated(app: string, ch: string)
    | MemberAdded(app: string, ch: string, user: string, socket: string)
    | MemberRemoved(app: string, ch: string, user: string, socket: string)
    | ClientEvent(app: string, ch: string, event: string, data: string, socket: string, user: string)

  /** The mutable fields of a connection; `sendCh` is the content of its Go channel. */
  datatype ConnState = ConnState(channels: set<string>, userID: string, sendCh: seq<PusherMessage>, closed: bool)

  /**
   * `index.subs` has the channels with a recorded broker subscription; `published` is what the hub has
   * published on the broker and `hooks` what it has notified.
   */
  datatype State = State(
    index: Index<string, ()>,
    conns: map<Client, ConnState>,
    tables: Tables,
    hooks: seq<Hook>,
    published: seq<Payload>)

  /** The maps name only these clients. */
  ghost predicate Names(i: Index<string, ()>, cs: set<Client>) {
    && i.clients <= cs
    && (forall id :: id in i.byID ==> i.byID[id] in cs)
    && (forall key :: key in i.byUser ==> i.byUser[key] <= cs)
    && (forall key :: key in i.channels ==> i.channels[key] <= cs)
  }

  lemma RegisterNames(i: Index<string, ()>, cs: set<Client>, c: Client)
    requires Names(i, cs)
    ensures Names(Register(i, c, c.socket), cs + {c})
  {}

  lemma JoinNames(i: Index<string, ()>, cs: set<Client>, c: Client, key: string)
    requires Names(i, cs) && c in cs
    ensures Names(AddUser(i, c, key), cs) && Names(HubIndex.Join(i, c, key), cs)
  {}

  lemma LeaveNames(i: Index<string, ()>, cs: set<Client>, c: Client, key: string)
    requires Names(i, cs)
    ensures Names(i.(channels := Without(i.channels, c, key)), cs)
    ensures Names(i.(byUser := Without(i.byUser, c, key)), cs)
  {
    WithoutShrinks(i.channels, c, key);
    WithoutShrinks(i.byUser, c, key);
    hide Without;
  }

  lemma DropNames(i: Index<string, ()>, cs: set<Client>, c: Client)
    requires Names(i, cs)
    ensures Names(i.(clients := i.clients - {c}, byID := i.byID - {c.socket}), cs)
  {}

  lemma SubsNames(i: Index<string, ()>, cs: set<Client>, subs: map<string, ()>)
    requires Names(i, cs)
    ensures Names(i.(subs := subs), cs)
  {}

  lemma RecipientNames(i: Index<string, ()>, cs: set<Client>, own: string, star: string, exclude: string)
    requires Names(i, cs)
    ensures Recipients(i, own, star, exclude) <= cs
  {}

  function Queued(q: seq<PusherMessage>, m: PusherMessage): seq<PusherMessage> {
    if |q| < SLOTS then q + [m] else q
  }

  function SendAll(s: State, to: set<Client>, m: PusherMessage): State {
    s.(conns := map d | d in s.conns ::
         if d in to then s.conns[d].(sendCh := Queued(s.conns[d].sendCh, m)) else s.conns[d])
  }

  function Refused(s: State, enc: Encoder, c: Client, code: int): State {
    SendAll(s, {c}, PusherMessage("pusher:error", "", enc.error(code)))
  }

  function LocalBroadcast(s: State, app: string, ch: string, event: string, data: string, exclude: string): State {
    SendAll(s, Recipients(s.index, Key(app, ch), Key(app, "*"), exclude), PusherMessage(event, ch, data))
  }

  function ClusterBroadcast(s: State, p: Payload): State {
    var s' := LocalBroadcast(s, p.app, p.channel, p.event, p.data, p.exclude);
    s'.(published := s'.published + [p])
  }

  function Notified(s: State, h: Hook): State {
    s.(hooks := s.hooks + [h])
  }

  function ClientAdded(s: State, c: Client): State {
    s.(index := Register(s.index, c, c.socket), conns := s.conns[c := ConnState({}, "", [], false)])
  }

  function Registered(s: State, enc: Encoder, c: Client): State {
    SendAll(ClientAdded(s, c), {c}, PusherMessage("pusher:connection_established", "", enc.established(c.socket)))
  }

  function ConnOf(s: State, c: Client): ConnState {
    if c in s.conns then s.conns[c] else ConnState({}, "", [], false)
  }

  function UserRecorded(s: State, c: Client, user: string): State {
    s.(conns := s.conns[c := ConnOf(s, c).(userID := user)], index := AddUser(s.index, c, Key(c.app, user)))
  }

  function ChannelJoined(s: State, c: Client, ch: string): State {
    s.(conns := s.conns[c := ConnOf(s, c).(channels := ConnOf(s, c).channels + {ch})],
       index := HubIndex.Join(s.index, c, Key(c.app, ch)))
  }

  function SubRecorded(s: State, key: string): State {
    s.(index := s.index.(subs := s.index.subs[key := ()]))
  }

  /** The locked sections of `Subscribe`; a first subscriber also opens the broker subscription. */
  function Entered(s: State, c: Client, ch: string, user: Option<string>): State {
    var s1 := if user.Some? then UserRecorded(s, c, user.value) else s;
    var s2 := ChannelJoined(s1, c, ch);
    if IsFirst(s1.index, Key(c.app, ch)) then SubRecorded(s2, Key(c.app, ch)) else s2
  }

  function Welcomed(s: State, enc: Encoder, node: string, c: Client, ch: string, user: string, info: string): State {
    var key := Key(c.app, ch);
    var s1 := s.(tables := MemoryAdd(s.tables, key, Member(user, info, c.socket)));
    var users := Users(MemoryRoster(s1.tables, key));
    var s2 := SendAll(s1, {c}, PusherMessage("pusher_internal:subscription_succeeded", ch, enc.roster(users)));
    var s3 := ClusterBroadcast(s2, Payload(node, c.app, ch, "pusher_internal:member_added",
                                           enc.memberAdded(user, info), c.socket));
    Notified(s3, MemberAdded(c.app, ch, user, c.socket))
  }

  function Subscribed(s: State, hs: Hashes, enc: Encoder, node: string, c: Client,
                      app: Option<Credentials>, r: SubscribeRequest): State
  {
    if app.None? then Refused(s, enc, c, 4001)
    else if IsGuarded(r.ch) && r.auth == "" then Refused(s, enc, c, 4009)
    else if IsGuarded(r.ch) &&
            !VerifyChannelAuth(hs, r.auth, app.value.appKey, app.value.secret, c.socket, r.ch, r.channelData) then
      Refused(s, enc, c, 4009)
    else if IsPresence(r.ch) && r.member.None? then Refused(s, enc, c, 4001)
    else Admitted(s, enc, node, c, r)
  }

  function Admitted(s: State, enc: Encoder, node: string, c: Client, r: SubscribeRequest): State
    requires IsPresence(r.ch) ==> r.member.Some?
  {
    var s' :=
      if IsPresence(r.ch) then
        Welcomed(Entered(s, c, r.ch, Some(r.member.value.0)), enc, node, c, r.ch, r.member.value.0, r.member.value.1)
      else
        SendAll(Entered(s, c, r.ch, None), {c}, PusherMessage("pusher_internal:subscription_succeeded", r.ch, "{}"));
    if MemoryOccupancy(s'.tables, Key(c.app, r.ch)) == 1 then Notified(s', ChannelOccupied(c.app, r.ch)) else s'
  }

  function ChannelLeft(s: State, c: Client, ch: string): State {
    s.(conns := s.conns[c := ConnOf(s, c).(channels := ConnOf(s, c).channels - {ch})],
       index := s.index.(channels := Without(s.index.channels, c, Key(c.app, ch))))
  }

  function SubDropped(s: State, key: string): State {
    s.(index := s.index.(subs := s.index.subs - {key}))
  }

  /** The locked section of `Unsubscribe`; the last local member also closes the broker subscription. */
  function Departed(s: State, c: Client, ch: string): State {
    var s' := ChannelLeft(s, c, ch);
    if IsLast(s.index, c, Key(c.app, ch)) then SubDropped(s', Key(c.app, ch)) else s'
  }

  function Dismissed(s: State, enc: Encoder, node: string, c: Client, ch: string): State {
    var (t, user) := MemoryRemove(s.tables, Key(c.app, ch), c.socket);
    if user == "" then s.(tables := t)
    else
      Notified(ClusterBroadcast(s.(tables := t), Payload(node, c.app, ch, "pusher_internal:member_removed",
                                                         enc.memberRemoved(user), c.socket)),
               MemberRemoved(c.app, ch, user, c.socket))
  }

  /** What `Unsubscribe` does after its locked section. */
  function Vacated(s: State, enc: Encoder, node: string, c: Client, ch: string): State {
    var s' := if IsPresence(ch) then Dismissed(s, enc, node, c, ch) else s;
    if MemoryOccupancy(s'.tables, Key(c.app, ch)) == 0 then Notified(s', ChannelVacated(c.app, ch)) else s'
  }

  function Unsubscribed(s: State, enc: Encoder, node: string, c: Client, ch: string): State {
    Vacated(Departed(s, c, ch), enc, node, c, ch)
  }

  /** The channels of `order`, last one last. */
  function UnsubscribedAll(s: State, enc: Encoder, node: string, c: Client, order: seq<string>): State
  {
    if order == [] then s
    else
      var before := UnsubscribedAll(s, enc, node, c, order[..|order| - 1]);
      Unsubscribed(before, enc, node, c, order[|order| - 1])
  }

  /** The locked section of `Unregister`. */
  function ClientDropped(s: State, c: Client): State {
    var user := ConnOf(s, c).userID;
    s.(index := Drop(s.index, c, c.socket, user != "", Key(c.app, user)))
  }

  function Unregistered(s: State, enc: Encoder, node: string, c: Client, order: seq<string>): State {
    if c !in s.index.clients then s else UnsubscribedAll(ClientDropped(s, c), enc, node, c, order)
  }

  /** `HandleClientEvent`. */
  function Forwarded(s: State, enc: Encoder, node: string, c: Client, ch: string, event: string, data: string): State
  {
    if !HasPrefix(ch, "private-") && !HasPrefix(ch, "presence-") then Refused(s, enc, c, 4009)
    else if ch !in ConnOf(s, c).channels then Refused(s, enc, c, 4009)
    else
      Notified(ClusterBroadcast(s, Payload(node, c.app, ch, event, data, c.socket)),
               ClientEvent(c.app, ch, event, data, c.socket, ConnOf(s, c).userID))
  }

  function Terminated(s: State, enc: Encoder, to: set<Client>): State {
    var m := PusherMessage("pusher:error", "", enc.error(4004));
    s.(conns := map d | d in s.conns ::
         if d in to then s.conns[d].(sendCh := Queued(s.conns[d].sendCh, m), closed := true) else s.conns[d])
  }

  // What an operation publishes.

  /** What the hub has published between two states. */
  function News(s: State, s': State): seq<Payload> {
    if |s.published| <= |s'.published| then s'.published[|s.published|..] else []
  }

  lemma NoNews(s: State)
    ensures News(s, s) == []
  {}

  lemma NewsSum(s0: State, s1: State, s2: State)
    requires s0.published <= s1.published <= s2.published
    ensures s0.published <= s2.published && News(s0, s2) == News(s0, s1) + News(s1, s2)
  {}

  lemma SentNews(s: State, to: set<Client>, m: PusherMessage)
    ensures SendAll(s, to, m).published == s.published
  {}

  lemma RefusedNews(s: State, enc: Encoder, c: Client, code: int)
    ensures News(s, Refused(s, enc, c, code)) == []
  {
    SentNews(s, {c}, PusherMessage("pusher:error", "", enc.error(code)));
    hide SendAll;
  }

  lemma BroadcastNews(s: State, p: Payload)
    ensures ClusterBroadcast(s, p).published == s.published + [p]
  {}

  lemma ForwardedNews(s: State, enc: Encoder, node: string, c: Client, ch: string, event: string, data: string)
    ensures var s' := Forwarded(s, enc, node, c, ch, event, data);
            News(s, s') == if (HasPrefix(ch, "private-") || HasPrefix(ch, "presence-")) && ch in ConnOf(s, c).channels
                           then [Payload(node, c.app, ch, event, data, c.socket)] else []
  {
    BroadcastNews(s, Payload(node, c.app, ch, event, data, c.socket));
    hide ClusterBroadcast, HasPrefix;
  }

  lemma WelcomedNews(s: State, enc: Encoder, node: string, c: Client, ch: string, user: string, info: string)
    ensures s.published <= Welcomed(s, enc, node, c, ch, user, info).published
    ensures News(s, Welcomed(s, enc, node, c, ch, user, info)) ==
            [Payload(node, c.app, ch, "pusher_internal:member_added", enc.memberAdded(user, info), c.socket)]
  {
    hide Key, ClusterBroadcast, MemoryAdd, Users, MemoryRoster;
    var key := Key(c.app, ch);
    var s1 := s.(tables := MemoryAdd(s.tables, key, Member(user, info, c.socket)));
    var m := PusherMessage("pusher_internal:subscription_succeeded", ch,
                           enc.roster(Users(MemoryRoster(s1.tables, key))));
    BroadcastNews(SendAll(s1, {c}, m),
                  Payload(node, c.app, ch, "pusher_internal:member_added", enc.memberAdded(user, info), c.socket));
  }

  lemma EnteredNews(s: State, c: Client, ch: string, user: Option<string>)
    ensures Entered(s, c, ch, user).published == s.published
  {}

  lemma DismissedNews(s: State, enc: Encoder, node: string, c: Client, ch: string)
    ensures var user := MemoryRemove(s.tables, Key(c.app, ch), c.socket).1;
            var p := Payload(node, c.app, ch, "pusher_internal:member_removed", enc.memberRemoved(user), c.socket);
            && s.published <= Dismissed(s, enc, node, c, ch).published
            && News(s, Dismissed(s, enc, node, c, ch)) == if user == "" then [] else [p]
  {
    hide Key, ClusterBroadcast, MemoryRemove;
    var (t, user) := MemoryRemove(s.tables, Key(c.app, ch), c.socket);
    BroadcastNews(s.(tables := t),
                  Payload(node, c.app, ch, "pusher_internal:member_removed", enc.memberRemoved(user), c.socket));
  }

  lemma DepartedNews(s: State, c: Client, ch: string)
    ensures Departed(s, c, ch).published == s.published
  {}

  lemma VacatedNews(s: State, enc: Encoder, node: string, c: Client, ch: string)
    ensures s.published <= Vacated(s, enc, node, c, ch).published
  {
    DismissedNews(s, enc, node, c, ch);
    hide Key, IsPresence, Dismissed, MemoryOccupancy;
  }
}
