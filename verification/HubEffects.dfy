/**
 * What a hub's operations put into its connections' channels, record in the broker's tables and notify, connection
 * by connection.
 */
module HubEffects {
  import opened ChannelKeys
  import opened HubIndex
  import opened HubState
  import opened Messages
  import opened Options
  import opened Presence
  import opened RequestSigning

  /** The connection with the message at the end of its channel if it gets it and there is room. */
  function Told(k: ConnState, gets: bool, m: PusherMessage): (k': ConnState)
    ensures k'.channels == k.channels && k'.userID == k.userID && k'.closed == k.closed
    ensures k'.sendCh == k.sendCh + if gets && |k.sendCh| < 256 then [m] else []
  {
    if gets && |k.sendCh| < 256 then k.(sendCh := k.sendCh + [m]) else k
  }

  lemma SendAllTo(s: State, to: set<Client>, m: PusherMessage, d: Client)
    requires d in s.conns
    ensures d in SendAll(s, to, m).conns && SendAll(s, to, m).conns[d] == Told(s.conns[d], d in to, m)
    ensures SendAll(s, to, m).(conns := s.conns) == s
  {}

  /** In one of the hub's two sets for the channel, and not the sender. */
  predicate Listening(i: Index<string, ()>, app: string, ch: string, sender: string, d: Client) {
    && d in Lookup(i.channels, Key(app, ch)) + Lookup(i.channels, Key(app, "*"))
    && !(sender != "" && d.socket == sender)
  }

  lemma BroadcastTo(s: State, p: Payload, d: Client)
    requires d in s.conns
    ensures var s' := ClusterBroadcast(s, p);
            && d in s'.conns
            && s'.conns[d] == Told(s.conns[d], Listening(s.index, p.app, p.channel, p.exclude, d),
                                   PusherMessage(p.event, p.channel, p.data))
            && s'.(conns := s.conns) == s.(published := s.published + [p])
  {
    var to := Recipients(s.index, Key(p.app, p.channel), Key(p.app, "*"), p.exclude);
    SendAllTo(s, to, PusherMessage(p.event, p.channel, p.data), d);
    hide Key, SendAll, Told;
  }

  // Client events.

  predicate MayForward(s: State, c: Client, ch: string) {
    (HasPrefix(ch, "private-") || HasPrefix(ch, "presence-")) && ch in ConnOf(s, c).channels
  }

  /**
   * A member of a private or presence channel reaches the channel's other members and the `"*"` subscribers of its
   * hub; any other client gets an error and nobody else anything.
   */
  lemma ForwardedTo(s: State, enc: Encoder, node: string, c: Client, ch: string, event: string, data: string, d: Client)
    requires d in s.conns
    ensures var s' := Forwarded(s, enc, node, c, ch, event, data);
            && d in s'.conns
            && s'.conns[d] ==
               if MayForward(s, c, ch)
               then Told(s.conns[d], Listening(s.index, c.app, ch, c.socket, d), PusherMessage(event, ch, data))
               else Told(s.conns[d], d == c, PusherMessage("pusher:error", "", enc.error(4009)))
  {
    BroadcastTo(s, Payload(node, c.app, ch, event, data, c.socket), d);
    SendAllTo(s, {c}, PusherMessage("pusher:error", "", enc.error(4009)), d);
    hide Key, HasPrefix, Told, Listening, SendAll, ClusterBroadcast;
  }

  lemma ForwardedRest(s: State, enc: Encoder, node: string, c: Client, ch: string, event: string, data: string)
    ensures Forwarded(s, enc, node, c, ch, event, data).(conns := s.conns) ==
            if MayForward(s, c, ch)
            then s.(hooks := s.hooks + [ClientEvent(c.app, ch, event, data, c.socket, ConnOf(s, c).userID)],
                    published := s.published + [Payload(node, c.app, ch, event, data, c.socket)])
            else s
  {
    hide Key, HasPrefix, Recipients;
  }

  // Terminations.

  lemma TerminatedTo(s: State, enc: Encoder, to: set<Client>, d: Client)
    requires d in s.conns
    ensures var m := PusherMessage("pusher:error", "", enc.error(4004));
            var s', k := Terminated(s, enc, to), Told(s.conns[d], d in to, m);
            && s'.(conns := s.conns) == s
            && d in s'.conns && s'.conns[d] == if d in to then k.(closed := true) else s.conns[d]
  {}

  // Connections, subscriptions and departures.

  lemma RegisteredTo(s: State, enc: Encoder, c: Client, d: Client)
    requires d in s.conns || d == c
    ensures var s' := Registered(s, enc, c);
            var greeting := PusherMessage("pusher:connection_established", "", enc.established(c.socket));
            && d in s'.conns
            && s'.conns[d] == if d == c then ConnState({}, "", [greeting], false) else s.conns[d]
  {
    SendAllTo(ClientAdded(s, c), {c}, PusherMessage("pusher:connection_established", "", enc.established(c.socket)), d);
    hide SendAll;
  }

  /** The outcome of `Subscribe`: one of three errors to the client and nothing else, or admission. */
  lemma SubscribedIs(s: State, hs: Hashes, enc: Encoder, node: string, c: Client, app: Option<Credentials>,
                     r: SubscribeRequest)
    ensures var s' := Subscribed(s, hs, enc, node, c, app, r);
            var data := if r.channelData != "" then ":" + r.channelData else "";
            var guarded := HasPrefix(r.ch, "private-") || HasPrefix(r.ch, "presence-");
            if app.None? then
              s' == SendAll(s, {c}, PusherMessage("pusher:error", "", enc.error(4001)))
            else if guarded && r.auth != app.value.appKey + ":" +
                                         Hex(hs.hmac(app.value.secret, c.socket + ":" + r.ch + data)) then
              s' == SendAll(s, {c}, PusherMessage("pusher:error", "", enc.error(4009)))
            else if HasPrefix(r.ch, "presence-") && r.member.None? then
              s' == SendAll(s, {c}, PusherMessage("pusher:error", "", enc.error(4001)))
            else s' == Admitted(s, enc, node, c, r)
  {
    hide Hex, SendAll, Admitted;
    assert "private-encrypted-"[..8] == "private-";
  }

  /** Whoever joins a presence channel gets its roster, and the others are told of it. */
  lemma WelcomedTo(s: State, enc: Encoder, node: string, c: Client, ch: string, user: string, info: string, d: Client)
    requires d in s.conns && c.socket != ""
    ensures var s' := Welcomed(s, enc, node, c, ch, user, info);
            var users := Users(MemoryRoster(s'.tables, Key(c.app, ch)));
            var welcome := PusherMessage("pusher_internal:subscription_succeeded", ch, enc.roster(users));
            && d in s'.conns
            && s'.conns[d] ==
               if d == c then Told(s.conns[d], true, welcome)
               else Told(s.conns[d], Listening(s.index, c.app, ch, c.socket, d),
                         PusherMessage("pusher_internal:member_added", ch, enc.memberAdded(user, info)))
  {
    var key := Key(c.app, ch);
    var s1 := s.(tables := MemoryAdd(s.tables, key, Member(user, info, c.socket)));
    var m := PusherMessage("pusher_internal:subscription_succeeded", ch,
                           enc.roster(Users(MemoryRoster(s1.tables, key))));
    SendAllTo(s1, {c}, m, d);
    BroadcastTo(SendAll(s1, {c}, m),
                Payload(node, c.app, ch, "pusher_internal:member_added", enc.memberAdded(user, info), c.socket), d);
    WelcomedRest(s, enc, node, c, ch, user, info);
    hide Key, SendAll, Told, ClusterBroadcast, MemoryAdd, MemoryRoster, Users;
  }

  lemma WelcomedRest(s: State, enc: Encoder, node: string, c: Client, ch: string, user: string, info: string)
    ensures var data := enc.memberAdded(user, info);
            Welcomed(s, enc, node, c, ch, user, info).(conns := s.conns) ==
            s.(tables := MemoryAdd(s.tables, Key(c.app, ch), Member(user, info, c.socket)),
               hooks := s.hooks + [MemberAdded(c.app, ch, user, c.socket)],
               published := s.published +
                            [Payload(node, c.app, ch, "pusher_internal:member_added", data, c.socket)])
  {
    hide Key, MemoryAdd, MemoryRoster, Users, Recipients;
  }

  lemma EnteredTo(s: State, c: Client, ch: string, user: Option<string>, d: Client)
    requires c in s.conns && d in s.conns
    ensures var s', k := Entered(s, c, ch, user), s.conns[d];
            && d in s'.conns && s'.tables == s.tables && s'.hooks == s.hooks && s'.published == s.published
            && s'.conns[d] ==
               if d != c then k
               else if user.Some? then k.(channels := k.channels + {ch}, userID := user.value)
               else k.(channels := k.channels + {ch})
    ensures d != c ==>
      forall app, at, sender :: Listening(Entered(s, c, ch, user).index, app, at, sender, d) ==
                                Listening(s.index, app, at, sender, d)
  {
    hide Key;
  }

  /** What the newcomer and the others get when a client is admitted. */
  lemma AdmittedTo(s: State, enc: Encoder, node: string, c: Client, r: SubscribeRequest, d: Client)
    requires c in s.conns && d in s.conns && c.socket != "" && (IsPresence(r.ch) ==> r.member.Some?)
    ensures var s', k := Admitted(s, enc, node, c, r), s.conns[d];
            var users := Users(MemoryRoster(s'.tables, Key(c.app, r.ch)));
            && d in s'.conns
            && s'.conns[d] ==
               if HasPrefix(r.ch, "presence-") then
                 var (user, info) := r.member.value;
                 if d == c then
                   Told(k.(channels := k.channels + {r.ch}, userID := user), true,
                        PusherMessage("pusher_internal:subscription_succeeded", r.ch, enc.roster(users)))
                 else
                   Told(k, Listening(s.index, c.app, r.ch, c.socket, d),
                        PusherMessage("pusher_internal:member_added", r.ch, enc.memberAdded(user, info)))
               else if d == c then
                 Told(k.(channels := k.channels + {r.ch}), true,
                      PusherMessage("pusher_internal:subscription_succeeded", r.ch, "{}"))
               else k
  {
    hide Key, HasPrefix, Entered, Welcomed, Listening, Told, SendAll, MemoryOccupancy, Users, MemoryRoster;
    if IsPresence(r.ch) {
      var (user, info) := r.member.value;
      EnteredTo(s, c, r.ch, Some(user), d);
      WelcomedTo(Entered(s, c, r.ch, Some(user)), enc, node, c, r.ch, user, info, d);
    } else {
      EnteredTo(s, c, r.ch, None, d);
      SendAllTo(Entered(s, c, r.ch, None), {c},
                PusherMessage("pusher_internal:subscription_succeeded", r.ch, "{}"), d);
    }
  }

  /** A presence channel has the new entry; the hub notifies the new member and the first entry. */
  lemma AdmittedRest(s: State, enc: Encoder, node: string, c: Client, r: SubscribeRequest)
    requires c in s.conns && (IsPresence(r.ch) ==> r.member.Some?)
    ensures var s', key := Admitted(s, enc, node, c, r), Key(c.app, r.ch);
            var before, after := MemoryRoster(s.tables, key), MemoryRoster(s'.tables, key);
            var joined := if HasPrefix(r.ch, "presence-")
                          then [MemberAdded(c.app, r.ch, r.member.value.0, c.socket)] else [];
            && after == (if HasPrefix(r.ch, "presence-")
                         then before[c.socket := Member(r.member.value.0, r.member.value.1, c.socket)] else before)
            && s'.hooks == s.hooks + joined +
                           if MemoryOccupancy(s'.tables, key) == 1 then [ChannelOccupied(c.app, r.ch)] else []
  {
    hide Key, HasPrefix, Entered, Welcomed, SendAll, MemoryOccupancy, Users;
    if IsPresence(r.ch) {
      var (user, info) := r.member.value;
      EnteredTo(s, c, r.ch, Some(user), c);
      WelcomedRest(Entered(s, c, r.ch, Some(user)), enc, node, c, r.ch, user, info);
    } else {
      EnteredTo(s, c, r.ch, None, c);
      SendAllTo(Entered(s, c, r.ch, None), {c},
                PusherMessage("pusher_internal:subscription_succeeded", r.ch, "{}"), c);
    }
  }

  lemma DepartedTo(s: State, c: Client, ch: string, d: Client)
    requires c in s.conns && d in s.conns
    ensures var s', k := Departed(s, c, ch), s.conns[d];
            && d in s'.conns && s'.tables == s.tables && s'.hooks == s.hooks && s'.published == s.published
            && s'.conns[d] == if d == c then k.(channels := k.channels - {ch}) else k
    ensures d != c ==>
      forall app, at, sender :: Listening(Departed(s, c, ch).index, app, at, sender, d) ==
                                Listening(s.index, app, at, sender, d)
  {
    hide Key;
  }

  /** The user ID of the socket's entry; nobody hears of the entry's removal if it is empty. */
  function UserAt(s: State, c: Client, ch: string): string {
    var r := MemoryRoster(s.tables, Key(c.app, ch));
    if HasPrefix(ch, "presence-") && c.socket in r then r[c.socket].userID else ""
  }

  /** Whoever leaves a presence channel with a user ID is announced to the others. */
  lemma UnsubscribedTo(s: State, enc: Encoder, node: string, c: Client, ch: string, d: Client)
    requires c in s.conns && d in s.conns && c.socket != ""
    ensures var s', k := Unsubscribed(s, enc, node, c, ch), s.conns[d];
            && d in s'.conns
            && s'.conns[d] ==
               if d == c then k.(channels := k.channels - {ch})
               else Told(k, UserAt(s, c, ch) != "" && Listening(s.index, c.app, ch, c.socket, d),
                         PusherMessage("pusher_internal:member_removed", ch, enc.memberRemoved(UserAt(s, c, ch))))
  {
    hide Key, HasPrefix, Departed, Listening, MemoryOccupancy, ClusterBroadcast;
    var s1 := Departed(s, c, ch);
    DepartedTo(s, c, ch, d);
    var (t, user) := MemoryRemove(s1.tables, Key(c.app, ch), c.socket);
    BroadcastTo(s1.(tables := t),
                Payload(node, c.app, ch, "pusher_internal:member_removed", enc.memberRemoved(user), c.socket), d);
    NotToSelf(s.index, c, ch);
    NotToSelf(s1.index, c, ch);
  }

  lemma NotToSelf(i: Index<string, ()>, c: Client, ch: string)
    requires c.socket != ""
    ensures !Listening(i, c.app, ch, c.socket, c)
  {}

  lemma RemoveIs(t: Tables, key: string, socket: string)
    ensures var (t', user), r := MemoryRemove(t, key, socket), MemoryRoster(t, key);
            && MemoryRoster(t', key) == r - {socket}
            && user == if socket in r then r[socket].userID else ""
  {}

  /** The entry goes; the hub notifies the member that had a user ID, and an empty channel. */
  lemma UnsubscribedRest(s: State, enc: Encoder, node: string, c: Client, ch: string)
    requires c in s.conns
    ensures var s', key := Unsubscribed(s, enc, node, c, ch), Key(c.app, ch);
            var before, after, user := MemoryRoster(s.tables, key), MemoryRoster(s'.tables, key), UserAt(s, c, ch);
            && after == (if HasPrefix(ch, "presence-") then before - {c.socket} else before)
            && s'.hooks == s.hooks + (if user != "" then [MemberRemoved(c.app, ch, user, c.socket)] else [])
                           + (if MemoryOccupancy(s'.tables, key) == 0 then [ChannelVacated(c.app, ch)] else [])
            && s'.published == s.published +
                 (if user == "" then []
                  else [Payload(node, c.app, ch, "pusher_internal:member_removed", enc.memberRemoved(user), c.socket)])
  {
    hide Key, HasPrefix, Departed, MemoryOccupancy, ClusterBroadcast, MemoryRemove, MemoryRoster;
    DepartedTo(s, c, ch, c);
    RemoveIs(s.tables, Key(c.app, ch), c.socket);
    var (t, user) := MemoryRemove(s.tables, Key(c.app, ch), c.socket);
    BroadcastTo(Departed(s, c, ch).(tables := t),
                Payload(node, c.app, ch, "pusher_internal:member_removed", enc.memberRemoved(user), c.socket), c);
  }
}
