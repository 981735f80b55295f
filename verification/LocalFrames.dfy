/**
 * What one hub's operations send and notify is what whole operations of the cluster send and notify: the
 * messages in the connections' own channels are the frames from which rosters are pieced together.
 */
module LocalFrames {
  import opened ChannelKeys
  import opened HubIndex
  import opened Messages
  import opened Options
  import opened Presence
  import opened RequestSigning
  import opened HubSteps
  import opened Fanout
  import opened LocalRefinement  // with its names `PR` for `PresenceRuns` and `HS` for `HubState`

  predicate IsRosterEvent(event: string) {
    || event == "pusher_internal:subscription_succeeded"
    || event == "pusher_internal:member_added"
    || event == "pusher_internal:member_removed"
  }

  /** The message is how the frame is sent. */
  ghost predicate Renders(enc: Encoder, m: PusherMessage, n: PR.Note) {
    match n
    case Succeeded(ch, users) => m == PusherMessage("pusher_internal:subscription_succeeded", ch, enc.roster(users))
    case MemberAdded(ch, user) =>
      exists info :: m == PusherMessage("pusher_internal:member_added", ch, enc.memberAdded(user, info))
    case MemberRemoved(ch, user) => m == PusherMessage("pusher_internal:member_removed", ch, enc.memberRemoved(user))
    case Unrelated => !(IsRosterEvent(m.event) && IsPresence(m.channel))
  }

  ghost predicate Carries(enc: Encoder, q: seq<PusherMessage>, notes: seq<PR.Note>) {
    |q| == |notes| && forall i :: 0 <= i < |q| ==> Renders(enc, q[i], notes[i])
  }

  /** The channel holds the frames that were sent and not yet written. */
  ghost predicate Waits(enc: Encoder, q: seq<PusherMessage>, w: PR.Cluster, d: Client) {
    PR.WrittenTo(w, d) <= |PR.SentTo(w, d)| && Carries(enc, q, PR.SentTo(w, d)[PR.WrittenTo(w, d)..])
  }

  ghost predicate Frames(enc: Encoder, s: HS.State, w: PR.Cluster) {
    forall d :: d in s.conns ==> Waits(enc, s.conns[d].sendCh, w, d)
  }

  /** The hub's fields and its connections' channels are the hub's part of the cluster. */
  ghost predicate Shows(enc: Encoder, s: HS.State, w: PR.Cluster, node: string) {
    Strip(s) == ViewOf(w.hubs, node) && Frames(enc, s, w)
  }

  /** The occupied and vacated notifications among all of a hub's. */
  function Occupancies(hooks: seq<HS.Hook>): seq<PR.Hook> {
    if hooks == [] then []
    else
      var before := Occupancies(hooks[..|hooks| - 1]);
      match hooks[|hooks| - 1]
      case ChannelOccupied(app, ch) => before + [PR.Hook(app, ch, true)]
      case ChannelVacated(app, ch) => before + [PR.Hook(app, ch, false)]
      case _ => before
  }

  /** The hub notifies what the cluster's operation notifies. */
  ghost predicate SameHooks(s: HS.State, s': HS.State, w: PR.Cluster, w': PR.Cluster) {
    w.hooks <= w'.hooks && Occupancies(s'.hooks) == Occupancies(s.hooks) + w'.hooks[|w.hooks|..]
  }

  lemma HookAppend(hooks: seq<HS.Hook>, k: HS.Hook)
    ensures Occupancies(hooks + [k]) ==
            Occupancies(hooks) + match k
                                 case ChannelOccupied(app, ch) => [PR.Hook(app, ch, true)]
                                 case ChannelVacated(app, ch) => [PR.Hook(app, ch, false)]
                                 case _ => []
  {
    assert (hooks + [k])[..|hooks|] == hooks;
  }

  // Single sends.

  lemma SendHolds(enc: Encoder, q: seq<PusherMessage>, w: PR.Cluster, d: Client, to: set<Client>, m: PusherMessage,
                  n: PR.Note)
    requires Waits(enc, q, w, d) && Renders(enc, m, n)
    ensures Waits(enc, if d in to then HS.Queued(q, m) else q, PR.Deliver(w, to, n), d)
  {
    hide Renders;
    var notes, k := PR.SentTo(w, d), PR.WrittenTo(w, d);
    var w' := PR.Deliver(w, to, n);
    if d in to && |q| < SLOTS {
      assert PR.SentTo(w', d) == notes + [n];
      assert (notes + [n])[k..] == notes[k..] + [n];
    } else {
      assert PR.SentTo(w', d) == notes;
    }
  }

  lemma SendFrames(enc: Encoder, s: HS.State, w: PR.Cluster, to: set<Client>, heard: set<Client>, m: PusherMessage,
                   n: PR.Note)
    requires Frames(enc, s, w) && Renders(enc, m, n)
    requires forall d :: d in s.conns ==> (d in to <==> d in heard)
    ensures Frames(enc, HS.SendAll(s, to, m), PR.Deliver(w, heard, n))
  {
    hide Renders, Waits, PR.Deliver;
    forall d | d in s.conns ensures Waits(enc, HS.SendAll(s, to, m).conns[d].sendCh, PR.Deliver(w, heard, n), d) {
      SendHolds(enc, s.conns[d].sendCh, w, d, heard, m, n);
    }
  }

  lemma SameFrames(enc: Encoder, s: HS.State, w: PR.Cluster, s': HS.State, w': PR.Cluster)
    requires Frames(enc, s, w) && w'.sent == w.sent && w'.written == w.written
    requires s'.conns.Keys == s.conns.Keys
    requires forall d :: d in s.conns ==> s'.conns[d].sendCh == s.conns[d].sendCh
    ensures Frames(enc, s', w')
  {
    hide Carries;
    assert forall d :: PR.SentTo(w', d) == PR.SentTo(w, d) && PR.WrittenTo(w', d) == PR.WrittenTo(w, d);
  }

  /** On the origin's hub the audience are the recipients that the hub finds. */
  lemma LocalAudience(h: Hubs, s: HS.State, p: Payload, d: Client)
    requires Strip(s) == ViewOf(h, p.origin) && d in s.conns
    ensures d in Recipients(s.index, Key(p.app, p.channel), Key(p.app, "*"), p.exclude) <==> d in PR.Audience(h, p)
  {
    assert d in Strip(s).conns && d in ViewOf(h, p.origin).conns;
    assert s.index == IndexAt(h.shared.index, p.origin);
    LookupAt(h.shared.index.channels, p.origin, Key(p.app, p.channel));
    LookupAt(h.shared.index.channels, p.origin, Key(p.app, "*"));
    hide Key, Strip, ViewOf, At;
  }

  /** On another hub they are that too, as far as it has recorded the topic. */
  lemma RemoteAudience(h: Hubs, s: HS.State, p: Payload, node: string, d: Client)
    requires Strip(s) == ViewOf(h, node) && d in s.conns && node != p.origin
    ensures d in PR.Audience(h, p) <==>
            Key(p.app, p.channel) in s.index.subs
            && d in Recipients(s.index, Key(p.app, p.channel), Key(p.app, "*"), p.exclude)
  {
    assert d in Strip(s).conns && d in ViewOf(h, node).conns;
    assert s.index == IndexAt(h.shared.index, node);
    LookupAt(h.shared.index.channels, node, Key(p.app, p.channel));
    LookupAt(h.shared.index.channels, node, Key(p.app, "*"));
    assert Key(p.app, p.channel) in s.index.subs <==> SpotOf(p, node) in h.shared.index.subs;
    hide Key, Strip, ViewOf, IndexAt, At, Recorded;
  }

  /** A broadcast of the hub, on its own connections. */
  lemma BroadcastFrames(enc: Encoder, s: HS.State, w: PR.Cluster, p: Payload, q: Payload, n: PR.Note)
    requires Frames(enc, s, w) && Strip(s) == ViewOf(w.hubs, p.origin)
    requires Renders(enc, PusherMessage(p.event, p.channel, p.data), n)
    requires q == p.(event := q.event, data := q.data)
    ensures Frames(enc, HS.ClusterBroadcast(s, p), PR.Deliver(w, PR.Audience(w.hubs, q), n))
  {
    hide Renders, Strip, ViewOf, Waits, PR.Deliver, PR.Audience, Key, Recipients;
    var to := Recipients(s.index, Key(p.app, p.channel), Key(p.app, "*"), p.exclude);
    forall d | d in s.conns ensures d in to <==> d in PR.Audience(w.hubs, q) {
      LocalAudience(w.hubs, s, q, d);
    }
    SendFrames(enc, s, w, to, PR.Audience(w.hubs, q), PusherMessage(p.event, p.channel, p.data), n);
  }

  // `Subscribe`.

  lemma WelcomeFrames(enc: Encoder, s: HS.State, w: PR.Cluster, c: Client, ch: string, user: string, info: string)
    requires Frames(enc, s, w) && IsPresence(ch)
    requires Strip(HS.Welcomed(s, enc, c.node, c, ch, user, info)) == ViewOf(w.hubs, c.node)
    ensures Frames(enc, HS.Welcomed(s, enc, c.node, c, ch, user, info), PR.Greet(w, c, ch, user))
  {
    hide Waits, IsPresence, Strip, ViewOf, MemoryAdd, MemoryRoster, Users, HS.SendAll, HS.ClusterBroadcast, PR.Deliver,
         PR.Audience, Key;
    var key := Key(c.app, ch);
    var s1 := s.(tables := MemoryAdd(s.tables, key, Member(user, info, c.socket)));
    var m := PusherMessage("pusher_internal:subscription_succeeded", ch,
                           enc.roster(Users(MemoryRoster(s1.tables, key))));
    var s2 := HS.SendAll(s1, {c}, m);
    var p := Payload(c.node, c.app, ch, "pusher_internal:member_added", enc.memberAdded(user, info), c.socket);
    WelcomedStrip(s, enc, c, ch, user, info);
    ViewTables(w.hubs, c.node);
    var n := PR.Succeeded(ch, Users(PR.RosterAt(w.hubs, c.app, ch)));
    SendFrames(enc, s1, w, {c}, {c}, m, n);
    PR.DeliverHubs(w, {c}, n);
    BroadcastFrames(enc, s2, PR.Deliver(w, {c}, n), p, Announcement(c, Announcing(Added, ch, user, Back)),
                    PR.MemberAdded(ch, user));
  }

  lemma WelcomedStrip(s: HS.State, enc: Encoder, c: Client, ch: string, user: string, info: string)
    ensures var key := Key(c.app, ch);
            var s1 := s.(tables := MemoryAdd(s.tables, key, Member(user, info, c.socket)));
            var m := PusherMessage("pusher_internal:subscription_succeeded", ch,
                                   enc.roster(Users(MemoryRoster(s1.tables, key))));
            && Strip(HS.Welcomed(s, enc, c.node, c, ch, user, info)) == Strip(HS.SendAll(s1, {c}, m)) == Strip(s1)
            && Strip(s1).tables == s1.tables
  {
    hide Key, MemoryAdd, HS.SendAll, HS.ClusterBroadcast, Users;
    var s1 := s.(tables := MemoryAdd(s.tables, Key(c.app, ch), Member(user, info, c.socket)));
    WelcomedView(s, enc, c.node, c, ch, user, info);
    StripSendAll(s1, {c}, PusherMessage("pusher_internal:subscription_succeeded", ch,
                                        enc.roster(Users(MemoryRoster(s1.tables, Key(c.app, ch))))));
  }

  lemma EnteredFrames(enc: Encoder, s: HS.State, w: PR.Cluster, c: Client, ch: string, user: Option<string>, h: Hubs)
    requires Frames(enc, s, w) && c in s.conns
    ensures Frames(enc, HS.Entered(s, c, ch, user), w.(hubs := h))
    ensures HS.Entered(s, c, ch, user).hooks == s.hooks
  {
    hide Waits, Key, AddUser, HubIndex.Join, IsFirst;
    SameFrames(enc, s, w, HS.Entered(s, c, ch, user), w.(hubs := h));
  }

  /** The acknowledgement for a public or private channel. */
  lemma PlainFrames(enc: Encoder, s: HS.State, w: PR.Cluster, c: Client, ch: string, user: string)
    requires Frames(enc, s, w) && !IsPresence(ch)
    ensures Frames(enc, HS.SendAll(s, {c}, PusherMessage("pusher_internal:subscription_succeeded", ch, "{}")),
                   PR.Greet(w, c, ch, user))
  {
    hide Waits, IsPresence, HS.SendAll, PR.Deliver;
    SendFrames(enc, s, w, {c}, {c}, PusherMessage("pusher_internal:subscription_succeeded", ch, "{}"), PR.Unrelated);
  }

  lemma WelcomedHooks(s: HS.State, enc: Encoder, c: Client, ch: string, user: string, info: string)
    ensures Occupancies(HS.Welcomed(s, enc, c.node, c, ch, user, info).hooks) == Occupancies(s.hooks)
  {
    hide Key, Recipients, MemoryAdd, Users;
    HookAppend(s.hooks, HS.MemberAdded(c.app, ch, user, c.socket));
  }

  /** What `Subscribe` has sent before it looks at the occupancy. */
  function Greeted(s: HS.State, enc: Encoder, c: Client, r: SubscribeRequest): HS.State {
    if IsPresence(r.ch) then
      HS.Welcomed(HS.Entered(s, c, r.ch, Some(UserOf(r))), enc, c.node, c, r.ch, UserOf(r), InfoOf(r))
    else
      HS.SendAll(HS.Entered(s, c, r.ch, None), {c}, PusherMessage("pusher_internal:subscription_succeeded", r.ch, "{}"))
  }

  lemma AdmittedIs(s: HS.State, enc: Encoder, c: Client, r: SubscribeRequest)
    requires IsPresence(r.ch) ==> r.member.Some?
    ensures var g := Greeted(s, enc, c, r);
            var s' := HS.Admitted(s, enc, c.node, c, r);
            && s' == (if MemoryOccupancy(g.tables, Key(c.app, r.ch)) == 1
                      then HS.Notified(g, HS.ChannelOccupied(c.app, r.ch)) else g)
            && Strip(s') == Strip(g)
  {
    hide Key, IsPresence, MemoryOccupancy, HS.Welcomed, HS.Entered, HS.SendAll;
  }

  lemma StripTables(s: HS.State)
    ensures Strip(s).tables == s.tables
  {}

  /** An occupied or vacated notification on both sides, or on neither. */
  lemma NotifyAlike(enc: Encoder, s: HS.State, w: PR.Cluster, c: Client, ch: string, occupied: bool)
    requires Frames(enc, s, w) && s.tables == w.hubs.shared.tables
    ensures var k := if occupied then HS.ChannelOccupied(c.app, ch) else HS.ChannelVacated(c.app, ch);
            var s' := if MemoryOccupancy(s.tables, Key(c.app, ch)) == (if occupied then 1 else 0)
                      then HS.Notified(s, k) else s;
            Frames(enc, s', PR.Notify(w, c.app, ch, occupied)) && SameHooks(s, s', w, PR.Notify(w, c.app, ch, occupied))
  {
    hide Waits, Key, MemoryOccupancy, Occupancies;
    var k := if occupied then HS.ChannelOccupied(c.app, ch) else HS.ChannelVacated(c.app, ch);
    HookAppend(s.hooks, k);
    assert Occupancies(s.hooks) + [] == Occupancies(s.hooks);
    if MemoryOccupancy(s.tables, Key(c.app, ch)) == (if occupied then 1 else 0) {
      SameFrames(enc, s, w, HS.Notified(s, k), PR.Notify(w, c.app, ch, occupied));
    }
  }

  lemma AdmitFrames(enc: Encoder, s: HS.State, w: PR.Cluster, c: Client, r: SubscribeRequest, h: Hubs)
    requires Frames(enc, s, w) && c in s.conns && (IsPresence(r.ch) ==> r.member.Some?)
    requires Strip(HS.Admitted(s, enc, c.node, c, r)) == ViewOf(h, c.node)
    ensures var s' := HS.Admitted(s, enc, c.node, c, r);
            var w' := PR.Notify(PR.Greet(w.(hubs := h), c, r.ch, UserOf(r)), c.app, r.ch, true);
            Frames(enc, s', w') && SameHooks(s, s', w, w')
  {
    hide Frames, IsPresence, Strip, ViewOf, MemoryOccupancy, HS.SendAll, HS.Entered, HS.Welcomed, HS.Admitted, PR.Greet,
         PR.Notify, Key, Occupancies;
    var w1 := w.(hubs := h);
    var g := Greeted(s, enc, c, r);
    AdmittedIs(s, enc, c, r);
    PR.GreetHubs(w1, c, r.ch, UserOf(r));
    if IsPresence(r.ch) {
      EnteredFrames(enc, s, w, c, r.ch, Some(UserOf(r)), h);
      var e := HS.Entered(s, c, r.ch, Some(UserOf(r)));
      WelcomeFrames(enc, e, w1, c, r.ch, UserOf(r), InfoOf(r));
      WelcomedHooks(e, enc, c, r.ch, UserOf(r), InfoOf(r));
    } else {
      EnteredFrames(enc, s, w, c, r.ch, None, h);
      PlainFrames(enc, HS.Entered(s, c, r.ch, None), w1, c, r.ch, UserOf(r));
      SentHooks(HS.Entered(s, c, r.ch, None), {c}, PusherMessage("pusher_internal:subscription_succeeded", r.ch, "{}"));
    }
    StripTables(g);
    ViewTables(h, c.node);
    NotifyAlike(enc, g, PR.Greet(w1, c, r.ch, UserOf(r)), c, r.ch, true);
  }

  lemma SentHooks(s: HS.State, to: set<Client>, m: PusherMessage)
    ensures HS.SendAll(s, to, m).hooks == s.hooks
  {}

  lemma RefusedFrames(enc: Encoder, s: HS.State, w: PR.Cluster, c: Client, code: int, h: Hubs)
    requires Frames(enc, s, w)
    ensures var s', w' := HS.Refused(s, enc, c, code), PR.Deliver(w.(hubs := h), {c}, PR.Unrelated);
            Frames(enc, s', w') && SameHooks(s, s', w, w')
  {
    hide Waits, HS.SendAll, PR.Deliver;
    var m := PusherMessage("pusher:error", "", enc.error(code));
    SameFrames(enc, s, w, s, w.(hubs := h));
    SendFrames(enc, s, w.(hubs := h), {c}, {c}, m, PR.Unrelated);
    SentHooks(s, {c}, m);
    PR.DeliverHubs(w.(hubs := h), {c}, PR.Unrelated);
  }

  /** `Subscribe` on one hub's fields sends and notifies what the whole operation does, whatever the outcome. */
  lemma SubscribeShows(hs: Hashes, enc: Encoder, s: HS.State, w: PR.Cluster, c: Client, r: SubscribeRequest)
    requires PR.IsIdle(w.hubs, c) && r.ch != "" && Shows(enc, s, w, c.node)
    ensures var s' := HS.Subscribed(s, hs, enc, c.node, c, AppOf(w.hubs.shared, c), r);
            var w' := PR.DoSubscribe(hs, w, c, r);
            Shows(enc, s', w', c.node) && SameHooks(s, s', w, w')
  {
    assert c in ViewOf(w.hubs, c.node).conns && c in s.conns;
    hide Frames, IsPresence, Strip, ViewOf, Authorized, HS.Subscribed, HS.Admitted, HS.Refused, PR.Subscribed, PR.Greet,
         PR.Notify, PR.Deliver, SameHooks, PR.IsIdle, AppOf;
    var h := PR.Subscribed(hs, w.hubs, c, r);
    SubscribeRefines(hs, enc, w.hubs, s, c, r);
    SubscribedIsChecked(hs, enc, s, w.hubs.shared, c, r);
    PR.DoSubscribeHubs(hs, w, c, r);
    if Authorized(hs, w.hubs.shared, c, r) {
      AdmitFrames(enc, s, w, c, r, h);
    } else {
      RefusedFrames(enc, s, w, c, 4001, h);
      RefusedFrames(enc, s, w, c, 4009, h);
    }
  }

  // `Unsubscribe`.

  lemma DismissFrames(enc: Encoder, s: HS.State, w: PR.Cluster, c: Client, ch: string)
    requires Frames(enc, s, w) && IsPresence(ch)
    requires Strip(HS.Dismissed(s, enc, c.node, c, ch)) == ViewOf(w.hubs, c.node)
    ensures var user := MemoryRemove(s.tables, Key(c.app, ch), c.socket).1;
            Frames(enc, HS.Dismissed(s, enc, c.node, c, ch), PR.Dismiss(w, c, ch, user))
  {
    hide Waits, IsPresence, Strip, ViewOf, MemoryRemove, HS.ClusterBroadcast, PR.Deliver, PR.Audience, Key;
    var (t, user) := MemoryRemove(s.tables, Key(c.app, ch), c.socket);
    var p := Payload(c.node, c.app, ch, "pusher_internal:member_removed", enc.memberRemoved(user), c.socket);
    DismissedView(s, enc, c.node, c, ch);
    WithTables(s, t);
    if user != "" {
      BroadcastFrames(enc, s.(tables := t), w, p, Announcement(c, Announcing(Removed, ch, user, Back)),
                      PR.MemberRemoved(ch, user));
    }
  }

  lemma WithTables(s: HS.State, t: Tables)
    ensures Strip(s.(tables := t)) == Strip(s).(tables := t)
  {}

  lemma DismissedHooks(s: HS.State, enc: Encoder, c: Client, ch: string)
    ensures Occupancies(HS.Dismissed(s, enc, c.node, c, ch).hooks) == Occupancies(s.hooks)
  {
    hide Key, Recipients, MemoryRemove;
    HookAppend(s.hooks, HS.MemberRemoved(c.app, ch, MemoryRemove(s.tables, Key(c.app, ch), c.socket).1, c.socket));
  }

  lemma DepartedFrames(enc: Encoder, s: HS.State, w: PR.Cluster, c: Client, ch: string, h: Hubs)
    requires Frames(enc, s, w) && c in s.conns
    ensures var s' := HS.Departed(s, c, ch);
            Frames(enc, s', w.(hubs := h)) && s'.hooks == s.hooks && s'.tables == s.tables
  {
    hide Waits, Key, Without, IsLast;
    SameFrames(enc, s, w, HS.Departed(s, c, ch), w.(hubs := h));
  }

  /** After the locked section of `Unsubscribe`. */
  lemma VacateFrames(enc: Encoder, s: HS.State, w: PR.Cluster, c: Client, ch: string)
    requires Frames(enc, s, w)
    requires Strip(HS.Vacated(s, enc, c.node, c, ch)) == ViewOf(w.hubs, c.node)
    ensures var user := MemoryRemove(s.tables, Key(c.app, ch), c.socket).1;
            var s' := HS.Vacated(s, enc, c.node, c, ch);
            var w' := PR.Notify(PR.Dismiss(w, c, ch, user), c.app, ch, false);
            Frames(enc, s', w') && SameHooks(s, s', w, w') && w'.hubs == w.hubs
  {
    hide Frames, IsPresence, Strip, ViewOf, HS.Dismissed, PR.Dismiss, PR.Notify, Key, MemoryRemove, MemoryOccupancy,
         Occupancies;
    var user := MemoryRemove(s.tables, Key(c.app, ch), c.socket).1;
    var s' := if IsPresence(ch) then HS.Dismissed(s, enc, c.node, c, ch) else s;
    PR.DismissHubs(w, c, ch, user);
    NotifiedStrip(s', HS.ChannelVacated(c.app, ch));
    if IsPresence(ch) {
      DismissFrames(enc, s, w, c, ch);
      DismissedHooks(s, enc, c, ch);
    } else {
      DismissNothing(w, c, ch, user);
    }
    StripTables(s');
    ViewTables(w.hubs, c.node);
    NotifyAlike(enc, s', PR.Dismiss(w, c, ch, user), c, ch, false);
    NotifyHubs(PR.Dismiss(w, c, ch, user), c.app, ch, false);
  }

  /** `Unsubscribe` does so too. */
  lemma UnsubscribeShows(hs: Hashes, enc: Encoder, s: HS.State, w: PR.Cluster, c: Client, a: Action, ch: string)
    requires PR.Departs(w.hubs, c, a, ch) && Shows(enc, s, w, c.node)
    ensures var s' := HS.Unsubscribed(s, enc, c.node, c, ch);
            var w' := PR.DoUnsubscribe(hs, w, c, ch, a);
            && Shows(enc, s', w', c.node) && SameHooks(s, s', w, w')
            && w'.hubs == PR.Left(hs, w.hubs, c, a)
  {
    assert c in ViewOf(w.hubs, c.node).conns && c in s.conns;
    StripTables(s);
    ViewTables(w.hubs, c.node);
    UnsubscribeRefines(hs, enc, w.hubs, s, c, a, ch);
    hide Frames, Strip, ViewOf, HS.Departed, HS.Vacated, PR.Left, PR.Dismiss, PR.Notify, PR.Departs, Key, MemoryRemove;
    var w1 := w.(hubs := PR.Left(hs, w.hubs, c, a));
    DepartedFrames(enc, s, w, c, ch, w1.hubs);
    VacateFrames(enc, HS.Departed(s, c, ch), w1, c, ch);
  }

  lemma NotifiedStrip(s: HS.State, k: HS.Hook)
    ensures Strip(HS.Notified(s, k)) == Strip(s)
  {}

  lemma DismissNothing(w: PR.Cluster, c: Client, ch: string, user: string)
    requires !IsPresence(ch)
    ensures PR.Dismiss(w, c, ch, user) == w
  {}

  lemma NotifyHubs(w: PR.Cluster, app: string, ch: string, occupied: bool)
    ensures PR.Notify(w, app, ch, occupied).hubs == w.hubs
  {}

  // The other hubs.

  /** What a hub sends when it handles payloads of other hubs that its recorded subscriptions receive. */
  function Heard(s: HS.State, news: seq<Payload>): HS.State {
    if news == [] then s
    else
      var before, p := Heard(s, news[..|news| - 1]), news[|news| - 1];
      if Key(p.app, p.channel) !in s.index.subs then before
      else HS.LocalBroadcast(before, p.app, p.channel, p.event, p.data, p.exclude)
  }

  lemma AsideFrames(enc: Encoder, s: HS.State, w: PR.Cluster, heard: set<Client>, n: PR.Note)
    requires Frames(enc, s, w) && forall d :: d in s.conns ==> d !in heard
    ensures Frames(enc, s, PR.Deliver(w, heard, n))
  {
    forall d | d in s.conns ensures Waits(enc, s.conns[d].sendCh, PR.Deliver(w, heard, n), d) {
      assert PR.SentTo(PR.Deliver(w, heard, n), d) == PR.SentTo(w, d);
    }
  }

  /** The audience of a broadcast on another hub are those to whom that hub sends it. */
  lemma HeardFrames(enc: Encoder, s: HS.State, w: PR.Cluster, p: Payload, q: Payload, n: PR.Note, node: string)
    requires Frames(enc, s, w) && Strip(s) == ViewOf(w.hubs, node) && node != p.origin
    requires Renders(enc, PusherMessage(p.event, p.channel, p.data), n)
    requires q == p.(event := q.event, data := q.data)
    ensures Frames(enc, Heard(s, [p]), PR.Deliver(w, PR.Audience(w.hubs, q), n))
    ensures Strip(Heard(s, [p])) == Strip(s)
  {
    hide Renders, Strip, ViewOf, Waits, PR.Deliver, PR.Audience, Key, Recipients, HS.SendAll;
    assert Heard(s, [p][..0]) == s;
    var to := Recipients(s.index, Key(p.app, p.channel), Key(p.app, "*"), p.exclude);
    var m := PusherMessage(p.event, p.channel, p.data);
    StripSendAll(s, to, m);
    forall d | d in s.conns ensures d in PR.Audience(w.hubs, q) <==> Key(p.app, p.channel) in s.index.subs && d in to {
      RemoteAudience(w.hubs, s, q, node, d);
    }
    if Key(p.app, p.channel) in s.index.subs {
      SendFrames(enc, s, w, to, PR.Audience(w.hubs, q), m, n);
    } else {
      AsideFrames(enc, s, w, PR.Audience(w.hubs, q), n);
    }
  }

  lemma NotHere(h: Hubs, s: HS.State, c: Client, node: string)
    requires Strip(s) == ViewOf(h, node) && node != c.node
    ensures forall d :: d in s.conns ==> d !in {c}
  {
    forall d | d in s.conns ensures d != c {
      assert d in Strip(s).conns && d in ViewOf(h, node).conns;
    }
  }

  lemma NotifyFrames(enc: Encoder, s: HS.State, w: PR.Cluster, app: string, ch: string, occupied: bool)
    requires Frames(enc, s, w)
    ensures Frames(enc, s, PR.Notify(w, app, ch, occupied))
  {
    hide Waits;
    SameFrames(enc, s, w, s, PR.Notify(w, app, ch, occupied));
  }

  /** What the subscribing hub publishes. */
  lemma SubscribedNews(hs: Hashes, enc: Encoder, s: HS.State, shared: Shared, c: Client, r: SubscribeRequest)
    ensures var p := Payload(c.node, c.app, r.ch, "pusher_internal:member_added",
                             enc.memberAdded(UserOf(r), InfoOf(r)), c.socket);
            HS.News(s, HS.Subscribed(s, hs, enc, c.node, c, AppOf(shared, c), r)) ==
            if Authorized(hs, shared, c, r) && IsPresence(r.ch) then [p] else []
  {
    hide Key, IsPresence, Authorized, HS.Subscribed, HS.Admitted, HS.Entered, HS.Welcomed, HS.SendAll,
         MemoryOccupancy, AppOf;
    SubscribedIsChecked(hs, enc, s, shared, c, r);
    if Authorized(hs, shared, c, r) {
      AdmittedIs(s, enc, c, r);
      var user := if IsPresence(r.ch) then Some(UserOf(r)) else None;
      var e := HS.Entered(s, c, r.ch, user);
      HS.EnteredNews(s, c, r.ch, user);
      HS.WelcomedNews(e, enc, c.node, c, r.ch, UserOf(r), InfoOf(r));
      HS.SentNews(e, {c}, PusherMessage("pusher_internal:subscription_succeeded", r.ch, "{}"));
    } else {
      HS.SentNews(s, {c}, PusherMessage("pusher:error", "", enc.error(4001)));
      HS.SentNews(s, {c}, PusherMessage("pusher:error", "", enc.error(4009)));
    }
  }

  /** Another hub that handles what the subscribing hub published sends what the whole operation sends there. */
  lemma SubscribeHeard(hs: Hashes, enc: Encoder, origin: HS.State, s: HS.State, w: PR.Cluster, c: Client,
                       r: SubscribeRequest, node: string)
    requires PR.IsIdle(w.hubs, c) && r.ch != "" && node != c.node && Shows(enc, s, w, node)
    ensures var news := HS.News(origin, HS.Subscribed(origin, hs, enc, c.node, c, AppOf(w.hubs.shared, c), r));
            var w' := PR.DoSubscribe(hs, w, c, r);
            Shows(enc, Heard(s.(tables := w'.hubs.shared.tables), news), w', node)
  {
    hide Frames, IsPresence, Strip, ViewOf, Authorized, HS.Subscribed, PR.Subscribed, PR.Notify, PR.Deliver,
         PR.IsIdle, AppOf, HS.News, PR.Audience, Key, Renders;
    var h := PR.Subscribed(hs, w.hubs, c, r);
    var w1 := w.(hubs := h);
    var told := s.(tables := h.shared.tables);
    var user, info := UserOf(r), InfoOf(r);
    SubscribeElsewhere(hs, w.hubs, c, r, node);
    SubscribedNews(hs, enc, origin, w.hubs.shared, c, r);
    PR.DoSubscribeHubs(hs, w, c, r);
    WithTables(s, h.shared.tables);
    ToldFrames(enc, s, w, h);
    NotHere(h, told, c, node);
    AsideFrames(enc, told, w1, {c}, PR.Unrelated);
    if Authorized(hs, w.hubs.shared, c, r) {
      if IsPresence(r.ch) {
        var n := PR.Succeeded(r.ch, Users(PR.RosterAt(h, c.app, r.ch)));
        AsideFrames(enc, told, w1, {c}, n);
        PR.DeliverHubs(w1, {c}, n);
        var p := Payload(c.node, c.app, r.ch, "pusher_internal:member_added", enc.memberAdded(user, info), c.socket);
        AddedRenders(enc, r.ch, user, info);
        HeardFrames(enc, told, PR.Deliver(w1, {c}, n), p, Announcement(c, Announcing(Added, r.ch, user, Back)),
                    PR.MemberAdded(r.ch, user), node);
        NotifyFrames(enc, Heard(told, [p]), PR.Greet(w1, c, r.ch, user), c.app, r.ch, true);
      } else {
        NotifyFrames(enc, told, PR.Greet(w1, c, r.ch, user), c.app, r.ch, true);
      }
    }
  }

  lemma AddedRenders(enc: Encoder, ch: string, user: string, info: string)
    ensures Renders(enc, PusherMessage("pusher_internal:member_added", ch, enc.memberAdded(user, info)),
                    PR.MemberAdded(ch, user))
  {}

  lemma ToldFrames(enc: Encoder, s: HS.State, w: PR.Cluster, h: Hubs)
    requires Frames(enc, s, w)
    ensures Frames(enc, s.(tables := h.shared.tables), w.(hubs := h))
  {
    hide Waits;
    SameFrames(enc, s, w, s.(tables := h.shared.tables), w.(hubs := h));
  }

  lemma UnsubscribedNews(enc: Encoder, s: HS.State, c: Client, ch: string)
    ensures var user := MemoryRemove(s.tables, Key(c.app, ch), c.socket).1;
            var p := Payload(c.node, c.app, ch, "pusher_internal:member_removed", enc.memberRemoved(user), c.socket);
            HS.News(s, HS.Unsubscribed(s, enc, c.node, c, ch)) == if IsPresence(ch) && user != "" then [p] else []
  {
    hide Key, IsPresence, HS.Departed, HS.Dismissed, MemoryOccupancy, MemoryRemove;
    var s1 := HS.Departed(s, c, ch);
    HS.DepartedNews(s, c, ch);
    HS.DismissedNews(s1, enc, c.node, c, ch);
    SameTablesDeparted(s, c, ch);
  }

  lemma SameTablesDeparted(s: HS.State, c: Client, ch: string)
    ensures HS.Departed(s, c, ch).tables == s.tables
  {}

  /** The same for a departure. */
  lemma UnsubscribeHeard(hs: Hashes, enc: Encoder, origin: HS.State, s: HS.State, w: PR.Cluster, c: Client,
                         a: Action, ch: string, node: string)
    requires PR.Departs(w.hubs, c, a, ch) && node != c.node && Shows(enc, s, w, node)
    requires origin.tables == w.hubs.shared.tables
    ensures var news := HS.News(origin, HS.Unsubscribed(origin, enc, c.node, c, ch));
            var w' := PR.DoUnsubscribe(hs, w, c, ch, a);
            Shows(enc, Heard(s.(tables := w'.hubs.shared.tables), news), w', node)
  {
    hide Frames, IsPresence, Strip, ViewOf, HS.Unsubscribed, PR.Left, PR.Notify, PR.Deliver, PR.Departs, HS.News,
         PR.Audience, Key, MemoryRemove;
    var h := PR.Left(hs, w.hubs, c, a);
    var w1 := w.(hubs := h);
    var told := s.(tables := h.shared.tables);
    var user := MemoryRemove(w.hubs.shared.tables, Key(c.app, ch), c.socket).1;
    UnsubscribeElsewhere(hs, w.hubs, c, a, ch, node);
    UnsubscribedNews(enc, origin, c, ch);
    PR.DismissHubs(w1, c, ch, user);
    NotifyHubs(PR.Dismiss(w1, c, ch, user), c.app, ch, false);
    WithTables(s, h.shared.tables);
    ToldFrames(enc, s, w, h);
    if IsPresence(ch) && user != "" {
      var p := Payload(c.node, c.app, ch, "pusher_internal:member_removed", enc.memberRemoved(user), c.socket);
      RemovedRenders(enc, ch, user);
      HeardFrames(enc, told, w1, p, Announcement(c, Announcing(Removed, ch, user, Back)),
                  PR.MemberRemoved(ch, user), node);
      NotifyFrames(enc, Heard(told, [p]), PR.Dismiss(w1, c, ch, user), c.app, ch, false);
    } else {
      NotifyFrames(enc, told, PR.Dismiss(w1, c, ch, user), c.app, ch, false);
    }
  }

  lemma RemovedRenders(enc: Encoder, ch: string, user: string)
    ensures Renders(enc, PusherMessage("pusher_internal:member_removed", ch, enc.memberRemoved(user)),
                    PR.MemberRemoved(ch, user))
  {}

  // `Register` and `Unregister`.

  lemma NewFrames(enc: Encoder, s: HS.State, w: PR.Cluster, c: Client, h: Hubs)
    requires Frames(enc, s, w) && PR.SentTo(w, c) == [] && PR.WrittenTo(w, c) == 0
    ensures Frames(enc, HS.ClientAdded(s, c), w.(hubs := h))
  {
    hide HubIndex.Register;
    var w' := w.(hubs := h);
    assert forall d :: PR.SentTo(w', d) == PR.SentTo(w, d) && PR.WrittenTo(w', d) == PR.WrittenTo(w, d);
    hide PR.SentTo, PR.WrittenTo;
  }

  /** A client to which nothing was sent yet. */
  lemma RegisterShows(hs: Hashes, enc: Encoder, s: HS.State, w: PR.Cluster, c: Client)
    requires CanConnect(w.hubs, c) && Shows(enc, s, w, c.node) && PR.SentTo(w, c) == [] && PR.WrittenTo(w, c) == 0
    ensures var s' := HS.Registered(s, enc, c);
            var w' := PR.Perform(hs, w, PR.Arrive(c));
            Shows(enc, s', w', c.node) && SameHooks(s, s', w, w')
  {
    hide Frames, Strip, ViewOf, Renders, CanConnect, HS.SendAll, PR.Deliver, DoConnect, PR.SentTo, PR.WrittenTo,
         Occupancies;
    var m := PusherMessage("pusher:connection_established", "", enc.established(c.socket));
    var w1 := w.(hubs := DoConnect(w.hubs, c));
    RegisterRefines(enc, w.hubs, s, c);
    NewFrames(enc, s, w, c, w1.hubs);
    GreetingRenders(enc, c);
    SendFrames(enc, HS.ClientAdded(s, c), w1, {c}, {c}, m, PR.Unrelated);
    SentHooks(HS.ClientAdded(s, c), {c}, m);
    PR.DeliverHubs(w1, {c}, PR.Unrelated);
  }

  lemma GreetingRenders(enc: Encoder, c: Client)
    ensures Renders(enc, PusherMessage("pusher:connection_established", "", enc.established(c.socket)), PR.Unrelated)
  {}

  /** `Unregister` as calls of the cluster: its locked section and the first `n` channels of its copy. */
  function DrainCalls(hs: Hashes, w: PR.Cluster, c: Client, order: seq<string>, n: nat): PR.Cluster {
    if n == 0 then PR.Perform(hs, w, PR.Unregister(c, order))
    else PR.Perform(hs, DrainCalls(hs, w, c, order, n - 1), PR.Drain(c))
  }

  lemma HooksOn(s: HS.State, s1: HS.State, s2: HS.State, w: PR.Cluster, w1: PR.Cluster, w2: PR.Cluster)
    requires SameHooks(s, s1, w, w1) && SameHooks(s1, s2, w1, w2)
    ensures SameHooks(s, s2, w, w2)
  {
    hide Occupancies;
    assert w2.hooks[|w.hooks|..] == w1.hooks[|w.hooks|..] + w2.hooks[|w1.hooks|..];
  }

  lemma BegunShows(hs: Hashes, enc: Encoder, s: HS.State, w: PR.Cluster, c: Client, order: seq<string>)
    requires PR.IsIdle(w.hubs, c) && (set ch | ch in order) == w.hubs.conns[c].mine && Shows(enc, s, w, c.node)
    ensures var s' := HS.ClientDropped(s, c);
            var w' := DrainCalls(hs, w, c, order, 0);
            && Shows(enc, s', w', c.node) && SameHooks(s, s', w, w')
            && c in w'.hubs.conns && w'.hubs.conns[c].pc == Draining(order)
  {
    hide Strip, ViewOf, Frames, DrainCalls, Drained, Drop, Occupancies, Key, PR.IsIdle;
    BegunView(hs, w.hubs, s, c, order);
    BegunCluster(hs, w, c, order);
    BegunFrames(enc, s, w, c, Drained(hs, w.hubs, c, order, 0));
  }

  lemma BegunCluster(hs: Hashes, w: PR.Cluster, c: Client, order: seq<string>)
    requires PR.IsIdle(w.hubs, c)
    ensures DrainCalls(hs, w, c, order, 0) == w.(hubs := Drained(hs, w.hubs, c, order, 0))
  {
    hide Step;
  }

  lemma BegunFrames(enc: Encoder, s: HS.State, w: PR.Cluster, c: Client, h: Hubs)
    requires Frames(enc, s, w)
    ensures Frames(enc, HS.ClientDropped(s, c), w.(hubs := h)) && HS.ClientDropped(s, c).hooks == s.hooks
  {
    hide Waits, Drop, Key;
    SameFrames(enc, s, w, HS.ClientDropped(s, c), w.(hubs := h));
  }

  /** `Unregister` sends and notifies, channel by channel, what the cluster's calls do. */
  lemma {:induction false} UnregisterShows(hs: Hashes, enc: Encoder, s: HS.State, w: PR.Cluster, c: Client,
                                           order: seq<string>, n: nat)
    requires PR.IsIdle(w.hubs, c) && (set ch | ch in order) == w.hubs.conns[c].mine && Shows(enc, s, w, c.node)
    requires n <= |order|
    ensures var s' := HS.UnsubscribedAll(HS.ClientDropped(s, c), enc, c.node, c, order[..n]);
            var w' := DrainCalls(hs, w, c, order, n);
            && Shows(enc, s', w', c.node) && SameHooks(s, s', w, w')
            && c in w'.hubs.conns && w'.hubs.conns[c].pc == Draining(order[n..])
  {
    hide Shows, SameHooks, PR.Left, HS.Unsubscribed, HS.ClientDropped, PR.DoUnsubscribe;
    if n == 0 {
      BegunShows(hs, enc, s, w, c, order);
      assert order[0..] == order;
    } else {
      var s1 := HS.UnsubscribedAll(HS.ClientDropped(s, c), enc, c.node, c, order[..n - 1]);
      var w1 := DrainCalls(hs, w, c, order, n - 1);
      UnregisterShows(hs, enc, s, w, c, order, n - 1);
      assert order[n - 1..][1..] == order[n..] && order[..n][..n - 1] == order[..n - 1];
      UnsubscribeShows(hs, enc, s1, w1, c, DrainNext, order[n - 1]);
      PR.LeftEffect(hs, w1.hubs, c, DrainNext, order[n - 1]);
      HooksOn(s, s1, HS.Unsubscribed(s1, enc, c.node, c, order[n - 1]), w, w1, DrainCalls(hs, w, c, order, n));
    }
  }

  // Nor does another hub miss anything of a registration, or of `Unregister`.

  lemma HeardNone(s: HS.State)
    ensures Heard(s, []) == s
  {}

  /** What a hub hears changes neither its maps nor its tables. */
  lemma {:induction false} HeardIndex(s: HS.State, news: seq<Payload>)
    ensures Heard(s, news).index == s.index && Heard(s, news).tables == s.tables
  {
    hide Key;
    if news != [] {
      HeardIndex(s, news[..|news| - 1]);
    }
  }

  lemma {:induction false} HeardTables(s: HS.State, t: Tables, news: seq<Payload>)
    ensures Heard(s.(tables := t), news) == Heard(s, news).(tables := t)
  {
    hide Key, Recipients;
    if news != [] {
      HeardTables(s, t, news[..|news| - 1]);
    }
  }

  lemma {:induction false} HeardTwice(s: HS.State, a: seq<Payload>, b: seq<Payload>)
    ensures Heard(Heard(s, a), b) == Heard(s, a + b)
  {
    hide Key, HS.LocalBroadcast;
    if b == [] {
      assert a + b == a;
    } else {
      HeardTwice(s, a, b[..|b| - 1]);
      HeardIndex(s, a);
      assert (a + b)[..|a + b| - 1] == a + b[..|b| - 1];
    }
  }

  lemma RegisterHeard(hs: Hashes, enc: Encoder, origin: HS.State, s: HS.State, w: PR.Cluster, c: Client, node: string)
    requires CanConnect(w.hubs, c) && node != c.node && Shows(enc, s, w, node)
    ensures var news := HS.News(origin, HS.Registered(origin, enc, c));
            var w' := PR.Perform(hs, w, PR.Arrive(c));
            Shows(enc, Heard(s.(tables := w'.hubs.shared.tables), news), w', node)
  {
    hide Frames, Strip, ViewOf, CanConnect, PR.Deliver, HS.SendAll, Heard;
    var m := PusherMessage("pusher:connection_established", "", enc.established(c.socket));
    var w1 := w.(hubs := DoConnect(w.hubs, c));
    HS.SentNews(HS.ClientAdded(origin, c), {c}, m);
    HS.NoNews(origin);
    assert HS.News(origin, HS.Registered(origin, enc, c)) == [];
    HeardNone(s);
    assert s.(tables := s.tables) == s;
    ViewTables(w.hubs, node);
    StripTables(s);
    RegisterElsewhere(w.hubs, c, node);
    ToldFrames(enc, s, w, w1.hubs);
    NotHere(w.hubs, s, c, node);
    AsideFrames(enc, s, w1, {c}, PR.Unrelated);
    PR.DeliverHubs(w1, {c}, PR.Unrelated);
  }

  lemma BegunHeard(hs: Hashes, enc: Encoder, s: HS.State, w: PR.Cluster, c: Client, order: seq<string>, node: string)
    requires PR.IsIdle(w.hubs, c) && (set ch | ch in order) == w.hubs.conns[c].mine
    requires node != c.node && Shows(enc, s, w, node)
    ensures var w' := DrainCalls(hs, w, c, order, 0);
            Shows(enc, s.(tables := w'.hubs.shared.tables), w', node)
  {
    hide Frames, Strip, ViewOf, DrainCalls, Drained, PR.IsIdle;
    var h := Drained(hs, w.hubs, c, order, 0);
    BegunCluster(hs, w, c, order);
    UnregisterElsewhere(hs, w.hubs, c, order, 0, node);
    WithTables(s, h.shared.tables);
    ToldFrames(enc, s, w, h);
  }

  lemma UnregisterHeard(hs: Hashes, enc: Encoder, origin: HS.State, s: HS.State, w: PR.Cluster, c: Client,
                        order: seq<string>, n: nat, node: string)
    requires PR.IsIdle(w.hubs, c) && (set ch | ch in order) == w.hubs.conns[c].mine && n <= |order|
    requires node != c.node && Shows(enc, origin, w, c.node) && Shows(enc, s, w, node)
    ensures var origin' := HS.UnsubscribedAll(HS.ClientDropped(origin, c), enc, c.node, c, order[..n]);
            var w' := DrainCalls(hs, w, c, order, n);
            && origin.published <= origin'.published
            && Shows(enc, Heard(s.(tables := w'.hubs.shared.tables), HS.News(origin, origin')), w', node)
  {
    hide Shows, HS.Unsubscribed, HS.ClientDropped, PR.DoUnsubscribe, Heard, HS.News;
    var w' := DrainCalls(hs, w, c, order, n);
    var dropped := HS.ClientDropped(origin, c);
    if n == 0 {
      DroppedNews(origin, c);
      HeardNone(s.(tables := w'.hubs.shared.tables));
      BegunHeard(hs, enc, s, w, c, order, node);
    } else {
      var o1 := HS.UnsubscribedAll(dropped, enc, c.node, c, order[..n - 1]);
      var o2 := HS.Unsubscribed(o1, enc, c.node, c, order[n - 1]);
      var w1 := DrainCalls(hs, w, c, order, n - 1);
      UnregisterHeard(hs, enc, origin, s, w, c, order, n - 1, node);
      UnregisterShows(hs, enc, origin, w, c, order, n - 1);
      ShownTables(enc, o1, w1, c.node);
      assert order[n - 1..][0] == order[n - 1] && order[..n][..n - 1] == order[..n - 1];
      UnsubscribeHeard(hs, enc, o1, Heard(s.(tables := w1.hubs.shared.tables), HS.News(origin, o1)), w1, c, DrainNext,
                       order[n - 1], node);
      HeardOn(s, origin, o1, o2, w1.hubs.shared.tables, w'.hubs.shared.tables, enc, c, order[n - 1]);
    }
  }

  lemma DroppedNews(s: HS.State, c: Client)
    ensures HS.ClientDropped(s, c).published == s.published && HS.News(s, HS.ClientDropped(s, c)) == []
  {
    hide Drop;
  }

  lemma ShownTables(enc: Encoder, s: HS.State, w: PR.Cluster, node: string)
    requires Shows(enc, s, w, node)
    ensures s.tables == w.hubs.shared.tables
  {
    StripTables(s);
    ViewTables(w.hubs, node);
    hide Frames, Strip, ViewOf;
  }

  lemma HeardOn(s: HS.State, o: HS.State, o1: HS.State, o2: HS.State, t1: Tables, t2: Tables, enc: Encoder,
                c: Client, ch: string)
    requires o.published <= o1.published && o2 == HS.Unsubscribed(o1, enc, c.node, c, ch)
    ensures o.published <= o2.published
    ensures Heard(Heard(s.(tables := t1), HS.News(o, o1)).(tables := t2), HS.News(o1, o2)) ==
            Heard(s.(tables := t2), HS.News(o, o2))
  {
    hide Heard, HS.Departed, HS.Vacated, HS.News;
    HS.DepartedNews(o1, c, ch);
    HS.VacatedNews(HS.Departed(o1, c, ch), enc, c.node, c, ch);
    HS.NewsSum(o, o1, o2);
    HeardTables(s, t1, HS.News(o, o1));
    HeardTables(s, t2, HS.News(o, o1));
    HeardTwice(s.(tables := t2), HS.News(o, o1), HS.News(o1, o2));
  }
}
