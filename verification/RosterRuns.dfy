/**
 * Presence rosters over runs of whole operations: what each subscriber pieces together from its messages is
 * what the broker reports.
 */
module RosterRuns {
  import opened ChannelKeys
  import opened HubIndex
  import opened Presence
  import opened RequestSigning
  import opened HubSteps
  import opened HubMembership
  import opened HubTheorems
  import opened Messages
  import opened Options
  import opened Fanout
  import opened FanoutTheorems
  import opened PresenceRuns

  function Read(users: set<string>, n: Note, ch: string): set<string> {
    match n
    case Succeeded(c, all) => if c == ch then all else users
    case MemberAdded(c, u) => if c == ch then users + {u} else users
    case MemberRemoved(c, u) => if c == ch then users - {u} else users
    case Unrelated => users
  }

  /** The roster a client keeps for the channel from what it read. */
  function Fold(notes: seq<Note>, ch: string): set<string> {
    if notes == [] then {} else Read(Fold(notes[..|notes| - 1], ch), notes[|notes| - 1], ch)
  }

  /** A presence subscriber that lost nothing keeps the roster that the broker reports. */
  ghost predicate InStep(s: Cluster, d: Client, ch: string) {
    IsPresence(ch) && ch in Mine(s.hubs, d) && d !in s.lost ==> SameUsers(s, d, ch)
  }

  /** Joining adds the user and takes no other user out of the roster. */
  ghost predicate JoinSafe(r: Roster, socket: string, user: string) {
    socket in r && r[socket].userID != user ==> exists x :: x in r && x != socket && r[x].userID == r[socket].userID
  }

  /** The user is announced as gone exactly when no other socket of that user stays. */
  ghost predicate LeaveSafe(r: Roster, socket: string) {
    socket in r ==>
      (r[socket].userID == "" <==> exists x :: x in r && x != socket && r[x].userID == r[socket].userID)
  }

  lemma JoinUsers(r: Roster, m: Member)
    ensures Users(r[m.socketID := m]) == Users(r) + {m.userID} <==> JoinSafe(r, m.socketID, m.userID)
  {
    var r' := r[m.socketID := m];
    forall u ensures u in Users(r') <==> u == m.userID || exists x :: x in r && x != m.socketID && r[x].userID == u {
      if x :| x in r && x != m.socketID && r[x].userID == u {
        assert x in r' && r'[x] == r[x];
      }
      if u == m.userID {
        assert m.socketID in r';
      }
    }
    if m.socketID in r {
      assert r[m.socketID].userID in Users(r);
    }
  }

  lemma LeaveUsers(r: Roster, socket: string)
    requires socket in r
    ensures Users(r - {socket}) == Users(r) - (if r[socket].userID == "" then {} else {r[socket].userID})
            <==> LeaveSafe(r, socket)
  {
    var u := r[socket].userID;
    var rest := r - {socket};
    UsersWithout(r, socket);
    assert u in Users(rest) <==> exists x :: x in r && x != socket && r[x].userID == u by {
      if x :| x in r && x != socket && r[x].userID == u {
        assert x in rest && rest[x] == r[x];
      }
    }
  }

  lemma DeliverEffect(s: Cluster, to: set<Client>, n: Note)
    ensures var s' := Deliver(s, to, n);
            && s.lost <= s'.lost
            && forall d :: d !in s'.lost ==> SentTo(s', d) == if d in to then SentTo(s, d) + [n] else SentTo(s, d)
  {}

  lemma FoldAppend(notes: seq<Note>, n: Note, ch: string)
    ensures Fold(notes + [n], ch) == Read(Fold(notes, ch), n, ch)
  {
    assert (notes + [n])[..|notes|] == notes;
  }

  /** Between operations a broadcast reaches every member of the channel but the excluded socket. */
  lemma MemberHears(h: Hubs, p: Payload, d: Client)
    requires Calm(h) && ColonFree(p.app) && p.channel in Mine(h, d)
    ensures d in Audience(h, p) <==> d.app == p.app && !(p.exclude != "" && d.socket == p.exclude)
  {
    AudienceIff(h, p, d);
    hide Calm, Audience;
  }

  /**
   * Besides, it reaches the subscribers of `"*"` on the hub it comes from and on each hub where the channel has
   * a member, and nobody else.
   */
  lemma AudienceIff(h: Hubs, p: Payload, d: Client)
    requires Calm(h) && ColonFree(p.app)
    ensures d in Audience(h, p) <==>
              && d.app == p.app && !(p.exclude != "" && d.socket == p.exclude)
              && (p.channel in Mine(h, d) || ("*" in Mine(h, d) && (d.node == p.origin || HasMember(h, p, d.node))))
  {
    RecipientIff(h, p, d);
    RecordedIff(h, p, d.node);
    hide RecipientsOf, Inv, Key, ColonFree;
    if p.channel in Mine(h, d) && d.app == p.app {
      assert HasMember(h, p, d.node);
    }
  }

  ghost predicate HasMember(h: Hubs, p: Payload, node: string) {
    exists e: Client :: e.node == node && e.app == p.app && p.channel in Mine(h, e)
  }

  /** A hub has recorded a channel's topic exactly if it has a member of the channel. */
  lemma RecordedIff(h: Hubs, p: Payload, node: string)
    requires Calm(h) && ColonFree(p.app)
    ensures SpotOf(p, node) in h.shared.index.subs <==> HasMember(h, p, node)
  {
    var spot := SpotOf(p, node);
    assert Covered(h, spot) && RecordedOK(h.shared) && SetsAgree(h) && SetsOwned(h.shared.index)
      && NoEmptySet(h.shared.index);
    hide IndexInv, PresenceInv, UserPhase, Key;
    if spot in h.shared.index.channels {
      var e :| e in h.shared.index.channels[spot];
      assert e in Members(h.shared.index, spot) && OwnSpot(e, spot);
      var x :| spot == ChannelSpot(e, x);
      assert x in Mine(h, e);
      KeyInjective(p.app, p.channel, e.app, x);
      assert HasMember(h, p, node);
    }
    if HasMember(h, p, node) {
      var e: Client :| e.node == node && e.app == p.app && p.channel in Mine(h, e);
      assert spot == ChannelSpot(e, p.channel) && e in Members(h.shared.index, spot);
    }
  }

  lemma SubscribeNotes(hs: Hashes, s: Cluster, c: Client, req: SubscribeRequest)
    requires IsPresence(req.ch) && Authorized(hs, s.hubs.shared, c, req)
    ensures var s' := DoSubscribe(hs, s, c, req);
            var h' := Subscribed(hs, s.hubs, c, req);
            var others := Audience(h', Announcement(c, Announcing(Added, req.ch, UserOf(req), Back)));
            && s'.hubs == h' && s.lost <= s'.lost
            && forall d :: d !in s'.lost ==>
                 SentTo(s', d) == SentTo(s, d)
                                  + (if d == c then [Succeeded(req.ch, Users(RosterAt(h', c.app, req.ch)))] else [])
                                  + (if d in others then [MemberAdded(req.ch, UserOf(req))] else [])
  {
    hide Subscribed, Audience, Authorized, Key, IsPresence, Users, RosterAt, Deliver, SentTo;
    var h' := Subscribed(hs, s.hubs, c, req);
    var note := Succeeded(req.ch, Users(RosterAt(h', c.app, req.ch)));
    var others := Audience(h', Announcement(c, Announcing(Added, req.ch, UserOf(req), Back)));
    var s0 := s.(hubs := h');
    var s1 := Deliver(s0, {c}, note);
    var s2 := Deliver(s1, others, MemberAdded(req.ch, UserOf(req)));
    DeliverEffect(s0, {c}, note);
    DeliverEffect(s1, others, MemberAdded(req.ch, UserOf(req)));
    SameFrames(s, s0);
    SameFrames(s2, DoSubscribe(hs, s, c, req));
    DeliverHubs(s0, {c}, note);
    DeliverHubs(s1, others, MemberAdded(req.ch, UserOf(req)));
  }

  lemma SameFrames(s: Cluster, s': Cluster)
    requires s'.sent == s.sent
    ensures forall d :: SentTo(s', d) == SentTo(s, d)
  {}

  /** What a subscriber of the channel reads of a join, its own or another's. */
  lemma JoinNotes(hs: Hashes, s: Cluster, c: Client, req: SubscribeRequest, d: Client)
    requires Calm(s.hubs) && IsIdle(s.hubs, c) && IsPresence(req.ch) && Authorized(hs, s.hubs.shared, c, req)
    requires var s' := DoSubscribe(hs, s, c, req);
             d !in s'.lost && d.app == c.app && req.ch in Mine(s'.hubs, d)
    requires d == c || d.socket != c.socket
    ensures var s' := DoSubscribe(hs, s, c, req);
            var r := RosterAt(s.hubs, c.app, req.ch)[c.socket := Member(UserOf(req), InfoOf(req), c.socket)];
            && RosterAt(s'.hubs, c.app, req.ch) == r
            && SentTo(s', d) ==
               SentTo(s, d) + [if d == c then Succeeded(req.ch, Users(r)) else MemberAdded(req.ch, UserOf(req))]
  {
    hide Calm, IsIdle, DoSubscribe, Subscribed, Audience, Authorized, IsPresence, Users, SentTo, RosterAt, Announcement;
    var h' := Subscribed(hs, s.hubs, c, req);
    SubscribeNotes(hs, s, c, req);
    JoinFacts(hs, s.hubs, c, req, d);
    hide Mine;
    var notes, r := SentTo(s, d), RosterAt(h', c.app, req.ch);
    assert notes + [Succeeded(req.ch, Users(r))] + [] == notes + [Succeeded(req.ch, Users(r))];
    assert notes + [] + [MemberAdded(req.ch, UserOf(req))] == notes + [MemberAdded(req.ch, UserOf(req))];
  }

  lemma JoinFacts(hs: Hashes, h: Hubs, c: Client, req: SubscribeRequest, d: Client)
    requires Calm(h) && IsIdle(h, c) && IsPresence(req.ch) && Authorized(hs, h.shared, c, req)
    requires d.app == c.app && req.ch in Mine(Subscribed(hs, h, c, req), d)
    ensures var h' := Subscribed(hs, h, c, req);
            && RosterAt(h', c.app, req.ch) ==
                 RosterAt(h, c.app, req.ch)[c.socket := Member(UserOf(req), InfoOf(req), c.socket)]
            && (d in Audience(h', Announcement(c, Announcing(Added, req.ch, UserOf(req), Back))) <==>
                  d.socket != c.socket)
  {
    NotEmpty(req.ch);
    AppColonFree(h, c);
    hide Calm, Subscribed, Audience, Authorized, Key, IsPresence, RosterAt, EnteredTables, EnteredIndex;
    var h' := Subscribed(hs, h, c, req);
    SubscribedEffect(hs, h, c, req);
    SubscribedCalm(hs, h, c, req);
    AddedRoster(h, c, req, h');
    hide Mine;
    MemberHears(h', Announcement(c, Announcing(Added, req.ch, UserOf(req), Back)), d);
  }

  lemma JoinFold(notes: seq<Note>, ch: string, r: Roster, m: Member)
    requires Fold(notes, ch) == Users(r)
    ensures Fold(notes + [MemberAdded(ch, m.userID)], ch) == Users(r[m.socketID := m])
            <==> JoinSafe(r, m.socketID, m.userID)
  {
    hide Fold, Users, JoinSafe;
    FoldAppend(notes, MemberAdded(ch, m.userID), ch);
    JoinUsers(r, m);
  }

  /** The subscriber's own roster of the channel is the one the broker reports. */
  ghost predicate SameUsers(s: Cluster, d: Client, ch: string) {
    Fold(SentTo(s, d), ch) == Users(RosterAt(s.hubs, d.app, ch))
  }

  /** After a join its own connection is in step, and another subscriber stays so exactly when the join is safe. */
  lemma JoinStepIff(hs: Hashes, s: Cluster, c: Client, req: SubscribeRequest, d: Client)
    requires Calm(s.hubs) && IsIdle(s.hubs, c) && IsPresence(req.ch) && Authorized(hs, s.hubs.shared, c, req)
    requires var s' := DoSubscribe(hs, s, c, req);
             d !in s'.lost && d.app == c.app && req.ch in Mine(s'.hubs, d)
    requires d == c || (d.socket != c.socket && SameUsers(s, d, req.ch))
    ensures SameUsers(DoSubscribe(hs, s, c, req), d, req.ch)
            <==> d == c || JoinSafe(RosterAt(s.hubs, c.app, req.ch), c.socket, UserOf(req))
  {
    hide Calm, IsIdle, DoSubscribe, Authorized, IsPresence, Users, Fold, JoinSafe, SentTo, RosterAt, Mine;
    JoinNotes(hs, s, c, req, d);
    var r := RosterAt(s.hubs, c.app, req.ch);
    var m := Member(UserOf(req), InfoOf(req), c.socket);
    FoldAppend(SentTo(s, d), Succeeded(req.ch, Users(r[m.socketID := m])), req.ch);
    if d != c {
      JoinFold(SentTo(s, d), req.ch, r, m);
    }
  }

  function EntryUser(r: Roster, socket: string): string {
    if socket in r then r[socket].userID else ""
  }

  lemma UnsubscribeNotes(hs: Hashes, s: Cluster, c: Client, ch: string, a: Action)
    ensures var s' := DoUnsubscribe(hs, s, c, ch, a);
            var h' := Left(hs, s.hubs, c, a);
            var user := EntryUser(RosterAt(s.hubs, c.app, ch), c.socket);
            var others := Audience(h', Announcement(c, Announcing(Removed, ch, user, Back)));
            && s'.hubs == h' && s.lost <= s'.lost
            && forall d :: d !in s'.lost ==>
                 SentTo(s', d) == SentTo(s, d) +
                   (if IsPresence(ch) && user != "" && d in others then [MemberRemoved(ch, user)] else [])
  {
    hide Left, Audience, Key, IsPresence, Users, Deliver, SentTo;
    var h' := Left(hs, s.hubs, c, a);
    var user := EntryUser(RosterAt(s.hubs, c.app, ch), c.socket);
    var others := Audience(h', Announcement(c, Announcing(Removed, ch, user, Back)));
    var s0 := s.(hubs := h');
    DeliverEffect(s0, others, MemberRemoved(ch, user));
    DeliverHubs(s0, others, MemberRemoved(ch, user));
    SameFrames(s, s0);
    SameFrames(s0, DoUnsubscribe(hs, s, c, ch, a).(sent := s0.sent));
    SameFrames(if IsPresence(ch) && user != "" then Deliver(s0, others, MemberRemoved(ch, user)) else s0,
               DoUnsubscribe(hs, s, c, ch, a));
  }

  /** What a remaining subscriber of the channel reads of a leave. */
  lemma LeaveNotes(hs: Hashes, s: Cluster, c: Client, ch: string, a: Action, d: Client)
    requires Calm(s.hubs) && Departs(s.hubs, c, a, ch) && IsPresence(ch)
    requires var s' := DoUnsubscribe(hs, s, c, ch, a); d !in s'.lost && d.app == c.app && ch in Mine(s'.hubs, d)
    requires d != c ==> d.socket != c.socket
    ensures var s' := DoUnsubscribe(hs, s, c, ch, a);
            var r := RosterAt(s.hubs, c.app, ch);
            && RosterAt(s'.hubs, c.app, ch) == r - {c.socket}
            && SentTo(s', d) == SentTo(s, d) +
                 (if EntryUser(r, c.socket) == "" then [] else [MemberRemoved(ch, EntryUser(r, c.socket))])
  {
    hide Calm, DoUnsubscribe, Left, Departs, Audience, IsPresence, Users, SentTo, RosterAt, Announcement, EntryUser;
    UnsubscribeNotes(hs, s, c, ch, a);
    LeaveFacts(hs, s.hubs, c, ch, a, EntryUser(RosterAt(s.hubs, c.app, ch), c.socket), d);
  }

  lemma LeaveFacts(hs: Hashes, h: Hubs, c: Client, ch: string, a: Action, user: string, d: Client)
    requires Calm(h) && Departs(h, c, a, ch) && IsPresence(ch)
    requires d.app == c.app && ch in Mine(Left(hs, h, c, a), d)
    requires d != c ==> d.socket != c.socket
    ensures var h' := Left(hs, h, c, a);
            && RosterAt(h', c.app, ch) == RosterAt(h, c.app, ch) - {c.socket}
            && d in Audience(h', Announcement(c, Announcing(Removed, ch, user, Back)))
  {
    AppColonFree(h, c);
    hide Calm, Left, Departs, Audience, Key, IsPresence, RosterAt, LeftTables, Leave;
    var h' := Left(hs, h, c, a);
    LeftEffect(hs, h, c, a, ch);
    LeftCalm(hs, h, c, a, ch);
    RemovedRoster(h, c, ch, h');
    assert d != c;
    hide Mine;
    MemberHears(h', Announcement(c, Announcing(Removed, ch, user, Back)), d);
  }

  /** Another subscriber stays in step exactly when the leave is safe. */
  lemma LeaveStepIff(hs: Hashes, s: Cluster, c: Client, ch: string, a: Action, d: Client)
    requires Calm(s.hubs) && Departs(s.hubs, c, a, ch) && IsPresence(ch)
    requires var s' := DoUnsubscribe(hs, s, c, ch, a); d !in s'.lost && d.app == c.app && ch in Mine(s'.hubs, d)
    requires (d != c ==> d.socket != c.socket) && SameUsers(s, d, ch)
    ensures SameUsers(DoUnsubscribe(hs, s, c, ch, a), d, ch) <==> LeaveSafe(RosterAt(s.hubs, c.app, ch), c.socket)
  {
    hide Calm, DoUnsubscribe, Departs, IsPresence, Users, Fold, LeaveSafe, SentTo, RosterAt, Mine;
    LeaveNotes(hs, s, c, ch, a, d);
    LeaveFold(SentTo(s, d), ch, RosterAt(s.hubs, c.app, ch), c.socket);
  }

  lemma LeaveFold(notes: seq<Note>, ch: string, r: Roster, socket: string)
    requires Fold(notes, ch) == Users(r)
    ensures var user := EntryUser(r, socket);
            Fold(notes + (if user == "" then [] else [MemberRemoved(ch, user)]), ch) == Users(r - {socket})
            <==> LeaveSafe(r, socket)
  {
    var user := EntryUser(r, socket);
    assert notes + [] == notes;
    FoldAppend(notes, MemberRemoved(ch, user), ch);
    if socket in r {
      LeaveUsers(r, socket);
    } else {
      RemoveAbsent(r, socket);
    }
    hide Fold, Users;
  }

  // What an operation leaves alone.

  lemma FoldOthers(notes: seq<Note>, more: seq<Note>, ch: string)
    requires |more| <= 2 && forall n :: n in more ==> n.Unrelated? || n.ch != ch
    ensures Fold(notes + more, ch) == Fold(notes, ch)
  {
    if |more| == 0 {
      assert notes + more == notes;
    } else if |more| == 1 {
      assert more == [more[0]] && more[0] in more;
      FoldAppend(notes, more[0], ch);
    } else {
      assert notes + more == (notes + [more[0]]) + [more[1]] && more[0] in more && more[1] in more;
      FoldAppend(notes, more[0], ch);
      FoldAppend(notes + [more[0]], more[1], ch);
    }
  }

  lemma AudienceApp(h: Hubs, p: Payload, d: Client)
    requires Calm(h) && ColonFree(p.app)
    ensures d in Audience(h, p) ==> d.app == p.app
  {
    RecipientIff(h, p, d);
    hide RecipientsOf, Calm;
  }

  lemma JoinElsewhereFacts(hs: Hashes, h: Hubs, c: Client, req: SubscribeRequest, d: Client, ch': string)
    requires Calm(h) && IsIdle(h, c) && IsPresence(req.ch) && Authorized(hs, h.shared, c, req) && ColonFree(d.app)
    requires !(d.app == c.app && ch' == req.ch)
    ensures var h' := Subscribed(hs, h, c, req);
            && RosterAt(h', d.app, ch') == RosterAt(h, d.app, ch')
            && (d.app == c.app || d !in Audience(h', Announcement(c, Announcing(Added, req.ch, UserOf(req), Back))))
            && (ch' in Mine(h', d) ==> ch' in Mine(h, d))
  {
    hide Calm, Subscribed, Audience, Authorized, Key, IsPresence, EnteredTables, EnteredIndex, MemoryRoster;
    NotEmpty(req.ch);
    AppColonFree(h, c);
    var h' := Subscribed(hs, h, c, req);
    SubscribedEffect(hs, h, c, req);
    SubscribedCalm(hs, h, c, req);
    OtherKeys(d.app, ch', c.app, req.ch);
    AddedRoster(h, c, req, h');
    AudienceApp(h', Announcement(c, Announcing(Added, req.ch, UserOf(req), Back)), d);
  }

  /** A join changes no other channel's roster, on either side. */
  lemma JoinElsewhere(hs: Hashes, s: Cluster, c: Client, req: SubscribeRequest, d: Client, ch': string)
    requires Calm(s.hubs) && IsIdle(s.hubs, c) && IsPresence(req.ch) && Authorized(hs, s.hubs.shared, c, req)
    requires ColonFree(d.app)
    requires InStep(s, d, ch') && !(d.app == c.app && ch' == req.ch)
    ensures InStep(DoSubscribe(hs, s, c, req), d, ch')
  {
    hide Calm, IsIdle, DoSubscribe, Subscribed, Audience, Authorized, IsPresence, Users, Fold, SentTo, RosterAt, Mine,
         Announcement;
    var h' := Subscribed(hs, s.hubs, c, req);
    SubscribeNotes(hs, s, c, req);
    JoinElsewhereFacts(hs, s.hubs, c, req, d, ch');
    var first := if d == c then [Succeeded(req.ch, Users(RosterAt(h', c.app, req.ch)))] else [];
    var second := if d in Audience(h', Announcement(c, Announcing(Added, req.ch, UserOf(req), Back)))
                  then [MemberAdded(req.ch, UserOf(req))] else [];
    assert SentTo(s, d) + first + second == SentTo(s, d) + (first + second);
    if d.app == c.app {
      FoldOthers(SentTo(s, d), first + second, ch');
    } else {
      FoldOthers(SentTo(s, d), [], ch');
    }
  }

  lemma LeaveElsewhereFacts(hs: Hashes, h: Hubs, c: Client, ch: string, a: Action, user: string, d: Client, ch': string)
    requires Calm(h) && Departs(h, c, a, ch) && IsPresence(ch) && ColonFree(d.app)
    requires !(d.app == c.app && ch' == ch)
    ensures var h' := Left(hs, h, c, a);
            && RosterAt(h', d.app, ch') == RosterAt(h, d.app, ch')
            && (d.app == c.app || d !in Audience(h', Announcement(c, Announcing(Removed, ch, user, Back))))
            && (ch' in Mine(h', d) ==> ch' in Mine(h, d))
  {
    AppColonFree(h, c);
    hide Calm, Left, Departs, Audience, Key, IsPresence, LeftTables, Leave, MemoryRoster;
    var h' := Left(hs, h, c, a);
    LeftEffect(hs, h, c, a, ch);
    LeftCalm(hs, h, c, a, ch);
    OtherKeys(d.app, ch', c.app, ch);
    RemovedRoster(h, c, ch, h');
    AudienceApp(h', Announcement(c, Announcing(Removed, ch, user, Back)), d);
  }

  lemma LeaveElsewhere(hs: Hashes, s: Cluster, c: Client, ch: string, a: Action, d: Client, ch': string)
    requires Calm(s.hubs) && Departs(s.hubs, c, a, ch) && IsPresence(ch) && ColonFree(d.app)
    requires InStep(s, d, ch') && !(d.app == c.app && ch' == ch)
    ensures InStep(DoUnsubscribe(hs, s, c, ch, a), d, ch')
  {
    hide Calm, DoUnsubscribe, Left, Departs, Audience, IsPresence, Users, Fold, SentTo, RosterAt, Mine, Announcement,
         EntryUser;
    var user := EntryUser(RosterAt(s.hubs, c.app, ch), c.socket);
    var heard := user != ""
      && d in Audience(Left(hs, s.hubs, c, a), Announcement(c, Announcing(Removed, ch, user, Back)));
    UnsubscribeNotes(hs, s, c, ch, a);
    LeaveElsewhereFacts(hs, s.hubs, c, ch, a, user, d, ch');
    FoldOthers(SentTo(s, d), if heard then [MemberRemoved(ch, user)] else [], ch');
  }

  /** What changes no presence table and sends no presence message keeps every roster. */
  lemma QuietInStep(s: Cluster, s': Cluster, to: set<Client>, d: Client, ch: string)
    requires s'.hubs.shared.tables == s.hubs.shared.tables
    requires s.lost <= s'.lost
    requires d !in s'.lost ==> SentTo(s', d) == SentTo(s, d) + if d in to then [Unrelated] else []
    requires IsPresence(ch) && ch in Mine(s'.hubs, d) ==> ch in Mine(s.hubs, d)
    requires InStep(s, d, ch)
    ensures InStep(s', d, ch)
  {
    hide Mine, IsPresence, SentTo, Users, Key, Fold;
    FoldOthers(SentTo(s, d), if d in to then [Unrelated] else [], ch);
  }

  // Runs.

  /** The join or leave that the call makes, if any, is safe. */
  ghost predicate Safe(hs: Hashes, s: Cluster, k: Call) {
    && (IsJoin(s, k) && IsPresence(k.req.ch) && Authorized(hs, s.hubs.shared, k.c, k.req) ==>
          JoinSafe(RosterAt(s.hubs, k.c.app, k.req.ch), k.c.socket, UserOf(k.req)))
    && (IsLeave(s, k) && IsPresence(LeftBy(s, k)) ==>
          LeaveSafe(RosterAt(s.hubs, k.c.app, LeftBy(s, k)), k.c.socket))
  }

  ghost predicate RosterInv(s: Cluster) {
    Calm(s.hubs) && forall d, ch :: InStep(s, d, ch)
  }

  predicate HasSlot(s: Cluster, d: Client) {
    |SentTo(s, d)| < WrittenTo(s, d) + SLOTS
  }

  /**
   * A connection other than `c` that keeps a roster of the channel and goes on doing so when `c` joins or leaves:
   * it has lost nothing, and where the others are told (`heard`) its send channel has room.
   */
  predicate Watches(s: Cluster, c: Client, ch: string, heard: bool, d: Client) {
    d != c && d.app == c.app && ch in Mine(s.hubs, d) && d !in s.lost && (heard ==> HasSlot(s, d))
  }

  lemma DeliverLoses(s: Cluster, to: set<Client>, n: Note, d: Client)
    ensures var s' := Deliver(s, to, n);
            && (d in s'.lost <==> d in s.lost || (d in to && !HasSlot(s, d)))
            && (d !in to ==> (HasSlot(s', d) <==> HasSlot(s, d)))
  {}

  lemma JoinedMine(hs: Hashes, h: Hubs, c: Client, req: SubscribeRequest, d: Client)
    requires Calm(h) && IsIdle(h, c) && req.ch != "" && d != c
    ensures Mine(Subscribed(hs, h, c, req), d) == Mine(h, d)
    ensures d in h.conns ==> d.socket != c.socket
  {
    if d in h.conns {
      DistinctSockets(h, c, d);
    }
    SubscribedEffect(hs, h, c, req);
    hide Calm, Subscribed, Authorized, EnteredConn, EnteredIndex, EnteredTables;
  }

  /** Who is in the channel and has lost nothing after a join. */
  lemma JoinWatches(hs: Hashes, s: Cluster, c: Client, req: SubscribeRequest, d: Client)
    requires Calm(s.hubs) && IsIdle(s.hubs, c) && IsPresence(req.ch) && Authorized(hs, s.hubs.shared, c, req)
    requires d != c && d.app == c.app
    ensures var s' := DoSubscribe(hs, s, c, req);
            req.ch in Mine(s'.hubs, d) && d !in s'.lost <==> Watches(s, c, req.ch, true, d)
  {
    NotEmpty(req.ch);
    JoinedMine(hs, s.hubs, c, req, d);
    JoinLoses(hs, s, c, req, d);
    DoSubscribeHubs(hs, s, c, req);
    hide Calm, IsIdle, Subscribed, DoSubscribe, Audience, Authorized, IsPresence, RosterAt, HasSlot, Announcement;
    if req.ch in Mine(s.hubs, d) {
      JoinFacts(hs, s.hubs, c, req, d);
    }
  }

  lemma JoinLoses(hs: Hashes, s: Cluster, c: Client, req: SubscribeRequest, d: Client)
    requires IsPresence(req.ch) && Authorized(hs, s.hubs.shared, c, req) && d != c
    ensures var h' := Subscribed(hs, s.hubs, c, req);
            var others := Audience(h', Announcement(c, Announcing(Added, req.ch, UserOf(req), Back)));
            d in DoSubscribe(hs, s, c, req).lost <==> d in s.lost || (d in others && !HasSlot(s, d))
  {
    hide Subscribed, Audience, Authorized, IsPresence, Users, RosterAt, Deliver, HasSlot, MemoryOccupancy, Announcement;
    var s0 := s.(hubs := Subscribed(hs, s.hubs, c, req));
    var note := Succeeded(req.ch, Users(RosterAt(s0.hubs, c.app, req.ch)));
    var others := Audience(s0.hubs, Announcement(c, Announcing(Added, req.ch, UserOf(req), Back)));
    SameSlots(s, s0, d);
    DeliverLoses(s0, {c}, note, d);
    DeliverHubs(s0, {c}, note);
    DeliverLoses(Deliver(s0, {c}, note), others, MemberAdded(req.ch, UserOf(req)), d);
  }

  lemma SameSlots(s: Cluster, s': Cluster, d: Client)
    requires s'.sent == s.sent && s'.written == s.written
    ensures HasSlot(s', d) <==> HasSlot(s, d)
  {}

  lemma LeftMine(hs: Hashes, h: Hubs, c: Client, a: Action, ch: string, d: Client)
    requires Calm(h) && Departs(h, c, a, ch) && d != c && ch in Mine(h, d)
    ensures ch in Mine(Left(hs, h, c, a), d) && d.socket != c.socket
  {
    DistinctSockets(h, c, d);
    LeftEffect(hs, h, c, a, ch);
    hide Calm, Left, Departs, LeftConn, LeftTables, Leave;
  }

  lemma LeftMineOnly(hs: Hashes, h: Hubs, c: Client, a: Action, ch: string, d: Client)
    requires Departs(h, c, a, ch) && d != c
    ensures Mine(Left(hs, h, c, a), d) == Mine(h, d)
  {
    LeftEffect(hs, h, c, a, ch);
    hide Left, Departs, LeftConn, LeftTables, Leave;
  }

  /** And after a leave. */
  lemma LeaveWatches(hs: Hashes, s: Cluster, c: Client, ch: string, a: Action, d: Client)
    requires Calm(s.hubs) && Departs(s.hubs, c, a, ch) && IsPresence(ch) && d != c && d.app == c.app
    ensures var s' := DoUnsubscribe(hs, s, c, ch, a);
            var user := EntryUser(RosterAt(s.hubs, c.app, ch), c.socket);
            ch in Mine(s'.hubs, d) && d !in s'.lost <==> Watches(s, c, ch, user != "", d)
  {
    LeftMineOnly(hs, s.hubs, c, a, ch, d);
    LeaveLoses(hs, s, c, ch, a, d);
    DoUnsubscribeHubs(hs, s, c, ch, a);
    hide Calm, Left, DoUnsubscribe, Departs, Audience, IsPresence, HasSlot, RosterAt, EntryUser, Announcement;
    if ch in Mine(s.hubs, d) {
      LeftMine(hs, s.hubs, c, a, ch, d);
      LeaveFacts(hs, s.hubs, c, ch, a, EntryUser(RosterAt(s.hubs, c.app, ch), c.socket), d);
    }
  }

  lemma LeaveLoses(hs: Hashes, s: Cluster, c: Client, ch: string, a: Action, d: Client)
    requires IsPresence(ch)
    ensures var user := EntryUser(RosterAt(s.hubs, c.app, ch), c.socket);
            var others := Audience(Left(hs, s.hubs, c, a), Announcement(c, Announcing(Removed, ch, user, Back)));
            d in DoUnsubscribe(hs, s, c, ch, a).lost <==> d in s.lost || (user != "" && d in others && !HasSlot(s, d))
  {
    hide Left, Audience, IsPresence, Deliver, HasSlot, Key, MemoryOccupancy, Announcement;
    var s0 := s.(hubs := Left(hs, s.hubs, c, a));
    var user := EntryUser(RosterAt(s.hubs, c.app, ch), c.socket);
    assert user == MemoryRemove(s.hubs.shared.tables, Key(c.app, ch), c.socket).1;
    var others := Audience(s0.hubs, Announcement(c, Announcing(Removed, ch, user, Back)));
    SameSlots(s, s0, d);
    DeliverLoses(s0, others, MemberRemoved(ch, user), d);
  }

  lemma SubscribeInStep(hs: Hashes, s: Cluster, c: Client, req: SubscribeRequest, d: Client, ch': string)
    requires Calm(s.hubs) && IsIdle(s.hubs, c) && req.ch != "" && InStep(s, d, ch')
    requires IsPresence(req.ch) && Authorized(hs, s.hubs.shared, c, req) && Watches(s, c, req.ch, true, d) ==>
               JoinSafe(RosterAt(s.hubs, c.app, req.ch), c.socket, UserOf(req))
    ensures InStep(DoSubscribe(hs, s, c, req), d, ch')
  {
    hide Calm, DoSubscribe, Subscribed, Authorized, IsPresence, JoinSafe, SameUsers, RosterAt, EnteredIndex, Watches;
    SubscribedEffect(hs, s.hubs, c, req);
    if !IsPresence(req.ch) || !Authorized(hs, s.hubs.shared, c, req) {
      QuietSubscribe(hs, s, c, req);
      QuietInStep(s, DoSubscribe(hs, s, c, req), {c}, d, ch');
    } else {
      SubscribeNotes(hs, s, c, req);
      if d in s.hubs.conns {
        AppColonFree(s.hubs, d);
        if d.app == c.app && ch' == req.ch {
          if d != c {
            DistinctSockets(s.hubs, c, d);
            JoinWatches(hs, s, c, req, d);
          }
          if req.ch in Mine(DoSubscribe(hs, s, c, req).hubs, d) && d !in DoSubscribe(hs, s, c, req).lost {
            JoinStepIff(hs, s, c, req, d);
          }
        } else {
          JoinElsewhere(hs, s, c, req, d, ch');
        }
      }
    }
  }

  lemma QuietSubscribe(hs: Hashes, s: Cluster, c: Client, req: SubscribeRequest)
    requires !IsPresence(req.ch) || !Authorized(hs, s.hubs.shared, c, req)
    ensures var s' := DoSubscribe(hs, s, c, req);
            && s'.hubs == Subscribed(hs, s.hubs, c, req) && s.lost <= s'.lost
            && forall d :: d !in s'.lost ==> SentTo(s', d) == SentTo(s, d) + if d in {c} then [Unrelated] else []
  {
    hide Subscribed, Audience, Authorized, Key, IsPresence, Users, RosterAt, Deliver, SentTo;
    var s0 := s.(hubs := Subscribed(hs, s.hubs, c, req));
    DeliverEffect(s0, {c}, Unrelated);
    DeliverHubs(s0, {c}, Unrelated);
    SameFrames(s, s0);
    SameFrames(Deliver(s0, {c}, Unrelated), DoSubscribe(hs, s, c, req));
  }

  lemma UnsubscribeInStep(hs: Hashes, s: Cluster, c: Client, ch: string, a: Action, d: Client, ch': string)
    requires Calm(s.hubs) && Departs(s.hubs, c, a, ch) && InStep(s, d, ch')
    requires var r := RosterAt(s.hubs, c.app, ch);
             IsPresence(ch) && Watches(s, c, ch, EntryUser(r, c.socket) != "", d) ==> LeaveSafe(r, c.socket)
    ensures InStep(DoUnsubscribe(hs, s, c, ch, a), d, ch')
  {
    hide Calm, DoUnsubscribe, Departs, Left, IsPresence, LeaveSafe, SameUsers, RosterAt, MemoryRemove, Leave, Watches,
         EntryUser;
    LeftEffect(hs, s.hubs, c, a, ch);
    UnsubscribeNotes(hs, s, c, ch, a);
    if !IsPresence(ch) {
      QuietInStep(s, DoUnsubscribe(hs, s, c, ch, a), {}, d, ch');
    } else if d in s.hubs.conns {
      AppColonFree(s.hubs, d);
      if d.app == c.app && ch' == ch {
        if d != c {
          DistinctSockets(s.hubs, c, d);
          LeaveWatches(hs, s, c, ch, a, d);
        }
        if ch in Mine(DoUnsubscribe(hs, s, c, ch, a).hubs, d) && d !in DoUnsubscribe(hs, s, c, ch, a).lost {
          LeaveStepIff(hs, s, c, ch, a, d);
        }
      } else {
        LeaveElsewhere(hs, s, c, ch, a, d, ch');
      }
    }
  }

  lemma QuietCallInStep(hs: Hashes, s: Cluster, k: Call, d: Client, ch: string)
    requires !IsJoin(s, k) && !IsLeave(s, k) && InStep(s, d, ch)
    ensures InStep(Perform(hs, s, k), d, ch)
  {
    QuietCall(hs, s, k);
    QuietFrames(hs, s, k, d);
    hide Perform, SentTo, SameUsers, Mine, IsPresence;
    assert SentTo(s, d) + [] == SentTo(s, d);
    var to := if (k.Arrive? && CanConnect(s.hubs, k.c)) || (k.SendUnrelated? && k.c in s.hubs.conns) then {k.c} else {};
    QuietInStep(s, Perform(hs, s, k), to, d, ch);
  }

  lemma QuietFrames(hs: Hashes, s: Cluster, k: Call, d: Client)
    requires !IsJoin(s, k) && !IsLeave(s, k)
    ensures var s' := Perform(hs, s, k);
            var to := if (k.Arrive? && CanConnect(s.hubs, k.c)) || (k.SendUnrelated? && k.c in s.hubs.conns)
                      then {k.c} else {};
            && s.lost <= s'.lost
            && (d !in s'.lost ==> SentTo(s', d) == SentTo(s, d) + if d in to then [Unrelated] else [])
  {
    hide Step, DoConnect, DoSetApp, CanConnect, Deliver, DoSubscribe, DoUnsubscribe;
    assert SentTo(s, d) + [] == SentTo(s, d);
    match k
    case Arrive(c) => DeliverEffect(s.(hubs := DoConnect(s.hubs, c)), {c}, Unrelated);
    case SendUnrelated(c) => DeliverEffect(s, {c}, Unrelated);
    case _ =>
  }

  lemma PerformInStep(hs: Hashes, s: Cluster, k: Call, d: Client, ch: string)
    requires Calm(s.hubs) && (WatchedBy(hs, s, k, d) ==> Safe(hs, s, k)) && InStep(s, d, ch)
    ensures InStep(Perform(hs, s, k), d, ch)
  {
    PerformIs(hs, s, k);
    hide Calm, JoinSafe, LeaveSafe, DoSubscribe, DoUnsubscribe, Perform, IsPresence, InStep, RosterAt, Departs,
         LeaveAction, Authorized, Watches, EntryUser;
    if IsJoin(s, k) {
      SubscribeInStep(hs, s, k.c, k.req, d, ch);
    } else if IsLeave(s, k) {
      UnsubscribeInStep(hs, s, k.c, LeftBy(s, k), LeaveAction(k), d, ch);
    } else {
      QuietCallInStep(hs, s, k, d, ch);
    }
  }

  /** The call is a join or leave of a presence channel, and the connection watches. */
  ghost predicate WatchedBy(hs: Hashes, s: Cluster, k: Call, d: Client) {
    || (IsJoin(s, k) && IsPresence(k.req.ch) && Authorized(hs, s.hubs.shared, k.c, k.req)
        && Watches(s, k.c, k.req.ch, true, d))
    || (IsLeave(s, k) && IsPresence(LeftBy(s, k))
        && Watches(s, k.c, LeftBy(s, k), EntryUser(RosterAt(s.hubs, k.c.app, LeftBy(s, k)), k.c.socket) != "", d))
  }

  ghost predicate Watched(hs: Hashes, s: Cluster, k: Call) {
    exists d :: WatchedBy(hs, s, k, d)
  }

  lemma PerformKeepsRosters(hs: Hashes, s: Cluster, k: Call)
    requires RosterInv(s) && (Safe(hs, s, k) || !Watched(hs, s, k))
    ensures RosterInv(Perform(hs, s, k))
  {
    PerformCalm(hs, s, k);
    hide Calm, Safe, Perform, InStep, WatchedBy;
    forall d, ch ensures InStep(Perform(hs, s, k), d, ch) {
      PerformInStep(hs, s, k, d, ch);
    }
  }

  /** Every join and leave of the run is safe. */
  ghost predicate SafeRun(hs: Hashes, nodes: set<string>, calls: seq<Call>) {
    calls == [] ||
      (SafeRun(hs, nodes, calls[..|calls| - 1])
       && Safe(hs, Performed(hs, nodes, calls[..|calls| - 1]), calls[|calls| - 1]))
  }

  /** Then, after every call, every presence subscriber that lost no frame keeps the roster the broker reports. */
  lemma {:induction false} RostersConverge(hs: Hashes, nodes: set<string>, calls: seq<Call>)
    requires SafeRun(hs, nodes, calls)
    ensures RosterInv(Performed(hs, nodes, calls))
  {
    if calls == [] {
      RunKeepsInv(hs, nodes, []);
    } else {
      RostersConverge(hs, nodes, calls[..|calls| - 1]);
      PerformKeepsRosters(hs, Performed(hs, nodes, calls[..|calls| - 1]), calls[|calls| - 1]);
    }
  }

  /** An unsafe call takes whoever watches out of step. */
  lemma UnsafeMisleads(hs: Hashes, s: Cluster, k: Call, d: Client)
    requires RosterInv(s) && !Safe(hs, s, k) && WatchedBy(hs, s, k, d)
    ensures !InStep(Perform(hs, s, k), d, if IsJoin(s, k) then k.req.ch else LeftBy(s, k))
  {
    PerformIs(hs, s, k);
    hide Calm, JoinSafe, LeaveSafe, DoSubscribe, DoUnsubscribe, Perform, IsPresence, SameUsers, RosterAt, Departs,
         LeaveAction, Authorized, HasSlot, EntryUser;
    DistinctSockets(s.hubs, k.c, d);
    if IsJoin(s, k) {
      assert InStep(s, d, k.req.ch);
      JoinWatches(hs, s, k.c, k.req, d);
      JoinStepIff(hs, s, k.c, k.req, d);
    } else {
      assert InStep(s, d, LeftBy(s, k));
      LeaveWatches(hs, s, k.c, LeftBy(s, k), LeaveAction(k), d);
      LeaveStepIff(hs, s, k.c, LeftBy(s, k), LeaveAction(k), d);
    }
  }

  /** From rosters in step a call leads to rosters in step exactly when it is safe or nobody watches. */
  lemma PerformKeepsRostersIff(hs: Hashes, s: Cluster, k: Call)
    requires RosterInv(s)
    ensures RosterInv(Perform(hs, s, k)) <==> Safe(hs, s, k) || !Watched(hs, s, k)
  {
    if Safe(hs, s, k) || !Watched(hs, s, k) {
      PerformKeepsRosters(hs, s, k);
    } else {
      var d :| WatchedBy(hs, s, k, d);
      UnsafeMisleads(hs, s, k, d);
    }
  }

  /** Every join and leave of the run is safe or watched by nobody. */
  ghost predicate HarmlessRun(hs: Hashes, nodes: set<string>, calls: seq<Call>) {
    calls == [] ||
      var before, k := calls[..|calls| - 1], calls[|calls| - 1];
      var s := Performed(hs, nodes, before);
      HarmlessRun(hs, nodes, before) && (Safe(hs, s, k) || !Watched(hs, s, k))
  }

  /** After every call of the run every presence subscriber that lost no frame is in step. */
  ghost predicate AlwaysInStep(hs: Hashes, nodes: set<string>, calls: seq<Call>) {
    forall n :: 0 <= n <= |calls| ==> RosterInv(Performed(hs, nodes, calls[..n]))
  }

  lemma AlwaysSplits(hs: Hashes, nodes: set<string>, calls: seq<Call>)
    requires calls != []
    ensures AlwaysInStep(hs, nodes, calls) <==>
            AlwaysInStep(hs, nodes, calls[..|calls| - 1]) && RosterInv(Performed(hs, nodes, calls))
  {
    hide Performed, RosterInv;
    var m := |calls| - 1;
    assert calls[..m + 1] == calls;
    forall n | 0 <= n <= m ensures calls[..m][..n] == calls[..n] {}
    if AlwaysInStep(hs, nodes, calls[..m]) && RosterInv(Performed(hs, nodes, calls)) {
      forall n | 0 <= n <= m ensures RosterInv(Performed(hs, nodes, calls[..n])) {
        assert RosterInv(Performed(hs, nodes, calls[..m][..n]));
      }
    }
  }

  /** That is so exactly when the run is harmless. */
  lemma {:induction false} RostersConvergeIff(hs: Hashes, nodes: set<string>, calls: seq<Call>)
    ensures AlwaysInStep(hs, nodes, calls) <==> HarmlessRun(hs, nodes, calls)
  {
    if calls == [] {
      RunKeepsInv(hs, nodes, []);
    } else {
      var before, k := calls[..|calls| - 1], calls[|calls| - 1];
      RostersConvergeIff(hs, nodes, before);
      AlwaysSplits(hs, nodes, calls);
      hide RosterInv, Perform, Safe, Watched;
      if AlwaysInStep(hs, nodes, before) {
        assert before[..|before|] == before;
        PerformKeepsRostersIff(hs, Performed(hs, nodes, before), k);
      }
    }
  }

  // What a caller can check: no second socket and no second ID for a user, and no empty ID.

  ghost predicate Fresh(r: Roster, socket: string, user: string) {
    && user != ""
    && (forall x :: x in r && r[x].userID == user ==> x == socket)
    && (socket in r ==> r[socket].userID == user)
  }

  ghost predicate Tidy(r: Roster) {
    OneSocketPerUser(r) && forall x :: x in r ==> r[x].userID != ""
  }

  /** A presence join that the call makes, if any, is fresh. */
  ghost predicate FreshCall(hs: Hashes, s: Cluster, k: Call) {
    IsJoin(s, k) && IsPresence(k.req.ch) && Authorized(hs, s.hubs.shared, k.c, k.req) ==>
      Fresh(RosterAt(s.hubs, k.c.app, k.req.ch), k.c.socket, UserOf(k.req))
  }

  ghost predicate FreshRun(hs: Hashes, nodes: set<string>, calls: seq<Call>) {
    calls == [] ||
      (FreshRun(hs, nodes, calls[..|calls| - 1])
       && FreshCall(hs, Performed(hs, nodes, calls[..|calls| - 1]), calls[|calls| - 1]))
  }

  ghost predicate AllTidy(t: Tables) {
    forall key :: Tidy(MemoryRoster(t, key))
  }

  lemma TidyIsSafe(r: Roster, socket: string, user: string)
    requires Tidy(r)
    ensures LeaveSafe(r, socket) && Tidy(r - {socket})
    ensures Fresh(r, socket, user) ==> JoinSafe(r, socket, user)
    ensures forall info :: Fresh(r, socket, user) ==> Tidy(r[socket := Member(user, info, socket)])
  {}

  lemma TablesStayTidy(t: Tables, key: string, m: Member)
    requires AllTidy(t)
    ensures AllTidy(MemoryRemove(t, key, m.socketID).0)
    ensures Fresh(MemoryRoster(t, key), m.socketID, m.userID) ==> AllTidy(MemoryAdd(t, key, m))
  {
    hide Fresh, Tidy, MemoryRoster, MemoryAdd, MemoryRemove;
    var r := MemoryRoster(t, key);
    TidyIsSafe(r, m.socketID, m.userID);
    AddedRosters(t, key, m);
    RemovedRosters(t, key, m.socketID);
    assert m == Member(m.userID, m.userInfo, m.socketID);
    forall k ensures Tidy(MemoryRoster(MemoryRemove(t, key, m.socketID).0, k)) {
      assert Tidy(MemoryRoster(t, k));
    }
    if Fresh(r, m.socketID, m.userID) {
      forall k ensures Tidy(MemoryRoster(MemoryAdd(t, key, m), k)) {
        assert Tidy(MemoryRoster(t, k));
      }
    }
  }

  lemma FreshIsSafe(hs: Hashes, s: Cluster, k: Call)
    requires AllTidy(s.hubs.shared.tables) && FreshCall(hs, s, k)
    ensures Safe(hs, s, k)
  {
    hide Tidy, Fresh, JoinSafe, LeaveSafe, IsPresence, Authorized, Key;
    if IsJoin(s, k) {
      TidyIsSafe(RosterAt(s.hubs, k.c.app, k.req.ch), k.c.socket, UserOf(k.req));
    }
    if IsLeave(s, k) {
      TidyIsSafe(RosterAt(s.hubs, k.c.app, LeftBy(s, k)), k.c.socket, "");
    }
  }

  lemma PerformStaysTidy(hs: Hashes, s: Cluster, k: Call)
    requires AllTidy(s.hubs.shared.tables) && FreshCall(hs, s, k)
    ensures AllTidy(Perform(hs, s, k).hubs.shared.tables)
  {
    PerformIs(hs, s, k);
    hide AllTidy, Fresh, IsPresence, Authorized, Key, DoSubscribe, DoUnsubscribe, Perform, Departs, LeaveAction,
         MemoryAdd, MemoryRemove, EnteredConn, EnteredIndex, LeftConn, Leave, Subscribed, Left;
    var t, c := s.hubs.shared.tables, if k.SetApp? then Client("", "", "") else k.c;
    if IsJoin(s, k) {
      SubscribedEffect(hs, s.hubs, c, k.req);
      DoSubscribeHubs(hs, s, c, k.req);
      TablesStayTidy(t, Key(c.app, k.req.ch), Member(UserOf(k.req), InfoOf(k.req), c.socket));
    } else if IsLeave(s, k) {
      LeftEffect(hs, s.hubs, c, LeaveAction(k), LeftBy(s, k));
      DoUnsubscribeHubs(hs, s, c, LeftBy(s, k), LeaveAction(k));
      TablesStayTidy(t, Key(c.app, LeftBy(s, k)), Member("", "", c.socket));
    } else {
      QuietCall(hs, s, k);
    }
  }

  /** Where no user has a second socket in a channel or an empty ID, every roster stays in step. */
  lemma {:induction false} OneSocketPerUserConverges(hs: Hashes, nodes: set<string>, calls: seq<Call>)
    requires FreshRun(hs, nodes, calls)
    ensures SafeRun(hs, nodes, calls) && RosterInv(Performed(hs, nodes, calls))
    ensures AllTidy(Performed(hs, nodes, calls).hubs.shared.tables)
  {
    if calls != [] {
      var s := Performed(hs, nodes, calls[..|calls| - 1]);
      OneSocketPerUserConverges(hs, nodes, calls[..|calls| - 1]);
      FreshIsSafe(hs, s, calls[|calls| - 1]);
      PerformStaysTidy(hs, s, calls[|calls| - 1]);
    }
    hide RosterInv, Perform, Safe, FreshCall;
    RostersConverge(hs, nodes, calls);
  }

  // With a second socket of one user a roster goes wrong.

  /**
   * One of two sockets of a user leaves after any run: another subscriber of the channel that lost nothing takes
   * the user out of its roster, while the broker still reports the user.
   */
  lemma SecondSocketMisleads(hs: Hashes, nodes: set<string>, calls: seq<Call>, c1: Client, c2: Client, d: Client,
                             ch: string)
    requires IsPresence(ch) && c1.socket != c2.socket && d != c2 && d.app == c2.app
    requires var s := Performed(hs, nodes, calls);
             var r := RosterAt(s.hubs, c2.app, ch);
             && IsIdle(s.hubs, c2) && ch in Mine(s.hubs, d)
             && c1.socket in r && c2.socket in r && r[c1.socket].userID == r[c2.socket].userID != ""
             && d !in Performed(hs, nodes, calls + [Unsubscribe(c2, ch)]).lost
    ensures var user := RosterAt(Performed(hs, nodes, calls).hubs, c2.app, ch)[c2.socket].userID;
            var s' := Performed(hs, nodes, calls + [Unsubscribe(c2, ch)]);
            user in Users(RosterAt(s'.hubs, d.app, ch)) && user !in Fold(SentTo(s', d), ch)
  {
    var s := Performed(hs, nodes, calls);
    NotEmpty(ch);
    PerformedAppend(hs, nodes, calls, Unsubscribe(c2, ch));
    PerformedCalm(hs, nodes, calls);
    hide Performed, IsPresence, Calm, Mine, DoUnsubscribe, Left, RosterAt, SentTo, Fold, Users;
    StillThere(hs, s, c1, c2, d, ch);
  }

  lemma StillThere(hs: Hashes, s: Cluster, c1: Client, c2: Client, d: Client, ch: string)
    requires IsPresence(ch) && c1.socket != c2.socket && d != c2 && d.app == c2.app
    requires Calm(s.hubs) && IsIdle(s.hubs, c2) && ch in Mine(s.hubs, d)
    requires var r := RosterAt(s.hubs, c2.app, ch);
             c1.socket in r && c2.socket in r && r[c1.socket].userID == r[c2.socket].userID != ""
    requires d !in DoUnsubscribe(hs, s, c2, ch, BeginUnsubscribe(ch)).lost
    ensures var user := RosterAt(s.hubs, c2.app, ch)[c2.socket].userID;
            var s' := DoUnsubscribe(hs, s, c2, ch, BeginUnsubscribe(ch));
            user in Users(RosterAt(s'.hubs, d.app, ch)) && user !in Fold(SentTo(s', d), ch)
  {
    var a := BeginUnsubscribe(ch);
    NotEmpty(ch);
    LeftMine(hs, s.hubs, c2, a, ch, d);
    DoUnsubscribeHubs(hs, s, c2, ch, a);
    hide IsPresence, Calm, IsIdle, Mine, DoUnsubscribe, Left, RosterAt, SentTo, Fold, Users;
    LeaveNotes(hs, s, c2, ch, a, d);
    TakenOut(SentTo(s, d), ch, RosterAt(s.hubs, c2.app, ch), c1.socket, c2.socket);
  }

  lemma TakenOut(notes: seq<Note>, ch: string, r: Roster, x: string, y: string)
    requires x in r && y in r && x != y && r[x].userID == r[y].userID
    ensures r[y].userID in Users(r - {y}) && r[y].userID !in Fold(notes + [MemberRemoved(ch, r[y].userID)], ch)
  {
    FoldAppend(notes, MemberRemoved(ch, r[y].userID), ch);
    assert x in r - {y} && (r - {y})[x] == r[x];
  }

  lemma PerformedAppend(hs: Hashes, nodes: set<string>, calls: seq<Call>, k: Call)
    ensures Performed(hs, nodes, calls + [k]) == Perform(hs, Performed(hs, nodes, calls), k)
  {
    assert (calls + [k])[..|calls|] == calls;
    hide Perform;
  }

  // Such a run exists in every cluster, with a third client in step until then.

  /** A correctly signed request of `c` to join as `user`. */
  function SignedRequest(hs: Hashes, app: Credentials, c: Client, ch: string, user: string): SubscribeRequest {
    SubscribeRequest(ch, GenerateChannelAuth(hs, app.appKey, app.secret, c.socket, ch, user), user, Some((user, "")))
  }

  function ThreeArrivals(app: Credentials, c1: Client, c2: Client, d: Client): seq<Call> {
    [Call.SetApp(d.app, Some(app))] + [Arrive(c1)] + [Arrive(c2)] + [Arrive(d)]
  }

  /** Two sockets join as one user, then a third client joins. */
  function ThreeJoin(hs: Hashes, app: Credentials, c1: Client, c2: Client, d: Client,
                     ch: string, user: string, third: string): seq<Call> {
    ThreeArrivals(app, c1, c2, d) + [Subscribe(c1, SignedRequest(hs, app, c1, ch, user))]
    + [Subscribe(c2, SignedRequest(hs, app, c2, ch, user))] + [Subscribe(d, SignedRequest(hs, app, d, ch, third))]
  }

  /** Nothing is lost and nobody was sent more than `n` frames. */
  ghost predicate Light(s: Cluster, n: nat) {
    s.lost == {} && forall d :: d in s.sent ==> |s.sent[d]| <= n
  }

  lemma DeliverLight(s: Cluster, to: set<Client>, note: Note, n: nat)
    requires Light(s, n) && n < SLOTS
    ensures Light(Deliver(s, to, note), n + 1)
  {}

  lemma PerformLight(hs: Hashes, s: Cluster, k: Call, n: nat)
    requires Light(s, n) && n + 2 <= SLOTS && (k.SetApp? || k.Arrive? || k.Subscribe? || k.Unsubscribe?)
    ensures Light(Perform(hs, s, k), n + 2)
  {
    hide Deliver, Audience, Announcement, Users, RosterAt, Authorized, IsPresence, Subscribed, Left, MemoryRemove,
         MemoryOccupancy, DoConnect, DoSetApp;
    match k
    case Arrive(c) => DeliverLight(s.(hubs := DoConnect(s.hubs, c)), {c}, Unrelated, n);
    case Subscribe(c, req) =>
      var s0 := s.(hubs := Subscribed(hs, s.hubs, c, req));
      var note := Succeeded(req.ch, Users(RosterAt(s0.hubs, c.app, req.ch)));
      DeliverLight(s0, {c}, Unrelated, n);
      DeliverLight(s0, {c}, note, n);
      DeliverLight(Deliver(s0, {c}, note),
                   Audience(s0.hubs, Announcement(c, Announcing(Added, req.ch, UserOf(req), Back))),
                   MemberAdded(req.ch, UserOf(req)), n + 1);
    case Unsubscribe(c, ch) =>
      var s0 := s.(hubs := Left(hs, s.hubs, c, BeginUnsubscribe(ch)));
      var user := MemoryRemove(s.hubs.shared.tables, Key(c.app, ch), c.socket).1;
      DeliverLight(s0, Audience(s0.hubs, Announcement(c, Announcing(Removed, ch, user, Back))),
                   MemberRemoved(ch, user), n);
    case _ =>
  }

  lemma {:induction false} PerformedLight(hs: Hashes, nodes: set<string>, calls: seq<Call>)
    requires forall k :: k in calls ==> k.SetApp? || k.Arrive? || k.Subscribe? || k.Unsubscribe?
    requires 2 * |calls| <= SLOTS
    ensures Light(Performed(hs, nodes, calls), 2 * |calls|)
  {
    if calls != [] {
      PerformedLight(hs, nodes, calls[..|calls| - 1]);
      PerformLight(hs, Performed(hs, nodes, calls[..|calls| - 1]), calls[|calls| - 1], 2 * |calls| - 2);
    }
  }

  /** The application is in the store, and the clients are connected and at rest. */
  ghost predicate Ready(h: Hubs, app: string, credentials: Credentials, clients: set<Client>) {
    && Calm(h) && app in h.shared.store && h.shared.store[app] == credentials
    && forall c :: c in clients ==> IsIdle(h, c) && c.app == app
  }

  lemma PerformedFirst(hs: Hashes, nodes: set<string>, k: Call)
    ensures Performed(hs, nodes, [k]) == Perform(hs, Cluster(Start(nodes), map[], map[], {}, []), k)
  {
    hide Perform;
    assert [k][..0] == [];
  }

  lemma StartReady(hs: Hashes, nodes: set<string>, app: string, credentials: Credentials)
    ensures var h := Performed(hs, nodes, [Call.SetApp(app, Some(credentials))]).hubs;
            && Ready(h, app, credentials, {}) && h.nodes == nodes && h.sockets == map[]
            && h.shared.tables == Tables(map[], map[])
  {
    hide Calm, Performed;
    PerformedFirst(hs, nodes, Call.SetApp(app, Some(credentials)));
    PerformedCalm(hs, nodes, [Call.SetApp(app, Some(credentials))]);
  }

  lemma ConnectReady(h: Hubs, app: Credentials, clients: set<Client>, c: Client)
    requires Ready(h, c.app, app, clients) && CanConnect(h, c)
    ensures var h' := DoConnect(h, c);
            && Ready(h', c.app, app, clients + {c})
            && h'.nodes == h.nodes && h'.shared.tables == h.shared.tables
            && h'.sockets.Keys == h.sockets.Keys + {c.socket}
  {
    ConnectKeepsInv(h, c);
    hide Inv, CanConnect, Register;
  }

  lemma UnusedSocket(h: Hubs, c: Client)
    requires Calm(h) && ColonFree(c.app) && c.node in h.nodes && c.socket != "" && c.socket !in h.sockets
    ensures CanConnect(h, c)
  {}

  lemma ArriveReady(hs: Hashes, nodes: set<string>, calls: seq<Call>, app: Credentials, clients: set<Client>, c: Client)
    requires var h := Performed(hs, nodes, calls).hubs;
             && Ready(h, c.app, app, clients) && ColonFree(c.app)
             && c.node in h.nodes && c.socket != "" && c.socket !in h.sockets
    ensures var h0 := Performed(hs, nodes, calls).hubs;
            var h := Performed(hs, nodes, calls + [Arrive(c)]).hubs;
            && Ready(h, c.app, app, clients + {c})
            && h.nodes == h0.nodes && h.shared.tables == h0.shared.tables
            && h.sockets.Keys == h0.sockets.Keys + {c.socket}
  {
    var s := Performed(hs, nodes, calls);
    PerformedAppend(hs, nodes, calls, Arrive(c));
    UnusedSocket(s.hubs, c);
    ConnectReady(s.hubs, app, clients, c);
    DeliverHubs(s.(hubs := DoConnect(s.hubs, c)), {c}, Unrelated);
    hide Performed, Ready, Deliver, CanConnect, DoConnect;
  }

  lemma ThreeArrive(hs: Hashes, nodes: set<string>, app: Credentials, c1: Client, c2: Client, d: Client)
    requires c1.node in nodes && c2.node in nodes && d.node in nodes && ColonFree(d.app)
    requires c1.app == c2.app == d.app && c1.socket != "" && c2.socket != "" && d.socket != ""
    requires c1.socket != c2.socket && c1.socket != d.socket && c2.socket != d.socket
    ensures var h := Performed(hs, nodes, ThreeArrivals(app, c1, c2, d)).hubs;
            Ready(h, d.app, app, {c1, c2, d}) && h.shared.tables == Tables(map[], map[])
  {
    hide Performed, Ready, ColonFree;
    var calls := [Call.SetApp(d.app, Some(app))];
    StartReady(hs, nodes, d.app, app);
    ArriveReady(hs, nodes, calls, app, {}, c1);
    ArriveReady(hs, nodes, calls + [Arrive(c1)], app, {} + {c1}, c2);
    ArriveReady(hs, nodes, calls + [Arrive(c1)] + [Arrive(c2)], app, {} + {c1} + {c2}, d);
    assert {} + {c1} + {c2} + {d} == {c1, c2, d};
  }

  lemma SignedAuthorized(hs: Hashes, s: Shared, app: Credentials, c: Client, ch: string, user: string)
    requires c.app in s.store && s.store[c.app] == app
    ensures Authorized(hs, s, c, SignedRequest(hs, app, c, ch, user))
  {}

  lemma SubscribedReady(hs: Hashes, h: Hubs, app: Credentials, clients: set<Client>, c: Client, req: SubscribeRequest)
    requires Ready(h, c.app, app, clients) && c in clients && IsPresence(req.ch) && Authorized(hs, h.shared, c, req)
    ensures var h' := Subscribed(hs, h, c, req);
            && Ready(h', c.app, app, clients)
            && RosterAt(h', c.app, req.ch) ==
                 RosterAt(h, c.app, req.ch)[c.socket := Member(UserOf(req), InfoOf(req), c.socket)]
  {
    NotEmpty(req.ch);
    hide Authorized, Calm, Subscribed, EnteredIndex, EnteredTables, IsPresence, RosterAt;
    SubscribedCalm(hs, h, c, req);
    SubscribedEffect(hs, h, c, req);
    AddedRoster(h, c, req, Subscribed(hs, h, c, req));
  }

  lemma SubscribeReady(hs: Hashes, nodes: set<string>, calls: seq<Call>, app: Credentials, clients: set<Client>,
                       c: Client, ch: string, user: string)
    requires Ready(Performed(hs, nodes, calls).hubs, c.app, app, clients) && c in clients && IsPresence(ch)
    ensures var h0 := Performed(hs, nodes, calls).hubs;
            var h := Performed(hs, nodes, calls + [Subscribe(c, SignedRequest(hs, app, c, ch, user))]).hubs;
            && Ready(h, c.app, app, clients)
            && RosterAt(h, c.app, ch) == RosterAt(h0, c.app, ch)[c.socket := Member(user, "", c.socket)]
  {
    var req := SignedRequest(hs, app, c, ch, user);
    var s := Performed(hs, nodes, calls);
    PerformedAppend(hs, nodes, calls, Subscribe(c, req));
    NotEmpty(ch);
    ReadyIdle(s.hubs, c.app, app, clients, c);
    SignedAuthorized(hs, s.hubs.shared, app, c, ch, user);
    DoSubscribeHubs(hs, s, c, req);
    hide Performed, GenerateChannelAuth, Authorized, Ready, Subscribed, DoSubscribe, IsPresence, RosterAt;
    SubscribedReady(hs, s.hubs, app, clients, c, req);
  }

  lemma SubscriberInStep(hs: Hashes, nodes: set<string>, calls: seq<Call>, app: Credentials, clients: set<Client>,
                         c: Client, ch: string, user: string)
    requires Ready(Performed(hs, nodes, calls).hubs, c.app, app, clients) && c in clients && IsPresence(ch)
    requires c !in Performed(hs, nodes, calls + [Subscribe(c, SignedRequest(hs, app, c, ch, user))]).lost
    ensures var s := Performed(hs, nodes, calls + [Subscribe(c, SignedRequest(hs, app, c, ch, user))]);
            ch in Mine(s.hubs, c) && SameUsers(s, c, ch)
  {
    var req := SignedRequest(hs, app, c, ch, user);
    var s := Performed(hs, nodes, calls);
    PerformedAppend(hs, nodes, calls, Subscribe(c, req));
    NotEmpty(ch);
    SignedAuthorized(hs, s.hubs.shared, app, c, ch, user);
    DoSubscribeHubs(hs, s, c, req);
    SubscribedEffect(hs, s.hubs, c, req);
    hide Performed, GenerateChannelAuth, Authorized, Calm, Subscribed, DoSubscribe, EnteredIndex, EnteredTables,
         IsPresence, SameUsers;
    JoinStepIff(hs, s, c, req, c);
  }

  lemma TwoSocketsReached(hs: Hashes, nodes: set<string>, app: Credentials, c1: Client, c2: Client, d: Client,
                          ch: string, user: string, third: string)
    requires c1.node in nodes && c2.node in nodes && d.node in nodes && ColonFree(d.app)
    requires c1.app == c2.app == d.app && c1.socket != "" && c2.socket != "" && d.socket != ""
    requires c1.socket != c2.socket && c1.socket != d.socket && c2.socket != d.socket
    requires IsPresence(ch)
    ensures var s := Performed(hs, nodes, ThreeJoin(hs, app, c1, c2, d, ch, user, third));
            var r := RosterAt(s.hubs, d.app, ch);
            && IsIdle(s.hubs, c2) && ch in Mine(s.hubs, d) && d !in s.lost && SameUsers(s, d, ch)
            && c1.socket in r && c2.socket in r && r[c1.socket].userID == r[c2.socket].userID == user
  {
    hide Performed, Ready, IsPresence, ColonFree, RosterAt, Mine, SameUsers, SignedRequest, ThreeArrivals;
    var all := {c1, c2, d};
    var base := ThreeArrivals(app, c1, c2, d);
    var k1 := Subscribe(c1, SignedRequest(hs, app, c1, ch, user));
    var k2 := Subscribe(c2, SignedRequest(hs, app, c2, ch, user));
    ThreeArrive(hs, nodes, app, c1, c2, d);
    SubscribeReady(hs, nodes, base, app, all, c1, ch, user);
    SubscribeReady(hs, nodes, base + [k1], app, all, c2, ch, user);
    SubscribeReady(hs, nodes, base + [k1] + [k2], app, all, d, ch, third);
    ThreeJoinLight(hs, nodes, app, c1, c2, d, ch, user, third);
    SubscriberInStep(hs, nodes, base + [k1] + [k2], app, all, d, ch, third);
    ReadyIdle(Performed(hs, nodes, ThreeJoin(hs, app, c1, c2, d, ch, user, third)).hubs, d.app, app, all, c2);
  }

  lemma ReadyIdle(h: Hubs, app: string, credentials: Credentials, clients: set<Client>, c: Client)
    requires Ready(h, app, credentials, clients) && c in clients
    ensures IsIdle(h, c)
  {}

  lemma ThreeJoinLight(hs: Hashes, nodes: set<string>, app: Credentials, c1: Client, c2: Client, d: Client,
                       ch: string, user: string, third: string)
    ensures Performed(hs, nodes, ThreeJoin(hs, app, c1, c2, d, ch, user, third)).lost == {}
    ensures Performed(hs, nodes, ThreeJoin(hs, app, c1, c2, d, ch, user, third) + [Unsubscribe(c2, ch)]).lost == {}
  {
    hide Performed, SignedRequest;
    var calls := ThreeJoin(hs, app, c1, c2, d, ch, user, third);
    PerformedLight(hs, nodes, calls);
    PerformedLight(hs, nodes, calls + [Unsubscribe(c2, ch)]);
  }

  /** There, when the second socket leaves, the third client's roster stops being the broker's. */
  lemma MisleadingRun(hs: Hashes, nodes: set<string>, app: Credentials, c1: Client, c2: Client, d: Client,
                      ch: string, user: string, third: string)
    requires c1.node in nodes && c2.node in nodes && d.node in nodes && ColonFree(d.app)
    requires c1.app == c2.app == d.app && c1.socket != "" && c2.socket != "" && d.socket != ""
    requires c1.socket != c2.socket && c1.socket != d.socket && c2.socket != d.socket
    requires IsPresence(ch) && user != ""
    ensures var calls := ThreeJoin(hs, app, c1, c2, d, ch, user, third);
            && InStep(Performed(hs, nodes, calls), d, ch)
            && !InStep(Performed(hs, nodes, calls + [Unsubscribe(c2, ch)]), d, ch)
  {
    var calls := ThreeJoin(hs, app, c1, c2, d, ch, user, third);
    var k := Unsubscribe(c2, ch);
    NotEmpty(ch);
    TwoSocketsReached(hs, nodes, app, c1, c2, d, ch, user, third);
    ThreeJoinLight(hs, nodes, app, c1, c2, d, ch, user, third);
    PerformedCalm(hs, nodes, calls);
    PerformedAppend(hs, nodes, calls, k);
    LeftMine(hs, Performed(hs, nodes, calls).hubs, c2, BeginUnsubscribe(ch), ch, d);
    UnsubscribeNotes(hs, Performed(hs, nodes, calls), c2, ch, BeginUnsubscribe(ch));
    hide Performed, ThreeJoin, Calm, IsIdle, IsPresence, RosterAt, Mine, DoUnsubscribe, Left, SentTo, Fold, Users;
    SecondSocketMisleads(hs, nodes, calls, c1, c2, d, ch);
  }
}
