/** The occupied and vacated webhooks of a presence channel, over runs of whole operations. */
module WebhookRuns {
  import opened ChannelKeys
  import opened HubIndex
  import opened Presence
  import opened RequestSigning
  import opened HubSteps
  import opened HubMembership
  import opened HubTheorems
  import opened Messages
  import opened PresenceRuns

  // Webhooks.

  /** The occupied and vacated notifications of one channel. */
  function Trace(hooks: seq<Hook>, app: string, ch: string): seq<bool> {
    if hooks == [] then []
    else
      var before := Trace(hooks[..|hooks| - 1], app, ch);
      var last := hooks[|hooks| - 1];
      if last.app == app && last.ch == ch then before + [last.occupied] else before
  }

  lemma TraceAppend(hooks: seq<Hook>, k: Hook, app: string, ch: string)
    ensures Trace(hooks + [k], app, ch) ==
            if k.app == app && k.ch == ch then Trace(hooks, app, ch) + [k.occupied] else Trace(hooks, app, ch)
  {
    assert (hooks + [k])[..|hooks|] == hooks;
  }

  /** Occupied, vacated, occupied and so on. */
  predicate Alternates(trace: seq<bool>) {
    forall i :: 0 <= i < |trace| ==> trace[i] == (i % 2 == 0)
  }

  /** The only member joins again, or someone leaves where nobody is. */
  ghost predicate Redundant(hs: Hashes, s: Cluster, k: Call, app: string, ch: string) {
    || (IsJoin(s, k) && k.c.app == app && k.req.ch == ch && Authorized(hs, s.hubs.shared, k.c, k.req)
        && RosterAt(s.hubs, app, ch).Keys == {k.c.socket})
    || (IsLeave(s, k) && k.c.app == app && LeftBy(s, k) == ch && RosterAt(s.hubs, app, ch) == map[])
  }

  ghost predicate NoRedundantCall(hs: Hashes, nodes: set<string>, calls: seq<Call>, app: string, ch: string) {
    calls == [] ||
      (NoRedundantCall(hs, nodes, calls[..|calls| - 1], app, ch)
       && !Redundant(hs, Performed(hs, nodes, calls[..|calls| - 1]), calls[|calls| - 1], app, ch))
  }

  /** One more notification continues the alternation exactly when it says what the length calls for. */
  lemma AlternatesAppend(trace: seq<bool>, b: bool)
    ensures Alternates(trace + [b]) <==> Alternates(trace) && b == (|trace| % 2 == 0)
  {
    assert forall i :: 0 <= i < |trace| ==> (trace + [b])[i] == trace[i];
    assert (trace + [b])[|trace|] == b;
  }

  function Told(s: Cluster, app: string, ch: string): seq<bool> {
    Trace(s.hooks, app, ch)
  }

  ghost predicate HookInv(s: Cluster, app: string, ch: string) {
    Alternates(Told(s, app, ch)) ==> (|Told(s, app, ch)| % 2 == 1 <==> RosterAt(s.hubs, app, ch) != map[])
  }

  /** The notification at the end of an operation: occupied at the first member, vacated at none. */
  lemma NotifyTells(s: Cluster, app: string, ch: string, occupied: bool, a: string, x: string)
    requires CacheAgrees(s.hubs.shared.tables)
    ensures var s' := Notify(s, app, ch, occupied);
            && s'.hubs == s.hubs
            && Told(s', a, x) == Told(s, a, x) +
                 (if a == app && x == ch && |RosterAt(s.hubs, app, ch)| == (if occupied then 1 else 0)
                  then [occupied] else [])
  {
    TraceAppend(s.hooks, Hook(app, ch, occupied), a, x);
    hide Key, Trace;
  }

  lemma JoinSize(r: Roster, m: Member)
    ensures |r[m.socketID := m]| == 1 <==> r == map[] || r.Keys == {m.socketID}
  {
    var r' := r[m.socketID := m];
    assert r'.Keys == r.Keys + {m.socketID} && |r'| == |r'.Keys|;
    assert r.Keys <= {m.socketID} ==> r'.Keys == {m.socketID};
    if |r'| == 1 {
      forall x | x in r.Keys ensures x == m.socketID {
        Fits({m.socketID, x}, r'.Keys);
      }
    }
  }

  lemma {:induction false} Fits<T>(a: set<T>, b: set<T>)
    requires a <= b
    ensures |a| <= |b|
    decreases b
  {
    if a != {} {
      var x :| x in a;
      Fits(a - {x}, b - {x});
    }
  }

  lemma CacheIsExact(h: Hubs)
    requires Calm(h)
    ensures CacheAgrees(h.shared.tables)
  {}

  /** What an accepted subscription or an unsubscription does to the roster of any channel. */
  lemma SubscribedRoster(hs: Hashes, h: Hubs, c: Client, req: SubscribeRequest, app: string, x: string)
    requires Calm(h) && IsIdle(h, c) && req.ch != "" && ColonFree(app)
    ensures var h' := Subscribed(hs, h, c, req);
            var r := RosterAt(h, app, x);
            RosterAt(h', app, x) ==
              if app == c.app && x == req.ch && Authorized(hs, h.shared, c, req) && IsPresence(req.ch)
              then r[c.socket := Member(UserOf(req), InfoOf(req), c.socket)] else r
  {
    AppColonFree(h, c);
    hide Calm, Subscribed, Authorized, IsPresence, EnteredConn, EnteredIndex, EnteredTables, MemoryRoster, Key;
    var h' := Subscribed(hs, h, c, req);
    SubscribedEffect(hs, h, c, req);
    OtherKeys(app, x, c.app, req.ch);
    if Authorized(hs, h.shared, c, req) {
      AddedRoster(h, c, req, h');
    }
  }

  lemma LeftRoster(hs: Hashes, h: Hubs, c: Client, ch: string, a: Action, app: string, x: string)
    requires Calm(h) && Departs(h, c, a, ch) && ColonFree(app)
    ensures var r := RosterAt(h, app, x);
            RosterAt(Left(hs, h, c, a), app, x) ==
              if app == c.app && x == ch && IsPresence(ch) then r - {c.socket} else r
  {
    AppColonFree(h, c);
    hide Calm, Left, Departs, IsPresence, LeftConn, LeftTables, Leave, MemoryRoster, Key;
    LeftEffect(hs, h, c, a, ch);
    OtherKeys(app, x, c.app, ch);
    RemovedRoster(h, c, ch, Left(hs, h, c, a));
  }

  /** What it notifies: occupied when the roster has one entry, vacated when it has none. */
  lemma SubscribeTells(hs: Hashes, s: Cluster, c: Client, req: SubscribeRequest, app: string, x: string)
    requires Calm(s.hubs) && IsIdle(s.hubs, c) && req.ch != ""
    ensures var s' := DoSubscribe(hs, s, c, req);
            && s'.hubs == Subscribed(hs, s.hubs, c, req)
            && Told(s', app, x) == Told(s, app, x) +
                 if app == c.app && x == req.ch && Authorized(hs, s.hubs.shared, c, req)
                   && |RosterAt(s'.hubs, app, x)| == 1
                 then [true] else []
  {
    SubscribedCalm(hs, s.hubs, c, req);
    hide Calm, Subscribed, Authorized, Notify, Greet, Deliver, RosterAt;
    var s' := s.(hubs := Subscribed(hs, s.hubs, c, req));
    CacheIsExact(s'.hubs);
    DeliverHubs(s', {c}, Unrelated);
    GreetHubs(s', c, req.ch, UserOf(req));
    NotifyTells(Greet(s', c, req.ch, UserOf(req)), c.app, req.ch, true, app, x);
    hide Trace;
  }

  lemma UnsubscribeTells(hs: Hashes, s: Cluster, c: Client, ch: string, a: Action, app: string, x: string)
    requires Calm(s.hubs) && Departs(s.hubs, c, a, ch)
    ensures var s' := DoUnsubscribe(hs, s, c, ch, a);
            && s'.hubs == Left(hs, s.hubs, c, a)
            && Told(s', app, x) == Told(s, app, x) +
                 if app == c.app && x == ch && |RosterAt(s'.hubs, app, x)| == 0 then [false] else []
  {
    LeftCalm(hs, s.hubs, c, a, ch);
    hide Calm, Left, Departs, MemoryRemove, Notify, Dismiss, RosterAt, Key;
    var s' := s.(hubs := Left(hs, s.hubs, c, a));
    var user := MemoryRemove(s.hubs.shared.tables, Key(c.app, ch), c.socket).1;
    CacheIsExact(s'.hubs);
    DismissHubs(s', c, ch, user);
    NotifyTells(Dismiss(s', c, ch, user), c.app, ch, false, app, x);
    hide Trace;
  }

  lemma LeaveSize(r: Roster, socket: string)
    ensures |r - {socket}| == 0 <==> r == map[] || r.Keys == {socket}
  {
    assert (r - {socket}).Keys == r.Keys - {socket};
    assert r.Keys <= {socket} ==> (r - {socket}) == map[];
    assert |r - {socket}| == 0 ==> r - {socket} == map[];
    if |r - {socket}| == 0 {
      assert r.Keys <= {socket};
      if socket in r { assert r.Keys == {socket}; } else { assert r == map[]; }
    }
  }

  /** A join in one step of the alternation. */
  lemma JoinAlternates(trace: seq<bool>, r: Roster, m: Member)
    requires Alternates(trace) ==> (|trace| % 2 == 1 <==> r != map[])
    ensures var r' := r[m.socketID := m];
            var trace' := trace + if |r'| == 1 then [true] else [];
            && (Alternates(trace') <==> Alternates(trace) && r.Keys != {m.socketID})
            && (Alternates(trace') ==> (|trace'| % 2 == 1 <==> r' != map[]))
  {
    JoinSize(r, m);
    AlternatesAppend(trace, true);
    assert trace + [] == trace;
    assert m.socketID in r[m.socketID := m];
  }

  lemma LeaveAlternates(trace: seq<bool>, r: Roster, socket: string)
    requires Alternates(trace) ==> (|trace| % 2 == 1 <==> r != map[])
    ensures var r' := r - {socket};
            var trace' := trace + if |r'| == 0 then [false] else [];
            && (Alternates(trace') <==> Alternates(trace) && r != map[])
            && (Alternates(trace') ==> (|trace'| % 2 == 1 <==> r' != map[]))
  {
    LeaveSize(r, socket);
    AlternatesAppend(trace, false);
    assert trace + [] == trace;
    assert |r - {socket}| == 0 <==> r - {socket} == map[];
  }

  /** The channel's notifications after an operation that is redundant for it or not. */
  ghost predicate StaysTold(s: Cluster, s': Cluster, app: string, ch: string, redundant: bool) {
    && HookInv(s', app, ch)
    && (Alternates(Told(s', app, ch)) <==> Alternates(Told(s, app, ch)) && !redundant)
  }

  lemma SameTold(s: Cluster, s': Cluster, app: string, ch: string)
    requires Told(s', app, ch) == Told(s, app, ch) && RosterAt(s'.hubs, app, ch) == RosterAt(s.hubs, app, ch)
    requires HookInv(s, app, ch)
    ensures StaysTold(s, s', app, ch, false)
  {}

  lemma SubscribeStaysTold(hs: Hashes, s: Cluster, c: Client, req: SubscribeRequest, app: string, ch: string)
    requires Calm(s.hubs) && IsIdle(s.hubs, c) && req.ch != "" && IsPresence(ch) && ColonFree(app)
             && HookInv(s, app, ch)
    ensures StaysTold(s, DoSubscribe(hs, s, c, req), app, ch,
                      && c.app == app && req.ch == ch && Authorized(hs, s.hubs.shared, c, req)
                      && RosterAt(s.hubs, app, ch).Keys == {c.socket})
  {
    hide Calm, Authorized, IsPresence, RosterAt, DoSubscribe, Subscribed, Told, Alternates;
    SubscribedRoster(hs, s.hubs, c, req, app, ch);
    SubscribeTells(hs, s, c, req, app, ch);
    assert Told(s, app, ch) + [] == Told(s, app, ch);
    JoinAlternates(Told(s, app, ch), RosterAt(s.hubs, app, ch), Member(UserOf(req), InfoOf(req), c.socket));
  }

  lemma UnsubscribeStaysTold(hs: Hashes, s: Cluster, c: Client, x: string, a: Action, app: string, ch: string)
    requires Calm(s.hubs) && Departs(s.hubs, c, a, x) && IsPresence(ch) && ColonFree(app) && HookInv(s, app, ch)
    ensures StaysTold(s, DoUnsubscribe(hs, s, c, x, a), app, ch,
                      c.app == app && x == ch && RosterAt(s.hubs, app, ch) == map[])
  {
    hide Calm, Departs, IsPresence, RosterAt, DoUnsubscribe, Left, Told, Alternates;
    LeftRoster(hs, s.hubs, c, x, a, app, ch);
    UnsubscribeTells(hs, s, c, x, a, app, ch);
    assert Told(s, app, ch) + [] == Told(s, app, ch);
    LeaveAlternates(Told(s, app, ch), RosterAt(s.hubs, app, ch), c.socket);
  }

  lemma PerformTells(hs: Hashes, s: Cluster, k: Call, app: string, ch: string)
    requires Calm(s.hubs) && IsPresence(ch) && ColonFree(app) && HookInv(s, app, ch)
    ensures StaysTold(s, Perform(hs, s, k), app, ch, Redundant(hs, s, k, app, ch))
  {
    PerformIs(hs, s, k);
    hide Calm, Authorized, IsPresence, DoSubscribe, DoUnsubscribe, Perform, StaysTold, Trace, Departs, LeaveAction,
         LeftBy;
    if IsJoin(s, k) {
      SubscribeStaysTold(hs, s, k.c, k.req, app, ch);
    } else if IsLeave(s, k) {
      UnsubscribeStaysTold(hs, s, k.c, LeftBy(s, k), LeaveAction(k), app, ch);
    } else {
      QuietCall(hs, s, k);
      SameTold(s, Perform(hs, s, k), app, ch);
    }
  }

  lemma LastTells(trace: seq<bool>)
    requires Alternates(trace)
    ensures |trace| % 2 == 1 <==> trace != [] && trace[|trace| - 1]
  {}

  lemma {:induction false} TraceInv(hs: Hashes, nodes: set<string>, calls: seq<Call>, app: string, ch: string)
    requires IsPresence(ch) && ColonFree(app)
    ensures var s := Performed(hs, nodes, calls);
            HookInv(s, app, ch) && (Alternates(Told(s, app, ch)) <==> NoRedundantCall(hs, nodes, calls, app, ch))
  {
    if calls != [] {
      var s := Performed(hs, nodes, calls[..|calls| - 1]);
      TraceInv(hs, nodes, calls[..|calls| - 1], app, ch);
      PerformedCalm(hs, nodes, calls[..|calls| - 1]);
      hide Calm, Perform, Redundant, RosterAt, IsPresence, ColonFree, Alternates, Told, HookInv;
      PerformTells(hs, s, calls[|calls| - 1], app, ch);
    }
  }

  /**
   * The notifications of a presence channel alternate, starting with occupied, exactly as long as no call is
   * redundant; and then the last one says whether the channel has members.
   */
  lemma WebhooksAlternateIff(hs: Hashes, nodes: set<string>, calls: seq<Call>, app: string, ch: string)
    requires IsPresence(ch) && ColonFree(app)
    ensures var s := Performed(hs, nodes, calls);
            var trace := Told(s, app, ch);
            && (Alternates(trace) <==> NoRedundantCall(hs, nodes, calls, app, ch))
            && (Alternates(trace) ==> (RosterAt(s.hubs, app, ch) != map[] <==> trace != [] && trace[|trace| - 1]))
  {
    TraceInv(hs, nodes, calls, app, ch);
    hide Performed, RosterAt, IsPresence, ColonFree, Alternates, Told, NoRedundantCall;
    var trace := Told(Performed(hs, nodes, calls), app, ch);
    if Alternates(trace) {
      LastTells(trace);
    }
  }

  /** The call makes a member join again or a non-member leave. */
  ghost predicate Repeats(s: Cluster, k: Call, app: string, ch: string) {
    || (IsJoin(s, k) && k.c.app == app && k.req.ch == ch && ch in Mine(s.hubs, k.c))
    || (IsLeave(s, k) && k.c.app == app && LeftBy(s, k) == ch && ch !in Mine(s.hubs, k.c))
  }

  ghost predicate NoRepeatingCall(hs: Hashes, nodes: set<string>, calls: seq<Call>, app: string, ch: string) {
    calls == [] ||
      (NoRepeatingCall(hs, nodes, calls[..|calls| - 1], app, ch)
       && !Repeats(Performed(hs, nodes, calls[..|calls| - 1]), calls[|calls| - 1], app, ch))
  }

  lemma RedundantRepeats(hs: Hashes, s: Cluster, k: Call, app: string, ch: string)
    requires Calm(s.hubs) && IsPresence(ch) && Redundant(hs, s, k, app, ch)
    ensures Repeats(s, k, app, ch)
  {
    hide Inv, Key, IsPresence, Authorized, MemoryRoster;
    PresentIffMember(s.hubs, k.c, ch);
  }

  lemma {:induction false} NoneRedundant(hs: Hashes, nodes: set<string>, calls: seq<Call>, app: string, ch: string)
    requires IsPresence(ch) && NoRepeatingCall(hs, nodes, calls, app, ch)
    ensures NoRedundantCall(hs, nodes, calls, app, ch)
  {
    if calls != [] {
      var s, k := Performed(hs, nodes, calls[..|calls| - 1]), calls[|calls| - 1];
      NoneRedundant(hs, nodes, calls[..|calls| - 1], app, ch);
      PerformedCalm(hs, nodes, calls[..|calls| - 1]);
      hide Calm, Redundant, Repeats, IsPresence, Performed;
      if Redundant(hs, s, k, app, ch) {
        RedundantRepeats(hs, s, k, app, ch);
      }
    }
  }

  /**
   * So they alternate, and the last one says whether the channel has members, in every run in which only
   * non-members join the channel and only members leave it.
   */
  lemma JoiningOnceAlternates(hs: Hashes, nodes: set<string>, calls: seq<Call>, app: string, ch: string)
    requires IsPresence(ch) && ColonFree(app) && NoRepeatingCall(hs, nodes, calls, app, ch)
    ensures var s := Performed(hs, nodes, calls);
            var trace := Told(s, app, ch);
            && Alternates(trace)
            && (RosterAt(s.hubs, app, ch) != map[] <==> trace != [] && trace[|trace| - 1])
  {
    hide Performed, RosterAt, Told, NoRedundantCall, NoRepeatingCall, ColonFree, IsPresence;
    NoneRedundant(hs, nodes, calls, app, ch);
    WebhooksAlternateIff(hs, nodes, calls, app, ch);
  }

  lemma PresentIffMember(h: Hubs, c: Client, ch: string)
    requires Calm(h) && IsPresence(ch) && c in h.conns
    ensures c.socket in RosterAt(h, c.app, ch) <==> ch in Mine(h, c)
  {
    hide Key, IsPresence, MemoryRoster;
    assert PresentOK(h, c, ch);
  }

  // Other channels. The documentation promises both notifications for them too; the code counts presence entries.

  /** No presence table has entries for a public or private channel. */
  lemma NoEntries(h: Hubs, app: string, ch: string)
    requires Calm(h) && !IsPresence(ch) && ColonFree(app)
    ensures RosterAt(h, app, ch) == map[]
  {
    hide Key, IsPresence, MemoryRoster, ColonFree;
    var key := Key(app, ch);
    forall x ensures x !in RosterAt(h, app, ch) {
      assert EntryOwned(h, key, x);
      if x in MemoryRoster(h.shared.tables, key) {
        NotOwned(h, h.sockets[x], app, ch);
      }
    }
  }

  lemma NotOwned(h: Hubs, c: Client, app: string, ch: string)
    requires Calm(h) && c in h.conns && ColonFree(app) && !IsPresence(ch)
    ensures !OwnPresence(c, Key(app, ch))
  {
    AppColonFree(h, c);
    hide Key, IsPresence, ColonFree, Calm;
    if OwnPresence(c, Key(app, ch)) {
      var x :| IsPresence(x) && Key(app, ch) == Key(c.app, x);
      OtherKeys(app, ch, c.app, x);
    }
  }

  lemma JoinTellsNothing(hs: Hashes, s: Cluster, c: Client, req: SubscribeRequest, app: string, ch: string)
    requires Calm(s.hubs) && IsIdle(s.hubs, c) && req.ch != "" && !IsPresence(ch) && ColonFree(app)
    ensures Told(DoSubscribe(hs, s, c, req), app, ch) == Told(s, app, ch)
  {
    SubscribedCalm(hs, s.hubs, c, req);
    hide Calm, Authorized, IsPresence, RosterAt, DoSubscribe, Subscribed, Told, ColonFree;
    NoEntries(Subscribed(hs, s.hubs, c, req), app, ch);
    SubscribeTells(hs, s, c, req, app, ch);
    assert Told(s, app, ch) + [] == Told(s, app, ch);
  }

  /** And it is reported as vacated whenever anyone leaves it, whoever else stays. */
  lemma OthersVacatedByAnyLeave(hs: Hashes, s: Cluster, c: Client, ch: string, a: Action)
    requires Calm(s.hubs) && Departs(s.hubs, c, a, ch) && !IsPresence(ch)
    ensures Told(DoUnsubscribe(hs, s, c, ch, a), c.app, ch) == Told(s, c.app, ch) + [false]
  {
    AppColonFree(s.hubs, c);
    LeftCalm(hs, s.hubs, c, a, ch);
    hide Calm, IsPresence, RosterAt, DoUnsubscribe, Left, Told;
    NoEntries(Left(hs, s.hubs, c, a), c.app, ch);
    UnsubscribeTells(hs, s, c, ch, a, c.app, ch);
  }

  /** The call is a connection of the application leaving the channel, whether it was in it or not. */
  predicate LeavesFrom(s: Cluster, k: Call, app: string, ch: string) {
    IsLeave(s, k) && k.c.app == app && LeftBy(s, k) == ch
  }

  lemma OtherTells(hs: Hashes, s: Cluster, k: Call, app: string, ch: string)
    requires Calm(s.hubs) && !IsPresence(ch) && ColonFree(app)
    ensures Told(Perform(hs, s, k), app, ch) == Told(s, app, ch) + if LeavesFrom(s, k, app, ch) then [false] else []
  {
    PerformIs(hs, s, k);
    assert Told(s, app, ch) + [] == Told(s, app, ch);
    hide Calm, Authorized, IsPresence, DoSubscribe, DoUnsubscribe, Perform, Trace, Departs, LeaveAction, LeftBy;
    if IsJoin(s, k) {
      JoinTellsNothing(hs, s, k.c, k.req, app, ch);
    } else if IsLeave(s, k) {
      if LeavesFrom(s, k, app, ch) {
        OthersVacatedByAnyLeave(hs, s, k.c, ch, LeaveAction(k));
      } else {
        UnsubscribeTells(hs, s, k.c, LeftBy(s, k), LeaveAction(k), app, ch);
      }
    } else {
      QuietCall(hs, s, k);
    }
  }

  /** How often a run makes someone leave the channel. */
  function Leaves(hs: Hashes, nodes: set<string>, calls: seq<Call>, app: string, ch: string): nat {
    if calls == [] then 0
    else
      var before := calls[..|calls| - 1];
      Leaves(hs, nodes, before, app, ch)
      + if LeavesFrom(Performed(hs, nodes, before), calls[|calls| - 1], app, ch) then 1 else 0
  }

  /** So it is never reported as occupied, and as vacated exactly as often as someone leaves. */
  lemma {:induction false} OthersToldPerLeave(hs: Hashes, nodes: set<string>, calls: seq<Call>, app: string, ch: string)
    requires !IsPresence(ch) && ColonFree(app)
    ensures Told(Performed(hs, nodes, calls), app, ch) == seq(Leaves(hs, nodes, calls, app, ch), i => false)
  {
    if calls != [] {
      var before, k := calls[..|calls| - 1], calls[|calls| - 1];
      OthersToldPerLeave(hs, nodes, before, app, ch);
      PerformedCalm(hs, nodes, before);
      hide Perform, Told, Calm, LeavesFrom;
      OtherTells(hs, Performed(hs, nodes, before), k, app, ch);
    }
  }

  lemma OthersNeverOccupied(hs: Hashes, nodes: set<string>, calls: seq<Call>, app: string, ch: string)
    requires !IsPresence(ch) && ColonFree(app)
    ensures true !in Told(Performed(hs, nodes, calls), app, ch)
  {
    hide Performed, Told, Leaves;
    OthersToldPerLeave(hs, nodes, calls, app, ch);
  }

  /** Its notifications alternate as documented exactly as long as nobody leaves it. */
  lemma OthersAlternateIff(hs: Hashes, nodes: set<string>, calls: seq<Call>, app: string, ch: string)
    requires !IsPresence(ch) && ColonFree(app)
    ensures Alternates(Told(Performed(hs, nodes, calls), app, ch)) <==> Leaves(hs, nodes, calls, app, ch) == 0
  {
    hide Performed, Told, Leaves;
    OthersToldPerLeave(hs, nodes, calls, app, ch);
    var trace := Told(Performed(hs, nodes, calls), app, ch);
    assert trace != [] ==> !trace[0];
  }
}
