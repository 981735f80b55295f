/** What holds of the hubs after every run, whatever the interleaving. */
module HubTheorems {
  import opened ChannelKeys
  import opened HubIndex
  import opened Presence
  import opened RequestSigning
  import opened HubSteps
  import opened HubMembership
  import opened Messages
  import opened Options

  ghost predicate Inv(h: Hubs) {
    && Known(h) && ChannelsInv(h) && SubsInv(h) && PresenceInv(h) && IndexInv(h)
    && (forall c :: c in h.conns ==> UserPhase(h.conns[c]))
  }

  lemma ActKeepsSubs(hs: Hashes, h: Hubs, c: Client, a: Action)
    requires SubsInv(h) && ChannelsInv(h) && c in h.conns && Enabled(h.conns[c], h.shared, a)
    ensures SubsInv(DoAct(hs, h, c, a))
  {
    var k := h.conns[c];
    var h' := DoAct(hs, h, c, a);
    match a
    case JoinChannel => JoinKeepsSubs(h, h', c);
    case OpenSub => OpenKeepsSubs(h, h', c);
    case RecordSub => RecordKeepsSubs(h, h', c);
    case BeginUnsubscribe(ch) => LeaveKeepsSubs(h, h', c, ch, Back);
    case DrainNext =>
      if k.pc.rest == [] {
        var (k', s') := DoDrainNext(c, k, h.shared);
        QuietKeepsSubs(h, h', c, k', s');
      } else {
        LeaveKeepsSubs(h, h', c, k.pc.rest[0], Drain(k.pc.rest[1..]));
      }
    case _ =>
      var (k', s') := Act(hs, c, k, h.shared, a);
      ActQuietForSubs(hs, c, k, h.shared, a);
      QuietKeepsSubs(h, h', c, k', s');
  }

  lemma ActQuietForSubs(hs: Hashes, c: Client, k: Conn, s: Shared, a: Action)
    requires Enabled(k, s, a)
    requires !a.JoinChannel? && !a.OpenSub? && !a.RecordSub? && !a.BeginUnsubscribe? && !a.DrainNext?
    ensures var (k', s') := Act(hs, c, k, s, a);
            && s'.subs == s.subs && s'.index.subs == s.index.subs && s'.index.channels == s.index.channels
            && !Pending(k.pc) && !Pending(k'.pc)
  {
    hide Key, Authorized, IsPresence, MemoryAdd, MemoryRemove, SubsAfterLeave;
  }

  lemma ActKeepsInv(hs: Hashes, h: Hubs, c: Client, a: Action)
    requires Inv(h) && c in h.conns && Enabled(h.conns[c], h.shared, a)
    ensures Inv(DoAct(hs, h, c, a))
  {
    ActKeepsSubs(hs, h, c, a);
    ActKeepsPresence(hs, h, c, a);
    ActKeepsIndex(hs, h, c, a);
    ActKeepsSets(hs, h, c, a);
    ActKeepsPhase(hs, c, h.conns[c], h.shared, a);
    ActKeepsUser(hs, c, h.conns[c], h.shared, a);
    hide Act, SetsAgree, SetsOwned, NoEmptySet, SubsInv, PresenceInv, IndexInv, PhaseOK, UserPhase;
  }

  lemma ConnectKeepsSets(h: Hubs, c: Client)
    requires Known(h) && ChannelsInv(h) && CanConnect(h, c)
    ensures var h' := DoConnect(h, c); Known(h') && ChannelsInv(h')
  {
    ConnectKnown(h, c);
    ConnectMine(h, c);
    var h' := DoConnect(h, c);
    assert h'.shared.index.channels == h.shared.index.channels;
    assert forall d :: d in h'.conns ==> d == c || (d in h.conns && h'.conns[d] == h.conns[d]);
    hide Key, DoConnect, CanConnect, Known, Mine;
  }

  lemma ConnectKnown(h: Hubs, c: Client)
    requires Known(h) && CanConnect(h, c)
    ensures Known(DoConnect(h, c)) && PhaseOK(DoConnect(h, c).conns[c])
  {
    hide ColonFree, Register, Key;
  }

  lemma ConnectMine(h: Hubs, c: Client)
    requires CanConnect(h, c)
    ensures forall d :: Mine(DoConnect(h, c), d) == Mine(h, d)
  {
    hide ColonFree, Register, Key;
  }

  lemma ConnectKeepsPresence(h: Hubs, c: Client)
    requires Known(h) && PresenceInv(h) && CanConnect(h, c)
    ensures PresenceInv(DoConnect(h, c))
  {
    var h' := DoConnect(h, c);
    hide Key, MemoryRoster, IsPresence, CacheAgrees, Register;
    forall d, ch ensures PresentOK(h', d, ch) {
      assert PresentOK(h, d, ch);
      assert EntryOwned(h, Key(c.app, ch), c.socket);
    }
    forall k, x ensures EntryOwned(h', k, x) { assert EntryOwned(h, k, x); }
  }

  lemma ConnectKeepsIndex(h: Hubs, c: Client)
    requires IndexInv(h) && Known(h) && CanConnect(h, c)
    ensures IndexInv(DoConnect(h, c))
  {
    var h' := DoConnect(h, c);
    hide Key;
    forall d ensures RegisteredOK(h', d) { assert RegisteredOK(h, d); }
    hide RegisteredOK, CanConnect, Known;
    forall d, x ensures UserOK(h', d, x) {
      assert UserOK(h, d, x);
      assert UserOwned(h, c, UserSpot(c, x));
    }
    forall d, s ensures UserOwned(h', d, s) { assert UserOwned(h, d, s); }
  }

  lemma ConnectKeepsInv(h: Hubs, c: Client)
    requires Inv(h) && CanConnect(h, c)
    ensures Inv(DoConnect(h, c))
  {
    var h' := DoConnect(h, c);
    ConnectKeepsSets(h, c);
    ConnectKeepsPresence(h, c);
    ConnectKeepsIndex(h, c);
    assert UserPhase(Conn(Idle, {}, "", {}));
    hide Key, Known, ChannelsInv, PresenceInv, IndexInv, SubsInv, CanConnect, UserPhase;
    QuietKeepsSubs(h, h', c, h'.conns[c], h'.shared);
  }

  /** The invariant does not speak of the store. */
  lemma SetAppKeepsInv(h: Hubs, app: string, credentials: Option<Credentials>)
    requires Inv(h)
    ensures Inv(DoSetApp(h, app, credentials))
  {
    var h' := DoSetApp(h, app, credentials);
    SameKeepsSubs(h, h');
    SameKeepsPresence(h, h');
    SameKeepsIndex(h, h');
    hide Key, SubsInv, PresenceInv, IndexInv, UserPhase, PhaseOK;
    assert forall d :: Mine(h', d) == Mine(h, d);
  }

  /** Only the store differs. */
  ghost predicate SameBut(h: Hubs, h': Hubs) {
    h' == h.(shared := h.shared.(store := h'.shared.store))
  }

  lemma SameKeepsSubs(h: Hubs, h': Hubs)
    requires SameBut(h, h') && SubsInv(h)
    ensures SubsInv(h')
  {
    hide Key;
    forall d, spot ensures PendingAt(h', d, spot) == PendingAt(h, d, spot) {}
    forall d, id ensures RecordingAt(h', d, id) == RecordingAt(h, d, id) {}
    forall d ensures PendingOK(h', d) { assert PendingOK(h, d); }
    forall id ensures OpenOwned(h', id) { assert OpenOwned(h, id); }
    forall spot ensures Covered(h', spot) { assert Covered(h, spot); }
  }

  lemma SameKeepsPresence(h: Hubs, h': Hubs)
    requires SameBut(h, h') && PresenceInv(h)
    ensures PresenceInv(h')
  {
    hide Key, MemoryRoster, IsPresence, CacheAgrees;
    forall d, ch ensures PresentOK(h', d, ch) { assert PresentOK(h, d, ch); }
    forall k, x ensures EntryOwned(h', k, x) { assert EntryOwned(h, k, x); }
  }

  lemma SameKeepsIndex(h: Hubs, h': Hubs)
    requires SameBut(h, h') && IndexInv(h)
    ensures IndexInv(h')
  {
    hide Key, Leaving;
    forall d ensures RegisteredOK(h', d) { assert RegisteredOK(h, d); }
    forall d, u ensures UserOK(h', d, u) { assert UserOK(h, d, u); }
    forall d, s ensures UserOwned(h', d, s) { assert UserOwned(h, d, s); }
  }

  lemma StepKeepsInv(hs: Hashes, h: Hubs, m: Move)
    requires Inv(h)
    ensures Inv(Step(hs, h, m))
  {
    hide Inv, CanConnect, DoConnect, DoAct, DoSetApp, Enabled;
    match m
    case Connect(c) => if CanConnect(h, c) { ConnectKeepsInv(h, c); }
    case Do(c, a) => if c in h.conns && Enabled(h.conns[c], h.shared, a) { ActKeepsInv(hs, h, c, a); }
    case SetApp(app, credentials) => SetAppKeepsInv(h, app, credentials);
  }

  function Run(hs: Hashes, nodes: set<string>, moves: seq<Move>): Hubs {
    if moves == [] then Start(nodes)
    else Step(hs, Run(hs, nodes, moves[..|moves| - 1]), moves[|moves| - 1])
  }

  lemma {:induction false} RunKeepsInv(hs: Hashes, nodes: set<string>, moves: seq<Move>)
    ensures Inv(Run(hs, nodes, moves))
  {
    if moves != [] {
      RunKeepsInv(hs, nodes, moves[..|moves| - 1]);
      StepKeepsInv(hs, Run(hs, nodes, moves[..|moves| - 1]), moves[|moves| - 1]);
    }
  }

  // The theorems.

  ghost function OpenSubs(s: Shared, spot: Spot): set<nat> {
    set id: nat | id < |s.subs| && s.subs[id].open && s.subs[id].spot == spot
  }

  /**
   * A hub lists a channel exactly when either it has recorded one open broker subscription for it or exactly
   * one of the channel's members is still to record one; there is never a second open subscription.
   */
  lemma OneSubscriptionPerChannel(hs: Hashes, nodes: set<string>, moves: seq<Move>, spot: Spot)
    ensures var h := Run(hs, nodes, moves);
            var i := h.shared.index;
            var recorded := spot in i.subs;
            var pending := exists c :: PendingAt(h, c, spot);
            && (spot in i.channels <==> recorded || pending)
            && !(recorded && pending)
            && (recorded ==> OpenSubs(h.shared, spot) == {i.subs[spot]})
            && (forall c :: PendingAt(h, c, spot) ==>
                  && c in Members(i, spot)
                  && (forall d :: PendingAt(h, d, spot) ==> d == c)
                  && OpenSubs(h.shared, spot) == if h.conns[c].pc.Recording? then {h.conns[c].pc.sub} else {})
            && (spot !in i.channels ==> OpenSubs(h.shared, spot) == {})
  {
    var h := Run(hs, nodes, moves);
    RunKeepsInv(hs, nodes, moves);
    hide Run, Key, IndexInv, PresenceInv, UserPhase;
    assert Covered(h, spot);
    forall c | PendingAt(h, c, spot)
      ensures c in Members(h.shared.index, spot) && spot !in h.shared.index.subs
    {
      PendingIsMember(h, c, spot);
      assert PendingOK(h, c);
    }
    forall id: nat
      ensures id in OpenSubs(h.shared, spot) <==>
        (spot in h.shared.index.subs && h.shared.index.subs[spot] == id)
        || exists c :: PendingAt(h, c, spot) && RecordingAt(h, c, id)
    {
      OpenSubIff(h, spot, id);
    }
  }

  lemma OpenSubIff(h: Hubs, spot: Spot, id: nat)
    requires SubsInv(h)
    ensures id in OpenSubs(h.shared, spot) <==>
      (spot in h.shared.index.subs && h.shared.index.subs[spot] == id)
      || exists c :: PendingAt(h, c, spot) && RecordingAt(h, c, id)
  {
    hide Key;
    assert OpenOwned(h, id);
    if id in OpenSubs(h.shared, spot) {
      var c := h.shared.subs[id].opener;
      if RecordingAt(h, c, id) {
        assert PendingOK(h, c);
        assert PendingAt(h, c, spot);
      }
    } else if c :| PendingAt(h, c, spot) && RecordingAt(h, c, id) {
      assert PendingOK(h, c);
    }
  }

  /** The channel index, the clients' own sets and the presence tables tell the same story. */
  lemma SetsInStep(hs: Hashes, nodes: set<string>, moves: seq<Move>, c: Client, ch: string)
    ensures var h := Run(hs, nodes, moves);
            var i := h.shared.index;
            && (c in Members(i, ChannelSpot(c, ch)) <==> ch in Mine(h, c))
            && (forall s :: s in i.channels ==> i.channels[s] != {})
            && (forall s :: c in Members(i, s) ==> OwnSpot(c, s))
            && (c in h.conns && HasPrefix(ch, "presence-") && !Between(h.conns[c].pc, ch) ==>
                  (Present(h.shared.tables, c, ch) <==> c in Members(i, ChannelSpot(c, ch))))
            && CacheAgrees(h.shared.tables)
  {
    RunKeepsInv(hs, nodes, moves);
    hide Run, Key, IndexInv, SubsInv, UserPhase;
    assert PresentOK(Run(hs, nodes, moves), c, ch);
  }

  /** A connection that has finished `Unregister` is in no channel set, no presence table and no socket index. */
  lemma UnregisterCleansUp(hs: Hashes, nodes: set<string>, moves: seq<Move>, c: Client)
    requires var h := Run(hs, nodes, moves); c in h.conns && h.conns[c].pc.Gone?
    ensures var h := Run(hs, nodes, moves);
            var i := h.shared.index;
            && c !in i.clients && (forall s :: s in i.byID ==> i.byID[s] != c)
            && (forall s :: c !in Members(i, s))
            && (forall key :: c.socket !in MemoryRoster(h.shared.tables, key))
  {
    var h := Run(hs, nodes, moves);
    RunKeepsInv(hs, nodes, moves);
    hide Run, Key, SubsInv;
    assert PhaseOK(h.conns[c]) && RegisteredOK(h, c);
    assert Mine(h, c) == {};
    forall s ensures c !in Members(h.shared.index, s) {
      MemberHasChannel(h, c, s);
    }
    forall key ensures c.socket !in MemoryRoster(h.shared.tables, key) {
      EntryHasChannel(h, c, key);
    }
  }

  lemma MemberHasChannel(h: Hubs, c: Client, s: Spot)
    requires ChannelsInv(h)
    ensures c in Members(h.shared.index, s) ==> Mine(h, c) != {}
  {
    hide Key;
    if c in Members(h.shared.index, s) {
      assert OwnSpot(c, s);
      var ch :| s == ChannelSpot(c, ch);
      assert ch in Mine(h, c);
    }
  }

  lemma EntryHasChannel(h: Hubs, c: Client, key: string)
    requires Known(h) && PresenceInv(h) && c in h.conns && h.conns[c].pc.Gone?
    ensures c.socket in MemoryRoster(h.shared.tables, key) ==> h.conns[c].mine != {}
  {
    hide Key, CacheAgrees;
    if c.socket in MemoryRoster(h.shared.tables, key) {
      assert EntryOwned(h, key, c.socket);
      var ch :| IsPresence(ch) && key == Key(c.app, ch);
      assert PresentOK(h, c, ch);
      assert ch in h.conns[c].mine;
    }
  }

  /**
   * Such a connection is also in no user's set exactly when it was only ever indexed under its last user ID
   * and that ID is not empty; any other ID it used leaves a stale entry behind.
   */
  lemma UserEntriesCleanedIff(hs: Hashes, nodes: set<string>, moves: seq<Move>, c: Client)
    requires var h := Run(hs, nodes, moves); c in h.conns && h.conns[c].pc.Gone?
    ensures var h := Run(hs, nodes, moves);
            var k := h.conns[c];
            (forall s :: c !in Lookup(h.shared.index.byUser, s)) <==>
            (forall u :: u in k.usersSeen ==> u == k.user && u != "")
  {
    RunKeepsInv(hs, nodes, moves);
    hide Run, Inv;
    UserEntriesIff(Run(hs, nodes, moves), c);
  }

  lemma UserEntriesIff(h: Hubs, c: Client)
    requires Inv(h) && c in h.conns && h.conns[c].pc.Gone?
    ensures var k := h.conns[c];
            (forall s :: c !in Lookup(h.shared.index.byUser, s)) <==>
            (forall u :: u in k.usersSeen ==> u == k.user && u != "")
  {
    hide Key, SubsInv, ChannelsInv, PresenceInv;
    var k := h.conns[c];
    if forall s :: c !in Lookup(h.shared.index.byUser, s) {
      forall u | u in k.usersSeen ensures u == k.user && u != "" {
        assert UserOK(h, c, u);
      }
    }
    if forall u :: u in k.usersSeen ==> u == k.user && u != "" {
      forall s ensures c !in Lookup(h.shared.index.byUser, s) {
        assert UserOwned(h, c, s);
        if OwnUserSpot(c, s) {
          var u :| s == UserSpot(c, u);
          assert UserOK(h, c, u);
        }
      }
    }
  }

  /** The hub finds the connection under its socket ID. */
  predicate InByID(i: Index<Spot, nat>, d: Client) {
    SocketSpot(d) in i.byID && i.byID[SocketSpot(d)] == d
  }

  /**
   * Whom `TerminateUser` finds for a user ID of an application: the hub's connections that were ever indexed
   * under it, less those whose `Unregister` took them out because it was their last ID.
   */
  lemma UserSetIff(hs: Hashes, nodes: set<string>, moves: seq<Move>, node: string, app: string, user: string, c: Client)
    requires ColonFree(app)
    ensures var h := Run(hs, nodes, moves);
            c in Lookup(h.shared.index.byUser, Spot(node, Key(app, user))) <==>
              && c in h.conns && c.node == node && c.app == app && user in h.conns[c].usersSeen
              && !(Leaving(h.conns[c].pc) && user == h.conns[c].user && user != "")
  {
    var h := Run(hs, nodes, moves);
    RunKeepsInv(hs, nodes, moves);
    hide Run, SubsInv, ChannelsInv, PresenceInv;
    var s := Spot(node, Key(app, user));
    assert UserOwned(h, c, s) && UserOK(h, c, user);
    if c in Lookup(h.shared.index.byUser, s) {
      var u :| s == UserSpot(c, u);
      KeyInjective(app, user, c.app, u);
    }
  }

  /** What the indexes and tables say about a connection. */
  ghost predicate SameStanding(h: Hubs, h': Hubs, d: Client) {
    && Mine(h', d) == Mine(h, d)
    && (forall s :: d in Members(h'.shared.index, s) <==> d in Members(h.shared.index, s))
    && (forall s :: d in Lookup(h'.shared.index.byUser, s) <==> d in Lookup(h.shared.index.byUser, s))
    && (d in h'.shared.index.clients <==> d in h.shared.index.clients)
    && (InByID(h'.shared.index, d) <==> InByID(h.shared.index, d))
    && (forall key :: d.socket in MemoryRoster(h'.shared.tables, key) <==>
          d.socket in MemoryRoster(h.shared.tables, key))
  }

  /** No step of one connection changes what the indexes and tables say about another. */
  lemma OthersUntouched(hs: Hashes, h: Hubs, c: Client, a: Action, d: Client)
    requires c in h.conns && Enabled(h.conns[c], h.shared, a)
    requires d != c && d.socket != c.socket
    ensures SameStanding(h, DoAct(hs, h, c, a), d)
  {
    var k := h.conns[c];
    OtherSets(hs, h, c, a, d);
    OtherEntries(hs, c, k, h.shared, a, d);
    hide Act;
  }

  lemma OtherSets(hs: Hashes, h: Hubs, c: Client, a: Action, d: Client)
    requires c in h.conns && Enabled(h.conns[c], h.shared, a) && d != c && d.socket != c.socket
    ensures var s' := Act(hs, c, h.conns[c], h.shared, a).1;
            && (forall s :: d in Members(s'.index, s) <==> d in Members(h.shared.index, s))
            && (forall s :: d in Lookup(s'.index.byUser, s) <==> d in Lookup(h.shared.index.byUser, s))
            && (d in s'.index.clients <==> d in h.shared.index.clients)
            && (InByID(s'.index, d) <==> InByID(h.shared.index, d))
  {
    hide Key, Authorized, IsPresence, MemoryAdd, MemoryRemove, SubsAfterLeave;
  }

  lemma OtherEntries(hs: Hashes, c: Client, k: Conn, s: Shared, a: Action, d: Client)
    requires Enabled(k, s, a) && d.socket != c.socket
    ensures var s' := Act(hs, c, k, s, a).1;
            forall key :: d.socket in MemoryRoster(s'.tables, key) <==> d.socket in MemoryRoster(s.tables, key)
  {
    match a
    case AddPresence =>
      AddEntry(s.tables, Key(c.app, k.pc.ch), Member(k.pc.user, k.pc.info, c.socket));
      hide MemoryRoster, MemoryAdd;
    case RemovePresence =>
      RemoveEntry(s.tables, Key(c.app, k.pc.ch), c.socket);
      hide MemoryRoster, MemoryRemove;
    case _ =>
      ActBetween(hs, c, k, s, a);
      hide Act, MemoryRoster;
  }

  // Auth checks.

  /** The connection is in the channel, or past the checks on its way in. */
  predicate Holds(h: Hubs, c: Client, ch: string) {
    c in h.conns && (ch in h.conns[c].mine || (Checked(h.conns[c].pc) && h.conns[c].pc.ch == ch))
  }

  /**
   * The move begins a subscription of the connection to the channel whose checks pass: for a private or presence
   * channel, an auth string for this socket and channel under the key and secret the store has at that moment.
   */
  ghost predicate Passes(hs: Hashes, h: Hubs, m: Move, c: Client, ch: string) {
    && m.Do? && m.c == c && m.action.BeginSubscribe? && m.action.r.ch == ch
    && c in h.conns && h.conns[c].pc.Idle? && Authorized(hs, h.shared, c, m.action.r)
  }

  lemma ActHolds(hs: Hashes, h: Hubs, c: Client, a: Action, d: Client, ch: string)
    requires c in h.conns && Enabled(h.conns[c], h.shared, a)
    ensures Holds(DoAct(hs, h, c, a), d, ch) ==> Holds(h, d, ch) || Passes(hs, h, Do(c, a), d, ch)
  {
    hide Key, Authorized, IsPresence, MemoryAdd, MemoryRemove, SubsAfterLeave, AddUser, Leave, HubIndex.Join;
  }

  lemma StepHolds(hs: Hashes, h: Hubs, m: Move, c: Client, ch: string)
    ensures Holds(Step(hs, h, m), c, ch) ==> Holds(h, c, ch) || Passes(hs, h, m, c, ch)
  {
    if m.Do? && m.c in h.conns && Enabled(h.conns[m.c], h.shared, m.action) {
      ActHolds(hs, h, m.c, m.action, c, ch);
    }
    hide Act, Enabled, Authorized, Register;
  }

  lemma {:induction false} HoldersPassed(hs: Hashes, nodes: set<string>, moves: seq<Move>, c: Client, ch: string)
    requires Holds(Run(hs, nodes, moves), c, ch)
    ensures exists q: nat :: PassedAndStayed(hs, nodes, moves, q, c, ch)
  {
    hide Step, Holds, Passes;
    if moves == [] {
      StartHoldsNothing(nodes, c, ch);
    } else {
      var n := |moves| - 1;
      assert moves[..n + 1] == moves;
      StepHolds(hs, Run(hs, nodes, moves[..n]), moves[n], c, ch);
      if Holds(Run(hs, nodes, moves[..n]), c, ch) {
        HoldersPassed(hs, nodes, moves[..n], c, ch);
        var q: nat :| PassedAndStayed(hs, nodes, moves[..n], q, c, ch);
        StaysOn(hs, nodes, moves, q, c, ch);
      } else {
        assert PassedAndStayed(hs, nodes, moves, n, c, ch);
      }
    }
  }

  /** At move `q` the connection passed the checks for the channel, and it has not left since. */
  ghost predicate PassedAndStayed(hs: Hashes, nodes: set<string>, moves: seq<Move>, q: nat, c: Client, ch: string) {
    && q < |moves| && Passes(hs, Run(hs, nodes, moves[..q]), moves[q], c, ch)
    && forall r :: q < r <= |moves| ==> Holds(Run(hs, nodes, moves[..r]), c, ch)
  }

  lemma StaysOn(hs: Hashes, nodes: set<string>, moves: seq<Move>, q: nat, c: Client, ch: string)
    requires moves != [] && PassedAndStayed(hs, nodes, moves[..|moves| - 1], q, c, ch)
             && Holds(Run(hs, nodes, moves), c, ch)
    ensures PassedAndStayed(hs, nodes, moves, q, c, ch)
  {
    hide Run, Holds, Passes;
    var n := |moves| - 1;
    assert moves[..n][..q] == moves[..q] && moves[..n + 1] == moves;
    forall r | q < r <= n ensures Holds(Run(hs, nodes, moves[..r]), c, ch) {
      assert moves[..n][..r] == moves[..r];
    }
  }

  lemma StartHoldsNothing(nodes: set<string>, c: Client, ch: string)
    ensures !Holds(Start(nodes), c, ch)
  {}

  /** A subscription passes exactly from the read loop, for a named channel, with the right auth string and a user. */
  lemma PassedIff(hs: Hashes, h: Hubs, c: Client, r: SubscribeRequest)
    ensures var store := h.shared.store;
            var data := if r.channelData != "" then ":" + r.channelData else "";
            Step(hs, h, Do(c, BeginSubscribe(r))) != h <==>
            && c in h.conns && h.conns[c].pc.Idle? && r.ch != "" && c.app in store
            && (HasPrefix(r.ch, "private-") || HasPrefix(r.ch, "presence-") ==>
                  r.auth == store[c.app].appKey + ":" + Hex(hs.hmac(store[c.app].secret, c.socket + ":" + r.ch + data)))
            && (HasPrefix(r.ch, "presence-") ==> r.member.Some?)
  {
    AuthorizedIs(hs, h.shared, c, r);
    hide Authorized, Hex, HasPrefix;
    if c in h.conns && h.conns[c].pc.Idle? && r.ch != "" {
      if Authorized(hs, h.shared, c, r) {
        assert Step(hs, h, Do(c, BeginSubscribe(r))).conns[c].pc != h.conns[c].pc;
      } else {
        assert h.conns[c := h.conns[c]] == h.conns;
      }
    }
  }

  lemma AuthorizedIs(hs: Hashes, s: Shared, c: Client, r: SubscribeRequest)
    ensures var data := if r.channelData != "" then ":" + r.channelData else "";
            Authorized(hs, s, c, r) <==>
            && c.app in s.store
            && (HasPrefix(r.ch, "private-") || HasPrefix(r.ch, "presence-") ==>
                  r.auth == s.store[c.app].appKey + ":" +
                            Hex(hs.hmac(s.store[c.app].secret, c.socket + ":" + r.ch + data)))
            && (HasPrefix(r.ch, "presence-") ==> r.member.Some?)
  {
    hide Hex;
    assert "private-encrypted-"[..8] == "private-";
  }

  /** The store has what was last set for an application. */
  lemma {:induction false} StoreIsLatest(hs: Hashes, nodes: set<string>, moves: seq<Move>, n: nat,
                                         app: string, credentials: Option<Credentials>)
    requires n < |moves| && moves[n] == SetApp(app, credentials)
    requires forall i :: n < i < |moves| && moves[i].SetApp? ==> moves[i].app != app
    ensures var store := Run(hs, nodes, moves).shared.store;
            (if app in store then Some(store[app]) else None) == credentials
  {
    var most := moves[..|moves| - 1];
    if n < |most| {
      StoreIsLatest(hs, nodes, most, n, app, credentials);
      StepStore(hs, Run(hs, nodes, most), moves[|moves| - 1]);
      hide Step;
    } else {
      hide Run;
    }
  }

  lemma StepStore(hs: Hashes, h: Hubs, m: Move)
    ensures forall app :: !(m.SetApp? && m.app == app) ==>
      var store, store' := h.shared.store, Step(hs, h, m).shared.store;
      (app in store' <==> app in store) && (app in store ==> store'[app] == store[app])
  {
    hide Key, Authorized, IsPresence, MemoryAdd, MemoryRemove, SubsAfterLeave, Leave, HubIndex.Join, AddUser, Drop;
  }

  /**
   * Every member of a private or presence channel got in, for its present stay, by a subscription whose auth
   * string, for exactly that socket and channel, was right under the key and secret the application then had.
   */
  lemma MembersAreVerified(hs: Hashes, nodes: set<string>, moves: seq<Move>, c: Client, ch: string)
    requires HasPrefix(ch, "private-") || HasPrefix(ch, "presence-")
    requires c in Members(Run(hs, nodes, moves).shared.index, ChannelSpot(c, ch))
    ensures exists q: nat ::
              && PassedAndStayed(hs, nodes, moves, q, c, ch)
              && var r, store := moves[q].action.r, Run(hs, nodes, moves[..q]).shared.store;
                 c.app in store &&
                 r.auth ==
                 store[c.app].appKey + ":" +
                 Hex(hs.hmac(store[c.app].secret,
                             c.socket + ":" + ch + if r.channelData != "" then ":" + r.channelData else ""))
  {
    var h := Run(hs, nodes, moves);
    RunKeepsInv(hs, nodes, moves);
    assert SetsAgree(h);
    hide Inv, Run, Key, HasPrefix, Hex, Members;
    assert ch in Mine(h, c);
    HoldersPassed(hs, nodes, moves, c, ch);
  }
}
