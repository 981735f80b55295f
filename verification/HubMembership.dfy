/** What every interleaving of the hubs' steps keeps: indexes in step, one broker subscription per channel. */
module HubMembership {
  import opened ChannelKeys
  import opened HubIndex
  import opened Presence
  import opened RequestSigning
  import opened HubSteps

  /** The goroutine has begun `Unregister`. */
  predicate Leaving(p: PC) {
    match p
    case Draining(_) => true
    case Gone => true
    case Removing(_, next) => next.Drain?
    case Announcing(_, _, _, next) => next.Drain?
    case Waiting(_, next) => next.Drain?
    case _ => false
  }

  /** What is left of the channel list that `Unregister` copied. */
  function Remaining(p: PC): seq<string> {
    match p
    case Draining(rest) => rest
    case Removing(_, next) => if next.Drain? then next.rest else []
    case Announcing(_, _, _, next) => if next.Drain? then next.rest else []
    case Waiting(_, next) => if next.Drain? then next.rest else []
    case _ => []
  }

  /** Between the first-subscriber step and the `channelSubs` write. */
  predicate Pending(p: PC) {
    p.Opening? || p.Recording?
  }

  predicate Joined(p: PC) {
    p.Opening? || p.Recording? || p.Adding?
  }

  predicate Checked(p: PC) {
    p.Indexing? || p.Joining? || Joined(p)
  }

  // The channel index and the clients' own sets.

  function Mine(h: Hubs, c: Client): set<string> {
    if c in h.conns then h.conns[c].mine else {}
  }

  /** The spot is one of `c`'s own: a channel of its application, on its hub. */
  ghost predicate OwnSpot(c: Client, s: Spot) {
    exists ch :: s == ChannelSpot(c, ch)
  }

  ghost predicate SetsAgree(h: Hubs) {
    forall c, ch :: ch in Mine(h, c) <==> c in Members(h.shared.index, ChannelSpot(c, ch))
  }

  ghost predicate SetsOwned(i: Index<Spot, nat>) {
    forall s, c :: c in Members(i, s) ==> OwnSpot(c, s)
  }

  ghost predicate NoEmptySet(i: Index<Spot, nat>) {
    forall s :: s in i.channels ==> i.channels[s] != {}
  }

  ghost predicate PhaseOK(k: Conn) {
    && (Joined(k.pc) ==> k.pc.ch in k.mine)
    && (k.pc.Removing? ==> k.pc.ch !in k.mine)
    && (Leaving(k.pc) ==> forall ch :: ch in k.mine ==> ch in Remaining(k.pc))
  }

  lemma ActKeepsPhase(hs: Hashes, c: Client, k: Conn, s: Shared, a: Action)
    requires PhaseOK(k) && Enabled(k, s, a)
    ensures PhaseOK(Act(hs, c, k, s, a).0)
  {
    hide Key, Authorized, IsPresence, MemoryAdd, MemoryRemove, SubsAfterLeave;
    match a
    case BeginUnregister(order) =>
      assert forall ch :: ch in k.mine ==> ch in order;
    case DrainNext =>
      assert k.pc.rest != [] ==> k.pc.rest == [k.pc.rest[0]] + k.pc.rest[1..];
    case _ =>
  }

  lemma OwnKeys(c: Client, ch: string)
    ensures forall x :: ChannelSpot(c, x) == ChannelSpot(c, ch) ==> x == ch
  {
    forall x | ChannelSpot(c, x) == ChannelSpot(c, ch) ensures x == ch {
      SameAppKey(c.app, x, ch);
    }
  }

  /** What an action does to the channel sets, the client's own one included. */
  datatype ChannelEffect = NoEffect | Joins(ch: string) | Leaves(ch: string)

  function EffectOf(k: Conn, a: Action): ChannelEffect {
    match a
    case JoinChannel => if k.pc.Joining? then Joins(k.pc.ch) else NoEffect
    case BeginUnsubscribe(ch) => Leaves(ch)
    case DrainNext => if k.pc.Draining? && k.pc.rest != [] then Leaves(k.pc.rest[0]) else NoEffect
    case _ => NoEffect
  }

  lemma ActEffect(hs: Hashes, c: Client, k: Conn, s: Shared, a: Action)
    requires Enabled(k, s, a)
    ensures var (k', s') := Act(hs, c, k, s, a);
            match EffectOf(k, a)
            case NoEffect => s'.index.channels == s.index.channels && k'.mine == k.mine
            case Joins(ch) =>
              s'.index.channels == Join(s.index, c, ChannelSpot(c, ch)).channels && k'.mine == k.mine + {ch}
            case Leaves(ch) =>
              s'.index.channels == Leave(s.index, c, ChannelSpot(c, ch)).channels && k'.mine == k.mine - {ch}
  {
    hide Key, Authorized, IsPresence, MemoryAdd, MemoryRemove, SubsAfterLeave;
  }

  lemma JoinKeepsSets(h: Hubs, h': Hubs, c: Client, ch: string)
    requires c in h.conns && SetsAgree(h) && SetsOwned(h.shared.index) && NoEmptySet(h.shared.index)
    requires h'.shared.index.channels == Join(h.shared.index, c, ChannelSpot(c, ch)).channels
    requires forall d :: Mine(h', d) == if d == c then Mine(h, d) + {ch} else Mine(h, d)
    ensures SetsAgree(h') && SetsOwned(h'.shared.index) && NoEmptySet(h'.shared.index)
  {
    OwnKeys(c, ch);
    assert OwnSpot(c, ChannelSpot(c, ch));
    hide Key, Mine;
  }

  lemma LeaveKeepsSets(h: Hubs, h': Hubs, c: Client, ch: string)
    requires c in h.conns && SetsAgree(h) && SetsOwned(h.shared.index) && NoEmptySet(h.shared.index)
    requires h'.shared.index.channels == Leave(h.shared.index, c, ChannelSpot(c, ch)).channels
    requires forall d :: Mine(h', d) == if d == c then Mine(h, d) - {ch} else Mine(h, d)
    ensures SetsAgree(h') && SetsOwned(h'.shared.index) && NoEmptySet(h'.shared.index)
  {
    OwnKeys(c, ch);
    hide Key, Mine;
  }

  lemma ActKeepsSets(hs: Hashes, h: Hubs, c: Client, a: Action)
    requires c in h.conns && Enabled(h.conns[c], h.shared, a)
    requires SetsAgree(h) && SetsOwned(h.shared.index) && NoEmptySet(h.shared.index)
    ensures var h' := DoAct(hs, h, c, a);
            SetsAgree(h') && SetsOwned(h'.shared.index) && NoEmptySet(h'.shared.index)
  {
    var h' := DoAct(hs, h, c, a);
    ActEffect(hs, c, h.conns[c], h.shared, a);
    match EffectOf(h.conns[c], a)
    case NoEffect => assert forall d :: Mine(h', d) == Mine(h, d);
    case Joins(ch) => JoinKeepsSets(h, h', c, ch);
    case Leaves(ch) => LeaveKeepsSets(h, h', c, ch);
  }

  // Broker subscriptions.

  ghost predicate PendingAt(h: Hubs, c: Client, spot: Spot) {
    c in h.conns && Pending(h.conns[c].pc) && ChannelSpot(c, h.conns[c].pc.ch) == spot
  }

  ghost predicate RecordingAt(h: Hubs, c: Client, id: nat) {
    c in h.conns && h.conns[c].pc.Recording? && h.conns[c].pc.sub == id
  }

  /** A recorded subscription is its channel's own, open, with its reader running. */
  ghost predicate RecordedOK(s: Shared) {
    forall spot :: spot in s.index.subs ==>
      && spot in s.index.channels
      && s.index.subs[spot] < |s.subs|
      && var sub := s.subs[s.index.subs[spot]]; sub.spot == spot && sub.open && sub.started
  }

  /** A goroutine that has yet to record a subscription is the only one for its channel. */
  ghost predicate PendingOK(h: Hubs, c: Client) {
    c in h.conns && Pending(h.conns[c].pc) ==>
      var p := h.conns[c].pc;
      var spot := ChannelSpot(c, p.ch);
      && spot !in h.shared.index.subs
      && (p.Recording? ==> p.sub < |h.shared.subs| && h.shared.subs[p.sub] == SubRecord(spot, true, false, c))
  }

  ghost predicate OnePending(h: Hubs) {
    forall c, d, spot :: PendingAt(h, c, spot) && PendingAt(h, d, spot) ==> c == d
  }

  /** Every open subscription is recorded for its channel or about to be. */
  ghost predicate OpenOwned(h: Hubs, id: nat) {
    id < |h.shared.subs| && h.shared.subs[id].open ==>
      var sub := h.shared.subs[id];
      || (sub.spot in h.shared.index.subs && h.shared.index.subs[sub.spot] == id)
      || RecordingAt(h, sub.opener, id)
  }

  ghost predicate Covered(h: Hubs, spot: Spot) {
    spot in h.shared.index.channels ==> spot in h.shared.index.subs || exists c :: PendingAt(h, c, spot)
  }

  ghost predicate SubsInv(h: Hubs) {
    && RecordedOK(h.shared)
    && (forall c :: PendingOK(h, c))
    && OnePending(h)
    && (forall id :: OpenOwned(h, id))
    && (forall spot :: Covered(h, spot))
  }

  ghost predicate ChannelsInv(h: Hubs) {
    && SetsAgree(h) && SetsOwned(h.shared.index) && NoEmptySet(h.shared.index)
    && (forall c :: c in h.conns ==> PhaseOK(h.conns[c]))
  }

  /** A goroutine that is pending for a channel is one of its members. */
  lemma PendingIsMember(h: Hubs, c: Client, spot: Spot)
    requires ChannelsInv(h) && PendingAt(h, c, spot)
    ensures c in Members(h.shared.index, spot)
  {
    assert PhaseOK(h.conns[c]);
    assert h.conns[c].pc.ch in Mine(h, c);
  }

  /** `h'` is `h` after `c`'s goroutine made `k` of itself and `s` of the shared state. */
  ghost predicate Moved(h: Hubs, h': Hubs, c: Client, k: Conn, s: Shared) {
    c in h.conns && h' == h.(conns := h.conns[c := k], shared := s)
  }

  lemma QuietKeepsSubs(h: Hubs, h': Hubs, c: Client, k: Conn, s: Shared)
    requires SubsInv(h) && h'.conns == h.conns[c := k] && h'.shared == s
    requires s.subs == h.shared.subs && s.index.subs == h.shared.index.subs
    requires s.index.channels == h.shared.index.channels
    requires (c in h.conns ==> !Pending(h.conns[c].pc)) && !Pending(k.pc)
    ensures SubsInv(h')
  {
    hide Key;
    forall d, spot ensures PendingAt(h', d, spot) == PendingAt(h, d, spot) {}
    forall d, id ensures RecordingAt(h', d, id) == RecordingAt(h, d, id) {}
    forall d ensures PendingOK(h', d) { assert PendingOK(h, d); }
    forall id ensures OpenOwned(h', id) { assert OpenOwned(h, id); }
    forall spot ensures Covered(h', spot) { assert Covered(h, spot); }
  }

  lemma JoinKeepsSubs(h: Hubs, h': Hubs, c: Client)
    requires SubsInv(h) && ChannelsInv(h) && c in h.conns && h.conns[c].pc.Joining?
    requires var (k, s) := DoJoin(c, h.conns[c], h.shared); Moved(h, h', c, k, s)
    ensures SubsInv(h')
  {
    var own := ChannelSpot(c, h.conns[c].pc.ch);
    hide Key, SetsAgree, SetsOwned, PhaseOK, NoEmptySet, IsPresence;
    forall d, spot | d != c ensures PendingAt(h', d, spot) == PendingAt(h, d, spot) {}
    forall d, id ensures RecordingAt(h', d, id) == RecordingAt(h, d, id) {}
    forall d | PendingAt(h, d, own) ensures own in h.shared.index.channels {
      PendingIsMember(h, d, own);
    }
    forall d ensures PendingOK(h', d) { assert PendingOK(h, d); }
    forall id ensures OpenOwned(h', id) { assert OpenOwned(h, id); }
    forall spot ensures Covered(h', spot) {
      assert Covered(h, spot);
      assert spot == own && own !in h.shared.index.channels ==> PendingAt(h', c, spot);
    }
  }

  lemma OpenKeepsSubs(h: Hubs, h': Hubs, c: Client)
    requires SubsInv(h) && c in h.conns && h.conns[c].pc.Opening?
    requires var (k, s) := DoOpen(c, h.conns[c], h.shared); Moved(h, h', c, k, s)
    ensures SubsInv(h')
  {
    hide Key;
    forall d, spot ensures PendingAt(h', d, spot) == PendingAt(h, d, spot) {}
    forall d, id | d != c ensures RecordingAt(h', d, id) == RecordingAt(h, d, id) {}
    forall d ensures PendingOK(h', d) { assert PendingOK(h, d); }
    forall id ensures OpenOwned(h', id) { assert OpenOwned(h, id); }
    forall spot ensures Covered(h', spot) { assert Covered(h, spot); }
  }

  lemma RecordKeepsSubs(h: Hubs, h': Hubs, c: Client)
    requires SubsInv(h) && ChannelsInv(h) && c in h.conns && h.conns[c].pc.Recording?
    requires h.conns[c].pc.sub < |h.shared.subs|
    requires var (k, s) := DoRecord(c, h.conns[c], h.shared); Moved(h, h', c, k, s)
    ensures SubsInv(h')
  {
    var own := ChannelSpot(c, h.conns[c].pc.ch);
    PendingIsMember(h, c, own);
    assert PendingOK(h, c);
    hide Key;
    forall d, spot | d != c ensures PendingAt(h', d, spot) == PendingAt(h, d, spot) {}
    forall d, id | d != c ensures RecordingAt(h', d, id) == RecordingAt(h, d, id) {}
    forall d ensures PendingOK(h', d) {
      assert PendingOK(h, d);
      assert PendingAt(h, c, own);
      assert d != c && PendingAt(h', d, own) ==> PendingAt(h, d, own);
      if d in h'.conns && Pending(h'.conns[d].pc) {
        assert PendingAt(h', d, ChannelSpot(d, h'.conns[d].pc.ch));
      }
    }
    forall id ensures OpenOwned(h', id) { assert OpenOwned(h, id); }
    forall spot ensures Covered(h', spot) {
      assert Covered(h, spot);
    }
  }

  lemma LeaveKeepsSubs(h: Hubs, h': Hubs, c: Client, ch: string, next: Then)
    requires SubsInv(h) && ChannelsInv(h) && c in h.conns && !Pending(h.conns[c].pc)
    requires var (k, s) := DoLeave(c, h.conns[c], h.shared, ch, next); Moved(h, h', c, k, s)
    ensures SubsInv(h')
  {
    var own := ChannelSpot(c, ch);
    hide Key, SetsAgree, SetsOwned, PhaseOK, IsPresence;
    forall d, spot ensures PendingAt(h', d, spot) == PendingAt(h, d, spot) {}
    forall d, id ensures RecordingAt(h', d, id) == RecordingAt(h, d, id) {}
    if IsLast(h.shared.index, c, own) {
      forall d ensures PendingAt(h, d, own) ==> d in Members(h.shared.index, own) - {c} {
        if PendingAt(h, d, own) {
          PendingIsMember(h, d, own);
        }
      }
      assert Members(h.shared.index, own) - {c} == {};
      assert Covered(h, own);
    }
    forall d ensures PendingOK(h', d) { assert PendingOK(h, d); }
    forall id ensures OpenOwned(h', id) { assert OpenOwned(h, id); }
    forall spot ensures Covered(h', spot) { assert Covered(h, spot); }
  }

  // Presence tables.

  predicate Present(t: Tables, c: Client, ch: string) {
    c.socket in MemoryRoster(t, Key(c.app, ch))
  }

  /** The goroutine is between the channel section and the presence call for `ch`. */
  predicate Between(p: PC, ch: string) {
    (Joined(p) || p.Removing?) && p.ch == ch
  }

  ghost predicate PresentOK(h: Hubs, c: Client, ch: string) {
    c in h.conns && IsPresence(ch) && !Between(h.conns[c].pc, ch) ==>
      (Present(h.shared.tables, c, ch) <==> ch in h.conns[c].mine)
  }

  ghost predicate OwnPresence(c: Client, key: string) {
    exists ch :: IsPresence(ch) && key == Key(c.app, ch)
  }

  /** Every presence entry is a known connection's, for a presence channel of its application. */
  ghost predicate EntryOwned(h: Hubs, key: string, x: string) {
    x in MemoryRoster(h.shared.tables, key) ==> x in h.sockets && OwnPresence(h.sockets[x], key)
  }

  ghost predicate Known(h: Hubs) {
    && (forall c :: c in h.conns <==> c.socket in h.sockets && h.sockets[c.socket] == c)
    && (forall x :: x in h.sockets ==> h.sockets[x].socket == x && x != "")
    && (forall c :: c in h.conns ==> c.node in h.nodes && ColonFree(c.app))
  }

  ghost predicate PresenceInv(h: Hubs) {
    && (forall c, ch :: PresentOK(h, c, ch))
    && (forall key, x :: EntryOwned(h, key, x))
    && CacheAgrees(h.shared.tables)
  }

  lemma AddEntry(t: Tables, key: string, m: Member)
    ensures forall k, x :: x in MemoryRoster(MemoryAdd(t, key, m), k) <==>
                           x in MemoryRoster(t, k) || (k == key && x == m.socketID)
  {}

  lemma RemoveEntry(t: Tables, key: string, socket: string)
    ensures forall k, x :: x in MemoryRoster(MemoryRemove(t, key, socket).0, k) <==>
                           x in MemoryRoster(t, k) && !(k == key && x == socket)
  {}

  lemma PresenceKeys(c: Client, ch: string)
    ensures forall x :: Key(c.app, x) == Key(c.app, ch) ==> x == ch
  {
    forall x | Key(c.app, x) == Key(c.app, ch) ensures x == ch {
      SameAppKey(c.app, x, ch);
    }
  }

  lemma AddKeepsPresence(h: Hubs, h': Hubs, c: Client)
    requires Known(h) && PresenceInv(h) && c in h.conns && PhaseOK(h.conns[c]) && h.conns[c].pc.Adding?
    requires var (k, s) := DoAddPresence(c, h.conns[c], h.shared); Moved(h, h', c, k, s)
    ensures PresenceInv(h')
  {
    var p := h.conns[c].pc;
    if IsPresence(p.ch) {
      var m := Member(p.user, p.info, c.socket);
      AddEntry(h.shared.tables, Key(c.app, p.ch), m);
      AddKeepsCache(h.shared.tables, Key(c.app, p.ch), m);
      PresenceKeys(c, p.ch);
      assert OwnPresence(c, Key(c.app, p.ch));
    }
    hide Key, MemoryRoster, MemoryAdd, CacheAgrees, IsPresence;
    forall d, ch ensures PresentOK(h', d, ch) { assert PresentOK(h, d, ch); }
    forall k, x ensures EntryOwned(h', k, x) { assert EntryOwned(h, k, x); }
  }

  lemma RemoveKeepsPresence(h: Hubs, h': Hubs, c: Client)
    requires Known(h) && PresenceInv(h) && c in h.conns && PhaseOK(h.conns[c]) && h.conns[c].pc.Removing?
    requires var (k, s) := DoRemovePresence(c, h.conns[c], h.shared); Moved(h, h', c, k, s)
    ensures PresenceInv(h')
  {
    var ch := h.conns[c].pc.ch;
    RemoveEntry(h.shared.tables, Key(c.app, ch), c.socket);
    RemoveKeepsCache(h.shared.tables, Key(c.app, ch), c.socket);
    PresenceKeys(c, ch);
    hide Key, MemoryRoster, MemoryRemove, CacheAgrees, IsPresence;
    forall d, x ensures PresentOK(h', d, x) { assert PresentOK(h, d, x); }
    forall k, x ensures EntryOwned(h', k, x) { assert EntryOwned(h, k, x); }
  }

  /** The other actions leave the tables alone; a channel set changes only as the goroutine goes between. */
  lemma OtherKeepsPresence(h: Hubs, h': Hubs, c: Client, k: Conn, s: Shared)
    requires Known(h) && PresenceInv(h) && Moved(h, h', c, k, s)
    requires s.tables == h.shared.tables
    requires forall ch :: IsPresence(ch) && !Between(k.pc, ch) ==>
               !Between(h.conns[c].pc, ch) && (ch in k.mine <==> ch in h.conns[c].mine)
    ensures PresenceInv(h')
  {
    hide Key, MemoryRoster, CacheAgrees, IsPresence;
    forall d, ch ensures PresentOK(h', d, ch) { assert PresentOK(h, d, ch); }
    forall key, x ensures EntryOwned(h', key, x) { assert EntryOwned(h, key, x); }
  }

  lemma ActKeepsPresence(hs: Hashes, h: Hubs, c: Client, a: Action)
    requires Known(h) && PresenceInv(h) && c in h.conns && PhaseOK(h.conns[c])
    requires Enabled(h.conns[c], h.shared, a)
    ensures PresenceInv(DoAct(hs, h, c, a))
  {
    var (k, s) := Act(hs, c, h.conns[c], h.shared, a);
    var h' := DoAct(hs, h, c, a);
    if a.AddPresence? {
      AddKeepsPresence(h, h', c);
    } else if a.RemovePresence? {
      RemoveKeepsPresence(h, h', c);
    } else {
      ActBetween(hs, c, h.conns[c], h.shared, a);
      OtherKeepsPresence(h, h', c, k, s);
    }
  }

  lemma ActBetween(hs: Hashes, c: Client, k: Conn, s: Shared, a: Action)
    requires Enabled(k, s, a) && !a.AddPresence? && !a.RemovePresence?
    ensures var (k', s') := Act(hs, c, k, s, a);
            && s'.tables == s.tables
            && forall ch :: IsPresence(ch) && !Between(k'.pc, ch) ==>
                 !Between(k.pc, ch) && (ch in k'.mine <==> ch in k.mine)
  {
    hide Key, Authorized, IsPresence, MemoryAdd, MemoryRemove, SubsAfterLeave;
  }

  // The client and user indexes.

  ghost predicate RegisteredOK(h: Hubs, c: Client) {
    var i := h.shared.index;
    var live := c in h.conns && !Leaving(h.conns[c].pc);
    && (c in i.clients <==> live)
    && (SocketSpot(c) in i.byID && i.byID[SocketSpot(c)] == c <==> live)
  }

  ghost predicate IDsOwned(i: Index<Spot, nat>) {
    forall s :: s in i.byID ==> SocketSpot(i.byID[s]) == s
  }

  /** The index has the connection under every user ID it was indexed under, less the one `Unregister` removed. */
  ghost predicate UserOK(h: Hubs, c: Client, u: string) {
    c in h.conns ==>
      var k := h.conns[c];
      c in Lookup(h.shared.index.byUser, UserSpot(c, u)) <==>
      u in k.usersSeen && !(Leaving(k.pc) && u == k.user && u != "")
  }

  ghost predicate OwnUserSpot(c: Client, s: Spot) {
    exists u :: s == UserSpot(c, u)
  }

  ghost predicate UserOwned(h: Hubs, c: Client, s: Spot) {
    c in Lookup(h.shared.index.byUser, s) ==> c in h.conns && OwnUserSpot(c, s)
  }

  ghost predicate IndexInv(h: Hubs) {
    && (forall c :: RegisteredOK(h, c))
    && IDsOwned(h.shared.index)
    && (forall c, u :: UserOK(h, c, u))
    && (forall c, s :: UserOwned(h, c, s))
  }

  lemma UserKeys(c: Client, u: string)
    ensures forall x :: UserSpot(c, x) == UserSpot(c, u) ==> x == u
  {
    forall x | UserSpot(c, x) == UserSpot(c, u) ensures x == u {
      SameAppKey(c.app, x, u);
    }
  }

  lemma IndexUserKeeps(h: Hubs, h': Hubs, c: Client)
    requires Known(h) && IndexInv(h) && c in h.conns && h.conns[c].pc.Indexing?
    requires var (k, s) := DoIndexUser(c, h.conns[c], h.shared); Moved(h, h', c, k, s)
    ensures IndexInv(h')
  {
    var u := h.conns[c].pc.user;
    UserKeys(c, u);
    assert OwnUserSpot(c, UserSpot(c, u));
    hide Key;
    forall d ensures RegisteredOK(h', d) { assert RegisteredOK(h, d); }
    forall d, x ensures UserOK(h', d, x) { assert UserOK(h, d, x); }
    forall d, s ensures UserOwned(h', d, s) { assert UserOwned(h, d, s); }
  }

  lemma UnregisterKeeps(h: Hubs, h': Hubs, c: Client, order: seq<string>)
    requires Known(h) && IndexInv(h) && c in h.conns && h.conns[c].pc.Idle?
    requires var (k, s) := DoBeginUnregister(c, h.conns[c], h.shared, order); Moved(h, h', c, k, s)
    ensures IndexInv(h')
  {
    UserKeys(c, h.conns[c].user);
    hide Key;
    forall d ensures RegisteredOK(h', d) {
      assert RegisteredOK(h, d);
      assert RegisteredOK(h, c);
    }
    forall d, x ensures UserOK(h', d, x) { assert UserOK(h, d, x); }
    forall d, s ensures UserOwned(h', d, s) { assert UserOwned(h, d, s); }
  }

  lemma OtherKeepsIndex(h: Hubs, h': Hubs, c: Client, k: Conn, s: Shared)
    requires Known(h) && IndexInv(h) && Moved(h, h', c, k, s)
    requires s.index.clients == h.shared.index.clients && s.index.byID == h.shared.index.byID
    requires s.index.byUser == h.shared.index.byUser
    requires k.usersSeen == h.conns[c].usersSeen
    requires Leaving(k.pc) <==> Leaving(h.conns[c].pc)
    requires Leaving(k.pc) ==> k.user == h.conns[c].user
    ensures IndexInv(h')
  {
    hide Key, Leaving;
    forall d ensures RegisteredOK(h', d) { assert RegisteredOK(h, d); }
    forall d, x ensures UserOK(h', d, x) { assert UserOK(h, d, x); }
    forall d, t ensures UserOwned(h', d, t) { assert UserOwned(h, d, t); }
  }

  lemma ActLeaving(hs: Hashes, c: Client, k: Conn, s: Shared, a: Action)
    requires Enabled(k, s, a) && !a.IndexUser? && !a.BeginUnregister?
    ensures var (k', s') := Act(hs, c, k, s, a);
            && s'.index.clients == s.index.clients && s'.index.byID == s.index.byID && s'.index.byUser == s.index.byUser
            && k'.usersSeen == k.usersSeen
            && (Leaving(k'.pc) <==> Leaving(k.pc))
            && (Leaving(k'.pc) ==> k'.user == k.user)
  {
    hide Key, Authorized, IsPresence, MemoryAdd, MemoryRemove, SubsAfterLeave;
  }

  lemma ActKeepsIndex(hs: Hashes, h: Hubs, c: Client, a: Action)
    requires Known(h) && IndexInv(h) && c in h.conns && Enabled(h.conns[c], h.shared, a)
    ensures IndexInv(DoAct(hs, h, c, a))
  {
    var (k, s) := Act(hs, c, h.conns[c], h.shared, a);
    var h' := DoAct(hs, h, c, a);
    if a.IndexUser? {
      IndexUserKeeps(h, h', c);
    } else if a.BeginUnregister? {
      UnregisterKeeps(h, h', c, a.order);
    } else {
      ActLeaving(hs, c, h.conns[c], h.shared, a);
      OtherKeepsIndex(h, h', c, k, s);
    }
  }

  // User IDs, per connection.

  /** Outside the window before `clientsByUser`, the current user ID is one the connection was indexed under. */
  ghost predicate UserPhase(k: Conn) {
    if k.pc.Indexing? then k.pc.user == k.user
    else k.user in k.usersSeen || (k.user == "" && k.usersSeen == {})
  }

  lemma ActKeepsUser(hs: Hashes, c: Client, k: Conn, s: Shared, a: Action)
    requires Enabled(k, s, a) && UserPhase(k)
    ensures UserPhase(Act(hs, c, k, s, a).0)
  {
    hide Key, Authorized, IsPresence, MemoryAdd, MemoryRemove, SubsAfterLeave;
  }
}
