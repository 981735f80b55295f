/** One hub as its code has it: maps updated in place, loops over them, and connections with bounded channels. */
module LocalHub {
  import opened ChannelKeys
  import opened HubEffects
  import opened HubIndex
  import opened HubState
  import opened Messages
  import opened Options
  import opened Presence
  import opened RequestSigning
  import opened Sequences
  import SubscriptionQueue
  import Broker

  /** A `*ws.Client`. */
  class Connection {
    const id: Client
    var channels: set<string>
    var userID: string
    var sendCh: seq<PusherMessage>
    var closed: bool

    constructor (id: Client)
      ensures this.id == id && State() == ConnState({}, "", [], false)
    {
      this.id, channels, userID, sendCh, closed := id, {}, "", [], false;
    }

    function State(): ConnState
      reads this
    {
      ConnState(channels, userID, sendCh, closed)
    }

    /** Drops the message when the channel is full. */
    method SendPusher(m: PusherMessage)
      modifies this`sendCh
      ensures sendCh == old(sendCh) + if |old(sendCh)| < 256 then [m] else []
      ensures sendCh == Queued(old(sendCh), m)
    {
      if |sendCh| < SLOTS {
        sendCh := sendCh + [m];
      }
    }

    method Close()
      modifies this`closed
      ensures closed
    {
      closed := true;
    }

    method Kick(m: PusherMessage)
      modifies this`sendCh, this`closed
      ensures State() == old(State()).(sendCh := Queued(old(sendCh), m), closed := true)
    {
      SendPusher(m);
      Close();
    }
  }

  /** A broker subscription after it has been offered the payloads in turn. */
  function OfferAll(s: SubscriptionQueue.Sub<Payload>, news: seq<Payload>): (r: SubscriptionQueue.Sub<Payload>)
    ensures r.topics == s.topics && r.closed == s.closed
  {
    if news == [] then s
    else
      var p := news[|news| - 1];
      var before := OfferAll(s, news[..|news| - 1]);
      SubscriptionQueue.Offer(before, SubscriptionQueue.Message(Topic(Key(p.app, p.channel)), p))
  }

  type Queues = map<Broker.MemorySubscription<Payload>, SubscriptionQueue.Sub<Payload>>

  /** Every broker subscription has been offered these payloads, in order; a new one started empty. */
  ghost predicate Offered(before: Queues, after: Queues, news: seq<Payload>) {
    forall s :: s in after ==>
      after[s] == OfferAll(if s in before then before[s] else SubscriptionQueue.Sub(after[s].topics, false, []), news)
  }

  lemma OfferedNone(before: Queues, after: Queues)
    requires forall s :: s in after ==>
      after[s] == if s in before then before[s] else SubscriptionQueue.Sub(after[s].topics, false, [])
    ensures Offered(before, after, [])
  {}

  lemma OfferedOne(before: Queues, after: Queues, p: Payload)
    requires after.Keys == before.Keys
    requires forall s :: s in after ==>
      after[s] == SubscriptionQueue.Offer(before[s], SubscriptionQueue.Message(Topic(Key(p.app, p.channel)), p))
    ensures Offered(before, after, [p])
  {
    hide Key, Topic, SubscriptionQueue.Offer;
    forall s | s in after ensures s in before && after[s] == OfferAll(before[s], [p]) {
      assert OfferAll(before[s], [p][..0]) == before[s];
    }
  }

  /** From one state to the next and on; no subscription is new the second time. */
  lemma OfferedTwice(q0: Queues, q1: Queues, q2: Queues, s0: State, s1: State, s2: State)
    requires s0.published <= s1.published <= s2.published && q2.Keys <= q1.Keys
    requires Offered(q0, q1, News(s0, s1)) && Offered(q1, q2, News(s1, s2))
    ensures Offered(q0, q2, News(s0, s2))
  {
    NewsSum(s0, s1, s2);
    hide OfferAll, News;
    forall s | s in q2
      ensures q2[s] == OfferAll(if s in q0 then q0[s] else SubscriptionQueue.Sub(q2[s].topics, false, []), News(s0, s2))
    {
      OfferTwice(if s in q0 then q0[s] else SubscriptionQueue.Sub(q2[s].topics, false, []), News(s0, s1), News(s1, s2));
    }
  }

  lemma {:induction false} OfferTwice(s: SubscriptionQueue.Sub<Payload>, a: seq<Payload>, b: seq<Payload>)
    ensures OfferAll(OfferAll(s, a), b) == OfferAll(s, a + b)
  {
    hide Key, Topic, SubscriptionQueue.Offer;
    if b == [] {
      assert a + b == a;
    } else {
      OfferTwice(s, a, b[..|b| - 1]);
      assert (a + b)[..|a + b| - 1] == a + b[..|b| - 1];
    }
  }

  function Payloads(q: seq<SubscriptionQueue.Message<Payload>>): seq<Payload> {
    seq(|q|, i requires 0 <= i < |q| => q[i].payload)
  }

  function ForKey(key: string): Payload -> bool {
    (p: Payload) => Key(p.app, p.channel) == key
  }

  /**
   * The subscription to a channel's topic takes the channel's payloads and no others, on every hub: in order, each
   * once, until it is full.
   */
  lemma {:induction false} TakesOwnPayloads(key: string, q: seq<SubscriptionQueue.Message<Payload>>, news: seq<Payload>)
    requires |q| <= 256
    ensures var own := Filter(news, ForKey(key));
            var n := if |own| <= 256 - |q| then |own| else 256 - |q|;
            Payloads(OfferAll(SubscriptionQueue.Sub({Topic(key)}, false, q), news).queue) == Payloads(q) + own[..n]
  {
    if news != [] {
      var most, p := news[..|news| - 1], news[|news| - 1];
      TakesOwnPayloads(key, q, most);
      assert news == most + [p];
      FilterSplits(most, [p], ForKey(key));
      OneFiltered(key, p);
      hide Key, Topic, Filter, Payloads, SubscriptionQueue.Offer;
      var before := OfferAll(SubscriptionQueue.Sub({Topic(key)}, false, q), most);
      TakesOne(key, q, Filter(most, ForKey(key)), before, p);
    }
  }

  lemma TakesOne(key: string, q: seq<SubscriptionQueue.Message<Payload>>, own: seq<Payload>,
                 s: SubscriptionQueue.Sub<Payload>, p: Payload)
    requires |q| <= 256 && s.topics == {Topic(key)} && !s.closed
    requires Payloads(s.queue) == Payloads(q) + own[..if |own| <= 256 - |q| then |own| else 256 - |q|]
    ensures var own' := own + if Key(p.app, p.channel) == key then [p] else [];
            var n := if |own'| <= 256 - |q| then |own'| else 256 - |q|;
            Payloads(SubscriptionQueue.Offer(s, SubscriptionQueue.Message(Topic(Key(p.app, p.channel)), p)).queue) ==
            Payloads(q) + own'[..n]
  {
    TopicIff(Key(p.app, p.channel), key);
    var m := SubscriptionQueue.Message(Topic(Key(p.app, p.channel)), p);
    assert Payloads(s.queue + [m]) == Payloads(s.queue) + [p];
    hide Key, Topic;
    assert |s.queue| == |Payloads(s.queue)|;
  }

  lemma OneFiltered(key: string, p: Payload)
    ensures Filter([p], ForKey(key)) == if Key(p.app, p.channel) == key then [p] else []
  {}

  /** A list without repetitions is as long as the set of its elements. */
  lemma {:induction false} SameSize(list: seq<Client>, all: set<Client>)
    requires forall i, j :: 0 <= i < j < |list| ==> list[i] != list[j]
    requires forall c :: c in list <==> c in all
    ensures |list| == |all|
  {
    if list == [] {
      assert all == {};
    } else {
      var last := list[|list| - 1];
      assert list[..|list| - 1] + [last] == list;
      SameSize(list[..|list| - 1], all - {last});
    }
  }

  /** Puts the client into the set at the key, a new set if there is none. */
  method PutIn(m: map<string, set<Client>>, c: Client, key: string) returns (m': map<string, set<Client>>, isNew: bool)
    ensures m' == m[key := Lookup(m, key) + {c}] && isNew == (key !in m)
  {
    m', isNew := m, false;
    if key !in m' {
      m' := m'[key := {}];
      isNew := true;
    }
    m' := m'[key := m'[key] + {c}];
  }

  /** Takes the client out of the set at the key, and the set out of the map when it is empty. */
  method TakeOut(m: map<string, set<Client>>, c: Client, key: string)
      returns (m': map<string, set<Client>>, empty: bool)
    ensures m' == Without(m, c, key) && empty == (key in m && m[key] - {c} == {})
  {
    m', empty := m, false;
    if key in m {
      var rest := m[key] - {c};
      m' := m[key := rest];
      if |rest| == 0 {
        UpdateThenRemove(m, key, rest);
        m' := m' - {key};
        empty := true;
      }
    }
  }

  /**
   * `conns` is what the `*Client` pointers in the maps point to. `published` records what the hub has published
   * on the broker.
   */
  class Hub {
    const nodeID: string
    const hs: Hashes
    const enc: Encoder
    const pubsub: Broker.MemoryPubSub<Payload>
    var clients: set<Client>
    var clientsByID: map<string, Client>
    var clientsByUser: map<string, set<Client>>
    var channels: map<string, set<Client>>
    var channelSubs: map<string, Broker.MemorySubscription<Payload>>
    var conns: map<Client, Connection>
    var hooks: seq<Hook>
    ghost var published: seq<Payload>

    constructor (nodeID: string, hs: Hashes, enc: Encoder, pubsub: Broker.MemoryPubSub<Payload>)
      requires pubsub.Valid()
      ensures Valid() && this.pubsub == pubsub && this.nodeID == nodeID && this.hs == hs && this.enc == enc
      ensures State() == HubState.State(Empty(), map[], pubsub.Tables(), [], [])
    {
      this.nodeID, this.hs, this.enc, this.pubsub := nodeID, hs, enc, pubsub;
      clients, clientsByID, clientsByUser, channels, channelSubs := {}, map[], map[], map[], map[];
      conns, hooks, published := map[], [], [];
    }

    /** The channels with a recorded broker subscription. */
    function Recorded(): map<string, ()>
      reads this`channelSubs
    {
      map key | key in channelSubs :: ()
    }

    function Index(): Index<string, ()>
      reads this
    {
      HubIndex.Index(clients, clientsByID, clientsByUser, channels, Recorded())
    }

    ghost function Conns(): map<Client, ConnState>
      reads this`conns, conns.Values
    {
      map c | c in conns :: conns[c].State()
    }

    /** The fields, the connections and the presence tables as a value. */
    ghost function State(): State
      reads this, conns.Values, pubsub
    {
      HubState.State(Index(), Conns(), pubsub.Tables(), hooks, published)
    }

    lemma StateParts()
      ensures State() == HubState.State(Index(), Conns(), pubsub.Tables(), hooks, published)
    {}

    lemma StateConns()
      ensures State().conns.Keys == conns.Keys
      ensures forall c :: c in conns ==> State().conns[c] == conns[c].State()
    {}

    lemma StateClients()
      ensures State().index.clients == clients
    {}

    ghost predicate ConnsOK()
      reads this`conns
    {
      forall c :: c in conns ==> conns[c].id == c
    }

    /** A recorded subscription is one to its channel's topic; the broker forgets it only when it is closed. */
    ghost predicate SubsOK()
      reads this`channelSubs, channelSubs.Values, pubsub`subs
    {
      forall key :: key in channelSubs ==>
        && channelSubs[key].broker == pubsub && channelSubs[key].topics == {Topic(key)}
        && (channelSubs[key] in pubsub.subs || channelSubs[key].closed)
    }

    ghost predicate Valid()
      reads this, pubsub, channelSubs.Values
    {
      pubsub.Valid() && ConnsOK() && SubsOK() && Names(Index(), conns.Keys)
    }

    /** One message to one connection. */
    method SendTo(conn: Connection, m: PusherMessage)
      requires Valid() && conn.id in conns && conns[conn.id] == conn
      modifies conn`sendCh
      ensures Valid() && State() == SendAll(old(State()), {conn.id}, m)
    {
      hide SubsOK, Names, Recorded, Queued;
      conn.SendPusher(m);
    }

    method SendError(conn: Connection, code: int)
      requires Valid() && conn.id in conns && conns[conn.id] == conn
      modifies conn`sendCh
      ensures Valid() && State() == Refused(old(State()), enc, conn.id, code)
    {
      SendTo(conn, PusherMessage("pusher:error", "", enc.error(code)));
    }

    method Register(conn: Connection)
      requires Valid() && conn.id !in conns && conn.State() == ConnState({}, "", [], false)
      modifies this`clients, this`clientsByID, this`conns, conn`sendCh
      ensures Valid() && conns == old(conns)[conn.id := conn]
      ensures State() == Registered(old(State()), enc, conn.id)
    {
      AddClient(conn);
      hide State, SendAll;
      SendTo(conn, PusherMessage("pusher:connection_established", "", enc.established(conn.id.socket)));
    }

    /** The locked section of `Register`. */
    method AddClient(conn: Connection)
      requires Valid() && conn.id !in conns && conn.State() == ConnState({}, "", [], false)
      modifies this`clients, this`clientsByID, this`conns
      ensures Valid() && conns == old(conns)[conn.id := conn]
      ensures State() == ClientAdded(old(State()), conn.id)
    {
      hide SubsOK, Names, Recorded;
      RegisterNames(Index(), conns.Keys, conn.id);
      clients := clients + {conn.id};
      clientsByID := clientsByID[conn.id.socket := conn.id];
      conns := conns[conn.id := conn];
      assert conns.Keys == old(conns).Keys + {conn.id};
      assert Conns() == old(Conns())[conn.id := ConnState({}, "", [], false)];
      hide Conns;
    }

    /** One of the two loops of `BroadcastLocal`: appends the recipients not seen before. */
    method Collect(subs: set<Client>, exclude: string, seen: set<Client>, list: seq<Client>)
        returns (seen': set<Client>, list': seq<Client>)
      requires forall c :: c in seen <==> c in list
      requires forall i, j :: 0 <= i < j < |list| ==> list[i] != list[j]
      ensures forall c :: c in seen' <==> c in list'
      ensures forall i, j :: 0 <= i < j < |list'| ==> list'[i] != list'[j]
      ensures forall c :: c in list' <==> c in list || (c in subs && !(exclude != "" && c.socket == exclude))
    {
      seen', list' := seen, list;
      var left := subs;
      while left != {}
        invariant left <= subs
        invariant forall c :: c in seen' <==> c in list'
        invariant forall i, j :: 0 <= i < j < |list'| ==> list'[i] != list'[j]
        invariant forall c :: c in list' <==>
                    c in list || (c in subs - left && !(exclude != "" && c.socket == exclude))
        decreases left
      {
        var c :| c in left;
        left := left - {c};
        if !(exclude != "" && c.socket == exclude) {
          if c !in seen' {
            seen' := seen' + {c};
            list' := list' + [c];
          }
        }
      }
    }

    /** The sends of a fan-out. */
    method SendEach(list: seq<Client>, m: PusherMessage)
      requires Valid() && forall c :: c in list ==> c in conns
      requires forall i, j :: 0 <= i < j < |list| ==> list[i] != list[j]
      modifies conns.Values`sendCh
      ensures Valid() && State() == SendAll(old(State()), (set c | c in list), m)
    {
      hide SubsOK, Names, Recorded, Queued;
      for i := 0 to |list|
        invariant forall c :: c in conns ==>
          conns[c].State() ==
            if c in list[..i] then old(conns[c].State()).(sendCh := Queued(old(conns[c].sendCh), m))
            else old(conns[c].State())
      {
        assert list[..i + 1] == list[..i] + [list[i]];
        conns[list[i]].SendPusher(m);
      }
      assert list[..|list|] == list;
    }

    /** Every member of the channel and every `"*"` subscriber gets the event once, the excluded socket excepted. */
    method BroadcastLocal(app: string, ch: string, event: string, data: string, exclude: string)
      requires Valid()
      modifies conns.Values`sendCh
      ensures Valid()
      ensures State() == LocalBroadcast(old(State()), app, ch, event, data, exclude)
    {
      hide Key, SubsOK, Names, Recorded, Conns, SendAll;
      var subs := Lookup(channels, Key(app, ch));
      var wildcardSubs := Lookup(channels, Key(app, "*"));
      var seen, list := Collect(subs, exclude, {}, []);
      if ch != "*" {
        seen, list := Collect(wildcardSubs, exclude, seen, list);
      }
      RecipientNames(Index(), conns.Keys, Key(app, ch), Key(app, "*"), exclude);
      assert Recipients(Index(), Key(app, ch), Key(app, "*"), exclude) == set c | c in list;
      hide Recipients;
      SendEach(list, PusherMessage(event, ch, data));
    }

    /** The broker's subscriptions. */
    ghost function Queues(): Queues
      reads pubsub`subs, pubsub.subs
    {
      map s | s in pubsub.subs :: s.State()
    }

    /** Of the hub's subscriptions only the one to the payload's channel gets it, if it is open and has room. */
    method PublishToCluster(p: Payload)
      requires Valid()
      modifies this`published, pubsub.subs
      ensures Valid() && State() == old(State()).(published := old(State()).published + [p])
      ensures Offered(old(Queues()), Queues(), [p]) && Queues().Keys == old(Queues()).Keys
      ensures forall s :: s in pubsub.subs ==> s.closed == old(s.closed)
      ensures forall key :: key in channelSubs ==>
        var q, takes := old(channelSubs[key].queue), key == Key(p.app, p.channel) && !channelSubs[key].closed;
        && q <= channelSubs[key].queue
        && |channelSubs[key].queue| == |q| + (if takes && |q| < 256 then 1 else 0)
        && (takes && |q| < 256 ==> channelSubs[key].queue[|q|].payload == p)
    {
      hide Key, Topic, Names, Recorded, Conns;
      pubsub.Publish(Topic(Key(p.app, p.channel)), p);
      published := published + [p];
      OfferedOne(old(Queues()), Queues(), p);
      forall key | key in channelSubs
        ensures channelSubs[key].topics == {Topic(key)} && channelSubs[key].closed == old(channelSubs[key].closed)
      {
        assert old(channelSubs[key].topics) == {Topic(key)};
      }
      forall key ensures Topic(key) == Topic(Key(p.app, p.channel)) <==> key == Key(p.app, p.channel) {
        TopicIff(key, Key(p.app, p.channel));
      }
    }

    /** The fan-out and publication with which a client event and a change of members end too. */
    method Spread(app: string, ch: string, event: string, data: string, exclude: string)
      requires Valid()
      modifies this`published, conns.Values`sendCh, pubsub.subs
      ensures Valid()
      ensures State() == ClusterBroadcast(old(State()), Payload(nodeID, app, ch, event, data, exclude))
      ensures Offered(old(Queues()), Queues(), [Payload(nodeID, app, ch, event, data, exclude)])
      ensures Queues().Keys == old(Queues()).Keys
      ensures forall s :: s in pubsub.subs ==> s.closed == old(s.closed)
    {
      hide LocalBroadcast, Key, Topic, Offered, Queues, Conns, Index, State, SubsOK, Names;
      BroadcastLocal(app, ch, event, data, exclude);
      PublishToCluster(Payload(nodeID, app, ch, event, data, exclude));
    }

    method BroadcastCluster(app: string, ch: string, event: string, data: string, exclude: string)
      requires Valid()
      modifies this`published, conns.Values`sendCh, pubsub.subs
      ensures Valid()
      ensures State() == ClusterBroadcast(old(State()), Payload(nodeID, app, ch, event, data, exclude))
      ensures Offered(old(Queues()), Queues(), [Payload(nodeID, app, ch, event, data, exclude)])
      ensures Queues().Keys == old(Queues()).Keys
      ensures forall s :: s in pubsub.subs ==> s.closed == old(s.closed)
      ensures forall key :: key in channelSubs ==>
        var q, takes := old(channelSubs[key].queue), key == Key(app, ch) && !channelSubs[key].closed;
        && q <= channelSubs[key].queue
        && |channelSubs[key].queue| == |q| + (if takes && |q| < 256 then 1 else 0)
        && (takes && |q| < 256 ==>
              channelSubs[key].queue[|q|].payload == Payload(nodeID, app, ch, event, data, exclude))
    {
      hide LocalBroadcast, Key, Topic, Offered, Queues, Conns, Index, State, SubsOK, Names;
      BroadcastLocal(app, ch, event, data, exclude);
      PublishToCluster(Payload(nodeID, app, ch, event, data, exclude));
    }

    /** A message from the broker: the hub's own are skipped, the others fanned out here. */
    method HandleMessage(bp: Payload)
      requires Valid()
      modifies conns.Values`sendCh
      ensures Valid()
      ensures State() ==
        if bp.origin != "" && bp.origin == nodeID then old(State())
        else LocalBroadcast(old(State()), bp.app, bp.channel, bp.event, bp.data, bp.exclude)
    {
      if bp.origin != "" && bp.origin == nodeID {
        return;
      }
      BroadcastLocal(bp.app, bp.channel, bp.event, bp.data, bp.exclude);
    }

    method EnsurePubSubSubscription(app: string, ch: string)
      requires Valid()
      modifies this`channelSubs, pubsub`subs
      ensures Valid() && Key(app, ch) in channelSubs && fresh(channelSubs[Key(app, ch)])
      ensures State() == SubRecorded(old(State()), Key(app, ch))
      ensures var sub := channelSubs[Key(app, ch)];
              && Queues() == old(Queues())[sub := SubscriptionQueue.Sub({Topic(Key(app, ch))}, false, [])]
              && pubsub.subs == old(pubsub.subs) + [sub] && sub !in old(Queues())
    {
      hide Key, Topic, Names, Conns, Queues;
      var channelKey := Key(app, ch);
      SubsNames(Index(), conns.Keys, Recorded()[channelKey := ()]);
      var sub := OpenSubscription(Topic(channelKey));
      channelSubs := channelSubs[channelKey := sub];
      assert Recorded() == old(Recorded())[channelKey := ()];
    }

    method OpenSubscription(topic: string) returns (sub: Broker.MemorySubscription<Payload>)
      requires Valid()
      modifies pubsub`subs
      ensures Valid() && State() == old(State()) && fresh(sub) && sub.broker == pubsub && sub.topics == {topic}
      ensures Queues() == old(Queues())[sub := SubscriptionQueue.Sub({topic}, false, [])]
      ensures pubsub.subs == old(pubsub.subs) + [sub] && sub !in old(Queues())
    {
      hide Topic, Names, Conns, Recorded;
      sub := pubsub.Subscribe({topic});
    }

    /** What a client event has done, on the hub's own fields; `s` is the state before. */
    lemma ClientEventShows(s: State, conn: Connection, ch: string, event: string, data: string)
      requires Valid() && conn.id in conns && conn.id in s.conns && s.conns.Keys == conns.Keys
      requires s.index.channels == channels && s.conns[conn.id].channels == conn.channels
      requires s.conns[conn.id].userID == conn.userID
      requires State() == Forwarded(s, enc, nodeID, conn.id, ch, event, data)
      ensures var allowed := (HasPrefix(ch, "private-") || HasPrefix(ch, "presence-")) && ch in conn.channels;
              && hooks == s.hooks + (if allowed then
                   [ClientEvent(conn.id.app, ch, event, data, conn.id.socket, conn.userID)] else [])
              && published == s.published + (if allowed then
                   [Payload(nodeID, conn.id.app, ch, event, data, conn.id.socket)] else [])
              && forall d :: d in conns ==>
                   conns[d].State() ==
                   if allowed then Told(s.conns[d], Listening(s.index, conn.id.app, ch, conn.id.socket, d),
                                        PusherMessage(event, ch, data))
                   else Told(s.conns[d], d == conn.id, PusherMessage("pusher:error", "", enc.error(4009)))
    {
      StateConns();
      assert State().hooks == hooks && State().published == published;
      assert ConnOf(s, conn.id) == s.conns[conn.id];
      hide Key, HasPrefix, Forwarded, State, Conns, Index, SubsOK, Names, Told, Listening;
      ForwardedRest(s, enc, nodeID, conn.id, ch, event, data);
      forall d | d in conns
        ensures conns[d].State() ==
          if MayForward(s, conn.id, ch) then
            Told(s.conns[d], Listening(s.index, conn.id.app, ch, conn.id.socket, d), PusherMessage(event, ch, data))
          else Told(s.conns[d], d == conn.id, PusherMessage("pusher:error", "", enc.error(4009)))
      {
        ForwardedTo(s, enc, nodeID, conn.id, ch, event, data, d);
      }
    }

    /** The steps of `HandleClientEvent`. */
    method ForwardEvent(conn: Connection, ch: string, event: string, data: string)
      requires Valid() && conn.id in conns && conns[conn.id] == conn
      modifies this`published, this`hooks, conns.Values`sendCh, pubsub.subs
      ensures Valid()
      ensures State() == Forwarded(old(State()), enc, nodeID, conn.id, ch, event, data)
      ensures Offered(old(Queues()), Queues(), News(old(State()), State()))
    {
      assert ConnOf(State(), conn.id) == conn.State();
      hide Key, Topic, HasPrefix, State, ClusterBroadcast, Refused, Notified, ConnOf, Offered, Queues, Valid, News;
      ForwardedNews(State(), enc, nodeID, conn.id, ch, event, data);
      OfferedNone(Queues(), Queues());
      NoNews(State());
      if !HasPrefix(ch, "private-") && !HasPrefix(ch, "presence-") {
        SendError(conn, 4009);
        return;
      }
      if ch !in conn.channels {
        SendError(conn, 4009);
        return;
      }
      Spread(conn.id.app, ch, event, data, conn.id.socket);
      Notify(ClientEvent(conn.id.app, ch, event, data, conn.id.socket, conn.userID));
    }

    /**
     * A member of a private or presence channel reaches the channel's other members and the `"*"` subscribers of its
     * hub, and through the broker the other hubs; any other client gets an error and nobody else anything.
     */
    method HandleClientEvent(conn: Connection, ch: string, event: string, data: string)
      requires Valid() && conn.id in conns && conns[conn.id] == conn
      modifies this`published, this`hooks, conns.Values`sendCh, pubsub.subs
      ensures Valid()
      ensures State() == Forwarded(old(State()), enc, nodeID, conn.id, ch, event, data)
      ensures (HasPrefix(ch, "private-") || HasPrefix(ch, "presence-")) && ch in old(conn.channels) ==>
        && hooks == old(hooks) + [ClientEvent(conn.id.app, ch, event, data, conn.id.socket, old(conn.userID))]
        && published == old(published) + [Payload(nodeID, conn.id.app, ch, event, data, conn.id.socket)]
        && forall d :: d in conns ==>
             conns[d].sendCh == old(conns[d].sendCh) +
               if d in Lookup(channels, Key(conn.id.app, ch)) + Lookup(channels, Key(conn.id.app, "*"))
                  && !(conn.id.socket != "" && d.socket == conn.id.socket) && |old(conns[d].sendCh)| < 256
               then [PusherMessage(event, ch, data)] else []
      ensures !((HasPrefix(ch, "private-") || HasPrefix(ch, "presence-")) && ch in old(conn.channels)) ==>
        && hooks == old(hooks) && published == old(published)
        && forall d :: d in conns ==>
             conns[d].sendCh == old(conns[d].sendCh) +
               if d == conn.id && |old(conns[d].sendCh)| < 256
               then [PusherMessage("pusher:error", "", enc.error(4009))] else []
      ensures Offered(old(Queues()), Queues(), News(old(State()), State()))
    {
      ghost var s := State();
      StateConns();
      assert s.index.channels == channels && s.hooks == hooks && s.published == published;
      hide Key, HasPrefix, Forwarded, State, Conns, Index, SubsOK, Names, Queues, Offered, News;
      ForwardEvent(conn, ch, event, data);
      ClientEventShows(s, conn, ch, event, data);
    }

    /** What a termination has done, on the connections; `s` is the state before. */
    lemma TerminatedShows(s: State, to: set<Client>)
      requires Valid() && s.conns.Keys == conns.Keys && State() == Terminated(s, enc, to)
      ensures forall d :: d in conns ==>
        conns[d].State() ==
        if d in to then Told(s.conns[d], true, PusherMessage("pusher:error", "", enc.error(4004))).(closed := true)
        else s.conns[d]
    {
      StateConns();
      hide State, Conns, Index, SubsOK, Names, Told, Terminated;
      forall d | d in conns
        ensures conns[d].State() ==
          if d in to then Told(s.conns[d], true, PusherMessage("pusher:error", "", enc.error(4004))).(closed := true)
          else s.conns[d]
      {
        TerminatedTo(s, enc, to, d);
      }
    }

    /** The socket is told and closed, and nobody else. */
    method TerminateSocket(socketID: string) returns (found: bool)
      requires Valid()
      modifies conns.Values`sendCh, conns.Values`closed
      ensures Valid() && (found <==> socketID in clientsByID)
      ensures State() == if found then Terminated(old(State()), enc, {clientsByID[socketID]}) else old(State())
      ensures forall d :: d in conns ==>
        && conns[d].closed == (old(conns[d].closed) || (found && d == clientsByID[socketID]))
        && conns[d].sendCh == old(conns[d].sendCh) +
             if found && d == clientsByID[socketID] && |old(conns[d].sendCh)| < 256
             then [PusherMessage("pusher:error", "", enc.error(4004))] else []
    {
      if socketID !in clientsByID {
        return false;
      }
      ghost var s := State();
      StateConns();
      var client := conns[clientsByID[socketID]];
      hide Names, SubsOK, Index, State, Terminated;
      KickOne(client);
      TerminatedShows(s, {clientsByID[socketID]});
      return true;
    }

    method KickOne(conn: Connection)
      requires Valid() && conn.id in conns && conns[conn.id] == conn
      modifies conn`sendCh, conn`closed
      ensures Valid() && State() == Terminated(old(State()), enc, {conn.id})
    {
      hide SubsOK, Names, Recorded, Queued;
      conn.Kick(PusherMessage("pusher:error", "", enc.error(4004)));
    }

    /** Every connection indexed under the user is told and closed, and no other. */
    method TerminateUser(app: string, userID: string) returns (n: nat)
      requires Valid()
      modifies conns.Values`sendCh, conns.Values`closed
      ensures Valid() && n == |Lookup(clientsByUser, Key(app, userID))|
      ensures State() == Terminated(old(State()), enc, Lookup(clientsByUser, Key(app, userID)))
      ensures forall d :: d in conns ==>
        && conns[d].closed == (old(conns[d].closed) || d in Lookup(clientsByUser, Key(app, userID)))
        && conns[d].sendCh == old(conns[d].sendCh) +
             if d in Lookup(clientsByUser, Key(app, userID)) && |old(conns[d].sendCh)| < 256
             then [PusherMessage("pusher:error", "", enc.error(4004))] else []
    {
      hide Key, SubsOK, Recorded, Conns, Terminated;
      ghost var s := State();
      StateConns();
      var users := Lookup(clientsByUser, Key(app, userID));
      var seen, list := Collect(users, "", {}, []);
      SameSize(list, users);
      assert users == set c | c in list;
      hide Names;
      KickEach(list);
      TerminatedShows(s, users);
      n := |list|;
    }

    method KickEach(list: seq<Client>)
      requires Valid() && forall c :: c in list ==> c in conns
      requires forall i, j :: 0 <= i < j < |list| ==> list[i] != list[j]
      modifies conns.Values`sendCh, conns.Values`closed
      ensures Valid() && State() == Terminated(old(State()), enc, (set c | c in list))
    {
      hide SubsOK, Names, Recorded, Queued;
      var m := PusherMessage("pusher:error", "", enc.error(4004));
      for i := 0 to |list|
        invariant forall c :: c in conns ==>
          conns[c].State() ==
            if c in list[..i] then old(conns[c].State()).(sendCh := Queued(old(conns[c].sendCh), m), closed := true)
            else old(conns[c].State())
      {
        assert list[..i + 1] == list[..i] + [list[i]];
        conns[list[i]].Kick(m);
      }
      assert list[..|list|] == list;
    }

    /** Only one connection has changed. */
    twostate lemma OnlyOne(conn: Connection)
      requires conns == old(conns) && conn.id in conns && conns[conn.id] == conn
      requires forall c :: c in conns ==> conns[c].id == c
      requires forall c :: c in conns && c != conn.id ==> unchanged(conns[c])
      ensures Conns() == old(Conns())[conn.id := conn.State()]
    {}

    /** The section of `Subscribe` that records the user. */
    method RecordUser(conn: Connection, userID: string)
      requires Valid() && conn.id in conns && conns[conn.id] == conn
      modifies this`clientsByUser, conn`userID
      ensures Valid() && State() == UserRecorded(old(State()), conn.id, userID)
    {
      hide Key, SubsOK, Names, Recorded;
      JoinNames(Index(), conns.Keys, conn.id, Key(conn.id.app, userID));
      conn.userID := userID;
      var isNew;
      clientsByUser, isNew := PutIn(clientsByUser, conn.id, Key(conn.id.app, userID));
      OnlyOne(conn);
      hide Conns;
    }

    /** The section that enters the channel. */
    method JoinChannel(conn: Connection, ch: string) returns (isFirstLocalSub: bool)
      requires Valid() && conn.id in conns && conns[conn.id] == conn
      modifies this`channels, conn`channels
      ensures Valid() && State() == ChannelJoined(old(State()), conn.id, ch)
      ensures isFirstLocalSub == IsFirst(old(State()).index, Key(conn.id.app, ch))
    {
      hide Key, SubsOK, Names, Recorded;
      JoinNames(Index(), conns.Keys, conn.id, Key(conn.id.app, ch));
      conn.channels := conn.channels + {ch};
      channels, isFirstLocalSub := PutIn(channels, conn.id, Key(conn.id.app, ch));
      OnlyOne(conn);
      hide Conns;
    }

    /** The section of `Unsubscribe` that leaves the channel. */
    method LeaveChannel(conn: Connection, ch: string) returns (empty: bool)
      requires Valid() && conn.id in conns && conns[conn.id] == conn
      modifies this`channels, conn`channels
      ensures Valid() && State() == ChannelLeft(old(State()), conn.id, ch)
      ensures empty == IsLast(old(State()).index, conn.id, Key(conn.id.app, ch))
    {
      hide Key, SubsOK, Names, Recorded;
      LeaveNames(Index(), conns.Keys, conn.id, Key(conn.id.app, ch));
      conn.channels := conn.channels - {ch};
      channels, empty := TakeOut(channels, conn.id, Key(conn.id.app, ch));
      OnlyOne(conn);
      hide Conns, Without;
    }

    /** And closes the broker subscription of a channel that has become empty. */
    method DropSubscription(channelKey: string)
      requires Valid()
      modifies this`channelSubs, pubsub, channelSubs.Values
      ensures Valid() && State() == SubDropped(old(State()), channelKey)
      ensures channelSubs == old(channelSubs) - {channelKey}
      ensures channelKey in old(channelSubs) ==> old(channelSubs)[channelKey].closed
      ensures forall i :: 0 <= i < |pubsub.subs| ==> pubsub.subs[i] in old(pubsub.subs)
      ensures Queues().Keys <= old(Queues()).Keys && Offered(old(Queues()), Queues(), News(old(State()), State()))
    {
      assert channelKey !in channelSubs ==> Recorded() - {channelKey} == Recorded() == State().index.subs;
      hide Topic, Valid, Conns, Offered, Queues, State, Recorded;
      NoNews(State());
      OfferedNone(Queues(), Queues());
      if channelKey in channelSubs {
        CloseSubscription(channelKey);
        Forget(channelKey);
      }
    }

    method Forget(channelKey: string)
      requires Valid()
      modifies this`channelSubs
      ensures Valid() && State() == SubDropped(old(State()), channelKey)
      ensures channelSubs == old(channelSubs) - {channelKey}
    {
      hide Topic, Names, Conns;
      SubsNames(Index(), conns.Keys, Recorded() - {channelKey});
      channelSubs := channelSubs - {channelKey};
      assert Recorded() == old(Recorded()) - {channelKey};
    }

    method CloseSubscription(channelKey: string)
      requires Valid() && channelKey in channelSubs
      modifies pubsub, channelSubs[channelKey]
      ensures Valid() && State() == old(State()) && channelSubs[channelKey].closed
      ensures forall i :: 0 <= i < |pubsub.subs| ==> pubsub.subs[i] in old(pubsub.subs)
      ensures Queues().Keys <= old(Queues()).Keys && Offered(old(Queues()), Queues(), [])
    {
      hide Topic, Names, Conns, Recorded, Offered;
      var psSub := channelSubs[channelKey];
      psSub.Close();
      assert psSub.topics == old(psSub.topics);
      OfferedNone(old(Queues()), Queues());
    }

    /** The locked sections of `Subscribe`, and the broker subscription of a first subscriber. */
    method Enter(conn: Connection, ch: string, user: Option<string>)
      requires Valid() && conn.id in conns && conns[conn.id] == conn
      modifies this`clientsByUser, this`channels, this`channelSubs, conn`channels, conn`userID, pubsub`subs
      ensures Valid() && State() == Entered(old(State()), conn.id, ch, user)
      ensures Offered(old(Queues()), Queues(), News(old(State()), State()))
      ensures forall i :: 0 <= i < |pubsub.subs| ==> pubsub.subs[i] in old(pubsub.subs) || fresh(pubsub.subs[i])
    {
      hide Key, Topic, State, Conns, Index, UserRecorded, ChannelJoined, SubRecorded, Valid, Offered, Queues;
      EnteredNews(State(), conn.id, ch, user);
      NoNews(State());
      OfferedNone(Queues(), Queues());
      if user.Some? {
        RecordUser(conn, user.value);
      }
      var isFirstLocalSub := JoinChannel(conn, ch);
      if isFirstLocalSub {
        EnsurePubSubSubscription(conn.id.app, ch);
        OfferedNone(old(Queues()), Queues());
      }
    }

    /** The locked section of `Unsubscribe`; the last local member's leaving closes the broker subscription. */
    method Depart(conn: Connection, ch: string)
      requires Valid() && conn.id in conns && conns[conn.id] == conn
      modifies this`channels, this`channelSubs, conn`channels, pubsub, channelSubs.Values
      ensures Valid() && State() == Departed(old(State()), conn.id, ch)
      ensures channelSubs.Values <= old(channelSubs.Values)
      ensures Queues().Keys <= old(Queues()).Keys && Offered(old(Queues()), Queues(), News(old(State()), State()))
      ensures forall i :: 0 <= i < |pubsub.subs| ==> pubsub.subs[i] in old(pubsub.subs)
      ensures var key := Key(conn.id.app, ch);
              IsLast(old(State()).index, conn.id, key) && key in old(channelSubs) ==> old(channelSubs)[key].closed
    {
      hide Key, Topic, State, Conns, Index, ChannelLeft, Valid, Offered, Queues;
      DepartedNews(State(), conn.id, ch);
      NoNews(State());
      OfferedNone(Queues(), Queues());
      var empty := LeaveChannel(conn, ch);
      if empty {
        DropSubscription(Key(conn.id.app, ch));
      }
    }

    // The broker's presence calls and the notifier, on the state.

    method AddMember(conn: Connection, ch: string, user: string, info: string)
      requires Valid()
      modifies pubsub`presence, pubsub`occupancies
      ensures Valid() && State() == old(State()).(tables :=
        MemoryAdd(old(State()).tables, Key(conn.id.app, ch), Member(user, info, conn.id.socket)))
    {
      hide SubsOK, Names, Recorded, Conns;
      pubsub.AddPresenceMember(conn.id.app, ch, conn.id.socket, user, info);
    }

    method RemoveMember(conn: Connection, ch: string) returns (user: string)
      requires Valid()
      modifies pubsub`presence, pubsub`occupancies
      ensures var (t, id) := MemoryRemove(old(State()).tables, Key(conn.id.app, ch), conn.id.socket);
              Valid() && user == id && State() == old(State()).(tables := t)
    {
      hide SubsOK, Names, Recorded, Conns;
      user := pubsub.RemovePresenceMember(conn.id.app, ch, conn.id.socket);
    }

    method MemberIDs(app: string, ch: string) returns (ids: set<string>)
      requires Valid()
      ensures ids == Users(MemoryRoster(State().tables, Key(app, ch)))
    {
      var members := pubsub.GetPresenceMembers(app, ch);
      ids := members.Keys;
    }

    method Occupancy(app: string, ch: string) returns (n: int)
      requires Valid()
      ensures n == MemoryOccupancy(State().tables, Key(app, ch))
    {
      n := pubsub.GetChannelOccupancy(app, ch);
    }

    method Notify(hook: Hook)
      requires Valid()
      modifies this`hooks
      ensures Valid() && State() == Notified(old(State()), hook)
    {
      hooks := hooks + [hook];
    }

    /** The presence part of `Subscribe`. */
    method Welcome(conn: Connection, ch: string, user: string, info: string)
      requires Valid() && conn.id in conns && conns[conn.id] == conn
      modifies this`published, this`hooks, conns.Values`sendCh, pubsub`presence, pubsub`occupancies, pubsub.subs
      ensures Valid() && State() == Welcomed(old(State()), enc, nodeID, conn.id, ch, user, info)
      ensures Offered(old(Queues()), Queues(), News(old(State()), State())) && Queues().Keys == old(Queues()).Keys
    {
      hide Key, Topic, State, MemoryAdd, SendAll, ClusterBroadcast, Users, MemoryRoster, Notified, Valid,
           Offered, Queues;
      WelcomedNews(State(), enc, nodeID, conn.id, ch, user, info);
      var app := conn.id.app;
      AddMember(conn, ch, user, info);
      var ids := MemberIDs(app, ch);
      SendTo(conn, PusherMessage("pusher_internal:subscription_succeeded", ch, enc.roster(ids)));
      Spread(app, ch, "pusher_internal:member_added", enc.memberAdded(user, info), conn.id.socket);
      Notify(MemberAdded(app, ch, user, conn.id.socket));
    }

    /** The presence part of `Unsubscribe`. */
    method Dismiss(conn: Connection, ch: string)
      requires Valid() && conn.id in conns && conns[conn.id] == conn
      modifies this`published, this`hooks, conns.Values`sendCh, pubsub`presence, pubsub`occupancies, pubsub.subs
      ensures Valid() && State() == Dismissed(old(State()), enc, nodeID, conn.id, ch)
      ensures Offered(old(Queues()), Queues(), News(old(State()), State())) && Queues().Keys == old(Queues()).Keys
      ensures forall s :: s in pubsub.subs ==> s.closed == old(s.closed)
    {
      hide Key, Topic, State, MemoryRemove, ClusterBroadcast, Notified, Valid, Offered, Queues;
      DismissedNews(State(), enc, nodeID, conn.id, ch);
      OfferedNone(Queues(), Queues());
      NoNews(State());
      var app := conn.id.app;
      var removedUserID := RemoveMember(conn, ch);
      if removedUserID != "" {
        Spread(app, ch, "pusher_internal:member_removed", enc.memberRemoved(removedUserID), conn.id.socket);
        Notify(MemberRemoved(app, ch, removedUserID, conn.id.socket));
      }
    }

    /** `Unsubscribe` after its locked section. */
    method Vacate(conn: Connection, ch: string)
      requires Valid() && conn.id in conns && conns[conn.id] == conn
      modifies this`published, this`hooks, conns.Values`sendCh, pubsub`presence, pubsub`occupancies, pubsub.subs
      ensures Valid() && State() == Vacated(old(State()), enc, nodeID, conn.id, ch)
      ensures Offered(old(Queues()), Queues(), News(old(State()), State())) && Queues().Keys == old(Queues()).Keys
      ensures forall s :: s in pubsub.subs ==> s.closed == old(s.closed)
    {
      hide Key, Topic, State, Dismissed, MemoryOccupancy, IsPresence, Valid, Offered, Queues;
      OfferedNone(Queues(), Queues());
      NoNews(State());
      if IsPresence(ch) {
        Dismiss(conn, ch);
      }
      var occupancy := Occupancy(conn.id.app, ch);
      if occupancy == 0 {
        Notify(ChannelVacated(conn.id.app, ch));
      }
    }

    /** `app` is what the store has for the client's application. */
    method Subscribe(conn: Connection, app: Option<Credentials>, r: SubscribeRequest)
      requires Valid() && conn.id in conns && conns[conn.id] == conn
      modifies this`clientsByUser, this`channels, this`channelSubs, this`published, this`hooks
      modifies conns.Values, pubsub, pubsub.subs
      ensures Valid() && State() == Subscribed(old(State()), hs, enc, nodeID, conn.id, app, r)
      ensures Offered(old(Queues()), Queues(), News(old(State()), State()))
    {
      hide Key, Topic, State, Admitted, Refused, VerifyChannelAuth, Valid, Offered, Queues;
      OfferedNone(Queues(), Queues());
      RefusedNews(State(), enc, conn.id, 4001);
      RefusedNews(State(), enc, conn.id, 4009);
      if app.None? {
        SendError(conn, 4001);
        return;
      }
      var isPrivate := HasPrefix(r.ch, "private-") || HasPrefix(r.ch, "private-encrypted-");
      var isPresence := HasPrefix(r.ch, "presence-");
      if isPrivate || isPresence {
        if r.auth == "" {
          SendError(conn, 4009);
          return;
        }
        if !VerifyChannelAuth(hs, r.auth, app.value.appKey, app.value.secret, conn.id.socket, r.ch, r.channelData) {
          SendError(conn, 4009);
          return;
        }
        if isPresence && r.member.None? {
          SendError(conn, 4001);
          return;
        }
      }
      Admit(conn, r);
    }

    /** `Subscribe` from the first locked section on. */
    method Admit(conn: Connection, r: SubscribeRequest)
      requires Valid() && conn.id in conns && conns[conn.id] == conn
      requires IsPresence(r.ch) ==> r.member.Some?
      modifies this`clientsByUser, this`channels, this`channelSubs, this`published, this`hooks
      modifies conns.Values, pubsub, pubsub.subs
      ensures Valid() && State() == Admitted(old(State()), enc, nodeID, conn.id, r)
      ensures Offered(old(Queues()), Queues(), News(old(State()), State()))
    {
      hide Key, Topic, State, Entered, Welcomed, SendAll, MemoryOccupancy, IsPresence, Valid, Offered, Queues;
      ghost var q, s := Queues(), State();
      EnteredNews(State(), conn.id, r.ch, if IsPresence(r.ch) then Some(r.member.value.0) else None);
      if IsPresence(r.ch) {
        Enter(conn, r.ch, Some(r.member.value.0));
        ghost var q1, s1 := Queues(), State();
        Welcome(conn, r.ch, r.member.value.0, r.member.value.1);
        WelcomedNews(s1, enc, nodeID, conn.id, r.ch, r.member.value.0, r.member.value.1);
        OfferedTwice(q, q1, Queues(), s, s1, State());
      } else {
        Enter(conn, r.ch, None);
        SentNews(State(), {conn.id}, PusherMessage("pusher_internal:subscription_succeeded", r.ch, "{}"));
        SendTo(conn, PusherMessage("pusher_internal:subscription_succeeded", r.ch, "{}"));
      }
      var occupancy := Occupancy(conn.id.app, r.ch);
      if occupancy == 1 {
        Notify(ChannelOccupied(conn.id.app, r.ch));
      }
    }

    method Unsubscribe(conn: Connection, ch: string)
      requires Valid() && conn.id in conns && conns[conn.id] == conn
      modifies this`channels, this`channelSubs, this`published, this`hooks
      modifies conns.Values, pubsub, pubsub.subs, channelSubs.Values
      ensures Valid() && State() == Unsubscribed(old(State()), enc, nodeID, conn.id, ch)
      ensures var key := Key(conn.id.app, ch);
              IsLast(old(State()).index, conn.id, key) && key in old(channelSubs) ==> old(channelSubs)[key].closed
      ensures channelSubs.Values <= old(channelSubs.Values)
      ensures forall i :: 0 <= i < |pubsub.subs| ==> pubsub.subs[i] in old(pubsub.subs)
      ensures Queues().Keys <= old(Queues()).Keys && Offered(old(Queues()), Queues(), News(old(State()), State()))
    {
      hide Key, Topic, State, Departed, Vacated, Valid, Offered, Queues;
      ghost var q, s := Queues(), State();
      DepartedNews(s, conn.id, ch);
      Depart(conn, ch);
      ghost var q1, s1 := Queues(), State();
      VacatedNews(s1, enc, nodeID, conn.id, ch);
      Vacate(conn, ch);
      OfferedTwice(q, q1, Queues(), s, s1, State());
    }

    /** `order` is the order in which the map of the client's channels was read. */
    method Unregister(conn: Connection) returns (ghost order: seq<string>)
      requires Valid() && conn.id in conns && conns[conn.id] == conn
      modifies this`clients, this`clientsByID, this`clientsByUser, this`channels, this`channelSubs
      modifies this`published, this`hooks
      modifies conns.Values, pubsub, pubsub.subs, channelSubs.Values
      ensures Valid() && State() == Unregistered(old(State()), enc, nodeID, conn.id, order)
      ensures conn.id !in old(clients) ==> State() == old(State())
      ensures conn.id in old(clients) ==>
        && (forall ch :: ch in order <==> ch in old(conn.channels))
        && forall i, j :: 0 <= i < j < |order| ==> order[i] != order[j]
      ensures Offered(old(Queues()), Queues(), News(old(State()), State()))
    {
      hide Key, Topic, State, Departed, Vacated, Valid, Offered, Queues, Drop, ConnOf;
      ghost var q := Queues();
      OfferedNone(q, q);
      NoNews(State());
      StateClients();
      if conn.id !in clients {
        return [];
      }
      ghost var s := State();
      DropClient(conn);
      ghost var dropped := State();
      var subscribed := CopyChannels(conn);
      order := subscribed;
      for i := 0 to |subscribed|
        invariant Valid() && conns == old(conns) && channelSubs.Values <= old(channelSubs.Values)
        invariant forall i :: 0 <= i < |pubsub.subs| ==> pubsub.subs[i] in old(pubsub.subs)
        invariant State() == UnsubscribedAll(dropped, enc, nodeID, conn.id, subscribed[..i])
        invariant s.published <= State().published
        invariant Queues().Keys <= q.Keys && Offered(q, Queues(), News(s, State()))
      {
        ghost var q1, s1 := Queues(), State();
        assert subscribed[..i + 1][..i] == subscribed[..i];
        DepartedNews(s1, conn.id, subscribed[i]);
        VacatedNews(HubState.Departed(s1, conn.id, subscribed[i]), enc, nodeID, conn.id, subscribed[i]);
        Unsubscribe(conn, subscribed[i]);
        OfferedTwice(q, q1, Queues(), s, s1, State());
      }
      assert subscribed[..|subscribed|] == subscribed;
    }

    /** The locked section of `Unregister`. */
    method DropClient(conn: Connection)
      requires Valid() && conn.id in conns && conns[conn.id] == conn
      modifies this`clients, this`clientsByID, this`clientsByUser
      ensures Valid() && State() == ClientDropped(old(State()), conn.id)
    {
      assert ConnOf(State(), conn.id).userID == conn.userID && State().conns == Conns();
      assert State().index == Index() && State().tables == pubsub.Tables();
      hide Key, SubsOK, Names, Conns, ConnOf, Without, State, Recorded;
      DropNames(Index(), conns.Keys, conn.id);
      clients := clients - {conn.id};
      clientsByID := clientsByID - {conn.id.socket};
      StateParts();
      hide Index;
      if conn.userID != "" {
        TakeUser(conn);
      }
    }

    method TakeUser(conn: Connection)
      requires Valid()
      modifies this`clientsByUser
      ensures Valid()
      ensures var i := old(State()).index;
              State() == old(State()).(index := i.(byUser := Without(i.byUser, conn.id, Key(conn.id.app, conn.userID))))
    {
      hide Key, SubsOK, Names, Conns, Recorded, Without;
      LeaveNames(Index(), conns.Keys, conn.id, Key(conn.id.app, conn.userID));
      var empty;
      clientsByUser, empty := TakeOut(clientsByUser, conn.id, Key(conn.id.app, conn.userID));
    }

    method CopyChannels(conn: Connection) returns (list: seq<string>)
      ensures forall ch :: ch in list <==> ch in conn.channels
      ensures forall i, j :: 0 <= i < j < |list| ==> list[i] != list[j]
    {
      list := [];
      var left := conn.channels;
      while left != {}
        invariant left <= conn.channels
        invariant forall ch :: ch in list <==> ch in conn.channels - left
        invariant forall i, j :: 0 <= i < j < |list| ==> list[i] != list[j]
        decreases left
      {
        var ch :| ch in left;
        assert ch !in list;
        left := left - {ch};
        list := list + [ch];
      }
    }
  }
}
