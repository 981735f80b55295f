/**
 * Broadcasts across the cluster, on top of the hubs' step system. A broadcast is a local fan-out (a snapshot
 * of the recipients under `h.mu`, then one send at a time) followed by a broker publication; the reader of a
 * hub's broker subscription fans out what other hubs published.
 */
module Fanout {
  import opened ChannelKeys
  import opened HubIndex
  import opened RequestSigning
  import opened HubSteps
  import opened Messages

  /** One `BroadcastLocal` of one call on one hub. */
  datatype Job = Job(node: string, call: nat)

  datatype Phase =
    | ToSnapshot
    | Sending(left: set<Client>)
    | ToPublish
    | Finished

  datatype Frame = Event(call: nat) | Other

  /**
   * A call is identified by its place in `calls`. `queues` holds the broker subscriptions' channels, `sent` all
   * frames that entered a connection's send channel and `written` how many of them `WritePump` has taken. The
   * rest records history: the recipients each job found (`snaps`), the subscriptions each publication reached
   * or found full (`accepted`, `refused`), the calls each subscription's reader has taken, oldest first
   * (`taken`), and the sends that found a full channel (`lost`).
   */
  datatype Traffic = Traffic(
    calls: seq<Payload>,
    jobs: map<Job, Phase>,
    snaps: map<Job, set<Client>>,
    queues: map<nat, seq<nat>>,
    accepted: map<nat, set<nat>>,
    refused: map<nat, set<nat>>,
    taken: map<nat, seq<nat>>,
    sent: map<Client, seq<Frame>>,
    written: map<Client, nat>,
    lost: set<(Client, nat)>)

  datatype World = World(hubs: Hubs, traffic: Traffic)

  datatype Event =
    | HubMove(m: Move)
    | Broadcast(p: Payload)                                      // `BroadcastCluster`, from the HTTP interface
    | Announce(c: Client)                                        // `member_added` or `member_removed`
    | ClientEvent(c: Client, ch: string, event: string, data: string)
    | Return(c: Client)                                          // the goroutine's broadcast is over
    | TakeSnapshot(j: Job)
    | SendOne(j: Job, c: Client)
    | EndSends(j: Job)
    | Publish(j: Job)
    | ReadQueue(id: nat)
    | WriteFrame(c: Client)                                      // `WritePump` takes a frame
    | OtherFrame(c: Client)                                      // an acknowledgement, a pong or an error

  function Queue(t: Traffic, id: nat): seq<nat> {
    if id in t.queues then t.queues[id] else []
  }

  function Taken(t: Traffic, id: nat): seq<nat> {
    if id in t.taken then t.taken[id] else []
  }

  function Sent(t: Traffic, c: Client): seq<Frame> {
    if c in t.sent then t.sent[c] else []
  }

  function Written(t: Traffic, c: Client): nat {
    if c in t.written then t.written[c] else 0
  }

  predicate HasRoom(t: Traffic, c: Client) {
    |Sent(t, c)| < Written(t, c) + SLOTS
  }

  function SpotOf(p: Payload, node: string): Spot {
    Spot(node, Key(p.app, p.channel))
  }

  function RecipientsOf(h: Hubs, p: Payload, node: string): set<Client> {
    Recipients(h.shared.index, SpotOf(p, node), Spot(node, Key(p.app, "*")), p.exclude)
  }

  /** A new call, with its origin's fan-out about to start. */
  function NewCall(t: Traffic, p: Payload): Traffic {
    t.(calls := t.calls + [p], jobs := t.jobs[Job(p.origin, |t.calls|) := ToSnapshot])
  }

  function Awaiting(hs: Hashes, w: World, c: Client, p: Payload): World {
    World(Step(hs, w.hubs, Do(c, Await(|w.traffic.calls|))), NewCall(w.traffic, p))
  }

  function Announcement(c: Client, p: PC): Payload
    requires p.Announcing?
  {
    Payload(c.node, c.app, p.ch,
            if p.change.Added? then "pusher_internal:member_added" else "pusher_internal:member_removed",
            p.user, c.socket)
  }

  function DoSnapshot(h: Hubs, t: Traffic, j: Job): Traffic
    requires j.call < |t.calls|
  {
    var r := RecipientsOf(h, t.calls[j.call], j.node);
    t.(jobs := t.jobs[j := Sending(r)], snaps := t.snaps[j := r])
  }

  function DoSend(t: Traffic, j: Job, c: Client): Traffic
    requires j in t.jobs && t.jobs[j].Sending?
  {
    t.(jobs := t.jobs[j := Sending(t.jobs[j].left - {c})],
       sent := if HasRoom(t, c) then t.sent[c := Sent(t, c) + [Frame.Event(j.call)]] else t.sent,
       lost := if HasRoom(t, c) then t.lost else t.lost + {(c, j.call)})
  }

  /** The open broker subscriptions to the payload's topic, on every hub. */
  function Targets(s: Shared, p: Payload): set<nat> {
    set id: nat | id < |s.subs| && s.subs[id].open && s.subs[id].spot == SpotOf(p, s.subs[id].spot.node)
  }

  /** They are the open subscriptions to the payload's broker topic. */
  lemma TargetsByTopic(s: Shared, p: Payload)
    ensures forall id: nat :: id in Targets(s, p) <==>
      id < |s.subs| && s.subs[id].open && Topic(s.subs[id].spot.key) == Topic(Key(p.app, p.channel))
  {
    hide Topic;
    forall id: nat | id < |s.subs|
      ensures Topic(s.subs[id].spot.key) == Topic(Key(p.app, p.channel)) <==>
              s.subs[id].spot == SpotOf(p, s.subs[id].spot.node)
    {
      TopicIff(s.subs[id].spot.key, Key(p.app, p.channel));
    }
  }

  function DoPublish(h: Hubs, t: Traffic, j: Job): Traffic
    requires j.call < |t.calls|
  {
    var targets := Targets(h.shared, t.calls[j.call]);
    var ok := set id | id in targets && |Queue(t, id)| < SLOTS;
    t.(queues := map id | id in t.queues.Keys + ok :: if id in ok then Queue(t, id) + [j.call] else t.queues[id],
       accepted := t.accepted[j.call := ok],
       refused := t.refused[j.call := targets - ok],
       jobs := t.jobs[j := Finished])
  }

  /** The hub is done with the call: it fanned it out, or skipped it as its own. */
  predicate Handled(t: Traffic, node: string, k: nat) {
    k < |t.calls| && (t.calls[k].origin == node || (Job(node, k) in t.jobs && t.jobs[Job(node, k)] == Finished))
  }

  /** A subscription has one reader goroutine, which is done with what it took last. */
  predicate ReaderFree(h: Hubs, t: Traffic, id: nat)
    requires id < |h.shared.subs|
  {
    Taken(t, id) == [] || Handled(t, h.shared.subs[id].spot.node, Taken(t, id)[|Taken(t, id)| - 1])
  }

  /** The reader goroutine takes a message; it skips what its own hub published. */
  function DoRead(h: Hubs, t: Traffic, id: nat): Traffic
    requires id < |h.shared.subs| && Queue(t, id) != [] && Queue(t, id)[0] < |t.calls|
  {
    var k := Queue(t, id)[0];
    var node := h.shared.subs[id].spot.node;
    t.(queues := t.queues[id := Queue(t, id)[1..]],
       taken := t.taken[id := Taken(t, id) + [k]],
       jobs := if t.calls[k].origin == node then t.jobs else t.jobs[Job(node, k) := ToSnapshot])
  }

  predicate InPhase(t: Traffic, j: Job, p: Phase) {
    j.call < |t.calls| && j in t.jobs && t.jobs[j] == p
  }

  /** One step of the cluster; an event that is not possible changes nothing. */
  function Next(hs: Hashes, w: World, e: Event): World {
    var h, t := w.hubs, w.traffic;
    match e
    case HubMove(m) =>
      if m.Do? && (m.action.Await? || m.action.Resume?) then w else w.(hubs := Step(hs, h, m))
    case Broadcast(p) =>
      if p.origin in h.nodes && ColonFree(p.app) then w.(traffic := NewCall(t, p)) else w
    case Announce(c) =>
      if c in h.conns && h.conns[c].pc.Announcing? then Awaiting(hs, w, c, Announcement(c, h.conns[c].pc)) else w
    case ClientEvent(c, ch, event, data) =>
      if c in h.conns && h.conns[c].pc.Idle? && HasPrefix(event, "client-") && |event| > 7
         && (HasPrefix(ch, "private-") || HasPrefix(ch, "presence-")) && ch in h.conns[c].mine
      then Awaiting(hs, w, c, Payload(c.node, c.app, ch, event, data, c.socket))
      else w
    case Return(c) =>
      if c in h.conns && h.conns[c].pc.Waiting? && InPhase(t, Job(c.node, h.conns[c].pc.call), Finished)
      then w.(hubs := Step(hs, h, Do(c, Resume)))
      else w
    case TakeSnapshot(j) =>
      if InPhase(t, j, ToSnapshot) then w.(traffic := DoSnapshot(h, t, j)) else w
    case SendOne(j, c) =>
      if j in t.jobs && t.jobs[j].Sending? && c in t.jobs[j].left then w.(traffic := DoSend(t, j, c)) else w
    case EndSends(j) =>
      if InPhase(t, j, Sending({})) then
        w.(traffic := t.(jobs := t.jobs[j := if t.calls[j.call].origin == j.node then ToPublish else Finished]))
      else w
    case Publish(j) =>
      if InPhase(t, j, ToPublish) then w.(traffic := DoPublish(h, t, j)) else w
    case ReadQueue(id) =>
      if id < |h.shared.subs| && h.shared.subs[id].started && ReaderFree(h, t, id)
         && Queue(t, id) != [] && Queue(t, id)[0] < |t.calls|
      then w.(traffic := DoRead(h, t, id))
      else w
    case WriteFrame(c) =>
      if Written(t, c) < |Sent(t, c)| then w.(traffic := t.(written := t.written[c := Written(t, c) + 1])) else w
    case OtherFrame(c) =>
      if HasRoom(t, c) then w.(traffic := t.(sent := t.sent[c := Sent(t, c) + [Other]])) else w
  }

  function Begin(nodes: set<string>): World {
    World(Start(nodes), Traffic([], map[], map[], map[], map[], map[], map[], map[], map[], {}))
  }

  function WorldAfter(hs: Hashes, nodes: set<string>, events: seq<Event>): World {
    if events == [] then Begin(nodes)
    else Next(hs, WorldAfter(hs, nodes, events[..|events| - 1]), events[|events| - 1])
  }

  // What every step keeps. `NodeOf` and `Reaches` are the only uses of the hubs' state.

  predicate IsSub(h: Hubs, id: nat) {
    id < |h.shared.subs|
  }

  function NodeOf(h: Hubs, id: nat): string
    requires IsSub(h, id)
  {
    h.shared.subs[id].spot.node
  }

  /** The publication of call `k` reached the subscription, or found it full. */
  predicate Reaches(t: Traffic, k: nat, id: nat) {
    (k in t.accepted && id in t.accepted[k]) || (k in t.refused && id in t.refused[k])
  }

  predicate Accepts(t: Traffic, k: nat, id: nat) {
    k in t.accepted && id in t.accepted[k]
  }

  ghost predicate JobOK(t: Traffic, j: Job) {
    && (j in t.snaps <==> j in t.jobs && t.jobs[j] != ToSnapshot)
    && (j in t.jobs ==>
          && j.call < |t.calls|
          && (t.jobs[j].ToPublish? ==> j.node == t.calls[j.call].origin)
          && (t.jobs[j].Sending? ==> t.jobs[j].left <= t.snaps[j]))
  }

  ghost predicate CallOK(t: Traffic, k: nat) {
    && (k in t.accepted <==> k in t.refused)
    && (k in t.accepted <==> k < |t.calls| && InPhase(t, Job(t.calls[k].origin, k), Finished))
    && (k < |t.calls| ==> Job(t.calls[k].origin, k) in t.jobs)
  }

  /** A publication reaches only subscriptions to its topic, and of each hub at most one. */
  ghost predicate TargetOK(h: Hubs, t: Traffic, k: nat, id: nat) {
    Reaches(t, k, id) ==>
      && k < |t.calls| && IsSub(h, id)
      && h.shared.subs[id].spot == SpotOf(t.calls[k], NodeOf(h, id))
  }

  ghost predicate OnePerHub(h: Hubs, t: Traffic, k: nat, id: nat, id': nat) {
    Reaches(t, k, id) && Reaches(t, k, id') && IsSub(h, id) && IsSub(h, id') && NodeOf(h, id) == NodeOf(h, id')
    ==> id == id'
  }

  predicate NoDuplicates(q: seq<nat>) {
    forall i, j :: 0 <= i < j < |q| ==> q[i] != q[j]
  }

  ghost predicate QueueOK(t: Traffic, id: nat) {
    && NoDuplicates(Queue(t, id))
    && (forall k :: k in Queue(t, id) ==> Accepts(t, k, id))
  }

  /** A message that entered another hub's queue is either still there or being fanned out on that hub. */
  ghost predicate FateOK(h: Hubs, t: Traffic, k: nat, id: nat) {
    Accepts(t, k, id) && IsSub(h, id) && k < |t.calls| && NodeOf(h, id) != t.calls[k].origin ==>
      (Job(NodeOf(h, id), k) in t.jobs <==> k !in Queue(t, id))
  }

  /** A hub other than the origin fans a call out only because its queue accepted it. */
  ghost predicate RemoteOK(h: Hubs, t: Traffic, j: Job) {
    j in t.jobs && j.call < |t.calls| && j.node != t.calls[j.call].origin ==>
      exists id :: Accepts(t, j.call, id) && IsSub(h, id) && NodeOf(h, id) == j.node
  }

  /** A recipient is on the job's hub, in the call's application, and is not the excluded socket. */
  ghost predicate SnapOK(t: Traffic, j: Job, c: Client) {
    j in t.snaps && c in t.snaps[j] && j.call < |t.calls| ==>
      && c.node == j.node
      && c.app == t.calls[j.call].app
      && !(t.calls[j.call].exclude != "" && c.socket == t.calls[j.call].exclude)
  }

  /** How often the call entered the connection's send channel. */
  function Copies(t: Traffic, c: Client, k: nat): nat {
    multiset(Sent(t, c))[Frame.Event(k)]
  }

  predicate Due(t: Traffic, c: Client, k: nat) {
    var j := Job(c.node, k);
    j in t.jobs && t.jobs[j].Sending? && c in t.jobs[j].left
  }

  predicate Chosen(t: Traffic, c: Client, k: nat) {
    var j := Job(c.node, k);
    j in t.snaps && c in t.snaps[j]
  }

  /** Sent, lost and still to be sent add up to one for each recipient and to nothing for anyone else. */
  ghost predicate Conserved(t: Traffic, c: Client, k: nat) {
    Copies(t, c, k) + (if (c, k) in t.lost then 1 else 0) + (if Due(t, c, k) then 1 else 0)
    == if Chosen(t, c, k) then 1 else 0
  }

  /** Each recipient of each job is served once. */
  ghost predicate Serving(t: Traffic) {
    && (forall j :: JobOK(t, j))
    && (forall k :: CallOK(t, k))
    && (forall j, c :: SnapOK(t, j, c))
    && (forall c, k :: Conserved(t, c, k))
  }

  /** Each call reaches each hub once. */
  ghost predicate Routing(h: Hubs, t: Traffic) {
    && (forall k, id :: TargetOK(h, t, k, id))
    && (forall k, id, id' :: OnePerHub(h, t, k, id, id'))
    && (forall id :: QueueOK(t, id))
    && (forall k, id :: FateOK(h, t, k, id))
    && (forall j :: RemoteOK(h, t, j))
  }

  ghost predicate TrafficInv(h: Hubs, t: Traffic) {
    Serving(t) && Routing(h, t) && forall k :: 0 <= k < |t.calls| ==> ColonFree(t.calls[k].app)
  }
}
