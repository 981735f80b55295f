/** The in-memory broker: subscriptions, publication and presence tables. */
module Broker {
  import opened ChannelKeys
  import opened Messages
  import opened Sequences
  import opened SubscriptionQueue
  import opened Presence

  class MemorySubscription<P(==)> {
    const broker: MemoryPubSub<P>
    var topics: set<string>
    var closed: bool
    var queue: seq<Message<P>>

    constructor (broker: MemoryPubSub<P>, topics: set<string>)
      ensures this.broker == broker && State() == Sub(topics, false, [])
    {
      this.broker, this.topics, closed, queue := broker, topics, false, [];
    }

    function State(): Sub<P>
      reads this
    {
      Sub(topics, closed, queue)
    }

    method Unsubscribe(ts: set<string>)
      modifies this
      ensures State() == old(State()).(topics := old(topics) - ts)
    {
      topics := topics - ts;
    }

    /** A receive from the Go channel; `None` when it is empty. */
    method Receive() returns (m: seq<Message<P>>)
      modifies this
      ensures old(queue) == m + queue && |m| == if old(queue) == [] then 0 else 1
      ensures topics == old(topics) && closed == old(closed)
    {
      if queue == [] {
        return [];
      }
      m, queue := [queue[0]], queue[1..];
    }

    method Close()
      requires broker.Valid()
      modifies this, broker
      ensures State() == old(State()).(closed := true)
      ensures broker.Valid() && broker.Tables() == old(broker.Tables())
      ensures broker.subs == if old(closed) then old(broker.subs) else Filter(old(broker.subs), IsNot(this))
      ensures forall s :: s in broker.subs ==> s in old(broker.subs) && (s != this || old(closed))
      ensures forall s :: s in old(broker.subs) && s != this ==> s in broker.subs
    {
      if !closed {
        closed := true;
        broker.RemoveSub(this);
        FilterMember(old(broker.subs), IsNot(this));
      }
    }
  }

  function IsNot<P>(target: MemorySubscription<P>): MemorySubscription<P> -> bool {
    s => s != target
  }

  class MemoryPubSub<P(==)> {
    var subs: seq<MemorySubscription<P>>
    var presence: map<string, Roster>
    var occupancies: map<string, int>

    ghost predicate Valid()
      reads this
    {
      forall i, j :: 0 <= i < j < |subs| ==> subs[i] != subs[j]
    }

    function Tables(): Tables
      reads this
    {
      Presence.Tables(presence, occupancies)
    }

    constructor ()
      ensures Valid() && subs == [] && Tables() == Presence.Tables(map[], map[])
    {
      subs, presence, occupancies := [], map[], map[];
    }

    method RemoveSub(target: MemorySubscription<P>)
      requires Valid()
      modifies this`subs
      ensures Valid() && subs == Filter(old(subs), IsNot(target))
    {
      for i := 0 to |subs|
        invariant subs == old(subs)
        invariant target !in subs[..i]
      {
        if subs[i] == target {
          SpliceIsFilter(subs, i, target);
          subs := subs[..i] + subs[i + 1..];
          return;
        }
      }
      assert subs[..|subs|] == subs;
      FilterAll(subs, IsNot(target));
    }

    lemma SpliceIsFilter(s: seq<MemorySubscription<P>>, i: nat, target: MemorySubscription<P>)
      requires forall j, k :: 0 <= j < k < |s| ==> s[j] != s[k]
      requires i < |s| && s[i] == target
      ensures Filter(s, IsNot(target)) == s[..i] + s[i + 1..]
    {
      var before, after := s[..i], s[i + 1..];
      assert s == before + ([target] + after);
      FilterSplits(before, [target] + after, IsNot(target));
      FilterAll(before, IsNot(target));
      FilterAll(after, IsNot(target));
      assert ([target] + after)[1..] == after;
    }

    /** Every open subscription to the topic that has room gets the message once. */
    method Publish(topic: string, payload: P)
      requires Valid()
      modifies subs
      ensures forall s :: s in subs ==>
        var takes := !s.closed && topic in s.topics && |old(s.queue)| < 256;
        s.queue == old(s.queue) + if takes then [Message(topic, payload)] else []
      ensures forall s :: s in subs ==> s.State() == Offer(old(s.State()), Message(topic, payload))
      ensures forall s :: s in subs ==> s.topics == old(s.topics) && s.closed == old(s.closed)
    {
      var msg := Message(topic, payload);
      for i := 0 to |subs|
        invariant forall j :: 0 <= j < i ==> subs[j].State() == Offer(old(subs[j].State()), msg)
        invariant forall j :: i <= j < |subs| ==> subs[j].State() == old(subs[j].State())
        invariant forall j :: 0 <= j < |subs| ==>
          subs[j].topics == old(subs[j].topics) && subs[j].closed == old(subs[j].closed)
      {
        var sub := subs[i];
        if !sub.closed {
          if topic in sub.topics {
            if |sub.queue| < SLOTS {
              sub.queue := sub.queue + [msg];
            }
          }
        }
      }
    }

    method Subscribe(topics: set<string>) returns (sub: MemorySubscription<P>)
      requires Valid()
      modifies this`subs
      ensures Valid() && fresh(sub)
      ensures sub.broker == this && sub.State() == Sub(topics, false, [])
      ensures subs == old(subs) + [sub]
    {
      sub := new MemorySubscription(this, topics);
      subs := subs + [sub];
    }

    method AddPresenceMember(app: string, channel: string, socketID: string, userID: string, userInfo: string)
      modifies this`presence, this`occupancies
      ensures Tables() == MemoryAdd(old(Tables()), Key(app, channel), Member(userID, userInfo, socketID))
      ensures var key := Key(app, channel);
              var members := if key in old(presence) then old(presence)[key] else map[];
              && presence == old(presence)[key := members[socketID := Member(userID, userInfo, socketID)]]
              && occupancies == old(occupancies)[key := |presence[key]|]
    {
      var key := Key(app, channel);
      if key !in presence {
        presence := presence[key := map[]];
      }
      presence := presence[key := presence[key][socketID := Member(userID, userInfo, socketID)]];
      occupancies := occupancies[key := |presence[key]|];
    }

    method RemovePresenceMember(app: string, channel: string, socketID: string) returns (userID: string)
      modifies this`presence, this`occupancies
      ensures (Tables(), userID) == MemoryRemove(old(Tables()), Key(app, channel), socketID)
      ensures var key := Key(app, channel);
              var members := if key in old(presence) then old(presence)[key] else map[];
              var rest := members - {socketID};
              && userID == (if socketID in members then members[socketID].userID else "")
              && (socketID in members ==>
                    && presence == (if rest == map[] then old(presence) - {key} else old(presence)[key := rest])
                    && occupancies == if rest == map[] then old(occupancies) - {key}
                                      else old(occupancies)[key := |rest|])
              && (socketID !in members ==> presence == old(presence) && occupancies == old(occupancies))
    {
      var key := Key(app, channel);
      if key !in presence || socketID !in presence[key] {
        return "";
      }
      userID := presence[key][socketID].userID;
      var members := presence[key] - {socketID};
      presence := presence[key := members];
      occupancies := occupancies[key := |members|];
      if |members| == 0 {
        UpdateThenRemove(old(presence), key, members);
        UpdateThenRemove(old(occupancies), key, |members|);
        presence := presence - {key};
        occupancies := occupancies - {key};
      }
    }

    /** User ID to user info; a user with several sockets shows the info of one of them. */
    method GetPresenceMembers(app: string, channel: string) returns (res: map<string, string>)
      ensures res.Keys == Users(MemoryRoster(Tables(), Key(app, channel)))
      ensures forall u :: u in res ==>
        exists s :: var r := MemoryRoster(Tables(), Key(app, channel));
                    s in r && r[s].userID == u && r[s].userInfo == res[u]
    {
      res := map[];
      var key := Key(app, channel);
      if key !in presence {
        return;
      }
      var members := presence[key];
      var left := members.Keys;
      while left != {}
        invariant left <= members.Keys
        invariant forall u :: u in res <==> exists s :: s in members.Keys - left && members[s].userID == u
        invariant forall u :: u in res ==>
          exists s :: s in members && members[s].userID == u && members[s].userInfo == res[u]
        decreases left
      {
        var s :| s in left;
        left := left - {s};
        res := res[members[s].userID := members[s].userInfo];
      }
    }

    method GetChannelOccupancy(app: string, channel: string) returns (n: int)
      ensures n == MemoryOccupancy(Tables(), Key(app, channel))
      ensures CacheAgrees(Tables()) ==> n == |MemoryRoster(Tables(), Key(app, channel))|
    {
      var key := Key(app, channel);
      n := if key in occupancies then occupancies[key] else 0;
    }

    /** Exactly the application's channels with the prefix that have a member, each once. */
    method ListOccupiedChannels(app: string, prefix: string) returns (result: seq<string>)
      requires CacheAgrees(Tables())
      ensures forall ch :: ch in result <==>
        MemoryRoster(Tables(), Key(app, ch)) != map[] && HasPrefix(ch, prefix)
      ensures forall i, j :: 0 <= i < j < |result| ==> result[i] != result[j]
    {
      var appPrefix := app + ":";
      result := [];
      var left := occupancies.Keys;
      while left != {}
        invariant left <= occupancies.Keys
        invariant forall ch :: ch in result <==> Key(app, ch) in occupancies.Keys - left && HasPrefix(ch, prefix)
        invariant forall i, j :: 0 <= i < j < |result| ==> result[i] != result[j]
        decreases left
      {
        var k :| k in left;
        ghost var was := left;
        left := left - {k};
        if occupancies[k] > 0 && HasPrefix(k, appPrefix) {
          var channel := k[|appPrefix|..];
          assert k == Key(app, channel);
          if prefix == "" || HasPrefix(channel, prefix) {
            assert channel !in result;
            result := result + [channel];
          }
          forall ch ensures Key(app, ch) == k <==> ch == channel {
            if Key(app, ch) == k { SameAppKey(app, ch, channel); }
          }
        } else {
          forall ch ensures Key(app, ch) != k {
            assert HasPrefix(Key(app, ch), appPrefix);
          }
        }
      }
    }

    /** Shuts the broker down: every subscription is closed and forgotten. */
    method Close()
      requires Valid()
      modifies this`subs, subs
      ensures Valid() && subs == []
      ensures forall s :: s in old(subs) ==> s.State() == old(s.State()).(closed := true)
    {
      for i := 0 to |subs|
        invariant subs == old(subs)
        invariant forall j :: 0 <= j < i ==> subs[j].State() == old(subs[j].State()).(closed := true)
        invariant forall j :: i <= j < |subs| ==> subs[j].State() == old(subs[j].State())
      {
        subs[i].closed := true;
      }
      subs := [];
    }
  }
}
