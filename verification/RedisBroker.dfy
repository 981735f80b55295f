/** The presence methods of the Redis broker: the commands they send, on Redis's own state. */
module RedisBroker {
  import opened ChannelKeys
  import opened Presence

  class RedisPubSub {
    var hashes: map<string, Roster>
    var sets: map<string, set<string>>

    function State(): Redis
      reads this
    {
      Redis(hashes, sets)
    }

    constructor ()
      ensures State() == RedisDb([])
    {
      hashes, sets := map[], map[];
    }

    // Redis commands.

    method HSet(key: string, field: string, m: Member)
      modifies this
      ensures State() == Presence.HSet(old(State()), key, field, m)
    {
      hashes := hashes[key := Hash(State(), key)[field := m]];
    }

    method HDel(key: string, field: string)
      modifies this
      ensures State() == Presence.HDel(old(State()), key, field)
    {
      if key in hashes {
        var r := hashes[key] - {field};
        hashes := if r == map[] then hashes - {key} else hashes[key := r];
      } else {
        assert hashes - {key} == hashes;
      }
    }

    method SAdd(key: string, x: string)
      modifies this
      ensures State() == Presence.SAdd(old(State()), key, x)
    {
      sets := sets[key := Set(State(), key) + {x}];
    }

    method SRem(key: string, x: string)
      modifies this
      ensures State() == Presence.SRem(old(State()), key, x)
    {
      if key in sets {
        var r := sets[key] - {x};
        sets := if r == {} then sets - {key} else sets[key := r];
      } else {
        assert sets - {key} == sets;
      }
    }

    // Presence methods.

    method AddPresenceMember(app: string, channel: string, socketID: string, userID: string, userInfo: string)
      modifies this
      ensures State() == RedisAdd(old(State()), app, channel, Member(userID, userInfo, socketID))
    {
      var key := HashKey(app, channel);
      HSet(key, socketID, Member(userID, userInfo, socketID));
      SAdd(SetKey(app), channel);
    }

    method RemovePresenceMember(app: string, channel: string, socketID: string) returns (userID: string)
      modifies this
      ensures (State(), userID) == RedisRemove(old(State()), app, channel, socketID)
    {
      var key := HashKey(app, channel);
      if socketID !in Hash(State(), key) {
        return "";
      }
      userID := Hash(State(), key)[socketID].userID;
      HDel(key, socketID);
      if |Hash(State(), key)| == 0 {
        SRem(SetKey(app), channel);
      }
    }

    method GetPresenceMembers(app: string, channel: string) returns (res: map<string, string>)
      ensures res.Keys == Users(Hash(State(), HashKey(app, channel)))
      ensures forall u :: u in res ==>
        exists s :: var r := Hash(State(), HashKey(app, channel));
                    s in r && r[s].userID == u && r[s].userInfo == res[u]
    {
      var entries := Hash(State(), HashKey(app, channel));
      res := map[];
      var left := entries.Keys;
      while left != {}
        invariant left <= entries.Keys
        invariant forall u :: u in res <==> exists s :: s in entries.Keys - left && entries[s].userID == u
        invariant forall u :: u in res ==>
          exists s :: s in entries && entries[s].userID == u && entries[s].userInfo == res[u]
        decreases left
      {
        var s :| s in left;
        left := left - {s};
        res := res[entries[s].userID := entries[s].userInfo];
      }
    }

    /** How many sockets the channel has, which is none exactly when the occupied set does not list it. */
    method GetChannelOccupancy(app: string, channel: string) returns (n: int)
      ensures forall a :: ColonFree(app) && RedisRepresents(State(), a) ==>
        && n == |RosterOf(a, app, channel)|
        && (n > 0 <==> channel in RedisOccupied(State(), app, ""))
    {
      n := |Hash(State(), HashKey(app, channel))|;
      hide HashKey, SetKey, RosterOf, Hash, Set;
      forall a | ColonFree(app) && RedisRepresents(State(), a)
        ensures n == |RosterOf(a, app, channel)| && (n > 0 <==> channel in RedisOccupied(State(), app, ""))
      {
        assert Hash(State(), HashKey(app, channel)) == RosterOf(a, app, channel);
        assert channel in Set(State(), SetKey(app)) <==> RosterOf(a, app, channel) != map[];
        assert RosterOf(a, app, channel) != map[] <==> |RosterOf(a, app, channel)| > 0;
      }
    }

    method ListOccupiedChannels(app: string, prefix: string) returns (result: seq<string>)
      ensures forall ch :: ch in result <==> ch in RedisOccupied(State(), app, prefix)
      ensures forall i, j :: 0 <= i < j < |result| ==> result[i] != result[j]
    {
      result := [];
      var members := Set(State(), SetKey(app));
      var left := members;
      while left != {}
        invariant left <= members
        invariant forall ch :: ch in result <==> ch in members - left && HasPrefix(ch, prefix)
        invariant forall i, j :: 0 <= i < j < |result| ==> result[i] != result[j]
        decreases left
      {
        var ch :| ch in left;
        left := left - {ch};
        if prefix == "" || HasPrefix(ch, prefix) {
          assert ch !in result;
          result := result + [ch];
        }
      }
    }
  }
}
