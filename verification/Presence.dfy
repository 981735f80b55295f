/** Presence tables: the abstract rosters, and the memory and Redis layouts that represent them. */
module Presence {
  import opened ChannelKeys

  datatype Member = Member(userID: string, userInfo: string, socketID: string)

  /** One channel's members by socket ID. */
  type Roster = map<string, Member>

  function Users(r: Roster): set<string> {
    set s | s in r :: r[s].userID
  }

  ghost predicate OneSocketPerUser(r: Roster) {
    forall s, s' :: s in r && s' in r && r[s].userID == r[s'].userID ==> s == s'
  }

  /** A channel never has more users than sockets, and has as many exactly when no user has two. */
  lemma {:induction false} UsersBounded(r: Roster)
    ensures |Users(r)| <= |r|
    ensures |Users(r)| == |r| <==> OneSocketPerUser(r)
    decreases |r|
  {
    if r == map[] {
      assert Users(r) == {};
    } else {
      var s :| s in r;
      var rest := r - {s};
      UsersBounded(rest);
      assert forall x :: x in r <==> x in rest || x == s;
      assert forall x :: x in rest ==> rest[x] == r[x];
      UsersWithout(r, s);
      if r[s].userID in Users(rest) {
        var s' :| s' in rest && rest[s'].userID == r[s].userID;
        assert s' != s && r[s'].userID == r[s].userID;
        assert !OneSocketPerUser(r);
      } else {
        assert OneSocketPerUser(r) <==> OneSocketPerUser(rest);
      }
    }
  }

  lemma UsersWithout(r: Roster, s: string)
    requires s in r
    ensures Users(r) == Users(r - {s}) + {r[s].userID}
  {
    var rest := r - {s};
    forall u | u in Users(r) ensures u in Users(rest) + {r[s].userID} {
      var x :| x in r && r[x].userID == u;
      assert x != s ==> x in rest && rest[x] == r[x];
    }
    forall u | u in Users(rest) ensures u in Users(r) {
      var x :| x in rest && rest[x].userID == u;
      assert x in r && r[x] == rest[x];
    }
  }

  // The abstract tables: a roster for every channel of every application.

  type Rosters = map<(string, string), Roster>

  function RosterOf(a: Rosters, app: string, channel: string): Roster {
    if (app, channel) in a then a[(app, channel)] else map[]
  }

  datatype Op =
    | Add(app: string, channel: string, member: Member)
    | Remove(app: string, channel: string, socketID: string)

  /** What an operation makes of the roster it names. */
  function After(r: Roster, op: Op): Roster {
    if op.Add? then r[op.member.socketID := op.member] else r - {op.socketID}
  }

  function Apply(a: Rosters, op: Op): Rosters {
    var r := RosterOf(a, op.app, op.channel);
    a[(op.app, op.channel) := After(r, op)]
  }

  /** The user ID that a removal reports: empty when the socket was not there. */
  function Removed(a: Rosters, op: Op): string {
    var r := RosterOf(a, op.app, op.channel);
    if op.Remove? && op.socketID in r then r[op.socketID].userID else ""
  }

  // The memory layout.

  datatype Tables = Tables(presence: map<string, Roster>, occupancies: map<string, int>)

  function MemoryRoster(t: Tables, key: string): Roster {
    if key in t.presence then t.presence[key] else map[]
  }

  function MemoryAdd(t: Tables, key: string, m: Member): Tables {
    var r := MemoryRoster(t, key)[m.socketID := m];
    Tables(t.presence[key := r], t.occupancies[key := |r|])
  }

  function MemoryRemove(t: Tables, key: string, socketID: string): (Tables, string) {
    if key !in t.presence || socketID !in t.presence[key] then (t, "")
    else
      var r := t.presence[key] - {socketID};
      var t' := if r == map[] then Tables(t.presence - {key}, t.occupancies - {key})
                else Tables(t.presence[key := r], t.occupancies[key := |r|]);
      (t', t.presence[key][socketID].userID)
  }

  function MemoryOccupancy(t: Tables, key: string): int {
    if key in t.occupancies then t.occupancies[key] else 0
  }

  function MemoryOccupied(t: Tables, app: string, prefix: string): set<string> {
    set k | k in t.occupancies && t.occupancies[k] > 0 && HasPrefix(k, app + ":")
            && HasPrefix(k[|app| + 1..], prefix) :: k[|app| + 1..]
  }

  /** The cache has exactly the channels that have members, each with its member count. */
  ghost predicate CacheAgrees(t: Tables) {
    && t.occupancies.Keys == t.presence.Keys
    && (forall k :: k in t.presence ==> t.presence[k] != map[] && t.occupancies[k] == |t.presence[k]|)
  }

  lemma AddKeepsCache(t: Tables, key: string, m: Member)
    requires CacheAgrees(t)
    ensures CacheAgrees(MemoryAdd(t, key, m))
  {
    var r := MemoryRoster(t, key)[m.socketID := m];
    assert m.socketID in r;
  }

  lemma RemoveKeepsCache(t: Tables, key: string, socketID: string)
    requires CacheAgrees(t)
    ensures CacheAgrees(MemoryRemove(t, key, socketID).0)
  {}

  // The Redis layout: a hash per channel and a set of occupied channels per application.

  datatype Redis = Redis(hashes: map<string, Roster>, sets: map<string, set<string>>)

  function HashKey(app: string, channel: string): string {
    "aps:presence:" + Key(app, channel)
  }

  function SetKey(app: string): string {
    "aps:occupied:" + app
  }

  function Hash(d: Redis, key: string): Roster {
    if key in d.hashes then d.hashes[key] else map[]
  }

  function Set(d: Redis, key: string): set<string> {
    if key in d.sets then d.sets[key] else {}
  }

  function HSet(d: Redis, key: string, field: string, m: Member): Redis {
    d.(hashes := d.hashes[key := Hash(d, key)[field := m]])
  }

  /** Redis deletes a hash or a set when its last element goes. */
  function HDel(d: Redis, key: string, field: string): Redis {
    var r := Hash(d, key) - {field};
    d.(hashes := if r == map[] then d.hashes - {key} else d.hashes[key := r])
  }

  function SAdd(d: Redis, key: string, x: string): Redis {
    d.(sets := d.sets[key := Set(d, key) + {x}])
  }

  function SRem(d: Redis, key: string, x: string): Redis {
    var r := Set(d, key) - {x};
    d.(sets := if r == {} then d.sets - {key} else d.sets[key := r])
  }

  function RedisAdd(d: Redis, app: string, channel: string, m: Member): Redis {
    SAdd(HSet(d, HashKey(app, channel), m.socketID, m), SetKey(app), channel)
  }

  function RedisRemove(d: Redis, app: string, channel: string, socketID: string): (Redis, string) {
    var key := HashKey(app, channel);
    if socketID !in Hash(d, key) then (d, "")
    else
      var d' := HDel(d, key, socketID);
      (if |Hash(d', key)| == 0 then SRem(d', SetKey(app), channel) else d', Hash(d, key)[socketID].userID)
  }

  function RedisOccupied(d: Redis, app: string, prefix: string): set<string> {
    set ch | ch in Set(d, SetKey(app)) && HasPrefix(ch, prefix)
  }

  // Both layouts represent the abstract rosters.

  ghost predicate MemoryRepresents(t: Tables, a: Rosters) {
    && CacheAgrees(t)
    && (forall app, ch :: ColonFree(app) ==> MemoryRoster(t, Key(app, ch)) == RosterOf(a, app, ch))
  }

  ghost predicate RedisRepresents(d: Redis, a: Rosters) {
    && (forall app, ch :: ColonFree(app) ==> Hash(d, HashKey(app, ch)) == RosterOf(a, app, ch))
    && (forall app, ch :: ch in Set(d, SetKey(app)) <==> ColonFree(app) && RosterOf(a, app, ch) != map[])
  }

  lemma HashKeyInjective(app: string, c: string, app': string, c': string)
    requires ColonFree(app) && ColonFree(app')
    ensures HashKey(app, c) == HashKey(app', c') <==> app == app' && c == c'
  {
    if HashKey(app, c) == HashKey(app', c') {
      assert HashKey(app, c)[|"aps:presence:"|..] == Key(app, c);
      assert HashKey(app', c')[|"aps:presence:"|..] == Key(app', c');
      KeyInjective(app, c, app', c');
    }
  }

  lemma SetKeyInjective(app: string, app': string)
    ensures SetKey(app) == SetKey(app') <==> app == app'
  {
    assert SetKey(app)[|"aps:occupied:"|..] == app;
    assert SetKey(app')[|"aps:occupied:"|..] == app';
  }

  function MemoryStep(t: Tables, op: Op): (Tables, string) {
    match op
    case Add(app, ch, m) => (MemoryAdd(t, Key(app, ch), m), "")
    case Remove(app, ch, s) => MemoryRemove(t, Key(app, ch), s)
  }

  function RedisStep(d: Redis, op: Op): (Redis, string) {
    match op
    case Add(app, ch, m) => (RedisAdd(d, app, ch, m), "")
    case Remove(app, ch, s) => RedisRemove(d, app, ch, s)
  }

  lemma ApplyEffect(a: Rosters, op: Op)
    ensures forall app, ch ::
              RosterOf(Apply(a, op), app, ch) ==
              if app == op.app && ch == op.channel then After(RosterOf(a, app, ch), op) else RosterOf(a, app, ch)
  {}

  lemma RemoveAbsent(r: Roster, s: string)
    requires s !in r
    ensures r - {s} == r
  {}

  lemma MemoryStepEffect(t: Tables, op: Op)
    requires CacheAgrees(t)
    ensures var (t', id) := MemoryStep(t, op);
            var key := Key(op.app, op.channel);
            var r := MemoryRoster(t, key);
            && CacheAgrees(t')
            && (forall k :: MemoryRoster(t', k) == if k == key then After(r, op) else MemoryRoster(t, k))
            && id == if op.Remove? && op.socketID in r then r[op.socketID].userID else ""
  {
    hide Key, CacheAgrees;
    var key := Key(op.app, op.channel);
    match op {
      case Add(app, ch, m) => AddKeepsCache(t, key, m);
      case Remove(app, ch, s) =>
        RemoveKeepsCache(t, key, s);
        RemovedRosters(t, key, s);
    }
  }

  lemma AddedRosters(t: Tables, key: string, m: Member)
    ensures forall k :: MemoryRoster(MemoryAdd(t, key, m), k) ==
                        if k == key then MemoryRoster(t, k)[m.socketID := m] else MemoryRoster(t, k)
  {}

  lemma RemovedRosters(t: Tables, key: string, s: string)
    ensures forall k :: MemoryRoster(MemoryRemove(t, key, s).0, k) ==
                        if k == key then MemoryRoster(t, k) - {s} else MemoryRoster(t, k)
  {
    if s !in MemoryRoster(t, key) {
      RemoveAbsent(MemoryRoster(t, key), s);
    }
  }

  lemma MemoryStepRefines(t: Tables, a: Rosters, op: Op)
    requires ColonFree(op.app) && MemoryRepresents(t, a)
    ensures MemoryRepresents(MemoryStep(t, op).0, Apply(a, op))
    ensures MemoryStep(t, op).1 == Removed(a, op)
  {
    MemoryStepEffect(t, op);
    ApplyEffect(a, op);
    hide MemoryStep, Apply, Key, MemoryRoster, RosterOf, CacheAgrees;
    assert MemoryRoster(t, Key(op.app, op.channel)) == RosterOf(a, op.app, op.channel);
    forall app, ch | ColonFree(app)
      ensures MemoryRoster(MemoryStep(t, op).0, Key(app, ch)) == RosterOf(Apply(a, op), app, ch)
    {
      if Key(app, ch) == Key(op.app, op.channel) {
        KeyInjective(app, ch, op.app, op.channel);
      }
      assert MemoryRoster(t, Key(app, ch)) == RosterOf(a, app, ch);
    }
  }

  lemma HashEffects(d: Redis, key: string, field: string, m: Member)
    ensures forall k :: Hash(HSet(d, key, field, m), k) == if k == key then Hash(d, k)[field := m] else Hash(d, k)
    ensures forall k :: Hash(HDel(d, key, field), k) == if k == key then Hash(d, k) - {field} else Hash(d, k)
  {}

  /** Set commands leave the hashes alone, and hash commands the sets. */
  lemma Apart(d: Redis, key: string, field: string, m: Member)
    ensures forall k :: Hash(SAdd(d, key, field), k) == Hash(d, k) && Hash(SRem(d, key, field), k) == Hash(d, k)
    ensures forall k :: Set(HSet(d, key, field, m), k) == Set(d, k) && Set(HDel(d, key, field), k) == Set(d, k)
  {}

  lemma SetEffects(d: Redis, key: string, x: string)
    ensures forall k :: Set(SAdd(d, key, x), k) == if k == key then Set(d, k) + {x} else Set(d, k)
    ensures forall k :: Set(SRem(d, key, x), k) == if k == key then Set(d, k) - {x} else Set(d, k)
  {}

  lemma RedisStepEffect(d: Redis, op: Op)
    ensures var (d', id) := RedisStep(d, op);
            var key := HashKey(op.app, op.channel);
            var r := Hash(d, key);
            && (forall k :: Hash(d', k) == if k == key then After(r, op) else Hash(d, k))
            && id == if op.Remove? && op.socketID in r then r[op.socketID].userID else ""
  {
    hide HashKey, SetKey, Hash, HSet, HDel, SAdd, SRem;
    var key := HashKey(op.app, op.channel);
    var r := Hash(d, key);
    match op {
      case Add(app, ch, m) =>
        HashEffects(d, key, m.socketID, m);
        Apart(HSet(d, key, m.socketID, m), SetKey(app), ch, m);
      case Remove(app, ch, s) =>
        if s in r {
          HashEffects(d, key, s, r[s]);
          Apart(HDel(d, key, s), SetKey(app), ch, r[s]);
        } else {
          RemoveAbsent(r, s);
        }
    }
  }

  lemma RedisStepSets(d: Redis, op: Op)
    ensures var d' := RedisStep(d, op).0;
            var r := Hash(d, HashKey(op.app, op.channel));
            var vacated := op.Remove? && op.socketID in r && After(r, op) == map[];
            forall k, ch :: ch in Set(d', k) <==>
              if k == SetKey(op.app) && ch == op.channel then op.Add? || (ch in Set(d, k) && !vacated)
              else ch in Set(d, k)
  {
    hide HashKey, SetKey, Hash, Set, HSet, HDel, SAdd, SRem;
    var key := HashKey(op.app, op.channel);
    var r := Hash(d, key);
    match op {
      case Add(app, ch, m) =>
        Apart(d, key, m.socketID, m);
        SetEffects(HSet(d, key, m.socketID, m), SetKey(app), ch);
      case Remove(app, ch, s) =>
        if s in r {
          Apart(d, key, s, r[s]);
          HashEffects(d, key, s, r[s]);
          SetEffects(HDel(d, key, s), SetKey(app), ch);
        }
    }
  }

  lemma RedisStepRefines(d: Redis, a: Rosters, op: Op)
    requires ColonFree(op.app) && RedisRepresents(d, a)
    ensures RedisRepresents(RedisStep(d, op).0, Apply(a, op))
    ensures RedisStep(d, op).1 == Removed(a, op)
  {
    RedisStepEffect(d, op);
    ApplyEffect(a, op);
    hide RedisStep, Apply, After, HashKey, SetKey, Hash, Set, RosterOf;
    assert Hash(d, HashKey(op.app, op.channel)) == RosterOf(a, op.app, op.channel);
    forall app, ch | ColonFree(app)
      ensures Hash(RedisStep(d, op).0, HashKey(app, ch)) == RosterOf(Apply(a, op), app, ch)
    {
      HashKeyInjective(app, ch, op.app, op.channel);
      assert Hash(d, HashKey(app, ch)) == RosterOf(a, app, ch);
    }
    RedisStepOccupied(d, a, op);
  }

  lemma RedisStepOccupied(d: Redis, a: Rosters, op: Op)
    requires ColonFree(op.app) && RedisRepresents(d, a)
    ensures forall app, ch ::
              ch in Set(RedisStep(d, op).0, SetKey(app)) <==> ColonFree(app) && RosterOf(Apply(a, op), app, ch) != map[]
  {
    var r := RosterOf(a, op.app, op.channel);
    RedisStepSets(d, op);
    ApplyEffect(a, op);
    AfterEmpty(r, op);
    hide RedisStep, Apply, After, HashKey, SetKey, Hash, Set, RosterOf;
    assert Hash(d, HashKey(op.app, op.channel)) == r;
    forall app, ch
      ensures ch in Set(RedisStep(d, op).0, SetKey(app)) <==> ColonFree(app) && RosterOf(Apply(a, op), app, ch) != map[]
    {
      SetKeyInjective(app, op.app);
      assert ch in Set(d, SetKey(app)) <==> ColonFree(app) && RosterOf(a, app, ch) != map[];
    }
  }

  lemma AfterEmpty(r: Roster, op: Op)
    ensures After(r, op) == map[] <==> op.Remove? && (r == map[] || (op.socketID in r && After(r, op) == map[]))
  {
    if op.Add? {
      assert op.member.socketID in After(r, op);
    } else if op.socketID !in r {
      RemoveAbsent(r, op.socketID);
    }
  }

  function Abstract(ops: seq<Op>): Rosters {
    if ops == [] then map[] else Apply(Abstract(ops[..|ops| - 1]), ops[|ops| - 1])
  }

  function Memory(ops: seq<Op>): Tables {
    if ops == [] then Tables(map[], map[]) else MemoryStep(Memory(ops[..|ops| - 1]), ops[|ops| - 1]).0
  }

  function RedisDb(ops: seq<Op>): Redis {
    if ops == [] then Redis(map[], map[]) else RedisStep(RedisDb(ops[..|ops| - 1]), ops[|ops| - 1]).0
  }

  lemma {:induction false} RunsRefine(ops: seq<Op>)
    requires forall i :: 0 <= i < |ops| ==> ColonFree(ops[i].app)
    ensures MemoryRepresents(Memory(ops), Abstract(ops))
    ensures RedisRepresents(RedisDb(ops), Abstract(ops))
  {
    if ops != [] {
      var most, op := ops[..|ops| - 1], ops[|ops| - 1];
      RunsRefine(most);
      MemoryStepRefines(Memory(most), Abstract(most), op);
      RedisStepRefines(RedisDb(most), Abstract(most), op);
    }
  }

  lemma MemoryOccupiedExact(t: Tables, a: Rosters, app: string, prefix: string)
    requires ColonFree(app) && MemoryRepresents(t, a)
    ensures forall ch :: ch in MemoryOccupied(t, app, prefix) <==>
                         RosterOf(a, app, ch) != map[] && HasPrefix(ch, prefix)
  {
    forall ch
      ensures ch in MemoryOccupied(t, app, prefix) <==> RosterOf(a, app, ch) != map[] && HasPrefix(ch, prefix)
    {
      var k := Key(app, ch);
      assert k[|app| + 1..] == ch && HasPrefix(k, app + ":");
      assert MemoryRoster(t, k) == RosterOf(a, app, ch);
      if ch in MemoryOccupied(t, app, prefix) {
        var k' :| k' in t.occupancies && t.occupancies[k'] > 0 && HasPrefix(k', app + ":") && k'[|app| + 1..] == ch;
        assert k' == k;
      }
    }
  }

  /**
   * After any sequence of adds and removes the two layouts report the same occupancy, users, occupied
   * channels and, for one more removal, the same user.
   */
  lemma LayoutsAgree(ops: seq<Op>, app: string, channel: string, prefix: string, socketID: string)
    requires ColonFree(app) && forall i :: 0 <= i < |ops| ==> ColonFree(ops[i].app)
    ensures var t, d := Memory(ops), RedisDb(ops);
            var roster := Hash(d, HashKey(app, channel));
            && MemoryOccupancy(t, Key(app, channel)) == |roster|
            && MemoryRoster(t, Key(app, channel)) == roster
            && MemoryOccupied(t, app, prefix) == RedisOccupied(d, app, prefix)
            && MemoryRemove(t, Key(app, channel), socketID).1 == RedisRemove(d, app, channel, socketID).1
  {
    RunsRefine(ops);
    var a, t, d := Abstract(ops), Memory(ops), RedisDb(ops);
    SameReports(t, d, a, app, channel, prefix, socketID);
  }

  lemma SameReports(t: Tables, d: Redis, a: Rosters, app: string, channel: string, prefix: string, socketID: string)
    requires ColonFree(app) && MemoryRepresents(t, a) && RedisRepresents(d, a)
    ensures var roster := RosterOf(a, app, channel);
            && Hash(d, HashKey(app, channel)) == roster
            && MemoryRoster(t, Key(app, channel)) == roster
            && MemoryOccupancy(t, Key(app, channel)) == |roster|
            && MemoryOccupied(t, app, prefix) == RedisOccupied(d, app, prefix)
            && MemoryRemove(t, Key(app, channel), socketID).1 == RedisRemove(d, app, channel, socketID).1
  {
    SameOccupied(t, d, a, app, prefix);
    MemoryStepEffect(t, Remove(app, channel, socketID));
    RedisStepEffect(d, Remove(app, channel, socketID));
    hide MemoryOccupied, RedisOccupied, MemoryRemove, RedisRemove, HashKey, Key;
    assert MemoryRoster(t, Key(app, channel)) == RosterOf(a, app, channel);
    assert Hash(d, HashKey(app, channel)) == RosterOf(a, app, channel);
  }

  lemma SameOccupied(t: Tables, d: Redis, a: Rosters, app: string, prefix: string)
    requires ColonFree(app) && MemoryRepresents(t, a) && RedisRepresents(d, a)
    ensures MemoryOccupied(t, app, prefix) == RedisOccupied(d, app, prefix)
  {
    MemoryOccupiedExact(t, a, app, prefix);
    hide MemoryOccupied, SetKey, Set, RosterOf;
    forall ch ensures ch in MemoryOccupied(t, app, prefix) <==> ch in RedisOccupied(d, app, prefix) {
      assert ch in Set(d, SetKey(app)) <==> ColonFree(app) && RosterOf(a, app, ch) != map[];
    }
  }
}
