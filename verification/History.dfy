/** Channel history: truncated per-channel buffers that answer for an unbounded log. */
module History {
  import opened ChannelKeys
  import opened Sequences

  /** The buffers keep this many messages of each channel. */
  const RETAINED: nat := 1000

  datatype Message = Message(id: int, app: string, channel: string, event: string, payload: string,
                             socket: string, createdAt: int)

  function KeyOf(m: Message): string {
    Key(m.app, m.channel)
  }

  // Views of a log, oldest message first.

  function HasKey(key: string): Message -> bool {
    (m: Message) => KeyOf(m) == key
  }

  function HasApp(app: string): Message -> bool {
    (m: Message) => m.app == app
  }

  /** The log of one channel. */
  function OfKey(log: seq<Message>, key: string): seq<Message> {
    Filter(log, HasKey(key))
  }

  /** The log of one application. */
  function OfApp(log: seq<Message>, app: string): seq<Message> {
    Filter(log, HasApp(app))
  }

  /** The messages with fewer than `RETAINED` later ones in their own channel. */
  function Kept(log: seq<Message>): (r: seq<Message>)
    ensures |r| <= |log|
  {
    if log == [] then []
    else if |OfKey(log[1..], KeyOf(log[0]))| < RETAINED then [log[0]] + Kept(log[1..])
    else Kept(log[1..])
  }

  /** Every channel has at most `RETAINED` messages in `s`. */
  ghost predicate Fits(s: seq<Message>) {
    forall key :: |OfKey(s, key)| <= RETAINED
  }

  ghost predicate IdsIncrease(s: seq<Message>) {
    forall i, j :: 0 <= i < j < |s| ==> s[i].id < s[j].id
  }

  /** What is kept of the early part `a` depends on the rest; what is kept of the rest `b` does not. */
  lemma {:induction false} KeptSplits(a: seq<Message>, b: seq<Message>) returns (early: seq<Message>)
    ensures Kept(a + b) == early + Kept(b)
    ensures forall m :: m in early ==> m in a
  {
    if a == [] {
      assert a + b == b;
      early := [];
    } else {
      assert (a + b)[1..] == a[1..] + b && (a + b)[0] == a[0];
      early := KeptSplits(a[1..], b);
      HeadOrRest(a);
      if |OfKey((a + b)[1..], KeyOf(a[0]))| < RETAINED {
        early := [a[0]] + early;
      }
    }
  }

  lemma ConsIncreases(x: Message, t: seq<Message>)
    requires IdsIncrease(t) && forall m :: m in t ==> x.id < m.id
    ensures IdsIncrease([x] + t)
  {
    forall j | 0 <= j < |t| ensures x.id < t[j].id {
      assert t[j] in t;
    }
  }

  lemma RestIsLater(s: seq<Message>)
    requires IdsIncrease(s) && s != []
    ensures IdsIncrease(s[1..])
    ensures forall m :: m in s <==> m == s[0] || m in s[1..]
    ensures forall m :: m in s[1..] ==> s[0].id < m.id
  {
    assert s == [s[0]] + s[1..];
  }

  lemma {:induction false} KeptIsSublog(s: seq<Message>)
    requires IdsIncrease(s)
    ensures IdsIncrease(Kept(s))
    ensures forall m :: m in Kept(s) ==> m in s
  {
    if s != [] {
      RestIsLater(s);
      KeptIsSublog(s[1..]);
      ConsIncreases(s[0], Kept(s[1..]));
    }
  }

  lemma {:induction false} FilterIdsIncrease(s: seq<Message>, p: Message -> bool)
    requires IdsIncrease(s)
    ensures IdsIncrease(Filter(s, p))
  {
    if s != [] {
      RestIsLater(s);
      FilterIdsIncrease(s[1..], p);
      FilterMember(s[1..], p);
      if p(s[0]) {
        ConsIncreases(s[0], Filter(s[1..], p));
      }
    }
  }

  lemma {:induction false} KeptAllIff(s: seq<Message>)
    ensures Kept(s) == s <==> Fits(s)
  {
    if s != [] {
      var rest := s[1..];
      KeptAllIff(rest);
      var k := KeyOf(s[0]);
      assert OfKey(s, k) == [s[0]] + OfKey(rest, k);
      assert forall key :: key != k ==> OfKey(s, key) == OfKey(rest, key);
      if Kept(s) == s {
        assert |Kept(s)| == |s|;
        assert Kept(rest) == s[1..];
      }
      if Fits(s) {
        forall key ensures |OfKey(rest, key)| <= RETAINED {
          assert |OfKey(s, key)| <= RETAINED;
        }
        assert |OfKey(s, k)| <= RETAINED;
        assert s == [s[0]] + rest;
      }
      if Kept(s) == s {
        forall key ensures |OfKey(s, key)| <= RETAINED {
          assert |OfKey(rest, key)| <= RETAINED;
        }
      }
    }
  }

  /**
   * The last `limit` messages that were kept are the last `limit` of the whole log exactly when no
   * channel has more than `RETAINED` messages among them.
   */
  lemma KeptSuffixIff(log: seq<Message>, limit: nat)
    requires IdsIncrease(log)
    ensures LastN(Kept(log), limit) == LastN(log, limit) <==> Fits(LastN(log, limit))
  {
    var b := LastN(log, limit);
    var a := log[..|log| - |b|];
    assert log == a + b;
    KeptAllIff(b);
    if Kept(b) == b {
      var early := KeptSplits(a, b);
      assert |log| <= limit ==> a == [] && early == [];
    } else {
      KeptSuffixMisses(a, b, limit);
    }
  }

  lemma PartsIncrease(a: seq<Message>, b: seq<Message>)
    requires IdsIncrease(a + b)
    ensures IdsIncrease(b)
    ensures forall x, y :: x in a && y in b ==> x.id < y.id
  {
    forall x, y | x in a && y in b ensures x.id < y.id {
      var i :| 0 <= i < |a| && a[i] == x;
      var j :| 0 <= j < |b| && b[j] == y;
      assert (a + b)[i] == x && (a + b)[|a| + j] == y;
    }
    forall i, j | 0 <= i < j < |b| ensures b[i].id < b[j].id {
      assert (a + b)[|a| + i] == b[i] && (a + b)[|a| + j] == b[j];
    }
  }

  lemma KeptSuffixMisses(a: seq<Message>, b: seq<Message>, limit: nat)
    requires IdsIncrease(a + b) && Kept(b) != b
    ensures LastN(Kept(a + b), limit) != b
  {
    var m := MissedMessage(a, b);
  }

  lemma MissedMessage(a: seq<Message>, b: seq<Message>) returns (m: Message)
    requires IdsIncrease(a + b) && Kept(b) != b
    ensures m in b && m !in Kept(a + b)
  {
    PartsIncrease(a, b);
    KeptIsSublog(b);
    SublogMisses(b, Kept(b));
    m :| m in b && m !in Kept(b);
    var early := KeptSplits(a, b);
    assert m !in a by {
      assert m in a ==> m.id < m.id;
    }
  }

  /** Two logs of the same messages are the same log. */
  lemma IncreasingUnique(s: seq<Message>, t: seq<Message>)
    requires IdsIncrease(s) && IdsIncrease(t)
    requires forall m :: m in s <==> m in t
    ensures s == t
  {
    SortedUnique(s, t, (x: Message, y: Message) => x.id < y.id);
  }

  lemma SublogMisses(s: seq<Message>, t: seq<Message>)
    requires IdsIncrease(s) && IdsIncrease(t) && t != s
    requires forall m :: m in t ==> m in s
    ensures exists m :: m in s && m !in t
  {
    if forall m :: m in s ==> m in t {
      IncreasingUnique(s, t);
    }
  }

  /** A channel has at most as many messages in `s` as `s` has, so up to 1000 always fit. */
  lemma ShortFits(s: seq<Message>)
    requires |s| <= RETAINED
    ensures Fits(s)
  {}

  /** Truncation when a message arrives in front of `later`. */
  lemma LastNCons(x: Message, later: seq<Message>)
    ensures |later| < RETAINED ==> LastN([x] + later, RETAINED) == [x] + later && LastN(later, RETAINED) == later
    ensures |later| >= RETAINED ==> LastN([x] + later, RETAINED) == LastN(later, RETAINED)
  {}

  /** A kept message is in the truncated buffer of its channel, and the buffers hold nothing else. */
  lemma {:induction false} KeptIsBuffered(log: seq<Message>, m: Message)
    requires IdsIncrease(log)
    ensures m in Kept(log) <==> m in LastN(OfKey(log, KeyOf(m)), RETAINED)
  {
    if log != [] {
      var rest, key := log[1..], KeyOf(m);
      RestIsLater(log);
      KeptIsBuffered(rest, m);
      BufferGains(log, key, m);
      KeptIsSublog(rest);
      assert m == log[0] ==> m !in Kept(rest);
    }
  }

  lemma BufferGains(log: seq<Message>, key: string, m: Message)
    requires log != [] && IdsIncrease(log)
    ensures m in LastN(OfKey(log, key), RETAINED) <==>
      || m in LastN(OfKey(log[1..], key), RETAINED)
      || (m == log[0] && KeyOf(m) == key && |OfKey(log[1..], key)| < RETAINED)
  {
    var later := OfKey(log[1..], key);
    if KeyOf(log[0]) == key {
      assert OfKey(log, key) == [log[0]] + later;
      LastNCons(log[0], later);
    } else {
      assert OfKey(log, key) == later;
    }
  }

  /** Reading a whole application and one of its channels commute with the log's other applications. */
  lemma {:induction false} OfKeyOfApp(log: seq<Message>, app: string, channel: string)
    requires ColonFree(app) && forall m :: m in log ==> ColonFree(m.app)
    ensures OfKey(OfApp(log, app), Key(app, channel)) == OfKey(log, Key(app, channel))
  {
    if log != [] {
      assert log == [log[0]] + log[1..];
      OfKeyOfApp(log[1..], app, channel);
      assert log[0] in log;
      if log[0].app == app {
        var r := OfApp(log[1..], app);
        assert OfApp(log, app) == [log[0]] + r;
        assert ([log[0]] + r)[1..] == r;
      } else {
        if KeyOf(log[0]) == Key(app, channel) {
          KeyInjective(app, channel, log[0].app, log[0].channel);
          assert false;
        }
        assert OfApp(log, app) == OfApp(log[1..], app);
        assert OfKey(log, Key(app, channel)) == OfKey(log[1..], Key(app, channel));
      }
    }
  }

  /** One channel's 1001st message pushes out its first, so a longer limit falls short. */
  lemma LongLimitFallsShort() returns (log: seq<Message>)
    ensures IdsIncrease(log) && EndIsLater(log, |log|)
    ensures LastN(Kept(log), RETAINED + 1) != LastN(log, RETAINED + 1)
  {
    log := seq(RETAINED + 1, i => Message(i + 1, "1", "c", "e", "", "", i));
    FilterAll(log, HasKey(Key("1", "c")));
    KeptSuffixIff(log, RETAINED + 1);
  }

  // Sorting by creation time.

  predicate TimeSorted(s: seq<Message>) {
    forall i, j :: 0 <= i < j < |s| ==> s[i].createdAt <= s[j].createdAt
  }

  /** What `sort.Slice` may make of the list: any time-sorted permutation. */
  ghost predicate Arranges(s: seq<Message>, list: seq<Message>) {
    TimeSorted(s) && multiset(s) == multiset(list)
  }

  /** Each of the last `n` messages is later than every message before it. */
  ghost predicate EndIsLater(s: seq<Message>, n: nat) {
    forall i, j :: 0 <= i < j < |s| && |s| - n <= j ==> s[i].createdAt < s[j].createdAt
  }

  /** With a clock that never goes back it is enough to compare neighbours. */
  lemma EndIsLaterIff(s: seq<Message>, n: nat)
    requires TimeSorted(s)
    ensures EndIsLater(s, n) <==>
      forall j :: 0 < j < |s| && |s| - n <= j ==> s[j - 1].createdAt < s[j].createdAt
  {
    if forall j :: 0 < j < |s| && |s| - n <= j ==> s[j - 1].createdAt < s[j].createdAt {
      forall i, j | 0 <= i < j < |s| && |s| - n <= j ensures s[i].createdAt < s[j].createdAt {
        assert s[i].createdAt <= s[j - 1].createdAt;
      }
    }
  }

  function InsertByTime(s: seq<Message>, x: Message): (r: seq<Message>)
    requires TimeSorted(s)
    ensures TimeSorted(r)
    ensures multiset(r) == multiset(s) + multiset{x}
    ensures |r| == |s| + 1 && (r[|s|] == x || (s != [] && r[|s|] == s[|s| - 1]))
  {
    if s == [] || s[|s| - 1].createdAt <= x.createdAt then
      AppendSorted(s, x);
      s + [x]
    else
      var n := |s| - 1;
      assert s == s[..n] + [s[n]];
      var r := InsertByTime(s[..n], x);
      AppendSorted(r, s[n]);
      r + [s[n]]
  }

  lemma AppendSorted(s: seq<Message>, x: Message)
    requires TimeSorted(s) && (s != [] ==> s[|s| - 1].createdAt <= x.createdAt)
    ensures TimeSorted(s + [x])
  {}

  /** `sort.Slice` by creation time: some time-sorted permutation, with no promise about ties. */
  method SortByTime(list: seq<Message>) returns (sorted: seq<Message>)
    ensures Arranges(sorted, list)
  {
    sorted := [];
    for n := 0 to |list|
      invariant TimeSorted(sorted)
      invariant multiset(sorted) == multiset(list[..n])
    {
      assert list[..n + 1] == list[..n] + [list[n]];
      sorted := InsertByTime(sorted, list[n]);
    }
    assert list[..|list|] == list;
  }

  lemma {:induction false} SomeArrangement(list: seq<Message>) returns (s: seq<Message>)
    ensures Arranges(s, list)
  {
    if list == [] {
      s := [];
    } else {
      var n := |list| - 1;
      assert list == list[..n] + [list[n]];
      var rest := SomeArrangement(list[..n]);
      s := InsertByTime(rest, list[n]);
    }
  }

  lemma SameMembers(s: seq<Message>, t: seq<Message>)
    requires multiset(s) == multiset(t)
    ensures |s| == |t| && forall m :: m in s <==> m in t
  {
    assert |multiset(s)| == |s| && |multiset(t)| == |t|;
    forall m ensures m in s <==> m in t {
      assert m in multiset(s) <==> m in multiset(t);
    }
  }

  /** The latest message comes last in every arrangement. */
  lemma LatestIsLast(s: seq<Message>, list: seq<Message>)
    requires Arranges(s, list) && list != [] && EndIsLater(list, 1)
    ensures s != [] && s[|s| - 1] == list[|list| - 1]
    ensures Arranges(s[..|s| - 1], list[..|list| - 1])
  {
    SameMembers(s, list);
    var x, y := list[|list| - 1], s[|s| - 1];
    assert x in s && y in list;
    var i :| 0 <= i < |list| && list[i] == y;
    var j :| 0 <= j < |s| && s[j] == x;
    assert x.createdAt <= y.createdAt;
    hide EndIsLater;
    WithoutLast(s);
    WithoutLast(list);
  }

  lemma WithoutLast(s: seq<Message>)
    requires s != []
    ensures multiset(s[..|s| - 1]) == multiset(s) - multiset{s[|s| - 1]}
  {
    assert s == s[..|s| - 1] + [s[|s| - 1]];
  }

  lemma LastNSnoc(s: seq<Message>, n: nat)
    requires s != [] && n > 0
    ensures LastN(s, n) == LastN(s[..|s| - 1], n - 1) + [s[|s| - 1]]
  {}

  lemma {:induction false} LaterEndStays(s: seq<Message>, list: seq<Message>, n: nat)
    requires Arranges(s, list) && EndIsLater(list, n)
    ensures LastN(s, n) == LastN(list, n)
  {
    SameMembers(s, list);
    if n > 0 && list != [] {
      assert EndIsLater(list, 1) && EndIsLater(list[..|list| - 1], n - 1);
      LatestIsLast(s, list);
      LaterEndStays(s[..|s| - 1], list[..|list| - 1], n - 1);
      hide Arranges, EndIsLater, LastN;
      LastNSnoc(s, n);
      LastNSnoc(list, n);
    }
  }

  lemma Swapped(s: seq<Message>, p: nat, j: nat) returns (r: seq<Message>)
    requires TimeSorted(s) && p < j < |s| && s[p].createdAt == s[j].createdAt
    ensures Arranges(r, s) && |r| == |s| && r[j] == s[p]
  {
    r := s[p := s[j]][j := s[p]];
    assert s == s[..p] + [s[p]] + s[p + 1..j] + [s[j]] + s[j + 1..];
    assert r == s[..p] + [s[j]] + s[p + 1..j] + [s[p]] + s[j + 1..];
    forall x, y | 0 <= x < y < |r| ensures r[x].createdAt <= r[y].createdAt {
      assert r[x].createdAt == s[x].createdAt && r[y].createdAt == s[y].createdAt;
    }
  }

  lemma SameEnd(s: seq<Message>, t: seq<Message>, n: nat)
    requires |s| == |t|
    ensures LastN(s, n) == LastN(t, n) <==> forall k :: 0 <= k < |s| && |s| - n <= k ==> s[k] == t[k]
  {
    var from := |s| - |LastN(s, n)|;
    if LastN(s, n) == LastN(t, n) {
      forall k | 0 <= k < |s| && |s| - n <= k ensures s[k] == t[k] {
        assert LastN(s, n)[k - from] == s[k] && LastN(t, n)[k - from] == t[k];
      }
    }
  }

  /** A message among the last `n` that is not later than an earlier one may change places with it. */
  lemma TieMoves(list: seq<Message>, n: nat, i: nat, j: nat) returns (r: seq<Message>)
    requires IdsIncrease(list) && i < j < |list| && |list| - n <= j
    requires list[i].createdAt >= list[j].createdAt
    ensures Arranges(r, list) && LastN(r, n) != LastN(list, n)
  {
    r := SomeArrangement(list);
    SameMembers(r, list);
    SameEnd(r, list, n);
    if LastN(r, n) == LastN(list, n) {
      hide LastN;
      assert list[i] in list;
      var p :| 0 <= p < |r| && r[p] == list[i];
      assert p < j by {
        if |list| - n <= p { assert list[p].id == list[i].id; }
      }
      r := Swapped(r, p, j);
      SameEnd(r, list, n);
    }
  }

  /** Every arrangement of the list ends as the list does exactly when no tie reaches into the end. */
  lemma TiesHarmlessIff(list: seq<Message>, n: nat)
    requires IdsIncrease(list)
    ensures (forall s :: Arranges(s, list) ==> LastN(s, n) == LastN(list, n)) <==> EndIsLater(list, n)
  {
    if EndIsLater(list, n) {
      forall s | Arranges(s, list) ensures LastN(s, n) == LastN(list, n) {
        LaterEndStays(s, list, n);
      }
    } else {
      var i, j :| 0 <= i < j < |list| && |list| - n <= j && list[i].createdAt >= list[j].createdAt;
      var s := TieMoves(list, n, i, j);
    }
  }

  // What a query over a whole application may answer.

  /** `limit` messages from the end; all of them when the limit is not positive. */
  function Limited(s: seq<Message>, limit: int): seq<Message> {
    if limit <= 0 then s else LastN(s, limit)
  }

  ghost predicate MayAnswer(log: seq<Message>, app: string, limit: int, result: seq<Message>) {
    exists s :: Arranges(s, Kept(OfApp(log, app))) && result == Limited(s, limit)
  }

  /** How many messages of the application's log the query asks for. */
  function Asked(log: seq<Message>, app: string, limit: int): nat {
    if limit <= 0 then |OfApp(log, app)| else limit
  }

  lemma LimitedIsLastN(log: seq<Message>, app: string, limit: int, s: seq<Message>)
    requires |s| <= |OfApp(log, app)|
    ensures Limited(s, limit) == LastN(s, Asked(log, app, limit))
  {}

  /**
   * The query answers with the end of the application's log, however the buffers are merged and sorted, exactly
   * when no channel has more than `RETAINED` messages in that end and no tie reaches into it.
   */
  lemma AnswerIsLogEndIff(log: seq<Message>, app: string, limit: int)
    requires IdsIncrease(log)
    ensures (forall r :: MayAnswer(log, app, limit, r) ==> r == Limited(OfApp(log, app), limit)) <==>
              && Fits(Limited(OfApp(log, app), limit))
              && EndIsLater(Kept(OfApp(log, app)), Asked(log, app, limit))
  {
    var whole, n := OfApp(log, app), Asked(log, app, limit);
    FilterIdsIncrease(log, HasApp(app));
    hide OfApp, Asked, Filter;
    KeptIsSublog(whole);
    LimitedIsLastN(log, app, limit, whole);
    KeptSuffixIff(whole, n);
    TiesHarmlessIff(Kept(whole), n);
    hide Kept, EndIsLater, Fits, LastN, IdsIncrease;
    forall s | Arranges(s, Kept(whole)) ensures Limited(s, limit) == LastN(s, n) {
      SameMembers(s, Kept(whole));
      LimitedIsLastN(log, app, limit, s);
    }
    hide Limited;
    if forall r :: MayAnswer(log, app, limit, r) ==> r == LastN(whole, n) {
      var some := SomeArrangement(Kept(whole));
      assert MayAnswer(log, app, limit, Limited(some, limit));
      AnswersAreKept(log, app, limit);
      forall s | Arranges(s, Kept(whole)) ensures LastN(s, n) == LastN(Kept(whole), n) {
        assert MayAnswer(log, app, limit, Limited(s, limit));
      }
    }
  }

  /** If the end of the log is an answer at all, nothing of it was dropped. */
  lemma AnswersAreKept(log: seq<Message>, app: string, limit: int)
    requires IdsIncrease(log) && MayAnswer(log, app, limit, Limited(OfApp(log, app), limit))
    ensures Fits(Limited(OfApp(log, app), limit))
  {
    var whole, n := OfApp(log, app), Asked(log, app, limit);
    var b := LastN(whole, n);
    var a := whole[..|whole| - |b|];
    assert whole == a + b;
    FilterIdsIncrease(log, HasApp(app));
    var s :| Arranges(s, Kept(whole)) && Limited(whole, limit) == Limited(s, limit);
    SameMembers(s, Kept(whole));
    LimitedIsLastN(log, app, limit, whole);
    LimitedIsLastN(log, app, limit, s);
    LastNMember(s, n);
    hide OfApp, Asked, Limited, LastN, Filter;
    KeptAllIff(b);
    KeptEnd(a, b);
  }

  lemma KeptEnd(a: seq<Message>, b: seq<Message>)
    requires IdsIncrease(a + b) && forall m :: m in b ==> m in Kept(a + b)
    ensures Kept(b) == b
  {
    if Kept(b) != b {
      var m := MissedMessage(a, b);
      assert false;
    }
  }

  /** With a clock that always advances no tie reaches anywhere. */
  lemma StrictClock(log: seq<Message>, app: string, n: nat)
    requires IdsIncrease(log) && forall i, j :: 0 <= i < j < |log| ==> log[i].createdAt < log[j].createdAt
    ensures EndIsLater(Kept(OfApp(log, app)), n)
  {
    var kept := Kept(OfApp(log, app));
    FilterIdsIncrease(log, HasApp(app));
    FilterMember(log, HasApp(app));
    KeptIsSublog(OfApp(log, app));
    hide Kept, Filter, OfApp;
    forall i, j | 0 <= i < j < |kept| ensures kept[i].createdAt < kept[j].createdAt {
      assert kept[i] in kept && kept[j] in kept;
      var x :| 0 <= x < |log| && log[x] == kept[i];
      var y :| 0 <= y < |log| && log[y] == kept[j];
      assert x < y;
    }
  }

  /** Two messages with one timestamp: a query for the last one may answer with either. */
  lemma TiesReorder() returns (log: seq<Message>)
    ensures |log| == 2 && IdsIncrease(log) && TimeSorted(log)
    ensures MayAnswer(log, "1", 1, [log[0]]) && MayAnswer(log, "1", 1, [log[1]])
  {
    var a, b := Message(1, "1", "c", "e", "", "", 5), Message(2, "1", "d", "e", "", "", 5);
    log := [a, b];
    FilterAll(log, HasApp("1"));
    assert Kept(log[1..]) == [b];
    assert Kept(OfApp(log, "1")) == [a, b];
    assert Arranges([b, a], [a, b]) && LastN([b, a], 1) == [a];
    assert Arranges([a, b], [a, b]) && LastN([a, b], 1) == [b];
  }

  // The imperative store.

  lemma OneMoreOfKey(log: seq<Message>, m: Message, key: string)
    ensures OfKey(log + [m], key) == if KeyOf(m) == key then OfKey(log, key) + [m] else OfKey(log, key)
  {
    FilterSplits(log, [m], HasKey(key));
  }

  lemma NoneKept()
    ensures LastN<Message>([], RETAINED) == []
  {}

  /** The end of a log with one more message. */
  lemma KeepOneMore(all: seq<Message>, m: Message)
    ensures var list := LastN(all, RETAINED);
            LastN(all + [m], RETAINED) == (if |list| >= RETAINED then list[1..] else list) + [m]
  {}

  class ChannelHistory {
    var buffers: map<string, seq<Message>>
    var historySeq: int
    ghost var log: seq<Message>

    /** The buffers are the ends of the log's channels, and IDs count the log. */
    ghost predicate Valid()
      reads this
    {
      && historySeq == |log|
      && (forall i :: 0 <= i < |log| ==> log[i].id == i + 1)
      && (forall key :: key in buffers <==> OfKey(log, key) != [])
      && (forall key :: key in buffers ==> buffers[key] == LastN(OfKey(log, key), RETAINED))
    }

    constructor ()
      ensures Valid() && log == []
    {
      buffers, historySeq, log := map[], 0, [];
    }

    method SaveChannelMessage(msg: Message, now: int)
      requires Valid()
      modifies this
      ensures Valid()
      ensures log == old(log) + [msg.(id := |old(log)| + 1, createdAt := now)]
    {
      hide Filter, LastN;
      historySeq := historySeq + 1;
      var stored := msg.(id := historySeq, createdAt := now);
      var key := Key(stored.app, stored.channel);
      var list := if key in buffers then buffers[key] else [];
      NoneKept();
      KeepOneMore(OfKey(log, key), stored);
      if |list| >= 1000 {
        list := list[1..];
      }
      list := list + [stored];
      buffers := buffers[key := list];
      ghost var was := log;
      log := log + [stored];
      forall k ensures OfKey(log, k) == if k == key then OfKey(was, k) + [stored] else OfKey(was, k) {
        OneMoreOfKey(was, stored, k);
      }
    }

    /**
     * One channel, or the whole application when `channel` is empty. The second and third clauses say what the
     * answer is when no tie reaches into it, with and without a limit that no truncation can touch.
     */
    method GetChannelHistory(app: string, channel: string, limit: int) returns (result: seq<Message>)
      requires Valid()
      requires ColonFree(app) && forall m :: m in log ==> ColonFree(m.app)
      ensures channel != "" ==>
        && result == LastN(OfKey(log, Key(app, channel)), if 0 < limit <= 1000 then limit else 1000)
        && IdsIncrease(result)
      ensures channel == "" ==> MayAnswer(log, app, limit, result)
      ensures channel == "" && EndIsLater(Kept(OfApp(log, app)), Asked(log, app, limit)) ==>
        result == Limited(Kept(OfApp(log, app)), limit)
      ensures channel == "" && EndIsLater(Kept(OfApp(log, app)), Asked(log, app, limit)) && 0 < limit <= 1000 ==>
        result == LastN(OfApp(log, app), limit)
    {
      hide Filter, Kept, OfApp, EndIsLater;
      var list: seq<Message> := [];
      if channel != "" {
        var key := Key(app, channel);
        list := if key in buffers then buffers[key] else [];
        BufferIsSuffix(key, limit);
      } else {
        list := AppBuffers(app);
        ghost var merged := list;
        list := SortByTime(list);
        assert Arranges(list, Kept(OfApp(log, app)));
        WholeAppSuffix(app, limit, list);
      }
      var count := if limit <= 0 || limit > |list| then |list| else limit;
      result := list[|list| - count..];
      assert result == Limited(list, limit);
    }

    lemma BufferIsSuffix(key: string, limit: int)
      requires Valid()
      ensures var list := if key in buffers then buffers[key] else [];
              var r := Limited(list, limit);
              && IdsIncrease(r)
              && r == LastN(OfKey(log, key), if 0 < limit <= RETAINED then limit else RETAINED)
    {
      hide Filter;
      var whole := OfKey(log, key);
      assert IdsIncrease(log);
      FilterIdsIncrease(log, HasKey(key));
      LastNTwice(whole, RETAINED, if limit <= 0 then RETAINED else limit);
      assert IdsIncrease(LastN(whole, if 0 < limit <= RETAINED then limit else RETAINED));
    }

    lemma WholeAppSuffix(app: string, limit: int, list: seq<Message>)
      requires Valid() && Arranges(list, Kept(OfApp(log, app)))
      ensures EndIsLater(Kept(OfApp(log, app)), Asked(log, app, limit)) ==>
        Limited(list, limit) == Limited(Kept(OfApp(log, app)), limit)
      ensures 0 < limit <= RETAINED ==> LastN(Kept(OfApp(log, app)), limit) == LastN(OfApp(log, app), limit)
    {
      var whole, n := OfApp(log, app), Asked(log, app, limit);
      assert IdsIncrease(log);
      FilterIdsIncrease(log, HasApp(app));
      KeptIsSublog(whole);
      SameMembers(list, Kept(whole));
      LimitedIsLastN(log, app, limit, list);
      LimitedIsLastN(log, app, limit, Kept(whole));
      hide OfApp, Filter, Asked, Limited;
      TiesHarmlessIff(Kept(whole), n);
      if 0 < limit <= RETAINED {
        ShortFits(LastN(whole, limit));
        KeptSuffixIff(whole, limit);
      }
    }

    /** Appends the application's buffers in whatever order the map yields them. */
    method AppBuffers(app: string) returns (list: seq<Message>)
      requires Valid()
      requires ColonFree(app) && forall m :: m in log ==> ColonFree(m.app)
      ensures multiset(list) == multiset(Kept(OfApp(log, app)))
    {
      list := [];
      var prefix := app + ":";
      var left := buffers.Keys;
      while left != {}
        invariant left <= buffers.Keys
        invariant forall m :: m in list <==>
          KeyOf(m) in buffers.Keys - left && HasPrefix(KeyOf(m), prefix) && m in buffers[KeyOf(m)]
        invariant IdsDiffer(list)
        decreases left
      {
        var k :| k in left;
        left := left - {k};
        BufferFacts(k);
        if HasPrefix(k, prefix) {
          ghost var was := list;
          list := list + buffers[k];
          forall i, j | 0 <= i < j < |list|
            ensures list[i].id != list[j].id
          {
            assert i < |was| ==> was[i] in was;
            if i < |was| <= j {
              LogIdsDiffer(list[i], list[j]);
            } else if |was| <= i {
              assert IdsIncrease(buffers[k]);
            }
          }
        }
      }
      MergedIsKept(app, list);
    }

    lemma BufferFacts(k: string)
      requires Valid() && k in buffers
      ensures forall m :: m in buffers[k] ==> m in log && KeyOf(m) == k
      ensures IdsIncrease(buffers[k])
    {
      assert IdsIncrease(log);
      FilterMember(log, HasKey(k));
      FilterIdsIncrease(log, HasKey(k));
      LastNMember(OfKey(log, k), RETAINED);
    }

    lemma LogIdsDiffer(m: Message, m': Message)
      requires Valid()
      requires KeyOf(m) in buffers && m in buffers[KeyOf(m)]
      requires KeyOf(m') in buffers && m' in buffers[KeyOf(m')]
      requires m != m'
      ensures m.id != m'.id
    {
      BufferFacts(KeyOf(m));
      BufferFacts(KeyOf(m'));
    }

    lemma MergedIsKept(app: string, list: seq<Message>)
      requires Valid() && IdsDiffer(list)
      requires ColonFree(app) && forall m :: m in log ==> ColonFree(m.app)
      requires forall m :: m in list <==>
        KeyOf(m) in buffers && HasPrefix(KeyOf(m), app + ":") && m in buffers[KeyOf(m)]
      ensures multiset(list) == multiset(Kept(OfApp(log, app)))
    {
      var whole := OfApp(log, app);
      assert IdsIncrease(log);
      FilterIdsIncrease(log, HasApp(app));
      FilterMember(log, HasApp(app));
      KeptIsSublog(whole);
      forall m ensures m in list <==> m in Kept(whole) {
        KeptIsBuffered(whole, m);
        FilterMember(log, HasKey(KeyOf(m)));
        if m.app == app {
          OfKeyOfApp(log, app, m.channel);
          PrefixPicksApp(app, app, m.channel);
        } else if m in list {
          BufferFacts(KeyOf(m));
          PrefixPicksApp(app, m.app, m.channel);
        }
      }
      SameMultiset(list, Kept(whole));
    }
  }

  ghost predicate IdsDiffer(s: seq<Message>) {
    forall i, j :: 0 <= i < j < |s| ==> s[i].id != s[j].id
  }

  /** Without repeated IDs, the same messages are the same multiset. */
  lemma SameMultiset(s: seq<Message>, t: seq<Message>)
    requires IdsDiffer(s) && IdsDiffer(t)
    requires forall m :: m in s <==> m in t
    ensures multiset(s) == multiset(t)
  {
    forall m ensures multiset(s)[m] == multiset(t)[m] {
      DistinctOnce(s, m);
      DistinctOnce(t, m);
      assert m in s <==> m in t;
    }
  }

  lemma {:induction false} DistinctOnce(s: seq<Message>, x: Message)
    requires IdsDiffer(s)
    ensures multiset(s)[x] <= 1
  {
    if s != [] {
      var n := |s| - 1;
      DistinctOnce(s[..n], x);
      assert s == s[..n] + [s[n]];
      if s[n] == x {
        assert x !in s[..n];
        assert x !in multiset(s[..n]);
      }
    }
  }
}
