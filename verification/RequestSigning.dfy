/** Pusher authentication: channel auth strings, REST request signing and its verification. */
module RequestSigning {
  import opened Options
  import opened Sequences
  import opened Text

  type Values = map<string, seq<string>>

  newtype byte = b: int | 0 <= b < 256
  type Digest = d: seq<byte> | |d| > 0 witness [0]

  /** HMAC-SHA256 (section 2 of RFC 2104) and MD5: any functions into non-empty digests. */
  datatype Hashes = Hashes(hmac: (string, string) -> Digest, md5: seq<byte> -> Digest)

  function Hex(bytes: seq<byte>): (s: string)
    ensures |s| == 2 * |bytes|
  {
    if bytes == [] then ""
    else
      var digits := "0123456789abcdef";
      [digits[bytes[0] / 16], digits[bytes[0] % 16]] + Hex(bytes[1..])
  }

  lemma {:induction false} HexInjective(a: seq<byte>, b: seq<byte>)
    requires Hex(a) == Hex(b)
    ensures a == b
  {
    if a != [] {
      var digits := "0123456789abcdef";
      assert Hex(a)[..2] == [digits[a[0] / 16], digits[a[0] % 16]];
      assert Hex(b)[..2] == [digits[b[0] / 16], digits[b[0] % 16]];
      assert Hex(a)[2..] == Hex(a[1..]) && Hex(b)[2..] == Hex(b[1..]);
      SameDigit(a[0] / 16, b[0] / 16);
      SameDigit(a[0] % 16, b[0] % 16);
      HexInjective(a[1..], b[1..]);
      assert a == [a[0]] + a[1..] && b == [b[0]] + b[1..];
    }
  }

  lemma SameDigit(d: byte, e: byte)
    requires d < 16 && e < 16
    ensures "0123456789abcdef"[d] == "0123456789abcdef"[e] ==> d == e
  {}

  lemma {:induction false} HexHasNoColon(bytes: seq<byte>)
    ensures ':' !in Hex(bytes)
  {
    if bytes != [] {
      HexHasNoColon(bytes[1..]);
    }
  }

  // Channel auth.

  function ChannelStringToSign(socketID: string, channel: string, data: string): string {
    socketID + ":" + channel + if data != "" then ":" + data else ""
  }

  function GenerateChannelAuth(h: Hashes, appKey: string, secret: string,
                               socketID: string, channel: string, data: string): string {
    appKey + ":" + Hex(h.hmac(secret, ChannelStringToSign(socketID, channel, data)))
  }

  predicate VerifyChannelAuth(h: Hashes, provided: string, appKey: string, secret: string,
                              socketID: string, channel: string, data: string) {
    provided == GenerateChannelAuth(h, appKey, secret, socketID, channel, data)
  }

  /** Socket IDs have no colons, so the signed string determines the socket and what follows it, and no more. */
  lemma ChannelStringIff(s: string, c: string, d: string, s': string, c': string, d': string)
    requires ':' !in s && ':' !in s'
    ensures ChannelStringToSign(s, c, d) == ChannelStringToSign(s', c', d') <==>
            s == s' && NamedPart(c, d) == NamedPart(c', d')
  {
    assert ChannelStringToSign(s, c, d) == s + [':'] + NamedPart(c, d);
    assert ChannelStringToSign(s', c', d') == s' + [':'] + NamedPart(c', d');
    CutAt(s, ':', NamedPart(c, d));
    CutAt(s', ':', NamedPart(c', d'));
  }

  /** The channel and its data, as the signed string has them. */
  function NamedPart(channel: string, data: string): string {
    channel + if data != "" then ":" + data else ""
  }

  /** So an auth string for a channel with data is also one for a channel whose name goes on with that data. */
  lemma DataReadsAsChannel(h: Hashes, appKey: string, secret: string, s: string, c: string, d: string)
    requires d != ""
    ensures VerifyChannelAuth(h, GenerateChannelAuth(h, appKey, secret, s, c, d), appKey, secret, s, c + ":" + d, "")
  {
    assert ChannelStringToSign(s, c, d) == ChannelStringToSign(s, c + ":" + d, "");
  }

  /** No two keys or messages have one digest. */
  ghost predicate Injective(hmac: (string, string) -> Digest) {
    forall k, m, k', m' :: hmac(k, m) == hmac(k', m') ==> k == k' && m == m'
  }

  lemma LastColon(a: string, b: string, a': string, b': string)
    requires ':' !in b && ':' !in b' && a + ":" + b == a' + ":" + b'
    ensures a == a' && b == b'
  {
    var s := a + ":" + b;
    assert s[|a|] == ':' && s[|a'|] == ':';
    assert a == s[..|a|] && a' == s[..|a'|] && b == s[|a| + 1..] && b' == s[|a'| + 1..];
  }

  /** An auth string made under one key, secret and name verifies under another exactly if the digests agree. */
  lemma AuthVerifiesIff(h: Hashes, k: string, secret: string, s: string, c: string, d: string,
                        k': string, secret': string, s': string, c': string, d': string)
    ensures VerifyChannelAuth(h, GenerateChannelAuth(h, k, secret, s, c, d), k', secret', s', c', d') <==>
            && k == k'
            && h.hmac(secret, s + ":" + NamedPart(c, d)) == h.hmac(secret', s' + ":" + NamedPart(c', d'))
  {
    assert ChannelStringToSign(s, c, d) == s + ":" + NamedPart(c, d);
    assert ChannelStringToSign(s', c', d') == s' + ":" + NamedPart(c', d');
    var digest, digest' := h.hmac(secret, s + ":" + NamedPart(c, d)), h.hmac(secret', s' + ":" + NamedPart(c', d'));
    HexHasNoColon(digest);
    HexHasNoColon(digest');
    if k + ":" + Hex(digest) == k' + ":" + Hex(digest') {
      LastColon(k, Hex(digest), k', Hex(digest'));
      HexInjective(digest, digest');
    }
  }

  /** So where no digests collide, key, secret, socket and what the channel name goes on with are all the same. */
  lemma AuthIsOwnIff(h: Hashes, k: string, secret: string, s: string, c: string, d: string,
                     k': string, secret': string, s': string, c': string, d': string)
    requires Injective(h.hmac) && ':' !in s && ':' !in s'
    ensures VerifyChannelAuth(h, GenerateChannelAuth(h, k, secret, s, c, d), k', secret', s', c', d') <==>
            k == k' && secret == secret' && s == s' && NamedPart(c, d) == NamedPart(c', d')
  {
    AuthVerifiesIff(h, k, secret, s, c, d, k', secret', s', c', d');
    ChannelStringIff(s, c, d, s', c', d');
    assert ChannelStringToSign(s, c, d) == s + ":" + NamedPart(c, d);
    assert ChannelStringToSign(s', c', d') == s' + ":" + NamedPart(c', d');
    hide VerifyChannelAuth, GenerateChannelAuth, ChannelStringToSign, NamedPart;
  }

  /** Only for channel names without colons it determines the channel and the data. */
  lemma ChannelStringInjective(s: string, c: string, d: string, s': string, c': string, d': string)
    requires ':' !in s && ':' !in s' && ':' !in c && ':' !in c'
    requires ChannelStringToSign(s, c, d) == ChannelStringToSign(s', c', d')
    ensures s == s' && c == c' && d == d'
  {
    ChannelStringCuts(s, c, d);
    ChannelStringCuts(s', c', d');
  }

  lemma ChannelStringCuts(s: string, c: string, d: string)
    requires ':' !in s && ':' !in c
    ensures var (socket, rest) := Cut(ChannelStringToSign(s, c, d), ':');
            socket == s && rest.Some? && Cut(rest.value, ':') == (c, if d == "" then None else Some(d))
  {
    var rest := c + if d != "" then ":" + d else "";
    assert ChannelStringToSign(s, c, d) == s + [':'] + rest;
    CutAt(s, ':', rest);
    if d == "" {
      assert rest == c;
      CutNowhere(c, ':');
    } else {
      assert rest == c + [':'] + d;
      CutAt(c, ':', d);
    }
  }

  // The canonical string of a REST request.

  function Get(params: Values, k: string): string {
    if k in params && params[k] != [] then params[k][0] else ""
  }

  function SignedKeys(params: Values): set<string> {
    params.Keys - {"auth_signature"}
  }

  predicate KeysSorted(keys: seq<string>) {
    forall i, j :: 0 <= i < j < |keys| ==> Less(keys[i], keys[j])
  }

  function InsertKey(keys: seq<string>, k: string): (r: seq<string>)
    requires KeysSorted(keys) && k !in keys
    ensures KeysSorted(r)
    ensures forall x :: x in r <==> x in keys || x == k
  {
    if keys == [] then [k]
    else
      LessTotal(keys[0], k);
      if Less(k, keys[0]) then
        LessThanAll(k, keys);
        ConsSorted(k, keys);
        [k] + keys
      else
        var rest := InsertKey(keys[1..], k);
        InsertRest(keys, k, rest);
        [keys[0]] + rest
  }

  lemma InsertRest(keys: seq<string>, k: string, rest: seq<string>)
    requires KeysSorted(keys) && keys != [] && Less(keys[0], k)
    requires KeysSorted(rest) && forall x :: x in rest <==> x in keys[1..] || x == k
    ensures KeysSorted([keys[0]] + rest)
    ensures forall x :: x in [keys[0]] + rest <==> x in keys || x == k
  {
    HeadOrRest(keys);
    hide Less;
    ConsSorted(keys[0], rest);
  }

  lemma LessThanAll(k: string, keys: seq<string>)
    requires KeysSorted(keys) && keys != [] && Less(k, keys[0])
    ensures forall x :: x in keys ==> Less(k, x)
  {
    forall x | x in keys ensures Less(k, x) {
      if x != keys[0] {
        LessTransitive(k, keys[0], x);
      }
    }
  }

  lemma ConsSorted(k: string, keys: seq<string>)
    requires KeysSorted(keys) && forall x :: x in keys ==> Less(k, x)
    ensures KeysSorted([k] + keys)
  {
    forall j | 0 <= j < |keys| ensures Less(k, keys[j]) {
      assert keys[j] in keys;
    }
  }

  /** `sort.Strings` on the distinct keys of a map. */
  method SortStrings(list: seq<string>) returns (sorted: seq<string>)
    requires forall i, j :: 0 <= i < j < |list| ==> list[i] != list[j]
    ensures KeysSorted(sorted)
    ensures forall k :: k in sorted <==> k in list
  {
    hide Less;
    sorted := [];
    for n := 0 to |list|
      invariant KeysSorted(sorted)
      invariant forall k :: k in sorted <==> k in list[..n]
    {
      assert list[..n + 1] == list[..n] + [list[n]];
      sorted := InsertKey(sorted, list[n]);
    }
    assert list[..|list|] == list;
  }

  /** The sorted listing of a set of keys. */
  ghost function KeyOrder(keys: set<string>): (r: seq<string>)
    ensures KeysSorted(r)
    ensures forall k :: k in r <==> k in keys
  {
    if keys == {} then []
    else
      var k :| k in keys;
      InsertKey(KeyOrder(keys - {k}), k)
  }

  /** It does not depend on how the set was enumerated. */
  lemma KeyOrderUnique(keys: set<string>, r: seq<string>)
    requires KeysSorted(r) && forall k :: k in r <==> k in keys
    ensures r == KeyOrder(keys)
  {
    LessIsAsymmetric();
    SortedUnique(r, KeyOrder(keys), Less);
  }

  function Pairs(keys: seq<string>, params: Values): (r: seq<string>)
    ensures |r| == |keys|
    ensures forall i :: 0 <= i < |r| ==> r[i] == keys[i] + "=" + Get(params, keys[i])
  {
    seq(|keys|, i requires 0 <= i < |keys| => keys[i] + "=" + Get(params, keys[i]))
  }

  function UpperChar(c: char): char {
    if 'a' <= c <= 'z' then 'A' + (c - 'a') else c
  }

  /** `strings.ToUpper` on the ASCII tokens that HTTP methods are (section 5.6.2 of RFC 9110). */
  function Upper(s: string): (r: string)
    ensures |r| == |s|
    ensures forall i :: 0 <= i < |s| ==> r[i] == UpperChar(s[i])
  {
    seq(|s|, i requires 0 <= i < |s| => UpperChar(s[i]))
  }

  /** Methods that differ in the case of letters only are one method. */
  lemma UpperIff(s: string, t: string)
    ensures Upper(s) == Upper(t) <==>
            && |s| == |t|
            && forall i :: 0 <= i < |s| ==>
                 || s[i] == t[i]
                 || ('a' <= s[i] <= 'z' && t[i] as int == s[i] as int - 32)
                 || ('a' <= t[i] <= 'z' && s[i] as int == t[i] as int - 32)
  {
    if Upper(s) == Upper(t) {
      forall i | 0 <= i < |s|
        ensures || s[i] == t[i]
                || ('a' <= s[i] <= 'z' && t[i] as int == s[i] as int - 32)
                || ('a' <= t[i] <= 'z' && s[i] as int == t[i] as int - 32)
      {
        assert Upper(s)[i] == Upper(t)[i];
      }
    }
  }

  ghost function Query(params: Values): string {
    Join(Pairs(KeyOrder(SignedKeys(params)), params), '&')
  }

  ghost function StringToSign(method_: string, path: string, params: Values): string {
    Upper(method_) + "\n" + path + "\n" + Query(params)
  }

  /** Enumerates the map in any order, sorts, and joins. */
  method BuildRESTStringToSign(method_: string, path: string, params: Values) returns (s: string)
    ensures s == StringToSign(method_, path, params)
  {
    hide Less, Join;
    var keys: seq<string> := [];
    var left := params.Keys;
    while left != {}
      invariant left <= params.Keys
      invariant forall i, j :: 0 <= i < j < |keys| ==> keys[i] != keys[j]
      invariant forall k :: k in keys <==> k in params.Keys - left && k != "auth_signature"
      decreases left
    {
      var k :| k in left;
      left := left - {k};
      if k == "auth_signature" {
        continue;
      }
      assert k !in keys;
      keys := keys + [k];
    }
    keys := SortStrings(keys);
    KeyOrderUnique(SignedKeys(params), keys);
    var query := JoinPairs(keys, params);
    s := Upper(method_) + "\n" + path + "\n" + query;
  }

  method JoinPairs(keys: seq<string>, params: Values) returns (query: string)
    ensures query == Join(Pairs(keys, params), '&')
  {
    var pairs: seq<string> := [];
    for i := 0 to |keys|
      invariant pairs == Pairs(keys, params)[..i]
    {
      pairs := pairs + [keys[i] + "=" + Get(params, keys[i])];
    }
    assert pairs == Pairs(keys, params);
    query := Join(pairs, '&');
  }

  /** The signature parameter itself is not signed. */
  lemma SignatureNotSigned(method_: string, path: string, params: Values, sig: seq<string>)
    ensures StringToSign(method_, path, params["auth_signature" := sig]) == StringToSign(method_, path, params)
  {
    var params' := params["auth_signature" := sig];
    assert SignedKeys(params') == SignedKeys(params);
    var keys := KeyOrder(SignedKeys(params));
    assert forall i :: 0 <= i < |keys| ==> keys[i] in keys;
    assert Pairs(keys, params') == Pairs(keys, params);
  }

  /** Of a parameter with several values only the first is signed. */
  lemma OnlyFirstSigned(method_: string, path: string, params: Values, params': Values)
    requires params.Keys == params'.Keys
    requires forall k :: k in params ==> params[k] != [] && params'[k] != [] && params[k][0] == params'[k][0]
    ensures StringToSign(method_, path, params) == StringToSign(method_, path, params')
  {
    var keys := KeyOrder(SignedKeys(params));
    assert SignedKeys(params') == SignedKeys(params) && forall i :: 0 <= i < |keys| ==> keys[i] in keys;
    assert Pairs(keys, params') == Pairs(keys, params);
  }

  // Reading the canonical string back.

  /** The signed part of a request: upper-cased method, path, and the first value of every parameter. */
  datatype Request = Request(method_: string, path: string, firsts: map<string, string>)

  function SignedPart(method_: string, path: string, params: Values): Request {
    Request(Upper(method_), path, map k | k in SignedKeys(params) :: Get(params, k))
  }

  function ParsePairs(pairs: seq<string>): (r: map<string, string>)
    ensures forall k :: k in r ==> '=' !in k
  {
    if pairs == [] then map[]
    else
      var (k, v) := Cut(pairs[|pairs| - 1], '=');
      ParsePairs(pairs[..|pairs| - 1])[k := if v.None? then "" else v.value]
  }

  function ParseQuery(query: string): map<string, string> {
    if query == "" then map[] else ParsePairs(Split(query, '&'))
  }

  function Parse(s: string): Request {
    var (method_, rest) := Cut(s, '\n');
    if rest.None? then Request(method_, "", map[])
    else
      var (path, query) := Cut(rest.value, '\n');
      Request(method_, path, if query.None? then map[] else ParseQuery(query.value))
  }

  /** Nothing in the request contains a character that the canonical form uses as a separator. */
  ghost predicate Separable(method_: string, path: string, params: Values) {
    && '\n' !in method_ && '\n' !in path
    && (forall k :: k in SignedKeys(params) ==> '&' !in k && '=' !in k && '&' !in Get(params, k))
  }

  lemma UpperNewline(s: string)
    ensures '\n' in Upper(s) <==> '\n' in s
  {
    if '\n' in s {
      var i :| 0 <= i < |s| && s[i] == '\n';
      assert Upper(s)[i] == '\n';
    }
    if '\n' in Upper(s) {
      var i :| 0 <= i < |s| && Upper(s)[i] == '\n';
      assert s[i] == '\n';
    }
  }

  lemma ParsePairsSnoc(pairs: seq<string>, k: string, v: string)
    requires '=' !in k
    ensures ParsePairs(pairs + [k + "=" + v]) == ParsePairs(pairs)[k := v]
  {
    var r := pairs + [k + "=" + v];
    assert r[..|r| - 1] == pairs;
    CutAt(k, '=', v);
  }

  lemma PairsSnoc(keys: seq<string>, k: string, params: Values)
    ensures Pairs(keys + [k], params) == Pairs(keys, params) + [k + "=" + Get(params, k)]
  {}

  lemma {:induction false} ParsePairsBack(keys: seq<string>, params: Values)
    requires forall k :: k in keys ==> '=' !in k
    ensures var m := ParsePairs(Pairs(keys, params));
            && (forall k :: k in m <==> k in keys)
            && (forall k :: k in keys ==> m[k] == Get(params, k))
  {
    if keys != [] {
      var n := |keys| - 1;
      ParsePairsBack(keys[..n], params);
      assert keys == keys[..n] + [keys[n]];
      ParsePairsSnoc(Pairs(keys[..n], params), keys[n], Get(params, keys[n]));
      PairsSnoc(keys[..n], keys[n], params);
    }
  }

  lemma SplitQuery(keys: seq<string>, params: Values)
    requires keys != [] && forall k :: k in keys ==> '&' !in k && '&' !in Get(params, k)
    ensures var query := Join(Pairs(keys, params), '&');
            query != "" && Split(query, '&') == Pairs(keys, params)
  {
    hide Split, Cut;
    var pairs := Pairs(keys, params);
    forall i | 0 <= i < |pairs| ensures '&' !in pairs[i] {
      assert keys[i] in keys;
    }
    SplitJoin(pairs, '&');
    assert |Join(pairs, '&')| >= |pairs[0]|;
  }

  lemma ParseQueryBack(params: Values)
    requires forall k :: k in SignedKeys(params) ==> '&' !in k && '=' !in k && '&' !in Get(params, k)
    ensures ParseQuery(Query(params)) == map k | k in SignedKeys(params) :: Get(params, k)
  {
    hide Split, ParsePairs, Pairs, Less;
    var keys := KeyOrder(SignedKeys(params));
    ParsePairsBack(keys, params);
    if keys != [] {
      SplitQuery(keys, params);
    } else {
      assert Pairs(keys, params) == [];
      assert forall k :: k !in SignedKeys(params);
    }
  }

  lemma ParseBack(method_: string, path: string, params: Values)
    requires Separable(method_, path, params)
    ensures Parse(StringToSign(method_, path, params)) == SignedPart(method_, path, params)
  {
    UpperNewline(method_);
    var rest := path + ['\n'] + Query(params);
    assert StringToSign(method_, path, params) == Upper(method_) + ['\n'] + rest;
    CutAt(Upper(method_), '\n', rest);
    CutAt(path, '\n', Query(params));
    ParseQueryBack(params);
  }

  lemma {:induction false} ParsedPairsClean(pairs: seq<string>)
    requires forall i :: 0 <= i < |pairs| ==> '&' !in pairs[i]
    ensures forall k :: k in ParsePairs(pairs) ==> '&' !in k && '=' !in k && '&' !in ParsePairs(pairs)[k]
  {
    if pairs != [] {
      ParsedPairsClean(pairs[..|pairs| - 1]);
      var last := pairs[|pairs| - 1];
      var (k, v) := Cut(last, '=');
      assert forall c :: c in k ==> c in last;
      assert v.Some? ==> forall c :: c in v.value ==> c in last;
    }
  }

  /** The signed part can be read back exactly when it is free of separators. */
  lemma ParseBackIff(method_: string, path: string, params: Values)
    ensures Parse(StringToSign(method_, path, params)) == SignedPart(method_, path, params)
            <==> Separable(method_, path, params)
  {
    var s := StringToSign(method_, path, params);
    var part := SignedPart(method_, path, params);
    if Separable(method_, path, params) {
      ParseBack(method_, path, params);
    } else if Parse(s) == part {
      UpperNewline(method_);
      var (m, rest) := Cut(s, '\n');
      if rest.Some? {
        var (p, query) := Cut(rest.value, '\n');
        if query.Some? && query.value != "" {
          ParsedPairsClean(Split(query.value, '&'));
        }
      }
      forall k | k in SignedKeys(params) ensures '&' !in k && '=' !in k && '&' !in Get(params, k) {
        assert k in part.firsts && part.firsts[k] == Get(params, k);
      }
    }
  }

  /** So separator-free requests with different signed parts never share a string to sign. */
  lemma StringToSignInjective(m: string, p: string, ps: Values, m': string, p': string, ps': Values)
    requires Separable(m, p, ps) && Separable(m', p', ps')
    requires StringToSign(m, p, ps) == StringToSign(m', p', ps')
    ensures SignedPart(m, p, ps) == SignedPart(m', p', ps')
  {
    ParseBack(m, p, ps);
    ParseBack(m', p', ps');
  }

  // Signing and verifying.

  function WithAuth(h: Hashes, appKey: string, query: Values, body: seq<byte>, timestamp: int): Values {
    var params := query["auth_key" := [appKey]]["auth_timestamp" := [FormatInt(timestamp)]]["auth_version" := ["1.0"]];
    if body != [] then params["body_md5" := [Hex(h.md5(body))]] else params
  }

  /** `timestamp` is in Unix seconds. */
  method SignRESTRequest(h: Hashes, method_: string, path: string, appKey: string, secret: string,
                         query: Values, body: seq<byte>, timestamp: int)
    returns (signature: string, params: Values)
    ensures signature == Hex(h.hmac(secret, StringToSign(method_, path, params)))
    ensures params == WithAuth(h, appKey, query, body, timestamp)["auth_signature" := [signature]]
    ensures forall k :: k in params && !(k in query && params[k] == query[k]) ==>
      k in {"auth_key", "auth_timestamp", "auth_version", "auth_signature"} || (k == "body_md5" && body != [])
    ensures query.Keys + {"auth_key", "auth_timestamp", "auth_version", "auth_signature"} <= params.Keys
    ensures params["auth_key"] == [appKey] && params["auth_timestamp"] == [FormatInt(timestamp)]
    ensures params["auth_version"] == ["1.0"] && params["auth_signature"] == [signature]
    ensures body != [] ==> "body_md5" in params && params["body_md5"] == [Hex(h.md5(body))]
  {
    hide StringToSign, FormatInt, Hex;
    params := map[];
    var left := query.Keys;
    while left != {}
      invariant left <= query.Keys
      invariant params == map k | k in query.Keys - left :: query[k]
      decreases left
    {
      var k :| k in left;
      left := left - {k};
      params := params[k := query[k]];
    }
    assert params == query;
    params := params["auth_key" := [appKey]];
    params := params["auth_timestamp" := [FormatInt(timestamp)]];
    params := params["auth_version" := ["1.0"]];
    if |body| > 0 {
      params := params["body_md5" := [Hex(h.md5(body))]];
    }
    var s := BuildRESTStringToSign(method_, path, params);
    signature := Hex(h.hmac(secret, s));
    SignatureNotSigned(method_, path, params, [signature]);
    params := params["auth_signature" := [signature]];
  }

  datatype Error = InvalidSignature | ExpiredTimestamp | InvalidMD5 | MissingAuthKey
  datatype Verdict = Accepted | Rejected(error: Error)

  function Clamp(n: int): int {
    if n < MIN_INT64 then MIN_INT64 else if n > MAX_INT64 then MAX_INT64 else n
  }

  /** `time.Since(time.Unix(ts, 0)).Abs()` in nanoseconds; both steps saturate. */
  function Age(now: int, ts: int): (age: int)
    ensures 0 <= age <= MAX_INT64
  {
    var d := Clamp(now - ts * 1_000_000_000);
    Clamp(if d < 0 then -d else d)
  }

  /** So a request is at most `m` nanoseconds old or early exactly if its time is, up to the largest duration. */
  lemma AgeIff(now: int, ts: int, m: int)
    ensures Age(now, ts) <= m <==> m >= MAX_INT64 || -m <= now - ts * 1_000_000_000 <= m
  {}

  /** The verdict is by the first failing check: application key, time, body and signature. */
  method VerifyRESTRequest(h: Hashes, method_: string, path: string, params: Values, secret: string,
                           body: seq<byte>, maxAge: int, now: int) returns (r: Verdict)
    ensures var named := Get(params, "auth_key") != "";
            var ts := ParseInt(Get(params, "auth_timestamp"));
            var timely := ts.Some? && (maxAge > 0 ==>
              maxAge >= MAX_INT64 || -maxAge <= now - ts.value * 1_000_000_000 <= maxAge);
            var intact := body != [] ==> Get(params, "body_md5") in {"", Hex(h.md5(body))};
            var signed := Get(params, "auth_signature") == Hex(h.hmac(secret, StringToSign(method_, path, params)));
            && (r == Accepted <==> named && timely && intact && signed)
            && (r == Rejected(MissingAuthKey) <==> !named)
            && (r == Rejected(ExpiredTimestamp) <==> named && !timely)
            && (r == Rejected(InvalidMD5) <==> named && timely && !intact)
            && (r == Rejected(InvalidSignature) <==> named && timely && intact && !signed)
    ensures r == Check(h, method_, path, params, secret, body, maxAge, now)
  {
    hide StringToSign, Hex, Age;
    if Get(params, "auth_key") == "" {
      return Rejected(MissingAuthKey);
    }
    var stamp := Get(params, "auth_timestamp");
    if stamp == "" {
      return Rejected(ExpiredTimestamp);
    }
    var ts := ParseInt(stamp);
    if ts.None? {
      return Rejected(ExpiredTimestamp);
    }
    AgeIff(now, ts.value, maxAge);
    if maxAge > 0 && Age(now, ts.value) > maxAge {
      return Rejected(ExpiredTimestamp);
    }
    var expectedMD5 := Get(params, "body_md5");
    if |body| > 0 {
      var calculated := Hex(h.md5(body));
      if expectedMD5 != "" && expectedMD5 != calculated {
        return Rejected(InvalidMD5);
      }
    }
    var provided := Get(params, "auth_signature");
    if provided == "" {
      return Rejected(InvalidSignature);
    }
    var s := BuildRESTStringToSign(method_, path, params);
    if provided != Hex(h.hmac(secret, s)) {
      return Rejected(InvalidSignature);
    }
    return Accepted;
  }

  /** The verdict, by the first check that fails. */
  ghost function Check(h: Hashes, method_: string, path: string, params: Values, secret: string,
                       body: seq<byte>, maxAge: int, now: int): Verdict {
    var ts := ParseInt(Get(params, "auth_timestamp"));
    var md5 := Get(params, "body_md5");
    if Get(params, "auth_key") == "" then Rejected(MissingAuthKey)
    else if ts.None? || (maxAge > 0 && Age(now, ts.value) > maxAge) then Rejected(ExpiredTimestamp)
    else if body != [] && md5 != "" && md5 != Hex(h.md5(body)) then Rejected(InvalidMD5)
    else if Get(params, "auth_signature") != Hex(h.hmac(secret, StringToSign(method_, path, params))) then
      Rejected(InvalidSignature)
    else Accepted
  }

  /** What a query string carries: a parameter with no values does not survive encoding. */
  function Carried(params: Values): Values {
    map k | k in params && params[k] != [] :: params[k]
  }

  lemma CarriedGet(params: Values, k: string)
    ensures Get(Carried(params), k) == Get(params, k)
  {}

  // How long the canonical query is, pair by pair.

  function Weight(keys: seq<string>, params: Values): nat {
    if keys == [] then 0 else |keys[0]| + 2 + |Get(params, keys[0])| + Weight(keys[1..], params)
  }

  lemma {:induction false} JoinLength(keys: seq<string>, params: Values)
    ensures |Join(Pairs(keys, params), '&')| == if keys == [] then 0 else Weight(keys, params) - 1
  {
    if keys != [] {
      JoinLength(keys[1..], params);
      assert Pairs(keys, params)[1..] == Pairs(keys[1..], params);
    }
  }

  lemma {:induction false} InsertWeighs(keys: seq<string>, k: string, params: Values)
    requires KeysSorted(keys) && k !in keys
    ensures Weight(InsertKey(keys, k), params) == Weight(keys, params) + |k| + 2 + |Get(params, k)|
  {
    if keys != [] {
      LessTotal(keys[0], k);
      if Less(k, keys[0]) {
        assert ([k] + keys)[1..] == keys;
      } else {
        InsertWeighs(keys[1..], k, params);
        assert ([keys[0]] + InsertKey(keys[1..], k))[1..] == InsertKey(keys[1..], k);
      }
    }
  }

  /** Whichever key is taken out first. */
  lemma OneKeyWeighs(keys: set<string>, k: string, params: Values)
    requires k in keys
    ensures Weight(KeyOrder(keys), params) == Weight(KeyOrder(keys - {k}), params) + |k| + 2 + |Get(params, k)|
  {
    hide Less, Get, KeyOrder;
    InsertWeighs(KeyOrder(keys - {k}), k, params);
    KeyOrderUnique(keys, InsertKey(KeyOrder(keys - {k}), k));
  }

  lemma {:induction false} FewerWeighLess(keys: set<string>, some: set<string>, params: Values)
    requires some <= keys
    ensures Weight(KeyOrder(some), params) <= Weight(KeyOrder(keys), params)
    ensures some != keys ==> Weight(KeyOrder(some), params) + 2 <= Weight(KeyOrder(keys), params)
    decreases |keys|
  {
    hide Weight, KeyOrder;
    if some != keys {
      var k :| k in keys && k !in some;
      OneKeyWeighs(keys, k, params);
      FewerWeighLess(keys - {k}, some, params);
    }
  }

  lemma CarriedPairs(params: Values)
    ensures Query(Carried(params)) == Join(Pairs(KeyOrder(SignedKeys(Carried(params))), params), '&')
  {
    var keys := KeyOrder(SignedKeys(Carried(params)));
    forall i | 0 <= i < |keys| ensures Get(Carried(params), keys[i]) == Get(params, keys[i]) {
      CarriedGet(params, keys[i]);
    }
    hide Carried;
    assert Pairs(keys, Carried(params)) == Pairs(keys, params);
  }

  /** A request reads the same after it was carried exactly if none of its signed parameters is without values. */
  lemma CarriedIff(method_: string, path: string, params: Values)
    ensures StringToSign(method_, path, Carried(params)) == StringToSign(method_, path, params) <==>
            forall k :: k in SignedKeys(params) ==> params[k] != []
  {
    var keys, some := SignedKeys(params), SignedKeys(Carried(params));
    assert some == keys <==> forall k :: k in keys ==> params[k] != [] by {
      forall k | k in keys ensures k in some <==> params[k] != [] {}
    }
    assert some <= keys;
    CarriedPairs(params);
    hide SignedKeys, Carried, KeyOrder, Pairs, Join, Weight;
    JoinLength(KeyOrder(keys), params);
    JoinLength(KeyOrder(some), params);
    FewerWeighLess(keys, some, params);
    if some != keys {
      assert |Query(Carried(params))| < |Query(params)|;
    }
  }

  /**
   * A signed request is accepted exactly when it named a key, is fresh enough and the verifier's secret gives the
   * same digest for what was carried.
   */
  lemma SignedIsAcceptedIff(h: Hashes, method_: string, path: string, appKey: string, secret: string,
                            query: Values, body: seq<byte>, timestamp: int, verifier: string, maxAge: int, now: int)
    requires MIN_INT64 <= timestamp <= MAX_INT64
    ensures var signed := WithAuth(h, appKey, query, body, timestamp);
            var digest := h.hmac(secret, StringToSign(method_, path, signed));
            var carried := Carried(signed["auth_signature" := [Hex(digest)]]);
            Check(h, method_, path, carried, verifier, body, maxAge, now) == Accepted <==>
            && appKey != ""
            && (maxAge > 0 ==> maxAge >= MAX_INT64 || -maxAge <= now - timestamp * 1_000_000_000 <= maxAge)
            && digest == h.hmac(verifier, StringToSign(method_, path, Carried(signed)))
  {
    hide Query, StringToSign, Hex, Age, FormatInt, ParseInt, Carried;
    var signed := WithAuth(h, appKey, query, body, timestamp);
    var digest := h.hmac(secret, StringToSign(method_, path, signed));
    var sent := signed["auth_signature" := [Hex(digest)]];
    FormatParses(timestamp);
    CarriedSignature(method_, path, signed, Hex(digest));
    CarriedGet(sent, "auth_key");
    CarriedGet(sent, "auth_timestamp");
    CarriedGet(sent, "body_md5");
    CarriedGet(sent, "auth_signature");
    assert Get(sent, "auth_key") == appKey;
    assert Get(sent, "auth_timestamp") == FormatInt(timestamp);
    assert Get(sent, "body_md5") == Get(signed, "body_md5") && Get(sent, "auth_signature") == Hex(digest);
    AgeIff(now, timestamp, maxAge);
    HexOnly(digest, h.hmac(verifier, StringToSign(method_, path, Carried(signed))));
  }

  lemma CarriedSignature(method_: string, path: string, params: Values, sig: string)
    ensures StringToSign(method_, path, Carried(params["auth_signature" := [sig]])) ==
            StringToSign(method_, path, Carried(params))
  {
    assert Carried(params["auth_signature" := [sig]]) == Carried(params)["auth_signature" := [sig]];
    SignatureNotSigned(method_, path, Carried(params), [sig]);
  }

  /** So where no digests collide: under the same secret, and if no signed parameter is without values. */
  lemma SignedUnderSecretIff(h: Hashes, method_: string, path: string, appKey: string, secret: string,
                             query: Values, body: seq<byte>, timestamp: int, verifier: string, maxAge: int, now: int)
    requires MIN_INT64 <= timestamp <= MAX_INT64 && Injective(h.hmac)
    ensures var signed := WithAuth(h, appKey, query, body, timestamp);
            var digest := h.hmac(secret, StringToSign(method_, path, signed));
            var carried := Carried(signed["auth_signature" := [Hex(digest)]]);
            Check(h, method_, path, carried, verifier, body, maxAge, now) == Accepted <==>
            && appKey != ""
            && (maxAge > 0 ==> maxAge >= MAX_INT64 || -maxAge <= now - timestamp * 1_000_000_000 <= maxAge)
            && secret == verifier
            && forall k :: k in SignedKeys(signed) ==> signed[k] != []
  {
    SignedIsAcceptedIff(h, method_, path, appKey, secret, query, body, timestamp, verifier, maxAge, now);
    CarriedIff(method_, path, WithAuth(h, appKey, query, body, timestamp));
    hide WithAuth, StringToSign, Carried, Check, Hex, SignedKeys;
  }

  lemma HexOnly(a: seq<byte>, b: seq<byte>)
    ensures Hex(a) == Hex(b) <==> a == b
  {
    if Hex(a) == Hex(b) {
      HexInjective(a, b);
    }
  }

  /**
   * A request that carries a signature made under some secret for some method, path and parameters passes the
   * signature check under another exactly if secret and canonical string are the same, where no digests collide.
   */
  lemma SignatureIsOwnIff(h: Hashes, m: string, p: string, ps: Values, secret: string,
                          m': string, p': string, ps': Values, verifier: string,
                          body: seq<byte>, maxAge: int, now: int)
    requires Injective(h.hmac)
    requires Get(ps', "auth_signature") == Hex(h.hmac(secret, StringToSign(m, p, ps)))
    ensures var verdict := Check(h, m', p', ps', verifier, body, maxAge, now);
            verdict in {Accepted, Rejected(InvalidSignature)} ==>
              (verdict == Accepted <==> secret == verifier && StringToSign(m', p', ps') == StringToSign(m, p, ps))
  {
    HexOnly(h.hmac(secret, StringToSign(m, p, ps)), h.hmac(verifier, StringToSign(m', p', ps')));
    hide StringToSign, Hex, Age, Get, ParseInt;
  }

  /** Of separator-free requests it is accepted only with the signed method, path and first values. */
  lemma SignedPartIsKept(h: Hashes, m: string, p: string, ps: Values, secret: string,
                         m': string, p': string, ps': Values, verifier: string,
                         body: seq<byte>, maxAge: int, now: int)
    requires Injective(h.hmac) && Separable(m, p, ps) && Separable(m', p', ps')
    requires Get(ps', "auth_signature") == Hex(h.hmac(secret, StringToSign(m, p, ps)))
    requires Check(h, m', p', ps', verifier, body, maxAge, now) == Accepted
    ensures secret == verifier && SignedPart(m', p', ps') == SignedPart(m, p, ps)
  {
    SignatureIsOwnIff(h, m, p, ps, secret, m', p', ps', verifier, body, maxAge, now);
    StringToSignInjective(m, p, ps, m', p', ps');
  }
}
