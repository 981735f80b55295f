/** The `appID + ":" + channelName` keys that the hub, the broker and the store share. */
module ChannelKeys {

  function Key(app: string, channel: string): (key: string)
    ensures |key| == |app| + 1 + |channel|
  {
    app + ":" + channel
  }

  predicate HasPrefix(s: string, prefix: string) {
    prefix <= s
  }

  /** Application IDs are decimal numbers, so no ID contains the separator. */
  predicate ColonFree(app: string) {
    ':' !in app
  }

  predicate IsPresence(channel: string) {
    HasPrefix(channel, "presence-")
  }

  predicate IsPrivate(channel: string) {
    HasPrefix(channel, "private-") || HasPrefix(channel, "private-encrypted-")
  }

  /** The channels that can only be joined with an auth string. */
  predicate IsGuarded(channel: string) {
    IsPrivate(channel) || IsPresence(channel)
  }

  /** Within one application a key names one channel, whatever the names contain. */
  lemma SameAppKey(app: string, c: string, d: string)
    requires Key(app, c) == Key(app, d)
    ensures c == d
  {
    assert Key(app, c)[|app| + 1..] == c;
    assert Key(app, d)[|app| + 1..] == d;
  }

  lemma FirstColon(app: string, c: string)
    requires ColonFree(app)
    ensures var k := Key(app, c); k[|app|] == ':' && forall i :: 0 <= i < |app| ==> k[i] != ':'
  {}

  /** A key determines both its application and its channel. */
  lemma KeyInjective(app: string, c: string, app': string, c': string)
    requires ColonFree(app) && ColonFree(app')
    requires Key(app, c) == Key(app', c')
    ensures app == app' && c == c'
  {
    FirstColon(app, c);
    FirstColon(app', c');
    assert app == Key(app, c)[..|app|];
    assert app' == Key(app', c')[..|app'|];
    SameAppKey(app, c, c');
  }

  /** The prefix scan `HasPrefix(key, app + ":")` picks exactly that application's keys. */
  lemma PrefixPicksApp(app: string, app': string, c: string)
    requires ColonFree(app) && ColonFree(app')
    ensures HasPrefix(Key(app', c), app + ":") <==> app == app'
  {
    var k := Key(app', c);
    if app == app' {
      assert k[..|app| + 1] == app + ":";
    } else if HasPrefix(k, app + ":") {
      var rest := k[|app| + 1..];
      assert k == Key(app, rest);
      KeyInjective(app, rest, app', c);
      assert false;
    }
  }

  /** Without that assumption, two applications can share a key exactly when one ID goes on after the other's colon. */
  lemma KeysCollideIff(app: string, app': string)
    ensures (exists c, c' :: Key(app, c) == Key(app', c')) <==>
            app == app' || HasPrefix(app', app + ":") || HasPrefix(app, app' + ":")
  {
    if c, c' :| Key(app, c) == Key(app', c') {
      if |app| <= |app'| { SharedKey(app, c, app', c'); } else { SharedKey(app', c', app, c); }
    }
    if app == app' {
      assert Key(app, "") == Key(app', "");
    } else if HasPrefix(app', app + ":") {
      Continues(app, app');
    } else if HasPrefix(app, app' + ":") {
      Continues(app', app);
      assert Key(app, "") == Key(app', app[|app'| + 1..] + ":");
    }
  }

  lemma SharedKey(app: string, c: string, app': string, c': string)
    requires Key(app, c) == Key(app', c') && |app| <= |app'|
    ensures app == app' || HasPrefix(app', app + ":")
  {
    var k := Key(app, c);
    assert app == k[..|app|] && k[|app|] == ':' && app' == k[..|app'|];
    if |app| < |app'| {
      assert app'[..|app| + 1] == k[..|app| + 1] == app + ":";
    }
  }

  lemma Continues(app: string, app': string)
    requires HasPrefix(app', app + ":")
    ensures Key(app, app'[|app| + 1..] + ":") == Key(app', "")
  {
    assert app' == app + ":" + app'[|app| + 1..];
  }

  lemma ColonsCollide()
    ensures Key("1", "2:c") == Key("1:2", "c")
  {
    assert Key("1", "2:c") == "1:2:c";
    assert Key("1:2", "c") == "1:2:c";
  }
}
