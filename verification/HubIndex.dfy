/** The hub's indexes, and what each section under `h.mu` does to them. */
module HubIndex {

  /** A connection, by what never changes about it: its hub, its application and its socket ID. */
  datatype Client = Client(node: string, app: string, socket: string)

  /**
   * The hub's maps. `K` is the type of keys: `app:name` strings in one hub, such strings tagged with their
   * hub in a cluster. `S` is the type of broker subscriptions.
   */
  datatype Index<!K(==), S> = Index(
    clients: set<Client>,
    byID: map<K, Client>,
    byUser: map<K, set<Client>>,
    channels: map<K, set<Client>>,
    subs: map<K, S>)

  function Empty<K(==), S>(): Index<K, S> {
    Index({}, map[], map[], map[], map[])
  }

  function Lookup<K(==)>(m: map<K, set<Client>>, key: K): set<Client> {
    if key in m then m[key] else {}
  }

  function Members<K(==), S>(i: Index<K, S>, key: K): set<Client> {
    Lookup(i.channels, key)
  }

  function Register<K(==), S>(i: Index<K, S>, c: Client, id: K): Index<K, S> {
    i.(clients := i.clients + {c}, byID := i.byID[id := c])
  }

  /** Takes `c` out of a set of sets; a set that becomes empty goes. */
  function Without<K(==)>(m: map<K, set<Client>>, c: Client, key: K): map<K, set<Client>> {
    if key !in m then m
    else if m[key] - {c} == {} then m - {key}
    else m[key := m[key] - {c}]
  }

  /** The first section of `Unregister`; `userKey` is the client's own key, unless it has no user ID. */
  function Drop<K(==), S>(i: Index<K, S>, c: Client, id: K, hasUser: bool, userKey: K): Index<K, S> {
    i.(clients := i.clients - {c},
       byID := i.byID - {id},
       byUser := if hasUser then Without(i.byUser, c, userKey) else i.byUser)
  }

  function AddUser<K(==), S>(i: Index<K, S>, c: Client, userKey: K): Index<K, S> {
    i.(byUser := i.byUser[userKey := Lookup(i.byUser, userKey) + {c}])
  }

  predicate IsFirst<K(==), S>(i: Index<K, S>, key: K) {
    key !in i.channels
  }

  function Join<K(==), S>(i: Index<K, S>, c: Client, key: K): Index<K, S> {
    i.(channels := i.channels[key := Members(i, key) + {c}])
  }

  /** `c` is the last member, so leaving drops the channel and its subscription. */
  predicate IsLast<K(==), S>(i: Index<K, S>, c: Client, key: K) {
    key in i.channels && i.channels[key] - {c} == {}
  }

  function Leave<K(==), S>(i: Index<K, S>, c: Client, key: K): Index<K, S> {
    i.(channels := Without(i.channels, c, key),
       subs := if IsLast(i, c, key) then i.subs - {key} else i.subs)
  }

  /** Who `BroadcastLocal` sends to: the channel's members and the `"*"` subscribers, once each. */
  function Recipients<K(==), S>(i: Index<K, S>, key: K, wildcard: K, exclude: string): set<Client> {
    set c | c in Members(i, key) + Members(i, wildcard) && !(exclude != "" && c.socket == exclude)
  }

  lemma WithoutShrinks<K>(m: map<K, set<Client>>, c: Client, key: K)
    ensures forall k :: k in Without(m, c, key) ==> k in m && Without(m, c, key)[k] <= m[k]
  {}
}
