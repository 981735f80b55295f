/** What clients ask of a hub, what hubs send, and what they read from the store. */
module Messages {
  import opened Options

  /** Slots in a broker subscription's channel and in a connection's send channel. */
  const SLOTS: nat := 256

  /** A `BroadcastPayload`. `origin` is the publishing hub's ID, `exclude` a socket that is not to get the event. */
  datatype Payload = Payload(origin: string, app: string, channel: string, event: string, data: string, exclude: string)

  /** A subscribe request; `member` is the user ID and info in its channel data, if that can be decoded. */
  datatype SubscribeRequest = SubscribeRequest(
    ch: string, auth: string, channelData: string, member: Option<(string, string)>)

  function UserOf(r: SubscribeRequest): string {
    if r.member.Some? then r.member.value.0 else ""
  }

  function InfoOf(r: SubscribeRequest): string {
    if r.member.Some? then r.member.value.1 else ""
  }

  /** What the store has for an application: its key and its decrypted secret. */
  datatype Credentials = Credentials(appKey: string, secret: string)

  /** A `PusherMessage`. */
  datatype PusherMessage = PusherMessage(event: string, channel: string, data: string)

  /** The JSON texts that the hub builds, as functions of what goes into them. */
  datatype Encoder = Encoder(
    established: string -> string,
    roster: set<string> -> string,
    memberAdded: (string, string) -> string,
    memberRemoved: string -> string,
    error: int -> string)

  /** The broker topic of a channel key. */
  function Topic(key: string): string {
    "aps:events:" + key
  }

  lemma TopicIff(key: string, key': string)
    ensures Topic(key) == Topic(key') <==> key == key'
  {
    var n := |"aps:events:"|;
    assert Topic(key)[n..] == key && Topic(key')[n..] == key';
  }
}
