/**
 The channel table as a value, and what each operation of the channels handler makes of it.

 A `World` holds the table together with the trace of everything the client did that can be
 seen from outside. Each channel that is ever inserted gets an incarnation number of its own, so
 that a pointer to a channel and the life of that channel can be spoken of.
 */
module Channels {
  import opened Messages

  datatype Entry = Entry(incarnation: nat, owned: bool)

  /**
   Running: the handler returned. Threw: an exception left it. Undefined: it used a table
   iterator or a pointer that refers to no channel, which C++ gives no meaning to.
   */
  datatype Status = Running | Threw | Undefined

  datatype Action =
    | In(event: Event)
    | Sent(message: ClientMessage)
    | Told(news: FacadeEvent)
    | StreamOpened
    | StreamOpenFailed
    | StreamClosed
    | Made(ref: Ref)
    | Dropped(ref: Ref)
    | Closed(ref: Ref)
    | Moved
    | MovedInside
    | Recalled

  datatype World = World(status: Status, channels: map<int, Entry>, made: nat, trace: seq<Action>)

  const EMPTY := World(Running, map[], 0, [])

  function Note(w: World, a: Action): World {
    w.(trace := w.trace + [a])
  }

  function Send(w: World, m: ClientMessage): World {
    Note(w, Sent(m))
  }

  function Tell(w: World, e: FacadeEvent): World {
    Note(w, Told(e))
  }

  function Throw(w: World): World {
    w.(status := Threw)
  }

  function GoUndefined(w: World): World {
    w.(status := Undefined)
  }

  /** What a state's method leaves: the world, the state object itself, and the state to go to, if any. */
  datatype Turn<S> = Turn(world: World, self: S, next: Option<S>)

  function Stay<S>(w: World, s: S): Turn<S> {
    Turn(w, s, None)
  }

  function Go<S>(w: World, s: S, next: S): Turn<S> {
    Turn(w, s, Some(next))
  }

  /** What every state does with a message it has no case for: heartbeats are answered, the rest is logged. */
  function DefaultMessage(w: World, m: ControlMessage, env: Env): World {
    if IsHeartbeat(m)
    then Send(w, Ack(Heartbeat).(heartbeat := Some((m.heartbeat.value, env.location))))
    else w
  }

  // ---------------------------------------------------------------- opening

  datatype Dialled = Verdict(accepted: bool) | Thrown

  /** The outcome of opening one channel against its remote end. */
  function Dial(r: Remote): Dialled {
    match r
    case ConnectThrows => Thrown
    case RequestNotSerialized => Verdict(false)
    case SendThrows => Thrown
    case ReadThrows => Verdict(false)
    case Answers(a) => Verdict(a)
  }

  /** Building a socket gets as far as making one; otherwise it throws. */
  predicate Builds(c: ChannelResponse) {
    match c.protocol
    case Udp => c.security.PlainText?
    case Tcp => true
    case UnknownProtocol => false
  }

  /** A socket class exists for TCP, and for UDP without encryption. */
  predicate HasSocket(c: ChannelResponse) {
    c.protocol == Tcp || (c.protocol == Udp && c.security == PlainText)
  }

  /** The remote end was reached and said yes. */
  predicate Accepts(c: ChannelResponse) {
    HasSocket(c) && c.remote == Answers(true)
  }

  /** Opening the channel throws: no socket, no connection, or the request could not be sent. */
  predicate Throws(c: ChannelResponse) {
    !HasSocket(c) || c.remote == ConnectThrows || c.remote == SendThrows
  }

  /** The channel does not open, and nothing is thrown. */
  predicate Fails(c: ChannelResponse) {
    HasSocket(c) && (c.remote == RequestNotSerialized || c.remote == ReadThrows || c.remote == Answers(false))
  }

  function RefOf(w: World, id: int): Ref
    requires id in w.channels
  {
    Ref(id, w.channels[id].incarnation)
  }

  predicate Alive(w: World, r: Ref) {
    r.id in w.channels && w.channels[r.id].incarnation == r.incarnation
  }

  /** Insertion that leaves an entry already there alone. */
  function Emplace(w: World, id: int): World {
    if id in w.channels then w
    else Note(w.(channels := w.channels[id := Entry(w.made, false)], made := w.made + 1), Made(Ref(id, w.made)))
  }

  /** Erasure of a channel that failed validation; its socket is not disconnected. */
  function Drop(w: World, id: int): World
    requires id in w.channels
  {
    Note(w.(channels := w.channels - {id}), Dropped(RefOf(w, id)))
  }

  datatype Validation = Validation(world: World, result: seq<Ref>)

  function ValidateOne(v: Validation, c: ChannelResponse): Validation {
    if v.world.status != Running then v
    else if !Builds(c) then v.(world := Throw(v.world))
    else
      var w := Emplace(v.world, c.id);
      match Dial(c.remote)
      case Thrown => v.(world := Throw(w))
      case Verdict(accepted) =>
        if accepted then Validation(w, v.result + [RefOf(w, c.id)]) else v.(world := Drop(w, c.id))
  }

  function Validate(w: World, toValidate: seq<ChannelResponse>): Validation {
    if toValidate == [] then Validation(w, [])
    else ValidateOne(Validate(w, toValidate[..|toValidate| - 1]), toValidate[|toValidate| - 1])
  }

  // ---------------------------------------------------------------- closing

  function CloseOne(w: World, id: int): World {
    if id in w.channels
    then Note(w.(channels := w.channels - {id}), Closed(RefOf(w, id)))
    else w
  }

  function Close(w: World, ids: seq<int>): World {
    if ids == [] then w else CloseOne(Close(w, ids[..|ids| - 1]), ids[|ids| - 1])
  }

  // ---------------------------------------------------------------- lookups

  /** `order` lists each of `keys` once. */
  ghost predicate Lists(order: seq<int>, keys: set<int>) {
    && (forall k :: k in order <==> k in keys)
    && (forall i, j :: 0 <= i < j < |order| ==> order[i] != order[j])
  }

  lemma ListingExists(keys: set<int>) returns (order: seq<int>)
    ensures Lists(order, keys)
  {
    if k :| k in keys {
      var rest := ListingExists(keys - {k});
      order := [k] + rest;
    } else {
      order := [];
    }
  }

  lemma SomeListing(keys: set<int>)
    ensures exists order :: Lists(order, keys)
  {
    var order := ListingExists(keys);
  }

  /** The iteration order of the table: what the environment says, as long as it is one. */
  ghost function Listing(keys: set<int>, order: seq<int>): (r: seq<int>)
    ensures Lists(r, keys)
  {
    if Lists(order, keys) then order
    else
      SomeListing(keys);
      var o :| Lists(o, keys);
      o
  }

  predicate AllPresent(w: World, ids: seq<int>) {
    forall i :: 0 <= i < |ids| ==> ids[i] in w.channels
  }

  lemma ListingPresent(w: World, order: seq<int>)
    ensures AllPresent(w, Listing(w.channels.Keys, order))
  {
    var all := Listing(w.channels.Keys, order);
    forall i | 0 <= i < |all| ensures all[i] in w.channels {
      assert all[i] in all;
    }
  }

  predicate AllAlive(w: World, refs: seq<Ref>) {
    forall i :: 0 <= i < |refs| ==> Alive(w, refs[i])
  }

  function Refs(w: World, ids: seq<int>): (refs: seq<Ref>)
    requires AllPresent(w, ids)
    ensures |refs| == |ids|
    ensures forall i :: 0 <= i < |ids| ==> refs[i] == RefOf(w, ids[i])
  {
    seq(|ids|, i requires 0 <= i < |ids| => RefOf(w, ids[i]))
  }

  // ---------------------------------------------------------------- ownership

  function SetOwnedOne(w: World, id: int, owned: bool): World {
    if id in w.channels
    then w.(channels := w.channels[id := w.channels[id].(owned := owned)])
    else GoUndefined(w)
  }

  function SetOwned(w: World, ids: seq<int>): World {
    if ids == [] then w
    else
      var before := SetOwned(w, ids[..|ids| - 1]);
      if before.status != Running then before else SetOwnedOne(before, ids[|ids| - 1], true)
  }

  // ---------------------------------------------------------------- what validation means

  predicate Listed(s: seq<ChannelResponse>, id: int) {
    exists i :: 0 <= i < |s| && s[i].id == id
  }

  predicate SomeFailure(s: seq<ChannelResponse>, id: int) {
    exists i :: 0 <= i < |s| && s[i].id == id && Fails(s[i])
  }

  /** The last description of `id` in the list is accepted by its remote end. */
  predicate LastAccepted(s: seq<ChannelResponse>, id: int) {
    exists i :: 0 <= i < |s| && s[i].id == id && Accepts(s[i]) && forall j :: i < j < |s| ==> s[j].id != id
  }

  /** The ids of the accepted descriptions, in list order. */
  function AcceptedIds(s: seq<ChannelResponse>): seq<int> {
    if s == [] then []
    else
      var rest := AcceptedIds(s[..|s| - 1]);
      if Accepts(s[|s| - 1]) then rest + [s[|s| - 1].id] else rest
  }
}
