/** The device's protocol machine as a value: outer states, and the inner states of Connected. */
module Device {
  import opened Messages
  import opened Channels

  datatype Inner = Ready | Flying(initialChannels: seq<ChannelResponse>) | Releasing | Released

  datatype Outer = Disconnected | Connecting | Connected(inner: Inner) | Disconnecting

  datatype Client = Client(world: World, state: Outer)

  const INITIAL := Client(EMPTY, Disconnected)

  // ---------------------------------------------------------------- inner states

  /** Validates the channels, reports the ones that opened, and answers the server. */
  function AttachAll(w: World, channels: seq<ChannelResponse>): World {
    var v := Validate(w, channels);
    if v.world.status != Running then v.world
    else
      var told := Tell(v.world, ChannelsOpened(v.result));
      if !AllAlive(told, v.result) then GoUndefined(told)
      else Send(told, Ack(AttachChannels).(ids := RefIds(v.result)))
  }

  /** Reports the named channels, closes them, and answers the server. */
  function ReleaseAll(w: World, ids: seq<int>): World {
    if !AllPresent(w, ids) then GoUndefined(w)
    else Send(Close(Tell(w, ChannelsClosing(Refs(w, ids))), ids), Ack(ReleaseChannels).(ids := ids))
  }

  ghost function EndOperation(w: World, env: Env): World {
    var all := Listing(w.channels.Keys, env.order);
    ListingPresent(w, env.order);
    Send(Tell(Close(Tell(w, ChannelsClosing(Refs(w, all))), all), OperationEnd), Ack(OperationEnded))
  }

  function StartInner(w: World, s: Inner): (t: Turn<Inner>)
    ensures t.next.None?
  {
    match s
    case Ready => Stay(w, s)
    case Flying(channels) => Stay(AttachAll(w, channels), s)
    case Releasing => Stay(Send(w, Plain(Command.Release)), s)
    case Released => Stay(w, s)
  }

  ghost function FlyingMessage(w: World, s: Inner, m: ControlMessage, env: Env): Turn<Inner> {
    if m.command == AttachChannels then Stay(AttachAll(w, m.channels), s)
    else if m.command == ReleaseChannels then Stay(ReleaseAll(w, m.ids), s)
    else if m.command == OperationEnded then Go(EndOperation(w, env), s, Ready)
    else Stay(DefaultMessage(w, m, env), s)
  }

  ghost function HandleInner(w: World, s: Inner, e: Event, env: Env): Turn<Inner> {
    match e
    case User(u) => if s.Ready? && u.UserRelease? then Go(w, s, Releasing) else Stay(w, s)
    case Received(m) =>
      (match s
       case Ready =>
         if m.command == AttachChannels then Go(w, s, Flying(m.channels)) else Stay(DefaultMessage(w, m, env), s)
       case Flying(_) => FlyingMessage(w, s, m, env)
       case Releasing =>
         if m.command == Command.Release && m.response == Accepted then Go(w, s, Inner.Released)
         else Stay(DefaultMessage(w, m, env), s)
       case Released => Stay(DefaultMessage(w, m, env), s))
    case ConnectionLost => Stay(w, s)
    case ConnectionClosed => Stay(w, s)
    case ConnectionError => Stay(w, s)
  }

  /** The inner transition loop. */
  function RunInner(t: Turn<Inner>): Turn<Inner>
    decreases t.next.Some?
  {
    if t.world.status != Running || t.next.None? then t
    else RunInner(StartInner(Note(t.world, MovedInside), t.next.value))
  }

  ghost function HandleConnected(w: World, s: Inner, e: Event, env: Env): Turn<Outer> {
    var t := RunInner(HandleInner(w, s, e, env));
    Turn(t.world, Connected(t.self),
         if t.world.status == Running && t.self.Released? then Some(Disconnecting) else None)
  }

  // ---------------------------------------------------------------- outer states

  function StartConnecting(w: World, env: Env): Turn<Outer> {
    if env.core.None? then Go(Tell(w, Failure), Connecting, Disconnected)
    else if !env.opens then Go(Tell(Note(w, StreamOpenFailed), Failure), Connecting, Disconnected)
    else Stay(Send(Note(w, StreamOpened), Plain(Setup).(key := env.core)), Connecting)
  }

  function StartConnected(w: World, inner: Inner): Turn<Outer> {
    var t := StartInner(w, inner);
    Stay(if t.world.status == Running then Tell(t.world, Attached) else t.world, Connected(t.self))
  }

  function StartDisconnecting(w: World, env: Env): Turn<Outer> {
    var closed := Note(w, StreamClosed);
    if env.closes then Go(Tell(closed, FacadeEvent.Released), Disconnecting, Disconnected)
    else Stay(Throw(closed), Disconnecting)
  }

  function Rank(next: Option<Outer>): nat {
    if next.None? then 0 else if next.value.Connecting? || next.value.Disconnecting? then 2 else 1
  }

  function StartOuter(w: World, s: Outer, env: Env): (t: Turn<Outer>)
    ensures Rank(t.next) < Rank(Some(s))
  {
    match s
    case Disconnected => Stay(w, s)
    case Connecting => StartConnecting(w, env)
    case Connected(inner) => StartConnected(w, inner)
    case Disconnecting => StartDisconnecting(w, env)
  }

  ghost function HandleOuter(w: World, s: Outer, e: Event, env: Env): Turn<Outer> {
    match s
    case Disconnected => if e == User(Attach) then Go(w, s, Connecting) else Stay(w, s)
    case Connecting => if e.Received? then ConnectingMessage(w, e.message, env) else Stay(w, s)
    case Connected(inner) => HandleConnected(w, inner, e, env)
    case Disconnecting => Stay(w, s)
  }

  function ConnectingMessage(w: World, m: ControlMessage, env: Env): Turn<Outer> {
    if m.command == Setup then
      if m.response == Accepted then Go(w, Connecting, Connected(Ready))
      else Go(Tell(w, Error(m.text)), Connecting, Disconnecting)
    else Stay(DefaultMessage(w, m, env), Connecting)
  }

  /** The outer transition loop. */
  function RunOuter(t: Turn<Outer>, env: Env): Turn<Outer>
    decreases Rank(t.next)
  {
    if t.world.status != Running || t.next.None? then t
    else RunOuter(StartOuter(Note(t.world, Moved), t.next.value, env), env)
  }

  /** One event, handled to completion. After a handler that did not return there is no other. */
  ghost function Step(c: Client, i: Input): Client {
    if c.world.status != Running then c
    else
      var t := RunOuter(HandleOuter(Note(c.world, In(i.event)), c.state, i.event, i.env), i.env);
      Client(t.world, t.self)
  }

  ghost function Run(c: Client, inputs: seq<Input>): Client {
    if inputs == [] then c else Step(Run(c, inputs[..|inputs| - 1]), inputs[|inputs| - 1])
  }
}
