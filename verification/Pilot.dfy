/** The pilot's protocol machine as a value: outer states, and the inner states of Connected. */
module Pilot {
  import opened Messages
  import opened Channels

  datatype Inner =
    | ValidatingChannels(toValidate: seq<ChannelResponse>, validated: seq<Ref>)
    | OpeningChannels(channelsToOpen: seq<ChannelRequest>)
    | ClosingChannels(channelsToClose: seq<int>)
    | Operating
    | RequestingControl(channelId: int)
    | ReleasingControl(channelId: int)
    | Recovering
    | Released

  datatype Outer =
    | Disconnected
    | Connecting(deviceId: int, channels: seq<ChannelRequest>)
    | Connected(inner: Inner)
    | Disconnecting

  datatype Client = Client(world: World, state: Outer)

  const INITIAL := Client(EMPTY, Disconnected)

  // ---------------------------------------------------------------- inner states

  /** The entry action of an inner state. */
  function StartInner(w: World, s: Inner): (t: Turn<Inner>)
    ensures t.next.None?
  {
    match s
    case ValidatingChannels(toValidate, _) =>
      var v := Validate(w, toValidate);
      if v.world.status != Running then Stay(v.world, s)
      else
        var self := ValidatingChannels(toValidate, v.result);
        if !AllAlive(v.world, v.result) then Stay(GoUndefined(v.world), self)
        else Stay(Send(v.world, Plain(ChannelsReady).(ids := RefIds(v.result))), self)
    case OpeningChannels(requests) => Stay(Send(w, Plain(AddChannels).(requests := requests)), s)
    case ClosingChannels(ids) => Stay(Send(w, Plain(RemoveChannels).(ids := ids)), s)
    case Operating => Stay(Note(w, Recalled), s)
    case RequestingControl(id) => Stay(Send(w, Plain(RequestControl).(ids := [id])), s)
    case ReleasingControl(id) => Stay(Tell(w, ReleaseAsked(id)), s)
    case Recovering => Stay(w, s)
    case Released => Stay(w, s)
  }

  ghost function UserInner(w: World, s: Inner, u: UserEvent, env: Env): Turn<Inner> {
    match (s, u)
    case (Operating, OpenChannels(requests)) => Go(w, s, OpeningChannels(requests))
    case (Operating, CloseChannels(ids)) => Go(w, s, ClosingChannels(ids))
    case (Operating, UserRequestControl(id)) => Go(w, s, RequestingControl(id))
    case (Operating, UserRelease) => Go(w, s, ClosingChannels(Listing(w.channels.Keys, env.order)))
    case (RequestingControl(_), UserControlReady) => Stay(Send(w, Plain(ControlReady)), s)
    case (ReleasingControl(_), ReleaseAccepted(data)) =>
      Stay(Send(w, Ack(ReleaseControl).(handover := Some(data))), s)
    case (ReleasingControl(_), ReleaseRejected(text)) =>
      Go(Send(w, Ack(ReleaseControl).(text := text)), s, Operating)
    case (_, _) => Stay(w, s)
  }

  function ValidatingMessage(w: World, s: Inner, m: ControlMessage, env: Env): Turn<Inner>
    requires s.ValidatingChannels?
  {
    if m.command == ChannelsReady then
      if m.response == Accepted then
        var marked := SetOwned(w, m.ids);
        if marked.status != Running then Stay(marked, s)
        else Go(Tell(marked, ChannelsOpened(s.validated)), s, Operating)
      else Stay(DefaultMessage(Tell(w, Error(m.text)), m, env), s)
    else Stay(DefaultMessage(w, m, env), s)
  }

  function OpeningMessage(w: World, s: Inner, m: ControlMessage, env: Env): Turn<Inner> {
    if m.command == AddChannels then
      if m.response == Accepted then Go(w, s, ValidatingChannels(m.channels, []))
      else Go(Tell(w, ProcedureRejected(AddChannels, m.text)), s, Operating)
    else Stay(DefaultMessage(w, m, env), s)
  }

  /** The server ends the operation: every channel is reported and closed, and the client agrees. */
  ghost function ServerRelease(w: World, s: Inner, env: Env): Turn<Inner> {
    var all := Listing(w.channels.Keys, env.order);
    ListingPresent(w, env.order);
    Go(Send(Close(Tell(w, ChannelsClosing(Refs(w, all))), all), Ack(Command.Release)), s, Inner.Released)
  }

  ghost function ClosingMessage(w: World, s: Inner, m: ControlMessage, env: Env): Turn<Inner>
    requires s.ClosingChannels?
  {
    if m.command == RemoveChannels then
      if m.response == Accepted then
        if !AllPresent(w, s.channelsToClose) then Stay(GoUndefined(w), s)
        else
          var told := Tell(w, ChannelsClosing(Refs(w, s.channelsToClose)));
          Go(Send(Close(told, s.channelsToClose), Ack(RemoveChannels)), s, Operating)
      else Go(Tell(w, ProcedureRejected(RemoveChannels, m.text)), s, Operating)
    else if m.command == Command.Release then ServerRelease(w, s, env)
    else Stay(DefaultMessage(w, m, env), s)
  }

  ghost function OperatingMessage(w: World, s: Inner, m: ControlMessage, env: Env): Turn<Inner> {
    if m.command == OperationUpdated then Stay(Note(Tell(w, OperationUpdate), Recalled), s)
    else if m.command == ReleaseControl then
      if m.ids == [] then Stay(GoUndefined(w), s) else Go(w, s, ReleasingControl(m.ids[0]))
    else if m.command == Command.Release then ServerRelease(w, s, env)
    else Stay(DefaultMessage(w, m, env), s)
  }

  function RequestingMessage(w: World, s: Inner, m: ControlMessage, env: Env): Turn<Inner>
    requires s.RequestingControl?
  {
    if m.command == RequestControl then
      if m.response == Accepted then Stay(Tell(w, HandoverAccepted(m.handover)), s)
      else Go(Tell(w, ProcedureRejected(RequestControl, m.text)), s, Operating)
    else if m.command == ControlReady && m.response == Accepted then
      var marked := SetOwnedOne(w, s.channelId, true);
      if marked.status != Running then Stay(marked, s) else Go(Tell(marked, HandoverDone), s, Operating)
    else Stay(DefaultMessage(w, m, env), s)
  }

  function ReleasingMessage(w: World, s: Inner, m: ControlMessage, env: Env): Turn<Inner>
    requires s.ReleasingControl?
  {
    if m.command == ControlReleased then
      var marked := SetOwnedOne(w, s.channelId, false);
      if marked.status != Running then Stay(marked, s)
      else Go(Send(Tell(marked, ControlGone), Ack(ControlReleased)), s, Operating)
    else Stay(DefaultMessage(w, m, env), s)
  }

  ghost function HandleInner(w: World, s: Inner, e: Event, env: Env): Turn<Inner> {
    match e
    case User(u) => UserInner(w, s, u, env)
    case Received(m) =>
      (match s
       case ValidatingChannels(_, _) => ValidatingMessage(w, s, m, env)
       case OpeningChannels(_) => OpeningMessage(w, s, m, env)
       case ClosingChannels(_) => ClosingMessage(w, s, m, env)
       case Operating => OperatingMessage(w, s, m, env)
       case RequestingControl(_) => RequestingMessage(w, s, m, env)
       case ReleasingControl(_) => ReleasingMessage(w, s, m, env)
       case Recovering => Stay(w, s)
       case Released => Stay(w, s))
    case ConnectionLost => if s.Operating? then Go(w, s, Recovering) else Stay(w, s)
    case ConnectionClosed => Stay(w, s)
    case ConnectionError => Stay(w, s)
  }

  /** The inner transition loop. */
  function RunInner(t: Turn<Inner>): Turn<Inner>
    decreases t.next.Some?
  {
    if t.world.status != Running || t.next.None? then t
    else RunInner(StartInner(Note(t.world, MovedInside), t.next.value))
  }

  ghost function HandleConnected(w: World, s: Inner, e: Event, env: Env): Turn<Outer> {
    var t := RunInner(HandleInner(w, s, e, env));
    Turn(t.world, Connected(t.self),
         if t.world.status == Running && t.self.Released? then Some(Disconnecting) else None)
  }

  // ---------------------------------------------------------------- outer states

  function StartConnecting(w: World, s: Outer, env: Env): Turn<Outer>
    requires s.Connecting?
  {
    if env.core.None? then Go(Tell(w, Failure), s, Disconnected)
    else if !env.opens then Go(Tell(Note(w, StreamOpenFailed), Failure), s, Disconnected)
    else Stay(Send(Note(w, StreamOpened), Plain(Setup).(key := env.core, requests := s.channels)), s)
  }

  function StartConnected(w: World, inner: Inner): Turn<Outer> {
    var t := StartInner(w, inner);
    Stay(if t.world.status == Running then Tell(t.world, OperationStarted) else t.world, Connected(t.self))
  }

  function StartDisconnecting(w: World, s: Outer, env: Env): Turn<Outer> {
    var closed := Note(w, StreamClosed);
    if env.closes then Go(Tell(closed, FacadeEvent.Released), s, Disconnected) else Stay(Throw(closed), s)
  }

  function Rank(next: Option<Outer>): nat {
    if next.None? then 0 else if next.value.Connecting? || next.value.Disconnecting? then 2 else 1
  }

  function StartOuter(w: World, s: Outer, env: Env): (t: Turn<Outer>)
    ensures Rank(t.next) < Rank(Some(s))
  {
    match s
    case Disconnected => Stay(w, s)
    case Connecting(_, _) => StartConnecting(w, s, env)
    case Connected(inner) => StartConnected(w, inner)
    case Disconnecting => StartDisconnecting(w, s, env)
  }

  ghost function HandleOuter(w: World, s: Outer, e: Event, env: Env): Turn<Outer> {
    match s
    case Disconnected =>
      if e.User? && e.user.Operate? then Go(w, s, Connecting(e.user.deviceId, e.user.channels)) else Stay(w, s)
    case Connecting(_, _) => if e.Received? then ConnectingMessage(w, s, e.message, env) else Stay(w, s)
    case Connected(inner) => HandleConnected(w, inner, e, env)
    case Disconnecting => Stay(w, s)
  }

  function ConnectingMessage(w: World, s: Outer, m: ControlMessage, env: Env): Turn<Outer> {
    if m.command == Setup then
      if m.response == Accepted then Go(w, s, Connected(ValidatingChannels(m.channels, [])))
      else Go(Tell(w, Error(m.text)), s, Disconnecting)
    else Stay(DefaultMessage(w, m, env), s)
  }

  /** The outer transition loop. */
  function RunOuter(t: Turn<Outer>, env: Env): Turn<Outer>
    decreases Rank(t.next)
  {
    if t.world.status != Running || t.next.None? then t
    else RunOuter(StartOuter(Note(t.world, Moved), t.next.value, env), env)
  }

  /** One event, handled to completion. After a handler that did not return there is no other. */
  ghost function Step(c: Client, i: Input): Client {
    if c.world.status != Running then c
    else
      var t := RunOuter(HandleOuter(Note(c.world, In(i.event)), c.state, i.event, i.env), i.env);
      Client(t.world, t.self)
  }

  ghost function Run(c: Client, inputs: seq<Input>): Client {
    if inputs == [] then c else Step(Run(c, inputs[..|inputs| - 1]), inputs[|inputs| - 1])
  }
}
