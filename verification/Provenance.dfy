/**
 Why the client says what it says, and that it leaves nothing unsaid. An observer that sees only the trace
 follows the conversation stage by stage. It judges every message sent and every event told to the listener
 against the event being handled and, where the server and the listener must hear of the same channels,
 against what was said before; and it knows from the stage what an event calls for.
 */
module Provenance {
  import opened Messages
  import opened Channels
  import opened ChannelTheory

  datatype Role = PilotRole | DeviceRole

  /** How far the conversation has come: the first two are common, then the pilot's, then the device's. */
  datatype Stage =
    | Away | Greeting
    | Confirming | Idle | Adding | Removing | Asking | Yielding | Lost
    | Grounded | Aloft | Leaving

  /**
   `cause` is the last event taken in; `owed` and `due`: it calls for a message, and for a word to the listener,
   that have not come yet. `ready` and `removal` are the ids last named to the server as validated and as
   to be removed. `honest`: all that was said was justified, and whatever an event called for came
   before the next.
   */
  datatype Talk = Talk(
    cause: Option<Event>, stage: Stage, owed: bool, due: bool, ready: seq<int>, removal: seq<int>, honest: bool)

  /** Event `e` is this message of the server. */
  predicate Brings(e: Event, command: Command) {
    e.Received? && e.message.command == command
  }

  predicate BringsAccepted(e: Event, command: Command) {
    Brings(e, command) && e.message.response == Accepted
  }

  predicate BringsRefused(e: Event, command: Command) {
    Brings(e, command) && e.message.response != Accepted
  }

  predicate From(v: Talk, command: Command) {
    v.cause.Some? && Brings(v.cause.value, command)
  }

  predicate Agreed(v: Talk, command: Command) {
    v.cause.Some? && BringsAccepted(v.cause.value, command)
  }

  predicate Refused(v: Talk, command: Command) {
    v.cause.Some? && BringsRefused(v.cause.value, command)
  }

  /** The pilot may send `m` on account of event `e`. */
  predicate PilotMaySend(e: Event, m: ClientMessage) {
    match e
    case User(u) =>
      (match u
       case Operate(_, channels) => m.key.Some? && m == Plain(Setup).(key := m.key, requests := channels)
       case OpenChannels(requests) => m == Plain(AddChannels).(requests := requests)
       case CloseChannels(ids) => m == Plain(RemoveChannels).(ids := ids)
       case UserRelease => m == Plain(RemoveChannels).(ids := m.ids)
       case UserRequestControl(id) => m == Plain(RequestControl).(ids := [id])
       case UserControlReady => m == Plain(ControlReady)
       case ReleaseAccepted(data) => m == Ack(ReleaseControl).(handover := Some(data))
       case ReleaseRejected(text) => m == Ack(ReleaseControl).(text := text)
       case _ => false)
    case Received(r) =>
      if IsHeartbeat(r) then AnswersBeat(r, m)
      else if r.command == ControlReleased || r.command == Command.Release then m == Ack(r.command)
      else
        && r.response == Accepted
        && (if r.command == Setup || r.command == AddChannels
           then m == Plain(ChannelsReady).(ids := AcceptedIds(r.channels))
            else r.command == RemoveChannels && m == Ack(RemoveChannels))
    case _ => false
  }

  predicate AnswersBeat(r: ControlMessage, m: ClientMessage) {
    && r.heartbeat.Some? && m.heartbeat.Some?
    && m == Ack(Heartbeat).(heartbeat := Some((r.heartbeat.value, m.heartbeat.value.1)))
  }

  /** The pilot may tell its listener `n` on account of event `e`. */
  predicate PilotMayTell(e: Event, n: FacadeEvent) {
    match n
    case Failure => e.User? && e.user.Operate?
    case Error(text) => (BringsRefused(e, Setup) || BringsRefused(e, ChannelsReady)) && e.message.text == text
    case Released => BringsRefused(e, Setup) || Brings(e, Command.Release)
    case OperationStarted => BringsAccepted(e, Setup)
    case OperationUpdate => Brings(e, OperationUpdated)
    case ChannelsOpened(_) => BringsAccepted(e, ChannelsReady)
    case ChannelsClosing(_) => Brings(e, Command.Release) || BringsAccepted(e, RemoveChannels)
    case HandoverAccepted(data) => BringsAccepted(e, RequestControl) && e.message.handover == data
    case HandoverDone => BringsAccepted(e, ControlReady)
    case ReleaseAsked(id) => Brings(e, ReleaseControl) && e.message.ids != [] && e.message.ids[0] == id
    case ControlGone => Brings(e, ControlReleased)
    case ProcedureRejected(procedure, text) =>
      && (procedure == AddChannels || procedure == RemoveChannels || procedure == RequestControl)
      && BringsRefused(e, procedure) && e.message.text == text
    case _ => false
  }

  /** Channels are reported by the ids that the server was given. */
  predicate NamedAlike(v: Talk, n: FacadeEvent) {
    match n
    case ChannelsOpened(refs) => RefIds(refs) == v.ready
    case ChannelsClosing(refs) => From(v, Command.Release) || RefIds(refs) == v.removal
    case _ => true
  }

  predicate DeviceMaySend(e: Event, m: ClientMessage) {
    match e
    case User(u) =>
      (u.Attach? && m.key.Some? && m == Plain(Setup).(key := m.key)) || (u.UserRelease? && m == Plain(Command.Release))
    case Received(r) =>
      if IsHeartbeat(r) then AnswersBeat(r, m)
      else if r.command == AttachChannels then m == Ack(AttachChannels).(ids := AcceptedIds(r.channels))
      else if r.command == ReleaseChannels then m == Ack(ReleaseChannels).(ids := r.ids)
      else r.command == OperationEnded && m == Ack(OperationEnded)
    case _ => false
  }

  predicate DeviceMayTell(e: Event, n: FacadeEvent) {
    match n
    case Failure => e == User(Attach)
    case Error(text) => BringsRefused(e, Setup) && e.message.text == text
    case Released => BringsRefused(e, Setup) || BringsAccepted(e, Command.Release)
    case Attached => BringsAccepted(e, Setup)
    case ChannelsOpened(refs) => Brings(e, AttachChannels) && RefIds(refs) == AcceptedIds(e.message.channels)
    case ChannelsClosing(refs) =>
      Brings(e, OperationEnded) || (Brings(e, ReleaseChannels) && RefIds(refs) == e.message.ids)
    case OperationEnd => Brings(e, OperationEnded)
    case _ => false
  }

  /**
   What is sent must be owed, and comes after the word to the listener, but for the first message of a session
   that the server accepted; what is told must be due, but for the ends of an operation and of a session. The
   end of an operation is told before its message goes out; a session's start and its end are told after.
   */
  predicate May(role: Role, v: Talk, a: Action) {
    match a
    case In(_) => !v.owed && !v.due
    case Sent(m) =>
      && v.cause.Some? && v.owed && (!v.due || From(v, Setup))
      && if role.PilotRole? then PilotMaySend(v.cause.value, m) else DeviceMaySend(v.cause.value, m)
    case Told(n) =>
      && v.cause.Some? && (v.due || n.Released? || n.OperationEnd? || (n.Failure? && v.owed))
      && (n.OperationEnd? ==> v.owed) && (n.Released? || n.OperationStarted? ==> !v.owed)
      && if role.PilotRole? then PilotMayTell(v.cause.value, n) && NamedAlike(v, n) else DeviceMayTell(v.cause.value, n)
    case _ => true
  }

  // ---------------------------------------------------------------- the stages

  /** Where a message from the server takes the pilot at once. */
  function PilotHears(g: Stage, m: ControlMessage): Stage {
    match g
    case Confirming => if m.command == ChannelsReady && m.response == Accepted then Idle else g
    case Adding => if m.command == AddChannels then Idle else g
    case Removing => if m.command == RemoveChannels then Idle else g
    case Asking =>
      if || (m.command == RequestControl && m.response != Accepted)
         || (m.command == ControlReady && m.response == Accepted)
      then Idle else g
    case Yielding => if m.command == ControlReleased then Idle else g
    case _ => g
  }

  function PilotStage(g: Stage, a: Action): Stage {
    match a
    case In(e) =>
      (match e
       case Received(m) => PilotHears(g, m)
       case User(u) => if g == Yielding && u.ReleaseRejected? then Idle else g
       case ConnectionLost => if g == Idle then Lost else g
       case _ => g)
    case Sent(m) =>
      if m.command == Setup then Greeting
      else if m.command == ChannelsReady then Confirming
      else if m.command == AddChannels then Adding
      else if m.command == RemoveChannels && m.response == None then Removing
      else if m.command == RequestControl then Asking
      else g
    case Told(n) => if n.ReleaseAsked? then Yielding else if n.Released? then Away else g
    case _ => g
  }

  function DeviceStage(g: Stage, a: Action): Stage {
    match a
    case Sent(m) =>
      if m.command == Setup then Greeting else if m.command == Command.Release && m.response == None then Leaving else g
    case Told(n) =>
      if n.Attached? || n.OperationEnd? then Grounded
      else if n.ChannelsOpened? then Aloft
      else if n.Released? then Away
      else g
    case _ => g
  }

  // ---------------------------------------------------------------- what an event calls for

  /**
   The pilot's server must get a message on account of `e`; or the listener must hear that no session
   could be opened.
   */
  predicate PilotOwes(g: Stage, e: Event) {
    match e
    case User(u) =>
      (match g
       case Away => u.Operate?
       case Idle => u.OpenChannels? || u.CloseChannels? || u.UserRelease? || u.UserRequestControl?
       case Asking => u.UserControlReady?
       case Yielding => u.ReleaseAccepted? || u.ReleaseRejected?
       case _ => false)
    case Received(m) =>
      || (IsHeartbeat(m) && g != Away && g != Lost)
      || (match g
          case Greeting => m.command == Setup && m.response == Accepted
          case Adding => m.command == AddChannels && m.response == Accepted
          case Removing => (m.command == RemoveChannels && m.response == Accepted) || m.command == Command.Release
          case Yielding => m.command == ControlReleased
          case Idle => m.command == Command.Release
          case _ => false)
    case _ => false
  }

  /** The pilot's listener must hear of `e`. */
  predicate PilotDue(g: Stage, e: Event) {
    e.Received? && PilotDueFor(g, e.message)
  }

  predicate PilotDueFor(g: Stage, m: ControlMessage) {
    match g
    case Greeting => m.command == Setup
    case Confirming => m.command == ChannelsReady
    case Adding => m.command == AddChannels && m.response != Accepted
    case Removing => m.command == RemoveChannels || m.command == Command.Release
    case Asking => m.command == RequestControl || (m.command == ControlReady && m.response == Accepted)
    case Yielding => m.command == ControlReleased
    case Idle => m.command == OperationUpdated || m.command == ReleaseControl || m.command == Command.Release
    case _ => false
  }

  predicate AboutChannels(g: Stage, m: ControlMessage) {
    || (m.command == AttachChannels && (g == Grounded || g == Aloft))
    || ((m.command == ReleaseChannels || m.command == OperationEnded) && g == Aloft)
  }

  predicate DeviceOwes(g: Stage, e: Event) {
    match e
    case User(u) => (g == Away && u.Attach?) || (g == Grounded && u.UserRelease?)
    case Received(m) => (IsHeartbeat(m) && g != Away) || AboutChannels(g, m)
    case _ => false
  }

  predicate DeviceDue(g: Stage, e: Event) {
    match e
    case Received(m) =>
      || AboutChannels(g, m)
      || (g == Greeting && m.command == Setup)
      || (g == Leaving && m.command == Command.Release && m.response == Accepted)
    case _ => false
  }

  function NextStage(role: Role, g: Stage, a: Action): Stage {
    if role.PilotRole? then PilotStage(g, a) else DeviceStage(g, a)
  }

  predicate Owes(role: Role, g: Stage, e: Event) {
    if role.PilotRole? then PilotOwes(g, e) else DeviceOwes(g, e)
  }

  predicate DueFor(role: Role, g: Stage, e: Event) {
    if role.PilotRole? then PilotDue(g, e) else DeviceDue(g, e)
  }

  function NextTalk(role: Role, v: Talk, a: Action): Talk {
    var u := v.(honest := v.honest && May(role, v, a), stage := NextStage(role, v.stage, a));
    match a
    case In(e) => u.(cause := Some(e), owed := Owes(role, v.stage, e), due := DueFor(role, v.stage, e))
    case Sent(m) =>
      var said := u.(owed := false);
      if m.command == ChannelsReady then said.(ready := m.ids)
      else if m.command == RemoveChannels && m.response == None then said.(removal := m.ids)
      else said
    case Told(n) => u.(due := false, owed := v.owed && !n.Failure?)
    case _ => u
  }

  function Talked(role: Role, t: seq<Action>): Talk {
    if t == [] then Talk(None, Away, false, false, [], [], true) else NextTalk(role, Talked(role, Front(t)), Last(t))
  }

  lemma Talking(role: Role)
    ensures forall w: World, a: Action {:trigger Note(w, a)} ::
              Talked(role, Note(w, a).trace) == NextTalk(role, Talked(role, w.trace), a)
  {
    forall w: World, a: Action {:trigger Note(w, a)}
      ensures Talked(role, Note(w, a).trace) == NextTalk(role, Talked(role, w.trace), a)
    {
      assert Front(w.trace + [a]) == w.trace;
    }
  }

  /** What honesty means, position by position. */
  lemma {:induction false} HonestThroughout(role: Role, t: seq<Action>, i: nat)
    requires Talked(role, t).honest && i < |t|
    ensures May(role, Talked(role, t[..i]), t[i])
  {
    if i < |t| - 1 {
      HonestThroughout(role, Front(t), i);
      assert Front(t)[..i] == t[..i];
    }
  }

  // ---------------------------------------------------------------- the table's loops say nothing

  lemma {:induction false} ValidateSilent(role: Role, w: World, s: seq<ChannelResponse>)
    ensures Talked(role, Validate(w, s).world.trace) == Talked(role, w.trace)
  {
    if s != [] {
      ValidateSilent(role, w, Front(s));
      ValidateOneSilent(role, Validate(w, Front(s)), Last(s));
    }
  }

  /** Nothing comes in, is sent or is told. */
  predicate Mute(a: Action) {
    !a.In? && !a.Sent? && !a.Told?
  }

  lemma MuteNote(role: Role, w: World, a: Action)
    requires Mute(a)
    ensures Talked(role, Note(w, a).trace) == Talked(role, w.trace)
  {
    assert Front(w.trace + [a]) == w.trace;
  }

  lemma ValidateOneSilent(role: Role, v: Validation, c: ChannelResponse)
    ensures Talked(role, ValidateOne(v, c).world.trace) == Talked(role, v.world.trace)
  {
    hide Talked;
    var w := v.world;
    var e := Emplace(w, c.id);
    MuteNote(role, w.(channels := w.channels[c.id := Entry(w.made, false)], made := w.made + 1),
      Made(Ref(c.id, w.made)));
    MuteNote(role, e.(channels := e.channels - {c.id}), Dropped(RefOf(e, c.id)));
  }

  lemma CloseOneSilent(role: Role, w: World, id: int)
    ensures Talked(role, CloseOne(w, id).trace) == Talked(role, w.trace)
  {
    hide Talked;
    if id in w.channels { MuteNote(role, w.(channels := w.channels - {id}), Closed(RefOf(w, id))); }
  }

  lemma {:induction false} CloseSilent(role: Role, w: World, ids: seq<int>)
    ensures Talked(role, Close(w, ids).trace) == Talked(role, w.trace)
  {
    if ids != [] {
      CloseSilent(role, w, Front(ids));
      CloseOneSilent(role, Close(w, Front(ids)), Last(ids));
    }
  }
}
