/**
 The whole client on one io_service: the event machine, the facade pump with its poll task, and the
 protocol machine of a pilot or a device, whose handlers drive the pump. One thread runs the
 io_service and takes its tasks first in, first out; any thread may notify the client of an event.
 */
module ClientSystem {
  import opened Messages
  import opened Channels
  import opened ChannelTheory
  import opened FacadePump
  import opened PumpTheory
  import opened Tallies
  import M = EventMachine
  import Pilot
  import Device

  datatype Peer = PilotPeer(pilot: Pilot.Client) | DevicePeer(device: Device.Client)

  function WorldOf(p: Peer): World {
    match p
    case PilotPeer(c) => c.world
    case DevicePeer(c) => c.world
  }

  ghost function Advance(p: Peer, i: Input): Peer {
    match p
    case PilotPeer(c) => PilotPeer(Pilot.Step(c, i))
    case DevicePeer(c) => DevicePeer(Device.Step(c, i))
  }

  /** What an event task carries: an event somebody gave, or the buffer of a message read from the stream. */
  datatype Ticket = Given(event: Event) | Delivered(buffer: nat)

  datatype Task = Poll | Handle(ticket: Ticket)

  // ---------------------------------------------------------------- what a handler does to the pump

  /** What the completion queue answers while a handler opens or closes the stream. */
  datatype Answers = Answers(opening: Option<Completion>, drain: seq<Completion>)

  function CanOpen(p: Pump, a: Answers): bool {
    a.opening.Some? ==> Due(Requested(p), a.opening.value)
  }

  /** None: the answers do not fit. */
  function DriveOne(p: Pump, a: Action, answers: Answers): Option<Pump> {
    match a
    case Sent(m) => Some(SendMessage(p, m))
    case StreamOpened =>
      if Opens(answers.opening) && CanOpen(p, answers) then Some(FacadePump.Open(p, answers.opening)) else None
    case StreamOpenFailed =>
      if !Opens(answers.opening) && CanOpen(p, answers) then Some(FacadePump.Open(p, answers.opening)) else None
    case StreamClosed =>
      if Drains(p, answers.drain) then Some(FacadePump.Close(p, answers.drain)) else None
    case _ => Some(p)
  }

  function Drive(p: Pump, actions: seq<Action>, answers: Answers): Option<Pump> {
    if actions == [] then Some(p)
    else
      var before := Drive(p, Front(actions), answers);
      if before.None? then None else DriveOne(before.value, Last(actions), answers)
  }

  // ---------------------------------------------------------------- the steps

  datatype System = System(machine: M.Machine<Ticket>, io: seq<Task>, pump: Pump, peer: Peer)

  function Start(peer: Peer): System {
    System(M.Idle(), [], COLD, peer)
  }

  /** `notifyEvent`, posting to the io_service when the machine was idle. */
  function Notified(s: System, t: Ticket): System {
    s.(machine := M.Notify(s.machine, t),
       io := if s.machine.processing then s.io else s.io + [Handle(t)])
  }

  /** The next task is at the head, and no handler is running on the one thread. */
  predicate CanRun(s: System) {
    s.io != [] && s.machine.running == []
  }

  function RunPoll(s: System, c: Option<Completion>): System {
    if !CanRun(s) || !s.io[0].Poll? || (c.Some? && !Due(s.pump, c.value)) then s
    else
      var p := Polled(s.pump, c);
      var polled := s.(io := s.io[1..], pump := p);
      var told :=
        if c.Some? && c.value.ReadDone? && c.value.ok then Notified(polled, Delivered(s.pump.toRead)) else polled;
      if p.keepReader then told.(io := told.io + [Poll]) else told
  }

  predicate Readable(p: Pump, t: Ticket) {
    t.Delivered? ==> t.buffer in p.memory
  }

  function FilledEvent(p: Pump, t: Ticket): Event
    requires Readable(p, t)
  {
    match t
    case Given(e) => e
    case Delivered(b) => Received(p.memory[b])
  }

  /** What the handler finds in the event: in a buffer that gRPC has not filled, whatever `blank` says. */
  function EventOf(p: Pump, t: Ticket, blank: ControlMessage): Event {
    if Readable(p, t) then FilledEvent(p, t) else Received(blank)
  }

  /** The outside world's part in one event task. */
  datatype Circumstances = Circumstances(
    core: Option<string>, order: seq<int>, location: Location, answers: Answers, blank: ControlMessage)

  function EnvOf(x: Circumstances): Env {
    Env(x.core, Opens(x.answers.opening), Closes(x.answers.drain), x.order, x.location)
  }

  /** What the peer did beyond its earlier trace. */
  function NewActions(before: Peer, after: Peer): seq<Action> {
    var n := |WorldOf(before).trace|;
    if n <= |WorldOf(after).trace| then WorldOf(after).trace[n..] else []
  }

  /** A poll task for each opening of the stream. */
  function PollsFor(openings: int): seq<Task> {
    if openings <= 0 then [] else seq(openings, _ => Poll)
  }

  /** The event at the head, as its handler sees it. */
  function EventAtHead(s: System, x: Circumstances): Event
    requires s.io != [] && s.io[0].Handle?
  {
    EventOf(s.pump, s.io[0].ticket, x.blank)
  }

  ghost function RunEvent(s: System, x: Circumstances): System {
    if !CanRun(s) || s.io[0].Poll? || s.machine.posted == [] then s
    else
      var peer := Advance(s.peer, Input(EventAtHead(s, x), EnvOf(x)));
      var pump := Drive(s.pump, NewActions(s.peer, peer), x.answers);
      if pump.None? then s
      else
        var begun := M.Begin(s.machine);
        System(
          if WorldOf(peer).status == Running then begun else M.Abort(begun, |begun.running| - 1),
          s.io[1..] + PollsFor(Count(WorldOf(peer).trace).openings - Count(WorldOf(s.peer).trace).openings),
          pump.value,
          peer)
  }

  /** The handler that is running returns, and `proceed` posts the next event. */
  function Return(s: System): System {
    if s.machine.running == [] then s
    else
      s.(machine := M.Proceed(s.machine, 0),
         io := if s.machine.queue == [] then s.io else s.io + [Handle(s.machine.queue[0])])
  }

  datatype Move =
    | Notifying(event: Event)
    | Polling(completion: Option<Completion>)
    | Handling(x: Circumstances)
    | Returning

  /** Only the poll task makes Received events. */
  ghost function Apply(s: System, m: Move): System {
    match m
    case Notifying(e) => if e.Received? then s else Notified(s, Given(e))
    case Polling(c) => RunPoll(s, c)
    case Handling(x) => RunEvent(s, x)
    case Returning => Return(s)
  }

  ghost function Run(s: System, moves: seq<Move>): System {
    if moves == [] then s else Apply(Run(s, Front(moves)), Last(moves))
  }
}
