/** What the whole client keeps on every run, across any number of sessions. */
module SystemTheory {
  import opened Messages
  import opened Channels
  import opened ChannelTheory
  import opened Observers
  import opened FacadePump
  import opened PumpTheory
  import opened PumpDelivery
  import opened Tallies
  import opened ClientSystem
  import M = EventMachine
  import P = Pilot
  import D = Device
  import PilotRuns
  import DeviceRuns
  import PilotEffects
  import DeviceEffects
  import TraceMeaning

  // ---------------------------------------------------------------- the peer

  ghost predicate PeerHolds(p: Peer) {
    match p
    case PilotPeer(c) => PilotRuns.Holds(c)
    case DevicePeer(c) => DeviceRuns.Holds(c)
  }

  predicate Away(p: Peer) {
    match p
    case PilotPeer(c) => c.state.Disconnected?
    case DevicePeer(c) => c.state.Disconnected?
  }

  /** What the pump needs to know of a handler. */
  lemma PeerAdvances(p: Peer, i: Input)
    requires PeerHolds(p) && WorldOf(p).status == Running
    ensures var q := Advance(p, i); var before := Count(WorldOf(p).trace); var after := Count(WorldOf(q).trace);
      && PeerHolds(q)
      && WorldOf(p).trace <= WorldOf(q).trace
      && after.handled == before.handled + [i.event]
      && before.openings <= after.openings <= before.openings + (if Away(p) then 1 else 0)
      && (after.openings > before.openings ==> i.env.opens)
      && before.refusals <= after.refusals <= before.refusals + (if Away(p) && !i.env.opens then 1 else 0)
      && before.closings <= after.closings <= before.closings + (if Away(p) then 0 else 1)
      && (after.closings > before.closings ==> (WorldOf(q).status == Running <==> i.env.closes))
  {
    hide Observe;
    hide Count;
    match p
    case PilotPeer(c) =>
      PilotRuns.StepKeeps(c, i);
      PilotEffects.StepEffects(c, i);
    case DevicePeer(c) =>
      DeviceRuns.StepKeeps(c, i);
      DeviceEffects.StepEffects(c, i);
  }

  predicate IsOpen(s: Stream) {
    s == Fresh || s == Live
  }

  lemma PeerStream(p: Peer)
    requires PeerHolds(p)
    ensures Observe(WorldOf(p).trace).stream != Broken
    ensures WorldOf(p).status == Running ==> (Away(p) <==> !IsOpen(Observe(WorldOf(p).trace).stream))
  {
    hide Observe;
  }

  // ---------------------------------------------------------------- the pump

  /**
   The poll task is wanted exactly while the stream is open; buffers and the record of READs are in order;
   and a session that was opened at rest flows.
   */
  ghost predicate PumpFits(p: Pump, stream: Stream) {
    (p.keepReader <==> IsOpen(stream)) && PumpHolds(p)
  }

  ghost predicate PumpHolds(p: Pump) {
    Buffers(p) && Logged(p) && (p.keepReader && p.rested ==> Flows(p))
  }

  lemma SendFits(p: Pump, m: ClientMessage, stream: Stream)
    requires PumpFits(p, stream)
    ensures PumpFits(SendMessage(p, m), stream) && Preserves(p, SendMessage(p, m))
  {
    hide Flows;
    if Flows(p) { SendKeepsFlow(p, m); }
  }

  lemma OpenFits(p: Pump, answer: Option<Completion>)
    requires PumpHolds(p) && !p.keepReader && (answer.Some? ==> Due(Requested(p), answer.value))
    ensures var q := FacadePump.Open(p, answer);
      PumpHolds(q) && (q.keepReader <==> Opens(answer)) && Preserves(p, q)
  {
    hide Flows;
    OpenKeepsBuffers(p, answer);
    OpenKeepsLog(p, answer);
    OpenDelivers(p, answer);
    if Opens(answer) { OpenFlowsExactly(p, answer); }
  }

  lemma CloseFits(p: Pump, cs: seq<Completion>)
    requires PumpHolds(p) && Drains(p, cs)
    ensures var q := FacadePump.Close(p, cs); PumpHolds(q) && !q.keepReader && Preserves(p, q)
  {
    hide Flows;
    DrainEnds(p, cs);
    assert Buffers(Finishing(p)) && Logged(Finishing(p));
    TakeAllKeepsBuffers(Finishing(p), cs);
    TakeAllKeepsLog(Finishing(p), cs);
    TakeAllDelivers(Finishing(p), cs);
  }

  lemma DriveOneFits(p: Pump, a: Action, answers: Answers, stream: Stream)
    requires PumpFits(p, stream) && NextStream(stream, a) != Broken && stream != Broken
    requires DriveOne(p, a, answers).Some?
    ensures var q := DriveOne(p, a, answers).value; PumpFits(q, NextStream(stream, a)) && Preserves(p, q)
  {
    hide PumpHolds;
    match a
    case Sent(m) => SendFits(p, m, stream);
    case StreamOpened => OpenFits(p, answers.opening);
    case StreamOpenFailed => OpenFits(p, answers.opening);
    case StreamClosed => CloseFits(p, answers.drain);
    case _ =>
  }

  /** The trace and the stream, one action further. */
  lemma OneMoreAction(t: seq<Action>, actions: seq<Action>)
    requires actions != [] && Observe(t + actions).stream != Broken
    ensures Observe(t + Front(actions)).stream != Broken
    ensures Observe(t + actions).stream == NextStream(Observe(t + Front(actions)).stream, Last(actions))
  {
    var n := |t| + |actions| - 1;
    assert (t + actions)[..n] == t + Front(actions) && (t + actions)[n] == Last(actions);
    assert (t + actions)[..n + 1] == t + actions;
    TraceMeaning.VerdictsLast(t + actions, n);
    TraceMeaning.ObservePrefix(t + actions, n);
  }

  lemma PreservesOnward(p: Pump, q: Pump, r: Pump)
    requires Preserves(p, q) && Preserves(q, r)
    ensures Preserves(p, r)
  {
  }

  /** A handler's actions, one by one. */
  lemma {:induction false} DriveFits(t: seq<Action>, p: Pump, actions: seq<Action>, answers: Answers)
    requires PumpFits(p, Observe(t).stream) && Observe(t + actions).stream != Broken
    requires Drive(p, actions, answers).Some?
    ensures var q := Drive(p, actions, answers).value; PumpFits(q, Observe(t + actions).stream) && Preserves(p, q)
  {
    if actions == [] {
      assert t + actions == t;
    } else {
      OneMoreAction(t, actions);
      DriveFits(t, p, Front(actions), answers);
      var before := Drive(p, Front(actions), answers).value;
      hide Observe;
      hide PumpFits;
      hide Preserves;
      DriveOneFits(before, Last(actions), answers, Observe(t + Front(actions)).stream);
      PreservesOnward(p, before, Drive(p, actions, answers).value);
    }
  }

  /** A session that was not opened at rest does not flow when the handler that opened it returns. */
  lemma {:induction false} DriveCrowds(t: seq<Action>, p: Pump, actions: seq<Action>, answers: Answers)
    requires PumpFits(p, Observe(t).stream) && !IsOpen(Observe(t).stream) && Observe(t + actions).stream != Broken
    requires Drive(p, actions, answers).Some?
    ensures var q := Drive(p, actions, answers).value; IsOpen(Observe(t + actions).stream) && !q.rested ==> Crowded(q)
  {
    if actions == [] {
      assert t + actions == t;
    } else {
      OneMoreAction(t, actions);
      DriveCrowds(t, p, Front(actions), answers);
      var before := Drive(p, Front(actions), answers).value;
      hide Observe;
      hide Crowded;
      match Last(actions)
      case Sent(m) => if Crowded(before) { SendKeepsCrowd(before, m); }
      case StreamOpened => if !AtRest(before) { OpenCrowds(before, answers.opening); }
      case _ =>
    }
  }

  lemma {:induction false} TakeAllKeepsSession(p: Pump, cs: seq<Completion>)
    requires DueInTurn(p, cs)
    ensures TakeAll(p, cs).rested == p.rested
    decreases |cs|
  {
    if cs != [] {
      TakeAllKeepsSession(Take(p, cs[0]), cs[1..]);
    }
  }

  /** Only an opening begins a session. */
  lemma {:induction false} DriveKeepsSession(p: Pump, actions: seq<Action>, answers: Answers)
    requires Drive(p, actions, answers).Some? && StreamOpened !in actions
    ensures Drive(p, actions, answers).value.rested == p.rested
  {
    if actions != [] {
      var before := Drive(p, Front(actions), answers).value;
      assert Last(actions) in actions && forall a :: a in Front(actions) ==> a in actions;
      DriveKeepsSession(p, Front(actions), answers);
      if Last(actions).StreamClosed? { TakeAllKeepsSession(Finishing(before), answers.drain); }
    }
  }

  /** Polling while the stream is open, and the last poll of a stream that is closed. */
  lemma PollFits(p: Pump, c: Completion)
    requires PumpHolds(p) && Due(p, c)
    ensures var q := Polled(p, Some(c)); PumpHolds(q) && q.keepReader == p.keepReader && q.rested == p.rested
    ensures Polled(p, Some(c)).handed == p.handed + if c.ReadDone? && c.ok then [p.toRead] else []
  {
    hide Flows;
    PollKeepsBuffers(p, c);
    PollKeepsLog(p, c);
    if Flows(p) { PollKeepsFlow(p, c); }
    assert p.handed + [] == p.handed;
  }

  // ---------------------------------------------------------------- tasks

  /**
   At most one event task and at most one poll task wait; an open stream has its poll task; and the
   poll task a closed stream left behind runs before any event task.
   */
  predicate TaskShape(io: seq<Task>, posted: seq<Ticket>, keepReader: bool) {
    && (keepReader ==> Poll in io)
    && if posted == [] then io == [] || io == [Poll]
       else |posted| == 1 && (io == [Handle(posted[0])] || io == [Poll, Handle(posted[0])]
                              || (io == [Handle(posted[0]), Poll] && keepReader))
  }

  // ---------------------------------------------------------------- delivery

  function DeliveredIn(ts: seq<Ticket>): seq<nat> {
    if ts == [] then []
    else DeliveredIn(Front(ts)) + if Last(ts).Delivered? then [Last(ts).buffer] else []
  }

  lemma {:induction false} DeliveredInSum(a: seq<Ticket>, b: seq<Ticket>)
    ensures DeliveredIn(a + b) == DeliveredIn(a) + DeliveredIn(b)
  {
    if b == [] {
      assert a + b == a;
    } else {
      assert Front(a + b) == a + Front(b) && Last(a + b) == Last(b);
      DeliveredInSum(a, Front(b));
    }
  }

  predicate AllReadable(p: Pump, ts: seq<Ticket>) {
    forall i :: 0 <= i < |ts| ==> Readable(p, ts[i])
  }

  function Events(p: Pump, ts: seq<Ticket>): (es: seq<Event>)
    requires AllReadable(p, ts)
    ensures |es| == |ts|
    ensures forall i :: 0 <= i < |ts| ==> es[i] == FilledEvent(p, ts[i])
  {
    seq(|ts|, i requires 0 <= i < |ts| => FilledEvent(p, ts[i]))
  }

  predicate AllFilled(p: Pump, bs: seq<nat>) {
    forall i :: 0 <= i < |bs| ==> bs[i] in p.memory
  }

  function Contents(p: Pump, bs: seq<nat>): (ms: seq<ControlMessage>)
    requires AllFilled(p, bs)
    ensures |ms| == |bs|
    ensures forall i :: 0 <= i < |bs| ==> ms[i] == p.memory[bs[i]]
  {
    seq(|bs|, i requires 0 <= i < |bs| => p.memory[bs[i]])
  }

  function MessagesIn(es: seq<Event>): seq<ControlMessage> {
    if es == [] then []
    else MessagesIn(Front(es)) + if Last(es).Received? then [Last(es).message] else []
  }

  predicate NoForgery(ts: seq<Ticket>) {
    forall i :: 0 <= i < |ts| ==> ts[i].Given? ==> !ts[i].event.Received?
  }

  /** The messages among some events are the contents of the buffers their tickets carry. */
  lemma {:induction false} MessagesAreContents(p: Pump, ts: seq<Ticket>)
    requires AllReadable(p, ts) && NoForgery(ts)
    ensures AllFilled(p, DeliveredIn(ts)) && MessagesIn(Events(p, ts)) == Contents(p, DeliveredIn(ts))
  {
    if ts != [] {
      MessagesAreContents(p, Front(ts));
      assert Front(Events(p, ts)) == Events(p, Front(ts));
      assert DeliveredIn(ts) == DeliveredIn(Front(ts)) + if Last(ts).Delivered? then [Last(ts).buffer] else [];
    }
  }

  lemma {:induction false} DeliveredAreListed(ts: seq<Ticket>, i: nat)
    requires i < |ts| && ts[i].Delivered?
    ensures ts[i].buffer in DeliveredIn(ts)
  {
    if i < |ts| - 1 { DeliveredAreListed(Front(ts), i); }
  }

  /** The tickets accepted carry exactly the buffers handed out, in order. */
  predicate TicketsFit(accepted: seq<Ticket>, p: Pump) {
    NoForgery(accepted) && DeliveredIn(accepted) == p.handed
  }

  /** What holds on every run. */
  ghost predicate Inv(s: System) {
    && M.Orderly(s.machine)
    && TaskShape(s.io, s.machine.posted, s.pump.keepReader)
    && PeerHolds(s.peer)
    && (s.machine.stalled <==> WorldOf(s.peer).status != Running)
    && PumpFits(s.pump, Observe(WorldOf(s.peer).trace).stream)
    && TicketsFit(s.machine.accepted, s.pump)
  }

  /** What the peer was given to handle is what the tickets already begun stand for. */
  ghost predicate InStep(m: M.Machine<Ticket>, p: Pump, handled: seq<Event>) {
    && AllReadable(p, m.handled + m.running)
    && handled == Events(p, m.handled + m.running)
  }

  /** Every event handed out so far has the message that was read for it. */
  ghost predicate Straight(s: System) {
    Delivers(s.pump) && InStep(s.machine, s.pump, Count(WorldOf(s.peer).trace).handled)
  }

  // ---------------------------------------------------------------- the steps

  lemma NotifiedKeepsShape(s: System, t: Ticket)
    requires M.Orderly(s.machine) && TaskShape(s.io, s.machine.posted, s.pump.keepReader)
    ensures var n := Notified(s, t);
      M.Orderly(n.machine) && TaskShape(n.io, n.machine.posted, n.pump.keepReader)
  {
    M.NotifyKeepsOrder(s.machine, t);
    if !s.machine.processing {
      assert s.machine.posted == [];
      assert [] + [t] == [t];
    }
  }

  lemma NotifyingKeeps(s: System, e: Event)
    requires Inv(s) && !e.Received?
    ensures Inv(Notified(s, Given(e))) && (Straight(s) ==> Straight(Notified(s, Given(e))))
  {
    hide Observe;
    hide Count;
    hide TaskShape;
    hide PeerHolds;
    hide PumpFits;
    hide Events;
    hide Delivers;
    NotifiedKeepsShape(s, Given(e));
    DeliveredInSum(s.machine.accepted, [Given(e)]);
    assert DeliveredIn([Given(e)]) == [];
  }

  /** The poll task at the head is gone, and back at the tail if it is still wanted. */
  lemma ShapeAfterPoll(io: seq<Task>, posted: seq<Ticket>, keepReader: bool, more: seq<Ticket>)
    requires TaskShape(io, posted, keepReader) && io != [] && io[0].Poll?
    requires more == [] || (|more| == 1 && posted == [])
    ensures var handles := if more == [] then [] else [Handle(more[0])];
      TaskShape(io[1..] + handles + if keepReader then [Poll] else [], posted + more, keepReader)
  {
    if posted == [] {
      assert io[1..] == [];
      if more != [] { assert posted + more == [more[0]]; }
    } else {
      assert io == [Poll, Handle(posted[0])] && io[1..] == [Handle(posted[0])];
      assert posted + more == posted;
    }
  }

  /** A poll that can be run: it takes this completion, or none. */
  predicate PollRuns(s: System, c: Option<Completion>) {
    CanRun(s) && s.io[0].Poll? && (c.Some? ==> Due(s.pump, c.value))
  }

  predicate ReadsWell(c: Option<Completion>) {
    c.Some? && c.value.ReadDone? && c.value.ok
  }

  lemma PollKeepsShape(s: System, c: Option<Completion>)
    requires M.Orderly(s.machine) && TaskShape(s.io, s.machine.posted, s.pump.keepReader) && PollRuns(s, c)
    ensures var n := RunPoll(s, c);
      && M.Orderly(n.machine) && TaskShape(n.io, n.machine.posted, n.pump.keepReader)
      && n.machine.stalled == s.machine.stalled
      && n.pump == Polled(s.pump, c) && n.peer == s.peer
      && n.pump.keepReader == s.pump.keepReader
      && n.machine == if ReadsWell(c) then M.Notify(s.machine, Delivered(s.pump.toRead)) else s.machine
  {
    hide TaskShape;
    hide Polled;
    var t := Delivered(s.pump.toRead);
    var keep := s.pump.keepReader;
    PollingGoesOn(s.pump, c);
    var more := if ReadsWell(c) && !s.machine.processing then [t] else [];
    M.NotifyKeepsOrder(s.machine, t);
    ShapeAfterPoll(s.io, s.machine.posted, keep, more);
    var rest := s.io[1..];
    var again: seq<Task> := if keep then [Poll] else [];
    assert rest + [] == rest && s.machine.posted + [] == s.machine.posted &&
      rest + [Handle(t)] + [] == rest + [Handle(t)];
  }

  lemma PollingGoesOn(p: Pump, c: Option<Completion>)
    requires c.Some? ==> Due(p, c.value)
    ensures Polled(p, c).keepReader == p.keepReader
    ensures c.None? ==> Polled(p, c) == p
  {
  }

  lemma PollKeepsTickets(m: M.Machine<Ticket>, p: Pump, c: Completion)
    requires TicketsFit(m.accepted, p) && PumpHolds(p) && Due(p, c)
    ensures TicketsFit((if ReadsWell(Some(c)) then M.Notify(m, Delivered(p.toRead)) else m).accepted,
            Polled(p, Some(c)))
  {
    hide Polled;
    hide PumpHolds;
    PollFits(p, c);
    DeliveredInSum(m.accepted, [Delivered(p.toRead)]);
    assert DeliveredIn([Delivered(p.toRead)]) == [p.toRead];
    assert p.handed + [] == p.handed;
  }

  lemma PollingKeeps(s: System, c: Option<Completion>)
    requires Inv(s)
    ensures Inv(RunPoll(s, c))
  {
    hide Observe;
    hide Count;
    hide TaskShape;
    hide Polled;
    hide PumpHolds;
    hide TicketsFit;
    hide M.Orderly;
    hide M.Notify;
    hide PeerHolds;
    if PollRuns(s, c) {
      PollKeepsShape(s, c);
      hide RunPoll;
      if c.Some? {
        PollFits(s.pump, c.value);
        PollKeepsTickets(s.machine, s.pump, c.value);
      } else {
        PollingGoesOn(s.pump, c);
      }
    }
  }

  lemma ReturnKeepsShape(s: System)
    requires M.Orderly(s.machine) && TaskShape(s.io, s.machine.posted, s.pump.keepReader)
    requires s.machine.running != []
    ensures var n := Return(s);
      && M.Orderly(n.machine) && TaskShape(n.io, n.machine.posted, n.pump.keepReader)
      && n.machine.handled + n.machine.running == s.machine.handled + s.machine.running
      && n.machine.accepted == s.machine.accepted && n.machine.stalled == s.machine.stalled
  {
    M.EndKeepsOrder(s.machine, 0);
    M.OnlyOneRuns(s.machine, 0);
    if s.machine.queue != [] {
      var h := Handle(s.machine.queue[0]);
      assert [] + [h] == [h] && [Poll] + [h] == [Poll, h];
      assert [] + [s.machine.queue[0]] == [s.machine.queue[0]];
    }
  }

  lemma ReturningKeeps(s: System)
    requires Inv(s)
    ensures Inv(Return(s)) && (Straight(s) ==> Straight(Return(s)))
  {
    hide Observe;
    hide Count;
    hide M.Proceed;
    hide TaskShape;
    hide Delivers;
    if s.machine.running != [] { ReturnKeepsShape(s); }
  }

  // ---------------------------------------------------------------- an event task

  /** The handler and the pump, when the environment's answers fit. */
  lemma HandlerFits(s: System, e: Event, x: Circumstances)
    requires Inv(s) && WorldOf(s.peer).status == Running
    requires Drive(s.pump, NewActions(s.peer, Advance(s.peer, Input(e, EnvOf(x)))), x.answers).Some?
    ensures var peer := Advance(s.peer, Input(e, EnvOf(x)));
      var pump := Drive(s.pump, NewActions(s.peer, peer), x.answers).value;
      && PeerHolds(peer)
      && PumpFits(pump, Observe(WorldOf(peer).trace).stream)
      && Preserves(s.pump, pump)
      && Count(WorldOf(peer).trace).handled == Count(WorldOf(s.peer).trace).handled + [e]
  {
    hide Observe;
    hide Count;
    hide Drive;
    hide PumpHolds;
    hide Preserves;
    hide TaskShape;
    hide TicketsFit;
    hide M.Orderly;
    var i := Input(e, EnvOf(x));
    var peer := Advance(s.peer, i);
    PeerAdvances(s.peer, i);
    PeerStream(peer);
    assert WorldOf(s.peer).trace + NewActions(s.peer, peer) == WorldOf(peer).trace;
    DriveFits(WorldOf(s.peer).trace, s.pump, NewActions(s.peer, peer), x.answers);
  }

  /** Whether the poll task is wanted afterwards, and how many were posted. */
  lemma HandlerPosts(s: System, e: Event, x: Circumstances)
    requires Inv(s) && WorldOf(s.peer).status == Running
    requires Drive(s.pump, NewActions(s.peer, Advance(s.peer, Input(e, EnvOf(x)))), x.answers).Some?
    ensures var peer := Advance(s.peer, Input(e, EnvOf(x)));
      var pump := Drive(s.pump, NewActions(s.peer, peer), x.answers).value;
      var n := Count(WorldOf(peer).trace).openings - Count(WorldOf(s.peer).trace).openings;
      && 0 <= n <= 1 && (n == 1 ==> !s.pump.keepReader)
      && (n == 0 && pump.keepReader ==> s.pump.keepReader)
  {
    hide Observe;
    hide Count;
    hide Drive;
    hide PumpHolds;
    hide TaskShape;
    hide TicketsFit;
    hide M.Orderly;
    var i := Input(e, EnvOf(x));
    var actions := NewActions(s.peer, Advance(s.peer, i));
    PeerAdvances(s.peer, i);
    PeerStream(s.peer);
    if Drive(s.pump, actions, x.answers).value.keepReader { OpenedOnlyBy(s.pump, actions, x.answers); }
    assert WorldOf(s.peer).trace + actions == WorldOf(Advance(s.peer, i)).trace;
    CountOpenings(WorldOf(s.peer).trace, actions);
  }

  /** A handler goes on with the session that is open, or leaves one that flows only if it was opened at rest. */
  lemma HandlerSession(s: System, e: Event, x: Circumstances)
    requires Inv(s) && WorldOf(s.peer).status == Running
    requires Drive(s.pump, NewActions(s.peer, Advance(s.peer, Input(e, EnvOf(x)))), x.answers).Some?
    ensures var pump := Drive(s.pump, NewActions(s.peer, Advance(s.peer, Input(e, EnvOf(x)))), x.answers).value;
      && (s.pump.keepReader ==> pump.rested == s.pump.rested)
      && (!s.pump.keepReader && pump.keepReader && !pump.rested ==> Crowded(pump))
  {
    hide Observe;
    hide Count;
    hide Drive;
    hide Crowded;
    hide PumpHolds;
    hide TaskShape;
    hide TicketsFit;
    hide M.Orderly;
    hide Preserves;
    var i := Input(e, EnvOf(x));
    var t := WorldOf(s.peer).trace;
    var actions := NewActions(s.peer, Advance(s.peer, i));
    PeerAdvances(s.peer, i);
    PeerStream(Advance(s.peer, i));
    assert t + actions == WorldOf(Advance(s.peer, i)).trace;
    if s.pump.keepReader {
      HandlerPosts(s, e, x);
      CountOpenings(t, actions);
      DriveKeepsSession(s.pump, actions, x.answers);
    } else {
      DriveFits(t, s.pump, actions, x.answers);
      DriveCrowds(t, s.pump, actions, x.answers);
    }
  }

  /** Only an opening starts the polling. */
  lemma {:induction false} OpenedOnlyBy(p: Pump, actions: seq<Action>, answers: Answers)
    requires Drive(p, actions, answers).Some? && Drive(p, actions, answers).value.keepReader
    ensures p.keepReader || StreamOpened in actions
  {
    if actions != [] {
      var before := Drive(p, Front(actions), answers).value;
      assert Last(actions) in actions && forall a :: a in Front(actions) ==> a in actions;
      if Last(actions).StreamClosed? {
        DrainEnds(before, answers.drain);
      } else if before.keepReader {
        OpenedOnlyBy(p, Front(actions), answers);
      }
    }
  }

  lemma {:induction false} CountOpenings(t: seq<Action>, more: seq<Action>)
    ensures Count(t + more).openings >= Count(t).openings + if StreamOpened in more then 1 else 0
  {
    if more == [] {
      assert t + more == t;
    } else {
      CountOpenings(t, Front(more));
      assert Front(t + more) == t + Front(more) && Last(t + more) == Last(more);
      assert more == Front(more) + [Last(more)];
    }
  }

  /** A task was taken and perhaps aborted at once: the machine and its tasks. */
  lemma BegunKeepsShape(s: System, n: int, running: bool, keepReader: bool)
    requires M.Orderly(s.machine) && TaskShape(s.io, s.machine.posted, s.pump.keepReader)
    requires CanRun(s) && s.io[0].Handle? && s.machine.posted != []
    requires 0 <= n <= 1 && (n == 1 ==> !s.pump.keepReader)
    requires n == 0 && keepReader ==> s.pump.keepReader
    ensures var begun := M.Begin(s.machine);
      var m := if running then begun else M.Abort(begun, |begun.running| - 1);
      && M.Orderly(m) && m.posted == [] && m.accepted == s.machine.accepted
      && m.handled + m.running == s.machine.handled + s.machine.running + [s.io[0].ticket]
      && m.stalled == !running
      && TaskShape(s.io[1..] + PollsFor(n), [], keepReader)
  {
    var t := s.machine.posted[0];
    M.BeginKeepsOrder(s.machine);
    var begun := M.Begin(s.machine);
    assert s.machine.posted == [t] && begun.posted == [] && begun.running == [t] by { assert [] + [t] == [t]; }
    M.EndKeepsOrder(begun, 0);
    M.OnlyOneRuns(begun, 0);
    assert s.io == [Handle(t)] || s.io == [Handle(t), Poll];
    assert s.io[1..] == [] || s.io[1..] == [Poll];
    assert PollsFor(n) == if n == 1 then [Poll] else [];
    assert [] + [Poll] == [Poll] && [Poll] + [] == [Poll] && [] + [t] == [t] &&
      s.machine.handled + [] == s.machine.handled;
    assert begun.handled + [t] + [] == begun.handled + [t];
  }

  lemma HandlingKeeps(s: System, x: Circumstances)
    requires Inv(s)
    ensures Inv(RunEvent(s, x))
  {
    hide Observe;
    hide Count;
    hide Drive;
    hide TaskShape;
    hide PumpHolds;
    hide PollsFor;
    hide PeerHolds;
    hide Advance;
    hide NewActions;
    hide M.Orderly;
    hide EventOf;
    hide Crowded;
    var n := RunEvent(s, x);
    if n != s {
      NotStalled(s);
      PostedAtHead(s);
      var e := EventAtHead(s, x);
      HandlerFits(s, e, x);
      HandlerPosts(s, e, x);
      var openings := Count(WorldOf(n.peer).trace).openings - Count(WorldOf(s.peer).trace).openings;
      BegunKeepsShape(s, openings, WorldOf(n.peer).status == Running, n.pump.keepReader);
    }
  }

  lemma NotStalled(s: System)
    requires Inv(s) && s.machine.posted != []
    ensures WorldOf(s.peer).status == Running
  {
    hide Observe;
    hide Count;
  }

  lemma PostedAtHead(s: System)
    requires TaskShape(s.io, s.machine.posted, s.pump.keepReader)
    requires s.io != [] && s.io[0].Handle? && s.machine.posted != []
    ensures s.io[0].ticket == s.machine.posted[0]
  {
  }

  // ---------------------------------------------------------------- whole runs

  /** A client as it is made. */
  ghost predicate Started(peer: Peer) {
    peer == PilotPeer(P.INITIAL) || peer == DevicePeer(D.INITIAL)
  }

  lemma PeerStarts(peer: Peer)
    requires Started(peer)
    ensures PeerHolds(peer) && WorldOf(peer).status == Running && WorldOf(peer).trace == []
  {
    hide Observe;
    PilotRuns.RunKeeps([]);
    DeviceRuns.RunKeeps([]);
  }

  lemma PumpStarts()
    ensures PumpFits(COLD, Observe([]).stream) && Delivers(COLD)
  {
  }

  lemma StartKeeps(peer: Peer)
    requires Started(peer)
    ensures Inv(Start(peer)) && Straight(Start(peer))
  {
    PeerStarts(peer);
    PumpStarts();
    hide PeerHolds;
    hide PumpFits;
    hide Delivers;
    hide Observe;
  }

  lemma ApplyKeeps(s: System, m: Move)
    requires Inv(s)
    ensures Inv(Apply(s, m))
  {
    hide Observe;
    hide Inv;
    hide Straight;
    hide RunPoll;
    hide RunEvent;
    hide Return;
    hide Notified;
    match m
    case Notifying(e) => if !e.Received? { NotifyingKeeps(s, e); }
    case Polling(c) => PollingKeeps(s, c);
    case Handling(x) => HandlingKeeps(s, x);
    case Returning => ReturningKeeps(s);
  }

  lemma {:induction false} RunKeeps(peer: Peer, moves: seq<Move>)
    requires Started(peer)
    ensures Inv(Run(Start(peer), moves))
  {
    hide Inv;
    hide Straight;
    hide Apply;
    if moves == [] {
      StartKeeps(peer);
    } else {
      RunKeeps(peer, Front(moves));
      ApplyKeeps(Run(Start(peer), Front(moves)), Last(moves));
    }
  }

  /** Whatever sessions were opened and closed: at most one poll task waits, and an open stream has one. */
  lemma OnePollTask(peer: Peer, moves: seq<Move>)
    requires Started(peer)
    ensures var s := Run(Start(peer), moves);
      && (forall i, j :: 0 <= i < j < |s.io| ==> !(s.io[i].Poll? && s.io[j].Poll?))
      && (s.pump.keepReader ==> Poll in s.io)
  {
    hide Observe;
    hide Count;
    RunKeeps(peer, moves);
  }
}
