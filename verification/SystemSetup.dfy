/** What the environment's answers make of a handler in the whole client: it is never stuck, and how a session opens. */
module SystemSetup {
  import opened Messages
  import opened Channels
  import opened ChannelTheory
  import opened FacadePump
  import opened PumpTheory
  import opened Tallies
  import opened ClientSystem
  import opened SystemTheory
  import opened SystemDelivery
  import opened Observers
  import M = EventMachine
  import P = Pilot
  import D = Device
  import PilotSetup
  import DeviceSetup
  import SystemEvents

  // ---------------------------------------------------------------- no handler is stuck

  /** OPEN completes, well or not, or not in time; and CLOSE completes first, well or not. */
  predicate Prompt(a: Answers) {
    (a.opening.Some? ==> a.opening.value.OpenDone?) && |a.drain| == 1 && a.drain[0].CloseDone?
  }

  lemma PromptFits(p: Pump, a: Answers)
    requires Prompt(a)
    ensures CanOpen(p, a) && Drains(p, a.drain)
  {
    TakeNone(Take(Finishing(p), a.drain[0]));
    TakeAllStep(Finishing(p), a.drain[0], []);
    assert [a.drain[0]] + [] == a.drain;
  }

  /** The actions say of the stream what the answers say. */
  predicate Agrees(actions: seq<Action>, a: Answers) {
    && (StreamOpened in actions ==> Opens(a.opening))
    && (StreamOpenFailed in actions ==> !Opens(a.opening))
  }

  lemma {:induction false} DriveGoesThrough(p: Pump, actions: seq<Action>, a: Answers)
    requires Prompt(a) && Agrees(actions, a)
    ensures Drive(p, actions, a).Some?
  {
    if actions != [] {
      assert Last(actions) in actions && forall b :: b in Front(actions) ==> b in actions;
      DriveGoesThrough(p, Front(actions), a);
      PromptFits(Drive(p, Front(actions), a).value, a);
      hide Prompt;
      hide Drains;
    }
  }

  lemma {:induction false} CountRefusals(t: seq<Action>, more: seq<Action>)
    ensures Count(t + more).refusals >= Count(t).refusals + if StreamOpenFailed in more then 1 else 0
  {
    if more == [] {
      assert t + more == t;
    } else {
      CountRefusals(t, Front(more));
      assert Front(t + more) == t + Front(more) && Last(t + more) == Last(more);
      assert more == Front(more) + [Last(more)];
    }
  }

  lemma PeerAgrees(p: Peer, e: Event, x: Circumstances)
    requires PeerHolds(p) && WorldOf(p).status == Running
    ensures Agrees(NewActions(p, Advance(p, Input(e, EnvOf(x)))), x.answers)
  {
    hide PeerHolds;
    hide Count;
    hide Advance;
    var q := Advance(p, Input(e, EnvOf(x)));
    PeerAdvances(p, Input(e, EnvOf(x)));
    assert WorldOf(p).trace + NewActions(p, q) == WorldOf(q).trace;
    CountOpenings(WorldOf(p).trace, NewActions(p, q));
    CountRefusals(WorldOf(p).trace, NewActions(p, q));
  }

  /** What the handler of the event at the head makes of peer and pump. */
  ghost function PeerAfter(s: System, x: Circumstances): Peer
    requires s.io != [] && s.io[0].Handle?
  {
    Advance(s.peer, Input(EventAtHead(s, x), EnvOf(x)))
  }

  ghost function PumpAfter(s: System, x: Circumstances): Option<Pump>
    requires s.io != [] && s.io[0].Handle?
  {
    Drive(s.pump, NewActions(s.peer, PeerAfter(s, x)), x.answers)
  }

  lemma HeadIsPosted(s: System)
    requires Inv(s) && CanRun(s) && s.io[0].Handle?
    ensures s.machine.posted != [] && WorldOf(s.peer).status == Running && PeerHolds(s.peer)
  {
    hide M.Orderly;
    hide PeerHolds;
    hide Count;
    hide Observe;
    NotStalled(s);
  }

  /** The answers fit: the handler is run. */
  lemma HandlerRuns(s: System, x: Circumstances)
    requires Inv(s) && CanRun(s) && s.io[0].Handle? && PumpAfter(s, x).Some?
    ensures var n := RunEvent(s, x);
      && n.peer == PeerAfter(s, x) && n.pump == PumpAfter(s, x).value && Inv(n)
      && Handled(n) == Handled(s) + [EventAtHead(s, x)]
      && n.machine.handled + n.machine.running == s.machine.handled + s.machine.running + [s.io[0].ticket]
  {
    HeadIsPosted(s);
    var n := RunEvent(s, x);
    assert n.peer == PeerAfter(s, x) && n.pump == PumpAfter(s, x).value;
    hide RunEvent;
    hide Inv;
    hide PeerHolds;
    PeerAdvances(s.peer, Input(EventAtHead(s, x), EnvOf(x)));
    SystemEvents.EventRuns(s, x);
    HandlingKeeps(s, x);
  }

  /**
   An event task at the head is run, whether opening and closing succeed or not; an exception ends
   the task at once.
   */
  lemma HandlersRun(s: System, x: Circumstances)
    requires Inv(s) && CanRun(s) && s.io[0].Handle? && Prompt(x.answers)
    ensures var n := RunEvent(s, x);
      && n.peer == Advance(s.peer, Input(EventAtHead(s, x),
           Env(x.core, Opens(x.answers.opening), Closes(x.answers.drain), x.order, x.location)))
      && Handled(n) == Handled(s) + [EventAtHead(s, x)]
      && n.machine.handled + n.machine.running == s.machine.handled + s.machine.running + [s.io[0].ticket]
      && (n.machine.stalled <==> WorldOf(n.peer).status != Running)
  {
    HeadIsPosted(s);
    hide Inv;
    hide RunEvent;
    PeerAgrees(s.peer, EventAtHead(s, x), x);
    DriveGoesThrough(s.pump, NewActions(s.peer, PeerAfter(s, x)), x.answers);
    HandlerRuns(s, x);
    Stalls(RunEvent(s, x));
  }

  lemma {:induction false} CountClosings(t: seq<Action>, more: seq<Action>)
    requires StreamClosed !in more
    ensures Count(t + more).closings == Count(t).closings
  {
    if more == [] {
      assert t + more == t;
    } else {
      assert Last(more) in more && forall b :: b in Front(more) ==> b in more;
      CountClosings(t, Front(more));
      assert Front(t + more) == t + Front(more) && Last(t + more) == Last(more);
    }
  }

  lemma {:induction false} ShutAfterClosing(t: seq<Action>, actions: seq<Action>)
    requires Observe(t + actions).stream != Broken && StreamClosed in actions && StreamOpened !in actions
    ensures !IsOpen(Observe(t + actions).stream)
  {
    OneMoreAction(t, actions);
    assert Last(actions) in actions && actions == Front(actions) + [Last(actions)];
    hide Observe;
    if !Last(actions).StreamClosed? {
      ShutAfterClosing(t, Front(actions));
    }
  }

  lemma PeerCloses(p: Peer, i: Input)
    requires PeerHolds(p) && WorldOf(p).status == Running
    requires Count(WorldOf(Advance(p, i)).trace).closings > Count(WorldOf(p).trace).closings
    ensures !IsOpen(Observe(WorldOf(Advance(p, i)).trace).stream)
    ensures WorldOf(Advance(p, i)).status == Running <==> i.env.closes
    ensures i.env.closes ==> SystemTheory.Away(Advance(p, i))
  {
    hide PeerHolds;
    hide Count;
    hide Advance;
    hide Observe;
    var q := Advance(p, i);
    var t, actions := WorldOf(p).trace, NewActions(p, q);
    PeerAdvances(p, i);
    PeerStream(q);
    assert t + actions == WorldOf(q).trace;
    CountOpenings(t, actions);
    if StreamClosed !in actions { CountClosings(t, actions); }
    ShutAfterClosing(t, actions);
  }

  /**
   A handler that closes the stream ends the polling. If the drain loop ended with a good CLOSE, the peer is without
   a session and its handler goes on; otherwise the handler ended by an exception, and no other will ever begin.
   */
  lemma SessionClosesExactly(s: System, x: Circumstances)
    requires Inv(s) && CanRun(s) && s.io[0].Handle? && PumpAfter(s, x).Some?
    requires Count(WorldOf(PeerAfter(s, x)).trace).closings > Count(WorldOf(s.peer).trace).closings
    ensures var n := RunEvent(s, x);
      && !n.pump.keepReader
      && (Closes(x.answers.drain) ==> SystemTheory.Away(n.peer))
      && (n.machine.stalled <==> !Closes(x.answers.drain))
  {
    HeadIsPosted(s);
    hide Inv;
    hide RunEvent;
    hide PeerHolds;
    HandlerRuns(s, x);
    PeerCloses(s.peer, Input(EventAtHead(s, x), EnvOf(x)));
    hide Count;
    hide Observe;
    Stalls(RunEvent(s, x));
    StreamFits(RunEvent(s, x));
  }

  lemma StreamFits(s: System)
    requires Inv(s)
    ensures s.pump.keepReader <==> IsOpen(Observe(WorldOf(s.peer).trace).stream)
  {
    hide Count;
    hide Observe;
    hide PeerHolds;
    hide PumpHolds;
  }

  lemma Stalls(s: System)
    requires Inv(s)
    ensures s.machine.stalled <==> WorldOf(s.peer).status != Running
  {
    hide Count;
    hide Observe;
    hide PeerHolds;
  }

  // ---------------------------------------------------------------- how a session opens

  /** This event asks this peer for a session, with these channels. */
  predicate AsksFor(p: Peer, e: Event, channels: seq<ChannelRequest>) {
    match p
    case PilotPeer(_) => e.User? && e.user.Operate? && e.user.channels == channels
    case DevicePeer(_) => e == User(Attach) && channels == []
  }

  function OpeningActions(e: Event, env: Env, channels: seq<ChannelRequest>): seq<Action> {
    if env.core.None? then [In(e), Moved, Told(Failure), Moved]
    else if env.opens then [In(e), Moved, StreamOpened, Sent(PilotSetup.SetupMessage(env.core, channels))]
    else [In(e), Moved, StreamOpenFailed, Told(Failure), Moved]
  }

  lemma PeerOpens(p: Peer, e: Event, channels: seq<ChannelRequest>, env: Env)
    requires WorldOf(p).status == Running && SystemTheory.Away(p) && AsksFor(p, e, channels)
    ensures var q := Advance(p, Input(e, env));
      && NewActions(p, q) == OpeningActions(e, env, channels)
      && (SystemTheory.Away(q) <==> !(env.core.Some? && env.opens))
  {
    hide P.Step;
    hide D.Step;
    match p
    case PilotPeer(c) => PilotSetup.OperateOpensSession(c, e.user.deviceId, channels, env);
    case DevicePeer(c) => DeviceSetup.AttachOpensSession(c, env);
  }

  lemma DriveLast(p: Pump, actions: seq<Action>, a: Action, answers: Answers)
    ensures var before := Drive(p, actions, answers);
      Drive(p, actions + [a], answers) == if before.None? then None else DriveOne(before.value, a, answers)
  {
    assert Front(actions + [a]) == actions;
  }

  /** These actions are of no account to the pump. */
  predicate Quiet(actions: seq<Action>) {
    forall i :: 0 <= i < |actions| ==> actions[i].In? || actions[i].Moved? || actions[i].Told?
  }

  lemma {:induction false} DriveQuiet(p: Pump, actions: seq<Action>, more: seq<Action>, answers: Answers)
    requires Quiet(more)
    ensures Drive(p, actions + more, answers) == Drive(p, actions, answers)
  {
    if more == [] {
      assert actions + more == actions;
    } else {
      DriveQuiet(p, actions, Front(more), answers);
      DriveLast(p, actions + Front(more), Last(more), answers);
      assert actions + Front(more) + [Last(more)] == actions + more;
      assert Last(more).In? || Last(more).Moved? || Last(more).Told?;
    }
  }

  lemma DriveOpening(p: Pump, e: Event, env: Env, channels: seq<ChannelRequest>, a: Answers)
    requires CanOpen(p, a) && env.opens == Opens(a.opening)
    ensures var setup := PilotSetup.SetupMessage(env.core, channels);
      Drive(p, OpeningActions(e, env, channels), a) == Some(
        if env.core.None? then p
        else if env.opens then SendMessage(FacadePump.Open(p, a.opening), setup)
        else FacadePump.Open(p, a.opening))
  {
    var setup := PilotSetup.SetupMessage(env.core, channels);
    var begin := [In(e), Moved];
    assert Drive(p, [], a) == Some(p) && [] + begin == begin;
    DriveQuiet(p, [], begin, a);
    hide Drive;
    hide FacadePump.Open;
    hide SendMessage;
    if env.core.None? {
      DriveQuiet(p, begin, [Told(Failure), Moved], a);
      assert begin + [Told(Failure), Moved] == OpeningActions(e, env, channels);
    } else if env.opens {
      DriveLast(p, begin, StreamOpened, a);
      DriveLast(p, begin + [StreamOpened], Sent(setup), a);
      assert begin + [StreamOpened] + [Sent(setup)] == OpeningActions(e, env, channels);
    } else {
      DriveLast(p, begin, StreamOpenFailed, a);
      DriveQuiet(p, begin + [StreamOpenFailed], [Told(Failure), Moved], a);
      assert begin + [StreamOpenFailed] + [Told(Failure), Moved] == OpeningActions(e, env, channels);
    }
  }

  /** SETUP is on the wire, alone and at once, and a READ into a new buffer is outstanding. */
  predicate SetUp(p: Pump, q: Pump, setup: ClientMessage) {
    && q.keepReader && q.sending && q.writes == p.writes + 1
    && q.sent == [setup] && q.written == [setup] && q.sendingQueue == p.sendingQueue
    && q.reading == p.reading + [q.toRead] && q.toRead == p.buffers
  }

  /** No session: nothing was sent, and nothing is read. */
  predicate Refused(p: Pump, q: Pump) {
    && !q.keepReader && q.sent == p.sent && q.written == p.written && q.sendingQueue == p.sendingQueue
    && q.toRead == p.toRead && q.handed == p.handed
  }

  lemma OpeningSetsUp(p: Pump, a: Answers, setup: ClientMessage)
    requires CanOpen(p, a) && !p.keepReader
    ensures Opens(a.opening) ==> SetUp(p, SendMessage(FacadePump.Open(p, a.opening), setup), setup)
    ensures !Opens(a.opening) ==> Refused(p, FacadePump.Open(p, a.opening)) && Refused(p, p)
  {
  }

  /**
   In the whole client: a call to operate or to attach, made while there is no session, leads to one if and only
   if the core answers and OPEN completes well in time. Then SETUP, with the core's key and the user's channels,
   is on the wire, a READ is outstanding, and the poll task waits. Otherwise nothing was sent.
   */
  lemma SessionOpensExactly(s: System, x: Circumstances, channels: seq<ChannelRequest>)
    requires Inv(s) && CanRun(s) && s.io[0].Handle? && CanOpen(s.pump, x.answers)
    requires SystemTheory.Away(s.peer) && AsksFor(s.peer, EventAtHead(s, x), channels)
    ensures var n := RunEvent(s, x);
      && Handled(n) == Handled(s) + [EventAtHead(s, x)]
      && (!SystemTheory.Away(n.peer) <==> x.core.Some? && Opens(x.answers.opening))
      && if x.core.Some? && Opens(x.answers.opening)
         then SetUp(s.pump, n.pump, PilotSetup.SetupMessage(x.core, channels)) && Poll in n.io
         else Refused(s.pump, n.pump) && (x.core.None? ==> n.pump == s.pump)
  {
    var env := EnvOf(x);
    HeadIsPosted(s);
    AwayIsIdle(s);
    hide RunEvent;
    hide Inv;
    hide PeerHolds;
    hide OpeningActions;
    PeerOpens(s.peer, EventAtHead(s, x), channels, env);
    DriveOpening(s.pump, EventAtHead(s, x), env, channels, x.answers);
    HandlerRuns(s, x);
    OpeningSetsUp(s.pump, x.answers, PilotSetup.SetupMessage(x.core, channels));
    PollWaits(RunEvent(s, x));
    hide SetUp;
    hide Refused;
    if x.core.Some? && Opens(x.answers.opening) {
      SetUpMeans(s.pump, RunEvent(s, x).pump, PilotSetup.SetupMessage(x.core, channels));
    }
  }

  lemma SetUpMeans(p: Pump, q: Pump, setup: ClientMessage)
    requires SetUp(p, q, setup)
    ensures q.keepReader
  {
  }

  lemma AwayIsIdle(s: System)
    requires Inv(s) && WorldOf(s.peer).status == Running
    ensures s.pump.keepReader <==> !SystemTheory.Away(s.peer)
  {
    hide Observe;
    hide Count;
    hide PeerHolds;
    hide PumpHolds;
    PeerStream(s.peer);
  }

  lemma PollWaits(s: System)
    requires Inv(s)
    ensures s.pump.keepReader ==> Poll in s.io
  {
    hide Observe;
    hide Count;
  }
}
