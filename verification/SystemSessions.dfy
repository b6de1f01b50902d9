/** How sessions of the whole client begin and go on. */
module SystemSessions {
  import opened Messages
  import opened Channels
  import opened ChannelTheory
  import opened Observers
  import opened FacadePump
  import opened PumpTheory
  import opened Tallies
  import opened ClientSystem
  import opened SystemTheory
  import opened SystemDelivery
  import M = EventMachine

  // ---------------------------------------------------------------- reading and writing go on

  /** A READ is outstanding, into the buffer at hand. */
  predicate ReadsOn(p: Pump) {
    p.reading == [p.toRead]
  }

  /** A WRITE is outstanding exactly when the client thinks so. */
  predicate WritesOn(p: Pump) {
    p.writes == if p.sending then 1 else 0
  }

  predicate Begun(p: Pump) {
    ReadsOn(p) && WritesOn(p)
  }

  lemma OpenBegins(p: Pump, answer: Option<Completion>)
    requires Opens(answer) && Due(Requested(p), answer.value)
    ensures var q := FacadePump.Open(p, answer); q.rested ==> Begun(q)
  {
  }

  lemma SendKeepsOn(p: Pump, m: ClientMessage)
    ensures var q := SendMessage(p, m);
      && q.reading == p.reading && q.toRead == p.toRead && (WritesOn(p) ==> WritesOn(q))
      && (p.writes == 0 && p.sending ==> !WritesOn(q))
  {
  }

  /** The handler that opens a session at rest leaves it reading and able to write. */
  lemma {:induction false} DriveBegins(t: seq<Action>, p: Pump, actions: seq<Action>, answers: Answers)
    requires PumpFits(p, Observe(t).stream) && !IsOpen(Observe(t).stream) && Observe(t + actions).stream != Broken
    requires Drive(p, actions, answers).Some?
    ensures var q := Drive(p, actions, answers).value; IsOpen(Observe(t + actions).stream) && q.rested ==> Begun(q)
  {
    if actions == [] {
      assert t + actions == t;
    } else {
      OneMoreAction(t, actions);
      DriveBegins(t, p, Front(actions), answers);
      var before := Drive(p, Front(actions), answers).value;
      hide Observe;
      hide WritesOn;
      match Last(actions)
      case Sent(m) => SendKeepsOn(before, m);
      case StreamOpened => hide FacadePump.Open; OpenBegins(before, answers.opening);
      case _ =>
    }
  }

  /** The pump goes on as it was, but for the messages sent. */
  predicate GoesOn(p: Pump, q: Pump) {
    && q.reading == p.reading && q.toRead == p.toRead
    && (WritesOn(p) ==> WritesOn(q)) && (p.writes == 0 && p.sending ==> q.writes == 0 && q.sending)
  }

  lemma DriveOneGoesOn(p: Pump, a: Action, answers: Answers, stream: Stream)
    requires PumpFits(p, stream) && NextStream(stream, a) != Broken && !a.StreamOpened?
    requires DriveOne(p, a, answers).Some? && DriveOne(p, a, answers).value.keepReader
    ensures p.keepReader && GoesOn(p, DriveOne(p, a, answers).value)
  {
    hide PumpHolds;
    match a
    case Sent(m) => SendKeepsOn(p, m);
    case StreamClosed => DrainEnds(p, answers.drain);
    case _ =>
  }

  lemma GoesOnward(p: Pump, q: Pump, r: Pump)
    requires GoesOn(p, q) && GoesOn(q, r)
    ensures GoesOn(p, r)
  {
  }

  /** A handler that finds and leaves the stream open, without opening it anew, does nothing but send. */
  lemma {:induction false} DriveGoesOn(t: seq<Action>, p: Pump, actions: seq<Action>, answers: Answers)
    requires PumpFits(p, Observe(t).stream) && Observe(t + actions).stream != Broken && StreamOpened !in actions
    requires Drive(p, actions, answers).Some? && Drive(p, actions, answers).value.keepReader
    ensures GoesOn(p, Drive(p, actions, answers).value)
  {
    if actions != [] {
      OneMoreAction(t, actions);
      DriveFits(t, p, Front(actions), answers);
      var before := Drive(p, Front(actions), answers).value;
      assert Last(actions) in actions && forall a :: a in Front(actions) ==> a in actions;
      hide Observe;
      hide PumpFits;
      hide DriveOne;
      hide GoesOn;
      DriveOneGoesOn(before, Last(actions), answers, Observe(t + Front(actions)).stream);
      DriveGoesOn(t, p, Front(actions), answers);
      GoesOnward(p, before, Drive(p, actions, answers).value);
    }
  }

  predicate FailsRead(s: System, m: Move) {
    m.Polling? && PollRuns(s, m.completion) && m.completion.Some? && m.completion.value.ReadDone?
    && !m.completion.value.ok
  }

  predicate FailsWrite(s: System, m: Move) {
    m.Polling? && PollRuns(s, m.completion) && m.completion.Some? && m.completion.value.WriteDone?
    && !m.completion.value.ok
  }

  lemma PollGoesOn(p: Pump, c: Completion)
    requires Flows(p) && Due(p, c)
    ensures var q := Polled(p, Some(c));
      && (ReadsOn(q) <==> ReadsOn(p) && !(c.ReadDone? && !c.ok))
      && (WritesOn(q) <==> WritesOn(p) && !(c.WriteDone? && !c.ok))
  {
  }

  lemma HandlingBegins(s: System, x: Circumstances)
    requires Inv(s) && !s.pump.keepReader && RunEvent(s, x).pump.keepReader && RunEvent(s, x).pump.rested
    ensures Begun(RunEvent(s, x).pump)
  {
    hide Observe;
    hide Count;
    hide Drive;
    hide PumpHolds;
    hide PeerHolds;
    hide TaskShape;
    hide TicketsFit;
    hide Begun;
    NotStalled(s);
    var i := Input(EventAtHead(s, x), EnvOf(x));
    var t := WorldOf(s.peer).trace;
    PeerAdvances(s.peer, i);
    HandlerFits(s, EventAtHead(s, x), x);
    PeerStream(Advance(s.peer, i));
    assert t + NewActions(s.peer, Advance(s.peer, i)) == WorldOf(Advance(s.peer, i)).trace;
    DriveBegins(t, s.pump, NewActions(s.peer, Advance(s.peer, i)), x.answers);
  }

  lemma StepBegins(s: System, m: Move)
    requires Inv(s) && !s.pump.keepReader && Apply(s, m).pump.keepReader && Apply(s, m).pump.rested
    ensures Begun(Apply(s, m).pump)
  {
    hide Inv;
    hide RunEvent;
    hide Polled;
    hide Begun;
    match m
    case Handling(x) => HandlingBegins(s, x);
    case Polling(c) => if c.Some? ==> Due(s.pump, c.value) { PollingGoesOn(s.pump, c); }
    case _ =>
  }

  lemma HandlingGoesOn(s: System, x: Circumstances)
    requires Inv(s) && s.pump.keepReader && RunEvent(s, x) != s && RunEvent(s, x).pump.keepReader
    ensures GoesOn(s.pump, RunEvent(s, x).pump)
  {
    hide Observe;
    hide Count;
    hide Drive;
    hide Advance;
    hide PumpHolds;
    hide PeerHolds;
    hide TaskShape;
    hide TicketsFit;
    hide M.Orderly;
    hide GoesOn;
    NotStalled(s);
    var e := EventAtHead(s, x);
    var i := Input(e, EnvOf(x));
    var t := WorldOf(s.peer).trace;
    var actions := NewActions(s.peer, Advance(s.peer, i));
    assert RunEvent(s, x).pump == Drive(s.pump, actions, x.answers).value;
    hide RunEvent;
    PeerAdvances(s.peer, i);
    PeerStream(Advance(s.peer, i));
    HandlerPosts(s, e, x);
    assert t + actions == WorldOf(Advance(s.peer, i)).trace;
    CountOpenings(t, actions);
    DriveGoesOn(t, s.pump, actions, x.answers);
  }

  lemma HandledStillOn(s: System, x: Circumstances)
    requires Inv(s) && s.pump.keepReader && Flows(s.pump) && RunEvent(s, x).pump.keepReader
    ensures ReadsOn(RunEvent(s, x).pump) == ReadsOn(s.pump) && WritesOn(RunEvent(s, x).pump) == WritesOn(s.pump)
  {
    if RunEvent(s, x) != s {
      HandlingGoesOn(s, x);
      FlowsOn(s.pump);
      hide *;
      hide ReadsOn;
      hide WritesOn;
      GoesOnMeans(s.pump, RunEvent(s, x).pump);
    }
  }

  lemma GoesOnMeans(p: Pump, q: Pump)
    requires GoesOn(p, q) && (WritesOn(p) || (p.writes == 0 && p.sending))
    ensures ReadsOn(q) == ReadsOn(p) && WritesOn(q) == WritesOn(p)
  {
  }

  lemma PolledStillOn(s: System, c: Option<Completion>)
    requires Flows(s.pump)
    ensures ReadsOn(RunPoll(s, c).pump) <==> ReadsOn(s.pump) && !FailsRead(s, Move.Polling(c))
    ensures WritesOn(RunPoll(s, c).pump) <==> WritesOn(s.pump) && !FailsWrite(s, Move.Polling(c))
  {
    hide Flows;
    hide Polled;
    if PollRuns(s, c) {
      if c.Some? { PollGoesOn(s.pump, c.value); } else { PollingGoesOn(s.pump, c); }
    }
  }

  lemma StepGoesOn(s: System, m: Move)
    requires Inv(s) && s.pump.keepReader && s.pump.rested && Apply(s, m).pump.keepReader
    ensures ReadsOn(Apply(s, m).pump) <==> ReadsOn(s.pump) && !FailsRead(s, m)
    ensures WritesOn(Apply(s, m).pump) <==> WritesOn(s.pump) && !FailsWrite(s, m)
  {
    OpenRestedFlows(s);
    hide Flows;
    hide ReadsOn;
    hide WritesOn;
    hide Inv;
    hide RunEvent;
    hide RunPoll;
    match m
    case Handling(x) => HandledStillOn(s, x);
    case Polling(c) => PolledStillOn(s, c);
    case _ =>
  }

  /** No poll took a failed READ, or WRITE, from the step after `n` on. */
  ghost predicate NoReadFailed(peer: Peer, moves: seq<Move>, n: nat) {
    forall k :: n <= k < |moves| ==> !FailsRead(Run(Start(peer), moves[..k]), moves[k])
  }

  ghost predicate NoWriteFailed(peer: Peer, moves: seq<Move>, n: nat) {
    forall k :: n <= k < |moves| ==> !FailsWrite(Run(Start(peer), moves[..k]), moves[k])
  }

  lemma {:induction false} SessionGoesOnTo(peer: Peer, moves: seq<Move>, n: nat, k: nat)
    requires Started(peer) && 0 < n <= k <= |moves| && OpenSince(peer, moves, n) && Run(Start(peer), moves).pump.rested
    ensures var p := Run(Start(peer), moves[..k]).pump;
      && (ReadsOn(p) <==> forall j :: n <= j < k ==> !FailsRead(Run(Start(peer), moves[..j]), moves[j]))
      && (WritesOn(p) <==> forall j :: n <= j < k ==> !FailsWrite(Run(Start(peer), moves[..j]), moves[j]))
    decreases k
  {
    hide *;
    hide OpenSince;
    assert moves[..|moves|] == moves;
    SessionStays(peer, moves, n, |moves|);
    RunKeeps(peer, moves[..k - 1]);
    RunPrefix(Start(peer), moves, k - 1);
    SessionStays(peer, moves, n, k);
    if n < k {
      SessionGoesOnTo(peer, moves, n, k - 1);
      SessionStays(peer, moves, n, k - 1);
      OpenAt(peer, moves, n, k - 1);
      OpenAt(peer, moves, n, k);
      StepGoesOn(Run(Start(peer), moves[..k - 1]), moves[k - 1]);
    } else {
      OpenAt(peer, moves, n, n);
      StepBegins(Run(Start(peer), moves[..n - 1]), moves[n - 1]);
      BegunOn(Run(Start(peer), moves[..n]).pump);
    }
  }

  lemma BegunOn(p: Pump)
    ensures Begun(p) <==> ReadsOn(p) && WritesOn(p)
  {
  }

  lemma OpenAt(peer: Peer, moves: seq<Move>, n: nat, k: nat)
    requires 0 < n <= k <= |moves| && OpenSince(peer, moves, n)
    ensures !Run(Start(peer), moves[..n - 1]).pump.keepReader && Run(Start(peer), moves[..k]).pump.keepReader
  {
  }

  /**
   In a session opened at rest, for as long as it is open: a READ is outstanding into the buffer that the next event
   will get - if and only if no READ of the session has failed. And a WRITE is outstanding exactly when the client
   takes the stream to be busy - if and only if no WRITE has failed; after a failure nothing is written any more.
   */
  lemma SessionGoesOnExactly(peer: Peer, moves: seq<Move>, n: nat)
    requires Started(peer) && 0 < n <= |moves| && OpenSince(peer, moves, n) && Run(Start(peer), moves).pump.rested
    ensures var p := Run(Start(peer), moves).pump;
      && (p.reading == [p.toRead] <==> NoReadFailed(peer, moves, n))
      && (p.reading == [] <==> !NoReadFailed(peer, moves, n))
      && (p.writes == (if p.sending then 1 else 0) <==> NoWriteFailed(peer, moves, n))
      && (p.writes == 0 && p.sending <==> !NoWriteFailed(peer, moves, n))
  {
    assert moves[..|moves|] == moves;
    SessionGoesOnTo(peer, moves, n, |moves|);
    var s := Run(Start(peer), moves);
    hide Run;
    hide FailsRead;
    hide FailsWrite;
    assert ReadsOn(s.pump) <==> NoReadFailed(peer, moves, n);
    assert WritesOn(s.pump) <==> NoWriteFailed(peer, moves, n);
    hide *;
    RunKeeps(peer, moves);
    OpenAt(peer, moves, n, |moves|);
    OpenRestedFlows(s);
    FlowsOn(s.pump);
  }

  lemma FlowsOn(p: Pump)
    requires Flows(p)
    ensures (ReadsOn(p) <==> p.reading == [p.toRead]) && (ReadsOn(p) <==> p.reading != [])
    ensures WritesOn(p) <==> p.writes == if p.sending then 1 else 0
    ensures WritesOn(p) <==> !(p.writes == 0 && p.sending)
  {
  }
}
