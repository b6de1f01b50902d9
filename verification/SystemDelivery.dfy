/** What the whole client delivers: when sessions flow, and when the messages handled are the messages read. */
module SystemDelivery {
  import opened Messages
  import opened Channels
  import opened ChannelTheory
  import opened Observers
  import opened FacadePump
  import opened PumpTheory
  import opened PumpDelivery
  import opened Tallies
  import opened ClientSystem
  import opened SystemTheory
  import M = EventMachine

  function Handled(s: System): seq<Event> {
    Count(WorldOf(s.peer).trace).handled
  }

  // ---------------------------------------------------------------- sessions

  /** The step to `n` opened the session that is still open after all the moves. */
  ghost predicate OpenSince(peer: Peer, moves: seq<Move>, n: nat)
    requires 0 < n <= |moves|
  {
    && !Run(Start(peer), moves[..n - 1]).pump.keepReader
    && forall k :: n <= k <= |moves| ==> Run(Start(peer), moves[..k]).pump.keepReader
  }

  lemma RunPrefix(s: System, moves: seq<Move>, k: nat)
    requires k < |moves|
    ensures Run(s, moves[..k + 1]) == Apply(Run(s, moves[..k]), moves[k])
  {
    assert Front(moves[..k + 1]) == moves[..k];
  }

  lemma StepOpens(s: System, m: Move)
    requires Inv(s) && !s.pump.keepReader && Apply(s, m).pump.keepReader
    ensures Flows(Apply(s, m).pump) ==> Apply(s, m).pump.rested
  {
    hide Observe;
    hide Count;
    hide Drive;
    hide Crowded;
    hide Flows;
    hide Polled;
    hide PumpFits;
    hide PeerHolds;
    hide TaskShape;
    match m
    case Handling(x) =>
      NotStalled(s);
      HandlerSession(s, EventAtHead(s, x), x);
      if Crowded(Apply(s, m).pump) { CrowdedDoesNotFlow(Apply(s, m).pump); }
    case Polling(c) => PollingGoesOn(s.pump, c);
    case _ =>
  }

  lemma StepStays(s: System, m: Move)
    requires Inv(s) && s.pump.keepReader && Apply(s, m).pump.keepReader
    ensures Apply(s, m).pump.rested == s.pump.rested
  {
    hide Observe;
    hide Count;
    hide Drive;
    hide Polled;
    match m
    case Handling(x) =>
      if Apply(s, m) != s {
        NotStalled(s);
        HandlerSession(s, EventAtHead(s, x), x);
      }
    case Polling(c) =>
      if PollRuns(s, c) {
        PollingGoesOn(s.pump, c);
        if c.Some? { PollFits(s.pump, c.value); }
      }
    case _ =>
  }

  lemma {:induction false} SessionStays(peer: Peer, moves: seq<Move>, n: nat, k: nat)
    requires Started(peer) && 0 < n <= k <= |moves| && OpenSince(peer, moves, n)
    ensures Run(Start(peer), moves[..k]).pump.rested == Run(Start(peer), moves[..n]).pump.rested
    decreases k
  {
    hide Apply;
    hide Inv;
    if n < k {
      SessionStays(peer, moves, n, k - 1);
      RunKeeps(peer, moves[..k - 1]);
      RunPrefix(Start(peer), moves, k - 1);
      StepStays(Run(Start(peer), moves[..k - 1]), moves[k - 1]);
    }
  }

  lemma OpenRestedFlows(s: System)
    requires Inv(s) && s.pump.keepReader && s.pump.rested
    ensures Flows(s.pump)
  {
    hide Observe;
    hide Count;
    hide Flows;
  }

  /**
   In every session of every run: one WRITE at a time, in the order of the calls, as PumpTheory has it, for
   as long as the session is open - if and only if it was opened with nothing outstanding.
   */
  lemma SessionFlowsExactly(peer: Peer, moves: seq<Move>, n: nat)
    requires Started(peer) && 0 < n <= |moves| && OpenSince(peer, moves, n)
    ensures (forall k :: n <= k <= |moves| ==> Flows(Run(Start(peer), moves[..k]).pump)) <==>
            Run(Start(peer), moves).pump.rested
  {
    hide Flows;
    hide Run;
    hide Inv;
    hide Apply;
    assert moves[..|moves|] == moves;
    SessionStays(peer, moves, n, |moves|);
    RunKeeps(peer, moves[..n - 1]);
    RunPrefix(Start(peer), moves, n - 1);
    StepOpens(Run(Start(peer), moves[..n - 1]), moves[n - 1]);
    if Run(Start(peer), moves).pump.rested {
      forall k | n <= k <= |moves| ensures Flows(Run(Start(peer), moves[..k]).pump) {
        SessionStays(peer, moves, n, k);
        RunKeeps(peer, moves[..k]);
        OpenRestedFlows(Run(Start(peer), moves[..k]));
      }
    }
  }

  // ---------------------------------------------------------------- delivery

  /** What some tickets wait to deliver is there, and with what was handled makes up what the polls handed on. */
  ghost predicate DeliversAll(s: System) {
    var waiting := DeliveredIn(s.machine.posted + s.machine.queue);
    && AllFilled(s.pump, waiting)
    && Polls(s.pump.read) == MessagesIn(Handled(s)) + Contents(s.pump, waiting)
  }

  /** This step is a poll that takes a good READ for another buffer than the one it hands out. */
  predicate MistakenAt(s: System, m: Move) {
    m.Polling? && PollRuns(s, m.completion) && m.completion.Some? && Mistakes(s.pump, m.completion.value)
  }

  lemma ReadIsContents(p: Pump, a: seq<nat>, b: seq<nat>)
    requires Delivers(p) && p.handed == a + b
    ensures AllFilled(p, a) && AllFilled(p, b) && Polls(p.read) == Contents(p, a) + Contents(p, b)
  {
    hide Polls;
    forall i | 0 <= i < |a| ensures a[i] in p.memory && p.memory[a[i]] == Polls(p.read)[i] {
      assert p.handed[i] == a[i];
    }
    forall i | 0 <= i < |b| ensures b[i] in p.memory && p.memory[b[i]] == Polls(p.read)[|a| + i] {
      assert p.handed[|a| + i] == b[i];
    }
  }

  /** As long as every event has its own message, delivery is right. */
  lemma StraightDelivers(s: System)
    requires Inv(s) && Straight(s)
    ensures DeliversAll(s)
  {
    hide Observe;
    hide Count;
    hide Delivers;
    hide DeliveredIn;
    hide PumpFits;
    hide PeerHolds;
    hide TaskShape;
    var m := s.machine;
    var begun := m.handled + m.running;
    var rest := m.posted + m.queue;
    assert m.accepted == begun + rest;
    DeliveredInSum(begun, rest);
    assert NoForgery(begun) by { assert forall i :: 0 <= i < |begun| ==> begun[i] == m.accepted[i]; }
    MessagesAreContents(s.pump, begun);
    ReadIsContents(s.pump, DeliveredIn(begun), DeliveredIn(rest));
  }

  /** The pump changed, but not what it has delivered. */
  lemma PreservedInStep(m: M.Machine<Ticket>, p: Pump, q: Pump, handled: seq<Event>)
    requires InStep(m, p, handled) && M.Orderly(m) && DeliveredIn(m.accepted) == p.handed
    requires forall b :: b in p.handed && b in p.memory ==> b in q.memory && q.memory[b] == p.memory[b]
    ensures InStep(m, q, handled)
  {
    var begun := m.handled + m.running;
    forall i | 0 <= i < |begun|
      ensures Readable(q, begun[i]) && FilledEvent(q, begun[i]) == FilledEvent(p, begun[i])
    {
      assert begun[i] == m.accepted[i];
      if begun[i].Delivered? { DeliveredAreListed(m.accepted, i); }
    }
  }

  lemma PreservedDelivers(p: Pump, q: Pump)
    requires Delivers(p) && Preserves(p, q)
    ensures Delivers(q)
  {
    hide Polls;
    assert forall i :: 0 <= i < |p.handed| ==> p.handed[i] in p.handed;
  }

  /** A poll fills buffers nobody was given yet. */
  lemma PollFillsNew(p: Pump, c: Completion)
    requires Buffers(p) && Delivers(p) && Due(p, c)
    ensures forall b :: b in p.handed && b in p.memory ==>
              b in Polled(p, Some(c)).memory && Polled(p, Some(c)).memory[b] == p.memory[b]
  {
  }

  lemma PollingStaysStraight(s: System, c: Option<Completion>)
    requires Inv(s) && Straight(s) && !MistakenAt(s, Move.Polling(c))
    ensures Straight(RunPoll(s, c))
  {
    hide Observe;
    hide Count;
    hide TaskShape;
    hide Polled;
    hide Delivers;
    hide Buffers;
    hide Mistakes;
    hide InStep;
    hide PeerHolds;
    if PollRuns(s, c) {
      PollKeepsShape(s, c);
      if c.Some? {
        PollDeliversExactly(s.pump, c.value);
        PollFillsNew(s.pump, c.value);
        PreservedInStep(s.machine, s.pump, Polled(s.pump, c), Handled(s));
        NotifyKeepsInStep(s.machine, Polled(s.pump, c), Handled(s), Delivered(s.pump.toRead));
      } else {
        PollingGoesOn(s.pump, c);
      }
    }
  }

  lemma NotifyKeepsInStep(m: M.Machine<Ticket>, p: Pump, handled: seq<Event>, t: Ticket)
    requires InStep(m, p, handled)
    ensures InStep(M.Notify(m, t), p, handled)
  {
  }

  /** One more event handled, and the pump driven. */
  lemma HandledInStep(m: M.Machine<Ticket>, n: M.Machine<Ticket>, p: Pump, q: Pump, handled: seq<Event>, t: Ticket)
    requires InStep(m, p, handled) && M.Orderly(m) && DeliveredIn(m.accepted) == p.handed
    requires Preserves(p, q) && Delivers(p)
    requires m.posted != [] && m.running == [] && t == m.posted[0]
    requires n.handled + n.running == m.handled + m.running + [t]
    ensures Readable(p, t) && InStep(n, q, handled + [FilledEvent(p, t)])
  {
    HandedAreFilled(p);
    var k := |m.handled + m.running|;
    assert m.accepted[k] == t;
    if t.Delivered? { DeliveredAreListed(m.accepted, k); }
    PreservedInStep(m, p, q, handled);
    var begun := n.handled + n.running;
    assert AllReadable(q, begun) by {
      forall i | 0 <= i < |begun| ensures Readable(q, begun[i]) {
        assert i < k ==> begun[i] == (m.handled + m.running)[i];
      }
    }
    assert handled + [FilledEvent(p, t)] == Events(q, begun);
  }

  lemma HandedAreFilled(p: Pump)
    requires Delivers(p)
    ensures forall b :: b in p.handed ==> b in p.memory
  {
    hide Polls;
  }

  lemma HandlingStaysStraight(s: System, x: Circumstances)
    requires Inv(s) && Straight(s)
    ensures Straight(RunEvent(s, x))
  {
    hide Observe;
    hide Count;
    hide Drive;
    hide PumpHolds;
    hide PollsFor;
    hide PeerHolds;
    hide Advance;
    hide NewActions;
    hide M.Orderly;
    hide Delivers;
    hide InStep;
    hide TaskShape;
    hide FilledEvent;
    var n := RunEvent(s, x);
    if n != s {
      NotStalled(s);
      PostedAtHead(s);
      var e := EventAtHead(s, x);
      var t := s.io[0].ticket;
      HandlerFits(s, e, x);
      HandlerPosts(s, e, x);
      var openings := Count(WorldOf(n.peer).trace).openings - Count(WorldOf(s.peer).trace).openings;
      BegunKeepsShape(s, openings, WorldOf(n.peer).status == Running, n.pump.keepReader);
      PreservedDelivers(s.pump, n.pump);
      HandledInStep(s.machine, n.machine, s.pump, n.pump, Handled(s), t);
    }
  }

  lemma StepStaysStraight(s: System, m: Move)
    requires Inv(s) && Straight(s) && !MistakenAt(s, m)
    ensures Straight(Apply(s, m))
  {
    hide Observe;
    hide Inv;
    hide Straight;
    hide RunPoll;
    hide RunEvent;
    hide Return;
    hide Notified;
    match m
    case Notifying(e) => if !e.Received? { NotifyingKeeps(s, e); }
    case Polling(c) => PollingStaysStraight(s, c);
    case Handling(x) => HandlingStaysStraight(s, x);
    case Returning => ReturningKeeps(s);
  }

  /** The last buffer that waits holds the last message a poll handed on. */
  lemma LastWaiting(s: System)
    requires DeliversAll(s) && DeliveredIn(s.machine.posted + s.machine.queue) != []
    ensures var b := Last(DeliveredIn(s.machine.posted + s.machine.queue));
      b in s.pump.memory && Polls(s.pump.read) != [] && s.pump.memory[b] == Last(Polls(s.pump.read))
  {
    hide Polls;
    hide MessagesIn;
    var waiting := DeliveredIn(s.machine.posted + s.machine.queue);
    assert Last(Contents(s.pump, waiting)) == s.pump.memory[Last(waiting)];
  }

  lemma MistakeInPump(p: Pump, c: Completion)
    requires Due(p, c) && Mistakes(p, c)
    ensures var q := Polled(p, Some(c));
      && Polls(q.read) != [] && Last(Polls(q.read)) == c.message
      && !(p.toRead in q.memory && q.memory[p.toRead] == c.message)
  {
    PollRecords(p, c);
  }

  /** After such a poll a wrong or empty buffer waits to be delivered. */
  lemma MistakeShows(s: System, m: Move)
    requires Inv(s) && MistakenAt(s, m)
    ensures !DeliversAll(Apply(s, m))
  {
    hide Observe;
    hide Count;
    hide TaskShape;
    hide PeerHolds;
    hide PumpFits;
    hide TicketsFit;
    hide DeliversAll;
    hide Polled;
    hide Polls;
    var n := Apply(s, m);
    var t := Ticket.Delivered(s.pump.toRead);
    PollKeepsShape(s, m.completion);
    hide RunPoll;
    MistakeInPump(s.pump, m.completion.value);
    hide Mistakes;
    assert n.machine == M.Notify(s.machine, t);
    NotifiedWaits(s.machine, t);
    assert n.pump == Polled(s.pump, m.completion);
    if DeliversAll(n) {
      LastWaiting(n);
      assert false;
    }
  }

  /** The ticket just notified is the last to wait. */
  lemma NotifiedWaits(m: M.Machine<Ticket>, t: Ticket)
    requires M.Orderly(m) && t.Delivered?
    ensures var waiting := DeliveredIn(M.Notify(m, t).posted + M.Notify(m, t).queue);
      waiting != [] && Last(waiting) == t.buffer
  {
    LastDelivered(m.posted + m.queue, t);
    LastDelivered([], t);
    hide DeliveredIn;
    if m.processing {
      assert m.posted + (m.queue + [t]) == m.posted + m.queue + [t];
    } else {
      assert m.posted == [] && m.queue == [];
      assert [] + [t] + [] == [] + [t];
    }
  }

  lemma LastDelivered(ts: seq<Ticket>, t: Ticket)
    requires t.Delivered?
    ensures DeliveredIn(ts + [t]) != [] && Last(DeliveredIn(ts + [t])) == t.buffer
  {
    assert Front(ts + [t]) == ts;
  }

  ghost predicate NeverMistaken(peer: Peer, moves: seq<Move>) {
    forall k :: 0 <= k < |moves| ==> !MistakenAt(Run(Start(peer), moves[..k]), moves[k])
  }

  lemma {:induction false} RunStaysStraight(peer: Peer, moves: seq<Move>, n: nat)
    requires Started(peer) && NeverMistaken(peer, moves) && n <= |moves|
    ensures Straight(Run(Start(peer), moves[..n]))
    decreases n
  {
    hide Straight;
    hide Apply;
    hide Inv;
    if n == 0 {
      StartKeeps(peer);
    } else {
      RunStaysStraight(peer, moves, n - 1);
      RunKeeps(peer, moves[..n - 1]);
      RunPrefix(Start(peer), moves, n - 1);
      StepStaysStraight(Run(Start(peer), moves[..n - 1]), moves[n - 1]);
    }
  }

  /**
   At every moment of a run the messages handled so far, and those waiting in posted and queued events, are
   the messages that the polls read, in order and once each - if and only if no poll ever took a good READ
   into another buffer than the one it handed out.
   */
  lemma DeliveryExactly(peer: Peer, moves: seq<Move>)
    requires Started(peer)
    ensures (forall k :: 0 <= k <= |moves| ==> DeliversAll(Run(Start(peer), moves[..k]))) <==>
            NeverMistaken(peer, moves)
  {
    hide Run;
    hide DeliversAll;
    hide MistakenAt;
    hide Inv;
    hide Straight;
    hide Apply;
    if NeverMistaken(peer, moves) {
      forall k | 0 <= k <= |moves| ensures DeliversAll(Run(Start(peer), moves[..k])) {
        RunStaysStraight(peer, moves, k);
        RunKeeps(peer, moves[..k]);
        StraightDelivers(Run(Start(peer), moves[..k]));
      }
    } else {
      var k :| 0 <= k < |moves| && MistakenAt(Run(Start(peer), moves[..k]), moves[k]);
      RunKeeps(peer, moves[..k]);
      MistakeShows(Run(Start(peer), moves[..k]), moves[k]);
      RunPrefix(Start(peer), moves, k);
    }
  }

  /** It never happens in a run all of whose sessions were opened at rest. */
  lemma RestedRunsDeliver(peer: Peer, moves: seq<Move>)
    requires Started(peer)
    requires forall k :: 0 <= k <= |moves| ==> Run(Start(peer), moves[..k]).pump.rested
    ensures NeverMistaken(peer, moves) && DeliversAll(Run(Start(peer), moves))
  {
    hide Run;
    hide DeliversAll;
    hide Inv;
    forall k | 0 <= k < |moves| ensures !MistakenAt(Run(Start(peer), moves[..k]), moves[k]) {
      RunKeeps(peer, moves[..k]);
      PumpIsLogged(Run(Start(peer), moves[..k]));
      if MistakenAt(Run(Start(peer), moves[..k]), moves[k]) {
        RestedMakesNoMistake(Run(Start(peer), moves[..k]).pump, moves[k].completion.value);
      }
    }
    DeliveryExactly(peer, moves);
    assert moves[..|moves|] == moves;
  }

  lemma PumpIsLogged(s: System)
    requires Inv(s)
    ensures Logged(s.pump) && Buffers(s.pump)
  {
    hide Observe;
    hide Count;
    hide Logged;
    hide Buffers;
  }

  /**
   Of a session opened at rest: what the polls handed on is what was read, or all but the last message; it is
   all as long as the stream is open, and falls short exactly when the last READ was taken by a closing, or
   by an opening that failed.
   */
  lemma SessionDelivery(peer: Peer, moves: seq<Move>)
    requires Started(peer) && Run(Start(peer), moves).pump.rested
    ensures var p := Run(Start(peer), moves).pump;
      && p.since <= |p.read|
      && var session := p.read[p.since..];
      && Polls(p.read) == Polls(p.read[..p.since]) + Polls(session)
      && Polls(session) <= All(session)
      && |All(session)| - |Polls(session)| <= 1
      && (Polls(session) == All(session) <==> session == [] || Last(session).polled)
      && (p.keepReader ==> Polls(session) == All(session))
  {
    hide Inv;
    hide Polls;
    hide All;
    RunKeeps(peer, moves);
    PumpIsLogged(Run(Start(peer), moves));
    hide Run;
    PumpSession(Run(Start(peer), moves).pump);
  }

  lemma PumpSession(p: Pump)
    requires Logged(p) && p.rested
    ensures p.since <= |p.read|
    ensures var session := p.read[p.since..];
      && Polls(p.read) == Polls(p.read[..p.since]) + Polls(session)
      && Polls(session) <= All(session)
      && |All(session)| - |Polls(session)| <= 1
      && (Polls(session) == All(session) <==> session == [] || Last(session).polled)
      && (p.keepReader ==> Polls(session) == All(session))
  {
    hide Polls;
    hide All;
    SessionShortfall(p);
    PollsSum(p.read[..p.since], p.read[p.since..]);
    assert p.read[..p.since] + p.read[p.since..] == p.read;
  }

  /**
   Delivery, session by session. In a run that never made the mistake: after what earlier sessions delivered,
   the messages handled and those waiting go on with the messages of a session that was opened at rest, in order
   and once each, short of the last one at most; and no READ is filling a buffer that an event owns.
   */
  lemma ReadIsDelivered(peer: Peer, moves: seq<Move>)
    requires Started(peer) && NeverMistaken(peer, moves) && Run(Start(peer), moves).pump.rested
    ensures var s := Run(Start(peer), moves); var p := s.pump;
      var waiting := DeliveredIn(s.machine.posted + s.machine.queue);
      && p.since <= |p.read| && AllFilled(p, waiting)
      && var session := p.read[p.since..];
      && (MessagesIn(Handled(s)) + Contents(p, waiting) == Polls(p.read[..p.since]) + All(session)
          || (session != [] && !Last(session).polled && !p.keepReader
              && MessagesIn(Handled(s)) + Contents(p, waiting) == Polls(p.read[..p.since]) + All(Front(session))))
      && forall b :: b in p.reading ==> b !in DeliveredIn(s.machine.accepted)
  {
    hide Inv;
    hide Polls;
    hide All;
    hide Straight;
    assert moves[..|moves|] == moves;
    SessionDelivery(peer, moves);
    DeliveryExactly(peer, moves);
    RunStaysStraight(peer, moves, |moves|);
    RunKeeps(peer, moves);
    hide Run;
    var s := Run(Start(peer), moves);
    OwnedBuffersAreDone(s);
    var session := s.pump.read[s.pump.since..];
    if session != [] && !Last(session).polled { ShortByOne(session); }
  }

  lemma ShortByOne(session: seq<Arrival>)
    requires session != [] && !Last(session).polled
    requires Polls(session) <= All(session) && |All(session)| - |Polls(session)| <= 1
    ensures Polls(session) == All(Front(session))
  {
    AllLength(session);
    PollsAtMost(Front(session));
    assert All(session) == All(Front(session)) + [Last(session).message];
    AllLength(Front(session));
  }

  lemma {:induction false} PollsAtMost(read: seq<Arrival>)
    ensures |Polls(read)| <= |All(read)|
  {
    if read != [] {
      PollsAtMost(Front(read));
    }
  }

  lemma OwnedBuffersAreDone(s: System)
    requires Inv(s) && Straight(s)
    ensures forall b :: b in s.pump.reading ==> b !in DeliveredIn(s.machine.accepted)
  {
    hide Observe;
    hide Count;
    hide DeliveredIn;
    hide InStep;
    hide Delivers;
    HandedAreFilled(s.pump);
  }
}
