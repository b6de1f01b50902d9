/** What the handlers send and what becomes of it in the pump: nothing else, nothing lost, and in which order. */
module SystemSending {
  import opened Messages
  import opened Channels
  import opened ChannelTheory
  import opened Observers
  import opened FacadePump
  import opened PumpTheory
  import opened ClientSystem
  import opened SystemTheory
  import SystemDelivery

  // ---------------------------------------------------------------- the messages in a trace

  function MessagesSent(t: seq<Action>): seq<ClientMessage> {
    if t == [] then [] else MessagesSent(Front(t)) + if Last(t).Sent? then [Last(t).message] else []
  }

  /** The messages sent since the stream was opened for the last time. */
  function SentSince(t: seq<Action>): seq<ClientMessage> {
    if t == [] || Last(t).StreamOpened? then []
    else SentSince(Front(t)) + if Last(t).Sent? then [Last(t).message] else []
  }

  /** Position `o` is the last opening of the stream, and it was not closed since. */
  predicate OpenedLast(t: seq<Action>, o: nat) {
    && o < |t| && t[o].StreamOpened?
    && forall k :: o < k < |t| ==> !t[k].StreamOpened? && !t[k].StreamClosed?
  }

  lemma {:induction false} SentSinceMeans(t: seq<Action>, o: nat)
    requires OpenedLast(t, o)
    ensures SentSince(t) == MessagesSent(t[o + 1..])
  {
    if o + 1 < |t| {
      assert forall k :: 0 <= k < |t| - 1 ==> Front(t)[k] == t[k];
      SentSinceMeans(Front(t), o);
      assert Front(t[o + 1..]) == Front(t)[o + 1..] && Last(t[o + 1..]) == Last(t);
    }
  }

  lemma {:induction false} OpenStreamWasOpened(t: seq<Action>)
    requires IsOpen(Observe(t).stream)
    ensures exists o :: OpenedLast(t, o)
  {
    if t != [] {
      if Last(t).StreamOpened? {
        assert OpenedLast(t, |t| - 1);
      } else {
        OpenStreamWasOpened(Front(t));
        var o :| OpenedLast(Front(t), o);
        assert forall k :: 0 <= k < |t| - 1 ==> Front(t)[k] == t[k];
        assert OpenedLast(t, o);
      }
    }
  }

  // ---------------------------------------------------------------- the pump has what was sent

  /** What the session was given and what it found in the queue is written or queued. */
  predicate Balanced(p: Pump) {
    multiset(p.written) + multiset(p.sendingQueue) == multiset(p.leftover) + multiset(p.sent)
  }

  lemma Shift<T>(a: multiset<T>, b: multiset<T>, c: multiset<T>)
    ensures a + b + c == a + c + b && a + (b + c) == a + b + c
  {
  }

  lemma SendBalances(p: Pump, m: ClientMessage)
    requires Balanced(p)
    ensures Balanced(SendMessage(p, m))
  {
    var w, q, one := multiset(p.written), multiset(p.sendingQueue), multiset{m};
    assert multiset(p.sent + [m]) == multiset(p.sent) + one;
    assert multiset(p.written + [m]) == w + one && multiset(p.sendingQueue + [m]) == q + one;
    Shift(multiset(p.leftover), multiset(p.sent), one);
    Shift(w, q, one);
  }

  /** The messages of the session are the same. */
  predicate SameMessages(p: Pump, q: Pump) {
    q.sent == p.sent && q.written == p.written && q.sendingQueue == p.sendingQueue && q.leftover == p.leftover
  }

  lemma {:induction false} TakeAllSendsNothing(p: Pump, cs: seq<Completion>)
    requires DueInTurn(p, cs)
    ensures SameMessages(p, TakeAll(p, cs))
    decreases |cs|
  {
    if cs != [] {
      TakeAllSendsNothing(Take(p, cs[0]), cs[1..]);
    }
  }

  lemma OpenSendsNothing(p: Pump, answer: Option<Completion>)
    requires answer.Some? ==> Due(Requested(p), answer.value)
    ensures var q := FacadePump.Open(p, answer);
      if Opens(answer) then
        q.sent == [] && q.written == [] && q.sendingQueue == p.sendingQueue && q.leftover == p.sendingQueue
      else SameMessages(p, q)
  {
  }

  lemma SentSinceLast(t: seq<Action>, a: Action)
    ensures SentSince(t + [a]) ==
            if a.StreamOpened? then [] else if a.Sent? then SentSince(t) + [a.message] else SentSince(t)
  {
    assert Front(t + [a]) == t && SentSince(t) + [] == SentSince(t);
  }

  lemma DriveOneCarries(p: Pump, t: seq<Action>, a: Action, answers: Answers)
    requires Carries(p, t) && DriveOne(p, a, answers).Some?
    ensures Carries(DriveOne(p, a, answers).value, t + [a])
  {
    SentSinceLast(t, a);
    hide SentSince;
    match a
    case Sent(m) =>
      assert DriveOne(p, a, answers).value == SendMessage(p, m);
      hide DriveOne;
      SendBalances(p, m);
      hide Balanced;
    case StreamClosed =>
      assert DriveOne(p, a, answers).value == FacadePump.Close(p, answers.drain);
      hide DriveOne;
      TakeAllSendsNothing(Finishing(p), answers.drain);
    case StreamOpened =>
      assert DriveOne(p, a, answers).value == FacadePump.Open(p, answers.opening);
      OpenSendsNothing(p, answers.opening);
      hide DriveOne;
      hide FacadePump.Open;
    case StreamOpenFailed =>
      assert DriveOne(p, a, answers).value == FacadePump.Open(p, answers.opening);
      OpenSendsNothing(p, answers.opening);
      hide DriveOne;
      hide FacadePump.Open;
    case _ =>
  }

  lemma PollBalances(p: Pump, c: Option<Completion>)
    requires Balanced(p) && (c.Some? ==> Due(p, c.value))
    ensures Balanced(Polled(p, c)) && Polled(p, c).sent == p.sent
  {
    if c.Some? && c.value.WriteDone? && c.value.ok && p.sendingQueue != [] {
      assert p.sendingQueue == [p.sendingQueue[0]] + p.sendingQueue[1..];
    }
  }

  /** The session's messages, as the trace has them, are with the pump, and no message is lost. */
  predicate Carries(p: Pump, t: seq<Action>) {
    p.sent == SentSince(t) && Balanced(p)
  }

  lemma {:induction false} DriveCarries(p: Pump, t: seq<Action>, actions: seq<Action>, answers: Answers)
    requires Carries(p, t) && Drive(p, actions, answers).Some?
    ensures Carries(Drive(p, actions, answers).value, t + actions)
  {
    if actions == [] {
      assert t + actions == t;
    } else {
      var before := Drive(p, Front(actions), answers);
      assert before.Some? && Drive(p, actions, answers) == DriveOne(before.value, Last(actions), answers);
      DriveCarries(p, t, Front(actions), answers);
      hide *;
      DriveOneCarries(before.value, t + Front(actions), Last(actions), answers);
      assert t + Front(actions) + [Last(actions)] == t + actions by { LastOn(t, actions); }
    }
  }

  lemma LastOn<T>(t: seq<T>, more: seq<T>)
    requires more != []
    ensures t + Front(more) + [Last(more)] == t + more
  {
  }

  lemma StepCarries(s: System, m: Move)
    requires Inv(s) && Carries(s.pump, WorldOf(s.peer).trace)
    ensures var n := Apply(s, m); Carries(n.pump, WorldOf(n.peer).trace)
  {
    hide Balanced;
    hide SentSince;
    hide Observe;
    hide Drive;
    hide Polled;
    hide TaskShape;
    hide PumpFits;
    hide PumpHolds;
    hide Advance;
    match m
    case Polling(c) => if PollRuns(s, c) { PollBalances(s.pump, c); }
    case Handling(x) =>
      if Apply(s, m) != s {
        NotStalled(s);
        var i := Input(EventAtHead(s, x), EnvOf(x));
        PeerAdvances(s.peer, i);
        var t := WorldOf(s.peer).trace;
        assert t + NewActions(s.peer, Advance(s.peer, i)) == WorldOf(Advance(s.peer, i)).trace;
        DriveCarries(s.pump, t, NewActions(s.peer, Advance(s.peer, i)), x.answers);
      }
    case _ =>
  }

  lemma {:induction false} RunCarries(peer: Peer, moves: seq<Move>)
    requires Started(peer)
    ensures var s := Run(Start(peer), moves); Carries(s.pump, WorldOf(s.peer).trace)
  {
    if moves == [] {
      PeerStarts(peer);
    } else {
      RunCarries(peer, Front(moves));
      RunKeeps(peer, Front(moves));
      hide Carries;
      hide Inv;
      hide Apply;
      StepCarries(Run(Start(peer), Front(moves)), Last(moves));
    }
  }

  /**
   At every moment of every run: what the pump was given to send in this session is what the handlers sent
   since the stream was opened, in order. Of these messages and those left over from before none is lost, and
   none doubled: each is written or waits in the queue.
   */
  lemma HandlersFeedPump(peer: Peer, moves: seq<Move>)
    requires Started(peer)
    ensures var s := Run(Start(peer), moves); var p := s.pump;
      && p.sent == SentSince(WorldOf(s.peer).trace)
      && multiset(p.written) + multiset(p.sendingQueue) ==
         multiset(p.leftover) + multiset(SentSince(WorldOf(s.peer).trace))
  {
    RunCarries(peer, moves);
  }

  /**
   While a stream is open that was opened at rest, what is written and what waits, one after the other, are the
   messages of the handlers since that opening in the order in which they were sent, but for what was left
   over from before, which goes out after the first of them.
   */
  lemma HandlersReachWire(peer: Peer, moves: seq<Move>)
    requires Started(peer) && Run(Start(peer), moves).pump.keepReader && Run(Start(peer), moves).pump.rested
    ensures var s := Run(Start(peer), moves); var p := s.pump; var t := WorldOf(s.peer).trace;
      exists o :: OpenedLast(t, o) && p.sent == MessagesSent(t[o + 1..])
                  && p.written + p.sendingQueue == WireOrder(p.leftover, MessagesSent(t[o + 1..]))
  {
    RunCarries(peer, moves);
    RunKeeps(peer, moves);
    hide Run;
    hide Flows;
    var s := Run(Start(peer), moves);
    OpenHasOpened(s);
    var o :| OpenedLast(WorldOf(s.peer).trace, o);
    SentSinceMeans(WorldOf(s.peer).trace, o);
    hide Inv;
    SystemDelivery.OpenRestedFlows(s);
    FlowsInOrder(s.pump);
  }

  lemma OpenHasOpened(s: System)
    requires Inv(s) && s.pump.keepReader
    ensures exists o :: OpenedLast(WorldOf(s.peer).trace, o)
  {
    hide Observe;
    hide PeerHolds;
    hide TaskShape;
    OpenStreamWasOpened(WorldOf(s.peer).trace);
  }

  lemma FlowsInOrder(p: Pump)
    requires Flows(p)
    ensures p.written + p.sendingQueue == WireOrder(p.leftover, p.sent)
  {
  }
}
