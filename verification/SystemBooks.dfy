/** The books of the completion queue: every operation that was begun has completed once, or is outstanding. */
module SystemBooks {
  import opened Messages
  import opened Channels
  import opened ChannelTheory
  import opened FacadePump
  import opened PumpDelivery
  import opened Tallies
  import opened ClientSystem
  import opened SystemTheory
  import opened SystemSending

  /** The completions of each kind that the client took, and the messages of the good READs among them, in order. */
  datatype Books = Books(opens: nat, closes: nat, writes: nat, readings: nat, good: seq<ControlMessage>)

  const NEW_BOOKS := Books(0, 0, 0, 0, [])

  function Enter(b: Books, c: Completion): Books {
    match c
    case OpenDone(_) => b.(opens := b.opens + 1)
    case CloseDone(_) => b.(closes := b.closes + 1)
    case WriteDone(_) => b.(writes := b.writes + 1)
    case ReadDone(ok, _, m) => b.(readings := b.readings + 1, good := b.good + if ok then [m] else [])
  }

  function EnterAll(b: Books, cs: seq<Completion>): Books
    decreases |cs|
  {
    if cs == [] then b else EnterAll(Enter(b, cs[0]), cs[1..])
  }

  /** Opening the stream takes a completion if one comes in time, and closing takes those of the drain loop. */
  function Consumed(a: Action, answers: Answers): seq<Completion> {
    if a.StreamOpened? || a.StreamOpenFailed? then
      if answers.opening.Some? then [answers.opening.value] else []
    else if a.StreamClosed? then answers.drain
    else []
  }

  function EnterActions(b: Books, actions: seq<Action>, answers: Answers): Books {
    if actions == [] then b
    else EnterAll(EnterActions(b, Front(actions), answers), Consumed(Last(actions), answers))
  }

  ghost function EnterMove(b: Books, s: System, m: Move): Books {
    match m
    case Polling(c) => if PollRuns(s, c) && c.Some? then Enter(b, c.value) else b
    case Handling(x) => EnterActions(b, NewActions(s.peer, RunEvent(s, x).peer), x.answers)
    case _ => b
  }

  ghost function BooksOf(peer: Peer, moves: seq<Move>): Books {
    if moves == [] then NEW_BOOKS
    else EnterMove(BooksOf(peer, Front(moves)), Run(Start(peer), Front(moves)), Last(moves))
  }

  /**
   What was begun, as the trace has it, is what completed and what is outstanding. An opened stream begins a
   READ, and so does every message handed on; a message sent begins a WRITE, unless it still waits in the queue.
   */
  predicate Settled(p: Pump, t: seq<Action>, b: Books) {
    && p.opens + b.opens == Count(t).openings + Count(t).refusals
    && p.closes + b.closes == Count(t).closings
    && p.writes + b.writes + |p.sendingQueue| == |MessagesSent(t)|
    && |p.reading| + b.readings == Count(t).openings + |p.handed|
    && All(p.read) == b.good
  }

  /** The numbers that matter here. */
  datatype Figures = Figures(opens: int, closes: int, writes: int, readings: int)

  function Outstanding(p: Pump): Figures {
    Figures(p.opens, p.closes, p.writes + |p.sendingQueue|, |p.reading| - |p.handed|)
  }

  function Taken(f: Figures, c: Completion): Figures {
    match c
    case OpenDone(_) => f.(opens := f.opens - 1)
    case CloseDone(_) => f.(closes := f.closes - 1)
    case WriteDone(_) => f.(writes := f.writes - 1)
    case ReadDone(_, _, _) => f.(readings := f.readings - 1)
  }

  function Good(c: Completion): seq<ControlMessage> {
    if c.ReadDone? && c.ok then [c.message] else []
  }

  lemma TakeFigures(p: Pump, c: Completion)
    requires Due(p, c)
    ensures Outstanding(Take(p, c)) == Taken(Outstanding(p), c)
    ensures All(Take(p, c).read) == All(p.read) + Good(c)
  {
    if c.ReadDone? && c.ok { assert Front(p.read + [Arrival(c.message, false)]) == p.read; }
    assert All(p.read) + [] == All(p.read);
  }

  lemma PollFigures(p: Pump, c: Completion)
    requires Due(p, c)
    ensures Outstanding(Polled(p, Some(c))) == Taken(Outstanding(p), c)
    ensures All(Polled(p, Some(c)).read) == All(p.read) + Good(c)
  {
    if c.ReadDone? && c.ok { assert Front(p.read + [Arrival(c.message, true)]) == p.read; }
    assert All(p.read) + [] == All(p.read);
  }

  lemma EnterSettles(p: Pump, q: Pump, t: seq<Action>, b: Books, c: Completion)
    requires Settled(p, t, b)
    requires Outstanding(q) == Taken(Outstanding(p), c) && All(q.read) == All(p.read) + Good(c)
    ensures Settled(q, t, Enter(b, c))
  {
  }

  lemma {:induction false} TakeAllSettles(p: Pump, cs: seq<Completion>, t: seq<Action>, b: Books)
    requires Settled(p, t, b) && DueInTurn(p, cs)
    ensures Settled(TakeAll(p, cs), t, EnterAll(b, cs))
    decreases |cs|
  {
    if cs != [] {
      TakeFigures(p, cs[0]);
      EnterSettles(p, Take(p, cs[0]), t, b, cs[0]);
      hide Take;
      TakeAllSettles(Take(p, cs[0]), cs[1..], t, Enter(b, cs[0]));
    }
  }

  lemma OneEntry(b: Books, c: Completion)
    ensures EnterAll(b, [c]) == Enter(b, c) && EnterAll(b, []) == b
  {
    assert [c][1..] == [];
  }

  lemma ActionFigures(t: seq<Action>, a: Action)
    ensures Count(t + [a]) == NextTally(Count(t), a)
    ensures |MessagesSent(t + [a])| == |MessagesSent(t)| + if a.Sent? then 1 else 0
  {
    assert Front(t + [a]) == t;
  }

  lemma OpenedSettles(p: Pump, t: seq<Action>, b: Books)
    requires Settled(p, t, b) && Due(Requested(p), OpenDone(true))
    ensures Settled(FacadePump.Open(p, Some(OpenDone(true))), t + [StreamOpened], Enter(b, OpenDone(true)))
  {
    ActionFigures(t, StreamOpened);
    assert All(p.read) + [] == All(p.read);
    hide Count;
    hide MessagesSent;
    hide All;
  }

  lemma RequestSettles(p: Pump, t: seq<Action>, b: Books)
    requires Settled(p, t, b)
    ensures Settled(Requested(p), t + [StreamOpenFailed], b)
  {
    ActionFigures(t, StreamOpenFailed);
    hide Count;
    hide MessagesSent;
    hide All;
  }

  lemma RefusedSettles(p: Pump, t: seq<Action>, b: Books, answer: Option<Completion>)
    requires Settled(p, t, b) && (answer.Some? ==> Due(Requested(p), answer.value)) && !Opens(answer)
    ensures Settled(FacadePump.Open(p, answer), t + [StreamOpenFailed],
                    EnterAll(b, if answer.Some? then [answer.value] else []))
  {
    var q := Requested(p);
    RequestSettles(p, t, b);
    if answer.None? {
      assert FacadePump.Open(p, answer) == q;
    } else {
      assert FacadePump.Open(p, answer) == Take(q, answer.value);
      OneEntry(b, answer.value);
      TakeFigures(q, answer.value);
      hide *;
      EnterSettles(q, Take(q, answer.value), t + [StreamOpenFailed], b, answer.value);
    }
  }

  lemma CloseSettles(p: Pump, t: seq<Action>, b: Books, cs: seq<Completion>)
    requires Settled(p, t, b) && Drains(p, cs)
    ensures Settled(FacadePump.Close(p, cs), t + [StreamClosed], EnterAll(b, cs))
  {
    ActionFigures(t, StreamClosed);
    hide Count;
    hide MessagesSent;
    hide All;
    assert Settled(Finishing(p), t + [StreamClosed], b);
    TakeAllSettles(Finishing(p), cs, t + [StreamClosed], b);
  }

  lemma SendSettles(p: Pump, t: seq<Action>, b: Books, m: ClientMessage)
    requires Settled(p, t, b)
    ensures Settled(SendMessage(p, m), t + [Sent(m)], b)
  {
    ActionFigures(t, Sent(m));
    hide Count;
    hide MessagesSent;
  }

  lemma DriveOneSettles(p: Pump, t: seq<Action>, b: Books, a: Action, answers: Answers)
    requires Settled(p, t, b) && DriveOne(p, a, answers).Some?
    ensures Settled(DriveOne(p, a, answers).value, t + [a], EnterAll(b, Consumed(a, answers)))
  {
    hide Settled;
    hide FacadePump.Open;
    hide FacadePump.Close;
    hide SendMessage;
    assert EnterAll(b, []) == b;
    match a
    case Sent(m) => SendSettles(p, t, b, m);
    case StreamOpened => OneEntry(b, OpenDone(true)); OpenedSettles(p, t, b);
    case StreamOpenFailed => RefusedSettles(p, t, b, answers.opening);
    case StreamClosed => CloseSettles(p, t, b, answers.drain);
    case _ => OtherSettles(p, t, b, a);
  }

  lemma OtherSettles(p: Pump, t: seq<Action>, b: Books, a: Action)
    requires Settled(p, t, b) && !a.Sent? && !a.StreamOpened? && !a.StreamOpenFailed? && !a.StreamClosed?
    ensures Settled(p, t + [a], b)
  {
    ActionFigures(t, a);
    hide Count;
    hide MessagesSent;
  }

  lemma {:induction false} DriveSettles(p: Pump, t: seq<Action>, b: Books, actions: seq<Action>,
      answers: Answers)
    requires Settled(p, t, b) && Drive(p, actions, answers).Some?
    ensures Settled(Drive(p, actions, answers).value, t + actions, EnterActions(b, actions, answers))
  {
    if actions == [] {
      assert t + actions == t;
    } else {
      var before := Drive(p, Front(actions), answers);
      var entered := EnterActions(b, Front(actions), answers);
      assert before.Some? && Drive(p, actions, answers) == DriveOne(before.value, Last(actions), answers);
      assert EnterActions(b, actions, answers) == EnterAll(entered, Consumed(Last(actions), answers));
      DriveSettles(p, t, b, Front(actions), answers);
      hide *;
      DriveOneSettles(before.value, t + Front(actions), entered, Last(actions), answers);
      LastOn(t, actions);
    }
  }

  lemma HandlingSettles(s: System, b: Books, x: Circumstances)
    requires Inv(s) && Settled(s.pump, WorldOf(s.peer).trace, b)
    ensures var n := RunEvent(s, x);
      Settled(n.pump, WorldOf(n.peer).trace, EnterActions(b, NewActions(s.peer, n.peer), x.answers))
  {
    hide Settled;
    hide Drive;
    hide TaskShape;
    hide PumpFits;
    hide Advance;
    var n := RunEvent(s, x);
    if n != s {
      NotStalled(s);
      PeerAdvances(s.peer, Input(EventAtHead(s, x), EnvOf(x)));
      var t := WorldOf(s.peer).trace;
      assert t + NewActions(s.peer, n.peer) == WorldOf(n.peer).trace;
      DriveSettles(s.pump, t, b, NewActions(s.peer, n.peer), x.answers);
    }
  }

  lemma PollingSettles(s: System, b: Books, c: Option<Completion>)
    requires Settled(s.pump, WorldOf(s.peer).trace, b)
    ensures var n := RunPoll(s, c);
      && n.peer == s.peer
      && Settled(n.pump, WorldOf(n.peer).trace, if PollRuns(s, c) && c.Some? then Enter(b, c.value) else b)
  {
    hide Settled;
    hide Polled;
    if PollRuns(s, c) {
      if c.Some? {
        PollFigures(s.pump, c.value);
        EnterSettles(s.pump, Polled(s.pump, c), WorldOf(s.peer).trace, b, c.value);
      } else {
        PollingGoesOn(s.pump, c);
      }
    }
  }

  lemma StepSettles(s: System, b: Books, m: Move)
    requires Inv(s) && Settled(s.pump, WorldOf(s.peer).trace, b)
    ensures var n := Apply(s, m); Settled(n.pump, WorldOf(n.peer).trace, EnterMove(b, s, m))
  {
    hide Inv;
    hide Settled;
    hide RunPoll;
    hide RunEvent;
    hide EnterActions;
    match m
    case Polling(c) => PollingSettles(s, b, c);
    case Handling(x) => HandlingSettles(s, b, x);
    case _ =>
  }

  lemma ColdSettles()
    ensures Settled(COLD, [], NEW_BOOKS)
  {
    EmptyRecords();
    hide Count;
    hide MessagesSent;
    hide All;
  }

  lemma EmptyRecords()
    ensures Count([]) == Tally(0, 0, 0, 0, 0, 0, 0, []) && MessagesSent([]) == [] && All([]) == []
  {
  }

  lemma StartSettles(peer: Peer)
    requires Started(peer)
    ensures Settled(Start(peer).pump, WorldOf(Start(peer).peer).trace, NEW_BOOKS)
  {
    PeerStarts(peer);
    assert Start(peer).pump == COLD && WorldOf(Start(peer).peer).trace == [];
    hide *;
    ColdSettles();
  }

  /**
   In every run: each opening, closing, WRITE and READ that the client ever began - for an attempt to open, a
   closing, a message sent, a stream opened, a message handed on - has completed once and was taken, or is
   outstanding. And the messages read are those of the good READs that were taken, in the order of their completion.
   */
  lemma {:induction false} OperationsAreSettled(peer: Peer, moves: seq<Move>)
    requires Started(peer)
    ensures var s := Run(Start(peer), moves); Settled(s.pump, WorldOf(s.peer).trace, BooksOf(peer, moves))
  {
    if moves == [] {
      assert Run(Start(peer), moves) == Start(peer) && BooksOf(peer, moves) == NEW_BOOKS;
      hide *;
      StartSettles(peer);
    } else {
      var before := Run(Start(peer), Front(moves));
      assert Run(Start(peer), moves) == Apply(before, Last(moves));
      assert BooksOf(peer, moves) == EnterMove(BooksOf(peer, Front(moves)), before, Last(moves));
      OperationsAreSettled(peer, Front(moves));
      RunKeeps(peer, Front(moves));
      hide *;
      StepSettles(before, BooksOf(peer, Front(moves)), Last(moves));
    }
  }
}
