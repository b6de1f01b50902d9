/** Every event reaches its handler as it was given, once and in its turn. */
module SystemEvents {
  import opened Messages
  import opened Channels
  import opened ChannelTheory
  import opened Observers
  import opened FacadePump
  import opened Tallies
  import opened ClientSystem
  import opened SystemTheory
  import opened SystemDelivery
  import M = EventMachine

  /** What the client was notified of by its user and by the timers, in order. */
  function Notices(moves: seq<Move>): seq<Event> {
    if moves == [] then []
    else Notices(Front(moves)) +
         if Last(moves).Notifying? && !Last(moves).event.Received? then [Last(moves).event] else []
  }

  function GivenIn(ts: seq<Ticket>): seq<Event> {
    if ts == [] then [] else GivenIn(Front(ts)) + if Last(ts).Given? then [Last(ts).event] else []
  }

  /** The events that are not messages from the stream. */
  function Others(es: seq<Event>): seq<Event> {
    if es == [] then [] else Others(Front(es)) + if Last(es).Received? then [] else [Last(es)]
  }

  lemma {:induction false} GivenInSum(a: seq<Ticket>, b: seq<Ticket>)
    ensures GivenIn(a + b) == GivenIn(a) + GivenIn(b)
  {
    if b == [] {
      assert a + b == a;
    } else {
      assert Front(a + b) == a + Front(b) && Last(a + b) == Last(b);
      GivenInSum(a, Front(b));
    }
  }

  /** This event is what the ticket stands for: the event given, or some message read from the stream. */
  predicate Fulfils(e: Event, t: Ticket) {
    match t
    case Given(given) => e == given
    case Delivered(_) => e.Received?
  }

  /** The events handled fulfil the tickets begun, one by one. */
  predicate Respects(handled: seq<Event>, begun: seq<Ticket>) {
    |handled| == |begun| && forall i :: 0 <= i < |begun| ==> Fulfils(handled[i], begun[i])
  }

  lemma RespectsOneMore(handled: seq<Event>, begun: seq<Ticket>, e: Event, t: Ticket)
    requires Respects(handled, begun) && Fulfils(e, t)
    ensures Respects(handled + [e], begun + [t])
  {
  }

  lemma {:induction false} OthersAreGiven(handled: seq<Event>, begun: seq<Ticket>)
    requires Respects(handled, begun) && NoForgery(begun)
    ensures Others(handled) == GivenIn(begun)
  {
    if begun != [] {
      assert Fulfils(Last(handled), Last(begun));
      assert Respects(Front(handled), Front(begun)) by {
        forall i | 0 <= i < |begun| - 1 ensures Fulfils(Front(handled)[i], Front(begun)[i]) {
          assert Fulfils(handled[i], begun[i]);
        }
      }
      OthersAreGiven(Front(handled), Front(begun));
    }
  }

  /** Which tickets were accepted, and what was handled for them. */
  ghost predicate Faithful(s: System, moves: seq<Move>) {
    && GivenIn(s.machine.accepted) == Notices(moves)
    && Respects(Handled(s), s.machine.handled + s.machine.running)
  }

  lemma EventFulfils(p: Pump, t: Ticket, blank: ControlMessage)
    ensures Fulfils(EventOf(p, t, blank), t)
  {
  }

  /** A handler was run: which ticket was begun, and what was handled. */
  lemma EventRuns(s: System, x: Circumstances)
    requires Inv(s) && RunEvent(s, x) != s
    ensures s.io != [] && s.io[0].Handle?
    ensures var n := RunEvent(s, x);
      && n.machine.accepted == s.machine.accepted
      && n.machine.handled + n.machine.running == s.machine.handled + s.machine.running + [s.io[0].ticket]
      && Handled(n) == Handled(s) + [EventAtHead(s, x)]
  {
    hide Observe;
    hide Count;
    hide Drive;
    hide TaskShape;
    hide PumpHolds;
    hide PollsFor;
    hide PeerHolds;
    hide Advance;
    hide NewActions;
    hide M.Orderly;
    hide EventOf;
    hide TicketsFit;
    var n := RunEvent(s, x);
    NotStalled(s);
    PostedAtHead(s);
    var e := EventAtHead(s, x);
    HandlerFits(s, e, x);
    HandlerPosts(s, e, x);
    var openings := Count(WorldOf(n.peer).trace).openings - Count(WorldOf(s.peer).trace).openings;
    BegunKeepsShape(s, openings, WorldOf(n.peer).status == Running, n.pump.keepReader);
  }

  lemma HandlingRespects(s: System, x: Circumstances)
    requires Inv(s) && Respects(Handled(s), s.machine.handled + s.machine.running)
    ensures var n := RunEvent(s, x);
      n.machine.accepted == s.machine.accepted && Respects(Handled(n), n.machine.handled + n.machine.running)
  {
    if RunEvent(s, x) != s {
      EventRuns(s, x);
      EventFulfils(s.pump, s.io[0].ticket, x.blank);
      hide *;
      hide Respects;
      RespectsOneMore(Handled(s), s.machine.handled + s.machine.running, EventAtHead(s, x), s.io[0].ticket);
    }
  }

  lemma NoticedOneMore(moves: seq<Move>, m: Move)
    ensures Notices(moves + [m]) == Notices(moves) + if m.Notifying? && !m.event.Received? then [m.event] else []
  {
    assert Front(moves + [m]) == moves;
  }

  lemma NotifiedIsFaithful(s: System, moves: seq<Move>, t: Ticket)
    requires Faithful(s, moves)
    ensures var n := Notified(s, t);
      && GivenIn(n.machine.accepted) == Notices(moves) + (if t.Given? then [t.event] else [])
      && Respects(Handled(n), n.machine.handled + n.machine.running)
  {
    hide Count;
    hide Respects;
    hide Notices;
    GivenInSum(s.machine.accepted, [t]);
    assert GivenIn([]) + (if t.Given? then [t.event] else []) == if t.Given? then [t.event] else [];
    assert Front([t]) == [];
  }

  /** What a poll does to the machine and to the peer. */
  lemma PollNotifies(s: System, c: Option<Completion>)
    ensures var n := RunPoll(s, c);
      && n.peer == s.peer
      && (n.machine == s.machine || n.machine == Notified(s, Delivered(s.pump.toRead)).machine)
  {
    hide Polled;
    hide M.Notify;
  }

  lemma PollingIsFaithful(s: System, moves: seq<Move>, c: Option<Completion>)
    requires Faithful(s, moves)
    ensures Faithful(RunPoll(s, c), moves)
  {
    var t := Delivered(s.pump.toRead);
    NotifiedIsFaithful(s, moves, t);
    PollNotifies(s, c);
    assert Notices(moves) + [] == Notices(moves);
    assert Notified(s, t).peer == s.peer;
    hide *;
    hide Handled;
    SameFaith(s, RunPoll(s, c), moves);
    SameFaith(Notified(s, t), RunPoll(s, c), moves);
  }

  lemma SameFaith(s: System, n: System, moves: seq<Move>)
    ensures n.machine == s.machine && n.peer == s.peer ==>
              (Faithful(n, moves) <==>
                GivenIn(s.machine.accepted) == Notices(moves)
                && Respects(Handled(s), s.machine.handled + s.machine.running))
  {
    hide Count;
    hide Respects;
    hide Notices;
    hide GivenIn;
  }

  lemma ReturningIsFaithful(s: System, moves: seq<Move>)
    requires Inv(s) && Faithful(s, moves)
    ensures Faithful(Return(s), moves)
  {
    hide Observe;
    hide Count;
    hide Respects;
    hide TaskShape;
    hide PumpFits;
    hide PeerHolds;
    hide Notices;
    hide GivenIn;
    hide M.Proceed;
    if s.machine.running != [] { ReturnKeepsShape(s); }
  }

  lemma StepIsFaithful(s: System, moves: seq<Move>, m: Move)
    requires Inv(s) && Faithful(s, moves)
    ensures Faithful(Apply(s, m), moves + [m])
  {
    NoticedOneMore(moves, m);
    assert Notices(moves) + [] == Notices(moves);
    hide Notices;
    hide GivenIn;
    hide Inv;
    hide Count;
    hide Respects;
    hide RunPoll;
    hide RunEvent;
    hide Return;
    match m
    case Notifying(e) => NotifiedIsFaithful(s, moves, Given(e));
    case Polling(c) => PollingIsFaithful(s, moves, c);
    case Handling(x) => HandlingRespects(s, x);
    case Returning => ReturningIsFaithful(s, moves);
  }

  lemma StartIsFaithful(peer: Peer)
    requires Started(peer)
    ensures Faithful(Start(peer), [])
  {
    PeerStarts(peer);
    hide Started;
    hide PeerHolds;
  }

  lemma {:induction false} RunIsFaithful(peer: Peer, moves: seq<Move>)
    requires Started(peer)
    ensures Faithful(Run(Start(peer), moves), moves)
  {
    hide Faithful;
    hide Apply;
    hide Inv;
    if moves == [] {
      StartIsFaithful(peer);
    } else {
      RunIsFaithful(peer, Front(moves));
      RunKeeps(peer, Front(moves));
      StepIsFaithful(Run(Start(peer), Front(moves)), Front(moves), Last(moves));
      assert Front(moves) + [Last(moves)] == moves;
    }
  }

  /**
   In every run, whatever mistakes the pump makes: the events handled so far that are no messages from the
   stream, and those waiting, are the events the client was notified of, in order and once each.
   */
  lemma NoticesAreHandled(peer: Peer, moves: seq<Move>)
    requires Started(peer)
    ensures var s := Run(Start(peer), moves);
      Others(Handled(s)) + GivenIn(s.machine.posted + s.machine.queue) == Notices(moves)
  {
    RunKeeps(peer, moves);
    RunIsFaithful(peer, moves);
    hide Run;
    AcceptedSplits(Run(Start(peer), moves));
  }

  lemma AcceptedSplits(s: System)
    requires Inv(s) && Respects(Handled(s), s.machine.handled + s.machine.running)
    ensures Others(Handled(s)) + GivenIn(s.machine.posted + s.machine.queue) == GivenIn(s.machine.accepted)
  {
    hide Observe;
    hide Count;
    hide TaskShape;
    hide PumpFits;
    hide PeerHolds;
    hide Respects;
    var begun := s.machine.handled + s.machine.running;
    var waiting := s.machine.posted + s.machine.queue;
    assert s.machine.accepted == begun + waiting;
    GivenInSum(begun, waiting);
    assert NoForgery(begun) by { assert forall i :: 0 <= i < |begun| ==> begun[i] == s.machine.accepted[i]; }
    OthersAreGiven(Handled(s), begun);
  }

  /** Each handler gets its own event: the one accepted in that place, or a message where one was delivered. */
  lemma HandlersGetTheirEvents(peer: Peer, moves: seq<Move>)
    requires Started(peer)
    ensures var s := Run(Start(peer), moves);
      && |Handled(s)| == |s.machine.handled| + |s.machine.running| <= |s.machine.accepted|
      && forall i :: 0 <= i < |Handled(s)| ==> Fulfils(Handled(s)[i], s.machine.accepted[i])
  {
    RunKeeps(peer, moves);
    RunIsFaithful(peer, moves);
    var s := Run(Start(peer), moves);
    hide Run;
    AcceptedBegins(s);
    var begun := s.machine.handled + s.machine.running;
    forall i | 0 <= i < |Handled(s)| ensures Fulfils(Handled(s)[i], s.machine.accepted[i]) {
      assert Fulfils(Handled(s)[i], begun[i]);
    }
  }

  lemma AcceptedBegins(s: System)
    requires Inv(s)
    ensures s.machine.handled + s.machine.running <= s.machine.accepted
  {
    hide Observe;
    hide Count;
  }
}
