/**
 The device listener's grammar, written out as a set of words, and the observer's automaton for it: the
 automaton accepts exactly the prefixes of repeated sessions.
 */
module ListenerGrammar {
  import opened Messages
  import opened Channels
  import opened ChannelTheory
  import opened Observers

  type Word = seq<FacadeEvent>

  /** What the listener was told. */
  function Heard(t: seq<Action>): Word {
    if t == [] then [] else Heard(Front(t)) + if Last(t).Told? then [Last(t).news] else []
  }

  // ---------------------------------------------------------------- the device

  predicate Traffic(e: FacadeEvent) {
    e.ChannelsOpened? || e.ChannelsClosing?
  }

  /** From the first channels of an operation on. */
  predicate InFlight(y: Word) {
    |y| >= 1 && y[0].ChannelsOpened? && forall k :: 1 <= k < |y| ==> Traffic(y[k])
  }

  predicate Flight(y: Word) {
    |y| >= 3 && InFlight(y[..|y| - 1]) && y[|y| - 2].ChannelsClosing? && y[|y| - 1].OperationEnd?
  }

  ghost predicate Flights(n: Word)
    decreases |n|
  {
    n == [] || exists a: Word, b: Word :: n == a + b && |a| < |n| && Flights(a) && Flight(b)
  }

  ghost predicate DeviceSession(n: Word) {
    || n == [Failure]
    || (|n| == 2 && n[0].Error? && n[1].Released?)
    || (|n| >= 2 && n[0].Attached? && n[|n| - 1].Released? && Flights(n[1..|n| - 1]))
  }

  ghost predicate DeviceSessions(n: Word)
    decreases |n|
  {
    n == [] || exists a: Word, b: Word :: n == a + b && |a| < |n| && DeviceSessions(a) && DeviceSession(b)
  }

  function DeviceHears(s: DeviceNews, n: Word): DeviceNews {
    if n == [] then s else NextDeviceNews(DeviceHears(s, Front(n)), Last(n))
  }

  lemma {:induction false} ObserverHears(t: seq<Action>)
    ensures Observe(t).device == DeviceHears(Away, Heard(t))
  {
    if t != [] {
      ObserverHears(Front(t));
      assert Heard(Front(t)) + [] == Heard(Front(t));
    }
  }

  lemma {:induction false} DeviceHearsSum(s: DeviceNews, a: Word, b: Word)
    ensures DeviceHears(s, a + b) == DeviceHears(DeviceHears(s, a), b)
  {
    if b == [] {
      assert a + b == a;
    } else {
      assert Front(a + b) == a + Front(b) && Last(a + b) == Last(b);
      DeviceHearsSum(s, a, Front(b));
    }
  }

  lemma {:induction false} InFlightHeard(y: Word)
    requires InFlight(y)
    ensures DeviceHears(Grounded, y) == if Last(y).ChannelsOpened? then Airborne else Landing
  {
    if |y| > 1 {
      assert Traffic(Last(y));
      InFlightHeard(Front(y));
    } else {
      assert Front(y) == [];
    }
  }

  lemma FlightHeard(y: Word)
    requires Flight(y)
    ensures DeviceHears(Grounded, y) == Grounded
  {
    InFlightHeard(Front(y));
    assert Last(Front(y)) == y[|y| - 2];
  }

  lemma {:induction false} FlightsHeard(n: Word)
    requires Flights(n)
    ensures DeviceHears(Grounded, n) == Grounded
    decreases |n|
  {
    if n != [] {
      var a: Word, b: Word :| n == a + b && |a| < |n| && Flights(a) && Flight(b);
      FlightsHeard(a);
      FlightHeard(b);
      DeviceHearsSum(Grounded, a, b);
    }
  }

  lemma HearsOne(s: DeviceNews, e: FacadeEvent)
    ensures DeviceHears(s, [e]) == NextDeviceNews(s, e)
  {
    assert Front([e]) == [];
  }

  lemma DeviceSessionHeard(n: Word)
    requires DeviceSession(n)
    ensures DeviceHears(Away, n) == Away
  {
    HearsOne(Away, n[0]);
    if |n| >= 2 && n[0].Attached? {
      var f := n[1..|n| - 1];
      var e := n[|n| - 1];
      FlightsHeard(f);
      assert n == [n[0]] + f + [e];
      DeviceHearsSum(Away, [n[0]], f);
      DeviceHearsSum(Away, [n[0]] + f, [e]);
      HearsOne(Grounded, e);
    } else if |n| == 2 {
      assert n == [n[0]] + [n[1]];
      DeviceHearsSum(Away, [n[0]], [n[1]]);
      HearsOne(Refused, n[1]);
    }
  }

  lemma {:induction false} DeviceSessionsHeard(n: Word)
    requires DeviceSessions(n)
    ensures DeviceHears(Away, n) == Away
    decreases |n|
  {
    if n != [] {
      var a: Word, b: Word :| n == a + b && |a| < |n| && DeviceSessions(a) && DeviceSession(b);
      DeviceSessionsHeard(a);
      DeviceSessionHeard(b);
      DeviceHearsSum(Away, a, b);
    }
  }

  /** What the automaton's state says of the session under way. */
  ghost predicate DevicePart(s: DeviceNews, b: Word) {
    match s
    case Away => b == []
    case Refused => |b| == 1 && b[0].Error?
    case Grounded => |b| >= 1 && b[0].Attached? && Flights(b[1..])
    case Airborne => OnTheWay(b)
    case Landing => OnTheWay(b) && b[|b| - 1].ChannelsClosing?
    case Jumbled => false
  }

  /** Attached, whole flights, and a flight that has not ended. */
  ghost predicate OnTheWay(b: Word) {
    |b| >= 2 && b[0].Attached? && exists f: Word, y: Word :: b[1..] == f + y && Flights(f) && InFlight(y)
  }

  lemma AddSession(a: Word, b: Word)
    requires DeviceSessions(a) && DeviceSession(b)
    ensures DeviceSessions(a + b)
  {
  }

  lemma AddFlight(a: Word, b: Word)
    requires Flights(a) && Flight(b)
    ensures Flights(a + b)
  {
  }

  lemma Grows(b: Word, f: Word, y: Word, e: FacadeEvent)
    requires |b| >= 1 && b[0].Attached? && b[1..] == f + y && Flights(f)
    requires (InFlight(y) && Traffic(e)) || (y == [] && e.ChannelsOpened?)
    ensures OnTheWay(b + [e])
  {
    assert (b + [e])[1..] == f + (y + [e]);
    assert InFlight(y + [e]);
  }

  lemma FlightEnds(y: Word, e: FacadeEvent)
    requires InFlight(y) && y[|y| - 1].ChannelsClosing? && e.OperationEnd?
    ensures Flight(y + [e])
  {
    assert (y + [e])[..|y|] == y;
  }

  lemma Ends(b: Word, f: Word, y: Word, e: FacadeEvent)
    requires |b| >= 1 && b[0].Attached? && b[1..] == f + y && Flights(f) && InFlight(y)
    requires y[|y| - 1].ChannelsClosing? && e.OperationEnd?
    ensures DevicePart(Grounded, b + [e])
  {
    FlightEnds(y, e);
    AddFlight(f, y + [e]);
    hide Flights;
    hide Flight;
    hide InFlight;
    assert (b + [e])[1..] == b[1..] + [e] == f + (y + [e]);
  }

  lemma SessionEnds(b: Word, e: FacadeEvent)
    requires |b| >= 1 && b[0].Attached? && Flights(b[1..]) && e.Released?
    ensures DeviceSession(b + [e])
  {
    hide Flights;
    assert (b + [e])[1..|b|] == b[1..];
  }

  lemma SessionCompletes(s: DeviceNews, b: Word, e: FacadeEvent)
    requires DevicePart(s, b) && NextDeviceNews(s, e) == Away
    ensures DeviceSession(b + [e])
  {
    hide Flights;
    hide OnTheWay;
    assert (s == Away && e == Failure) || ((s == Refused || s == Grounded) && e.Released?);
    hide NextDeviceNews;
    if s == Grounded {
      hide DeviceSession;
      SessionEnds(b, e);
    } else if s == Away {
      assert b + [e] == [Failure];
    }
  }

  lemma SessionGoesOn(s: DeviceNews, b: Word, e: FacadeEvent)
    requires DevicePart(s, b) && NextDeviceNews(s, e) != Away && NextDeviceNews(s, e) != Jumbled
    ensures DevicePart(NextDeviceNews(s, e), b + [e])
  {
    if s == Away {
      assert b + [e] == [e] && [e][1..] == [];
    } else if s == Grounded {
      assert b[1..] == b[1..] + [];
      Grows(b, b[1..], [], e);
    } else {
      var f: Word, y: Word :| b[1..] == f + y && Flights(f) && InFlight(y);
      assert y[|y| - 1] == b[|b| - 1];
      if NextDeviceNews(s, e) == Grounded { Ends(b, f, y, e); } else { Grows(b, f, y, e); }
    }
  }

  /** One more event, after a word that parses. */
  lemma ParseGrows(s: DeviceNews, a: Word, b: Word, e: FacadeEvent) returns (whole: Word, part: Word)
    requires DeviceSessions(a) && DevicePart(s, b) && NextDeviceNews(s, e) != Jumbled
    ensures a + b + [e] == whole + part && DeviceSessions(whole) && DevicePart(NextDeviceNews(s, e), part)
  {
    hide DeviceSessions;
    assert a + b + [e] == a + (b + [e]);
    if NextDeviceNews(s, e) == Away {
      SessionCompletes(s, b, e);
      AddSession(a, b + [e]);
      whole, part := a + (b + [e]), [];
      assert whole + part == whole;
    } else {
      SessionGoesOn(s, b, e);
      whole, part := a, b + [e];
    }
  }

  lemma DeviceHearsFront(n: Word)
    requires n != []
    ensures DeviceHears(Away, n) == NextDeviceNews(DeviceHears(Away, Front(n)), Last(n))
    ensures DeviceHears(Away, Front(n)) == Jumbled ==> DeviceHears(Away, n) == Jumbled
  {
  }

  lemma NothingHeard()
    ensures DeviceHears(Away, []) == Away && DeviceSessions([]) && DevicePart(Away, [])
  {
  }

  /** What the automaton accepts parses: whole sessions, and a part of one. */
  lemma {:induction false} DeviceHeardParses(n: Word) returns (whole: Word, part: Word)
    requires DeviceHears(Away, n) != Jumbled
    ensures n == whole + part && DeviceSessions(whole) && DevicePart(DeviceHears(Away, n), part)
  {
    hide DeviceHears;
    hide DevicePart;
    hide DeviceSessions;
    if n == [] {
      NothingHeard();
      whole, part := [], [];
    } else {
      DeviceHearsFront(n);
      var a, b := DeviceHeardParses(Front(n));
      whole, part := ParseGrows(DeviceHears(Away, Front(n)), a, b, Last(n));
    }
  }

  /** How a session under way may end. */
  function DeviceEnding(s: DeviceNews): Word {
    match s
    case Refused => [FacadeEvent.Released]
    case Grounded => [FacadeEvent.Released]
    case Airborne => [ChannelsClosing([]), OperationEnd, FacadeEvent.Released]
    case Landing => [OperationEnd, FacadeEvent.Released]
    case _ => []
  }

  lemma EndingLeadsHome(s: DeviceNews)
    requires s != Jumbled
    ensures DeviceHears(s, DeviceEnding(s)) == Away
  {
    var r, o, c := FacadeEvent.Released, OperationEnd, ChannelsClosing([]);
    match s
    case Refused => HearsOne(Refused, r);
    case Grounded => HearsOne(Grounded, r);
    case Landing => LandedLeadsHome();
    case Airborne =>
      HearsOne(Airborne, c);
      LandedLeadsHome();
      assert [c, o, r] == [c] + [o, r];
      DeviceHearsSum(Airborne, [c], [o, r]);
    case _ =>
  }

  lemma LandedLeadsHome()
    ensures DeviceHears(Landing, [OperationEnd, FacadeEvent.Released]) == Away
  {
    HearsOne(Grounded, FacadeEvent.Released);
    HearsOne(Landing, OperationEnd);
    assert [OperationEnd, FacadeEvent.Released] == [OperationEnd] + [FacadeEvent.Released];
    DeviceHearsSum(Landing, [OperationEnd], [FacadeEvent.Released]);
  }

  /** The automaton accepts a word exactly when it is the beginning of a sequence of sessions. */
  lemma DeviceGrammarExactly(n: Word)
    ensures DeviceHears(Away, n) != Jumbled <==> exists m: Word :: DeviceSessions(n + m)
  {
    var s := DeviceHears(Away, n);
    if s != Jumbled {
      var m := DeviceEnding(s);
      EndingLeadsHome(s);
      DeviceHearsSum(Away, n, m);
      var whole, part := DeviceHeardParses(n + m);
      assert whole + part == whole;
      assert DeviceSessions(n + m);
    }
    if m: Word :| DeviceSessions(n + m) {
      DeviceSessionsHeard(n + m);
      DeviceHearsSum(Away, n, m);
      JumbledForGood(m);
    }
  }

  lemma {:induction false} JumbledForGood(m: Word)
    ensures DeviceHears(Jumbled, m) == Jumbled
  {
    if m != [] { JumbledForGood(Front(m)); }
  }
}
