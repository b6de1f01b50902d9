/** The pilot listener's grammar, written out as a set of words, and the observer's automaton for it. */
module PilotGrammar {
  import opened Messages
  import opened Channels
  import opened ChannelTheory
  import opened Observers
  import opened ListenerGrammar

  /** Anything a pilot may hear while it operates. */
  predicate Work(e: FacadeEvent) {
    !e.Failure? && !e.Released? && !e.OperationStarted? && !e.Attached? && !e.OperationEnd?
  }

  /** The operation has started; channels opened, for the first time, at `k`, after nothing but errors. */
  predicate OpenedAt(n: Word, k: int) {
    && 1 <= k < |n|
    && n[0].OperationStarted? && n[k].ChannelsOpened?
    && (forall i :: 1 <= i < k ==> n[i].Error?)
    && (forall i :: k < i < |n| ==> Work(n[i]))
  }

  predicate Opened(n: Word) {
    exists k :: 0 <= k < |n| && OpenedAt(n, k)
  }

  /** Started, and nothing but errors so far. */
  predicate Begun(n: Word) {
    n != [] && n[0].OperationStarted? && forall i :: 1 <= i < |n| ==> n[i].Error?
  }

  predicate PilotSession(n: Word) {
    || n == [Failure]
    || (|n| == 2 && n[0].Error? && n[1].Released?)
    || (|n| >= 2 && Opened(n[..|n| - 1]) && n[|n| - 2].ChannelsClosing? && n[|n| - 1].Released?)
  }

  ghost predicate PilotSessions(n: Word)
    decreases |n|
  {
    n == [] || exists a: Word, b: Word :: n == a + b && |a| < |n| && PilotSessions(a) && PilotSession(b)
  }

  function PilotHears(s: PilotNews, n: Word): PilotNews {
    if n == [] then s else NextPilotNews(PilotHears(s, Front(n)), Last(n))
  }

  lemma {:induction false} ObserverHears(t: seq<Action>)
    ensures Observe(t).pilot == PilotHears(Out, Heard(t))
  {
    if t != [] {
      ObserverHears(Front(t));
      assert Heard(Front(t)) + [] == Heard(Front(t));
    }
  }

  lemma {:induction false} PilotHearsSum(s: PilotNews, a: Word, b: Word)
    ensures PilotHears(s, a + b) == PilotHears(PilotHears(s, a), b)
  {
    if b == [] {
      assert a + b == a;
    } else {
      assert Front(a + b) == a + Front(b) && Last(a + b) == Last(b);
      PilotHearsSum(s, a, Front(b));
    }
  }

  lemma PilotHearsFront(n: Word)
    requires n != []
    ensures PilotHears(Out, n) == NextPilotNews(PilotHears(Out, Front(n)), Last(n))
    ensures PilotHears(Out, Front(n)) == Garbled ==> PilotHears(Out, n) == Garbled
  {
  }

  // ---------------------------------------------------------------- the automaton accepts the words

  lemma {:induction false} BegunHeard(n: Word)
    requires Begun(n)
    ensures PilotHears(Out, n) == Starting
  {
    if |n| > 1 {
      BegunHeard(Front(n));
    } else {
      assert Front(n) == [];
    }
  }

  /** Whether a word that is open ends in the closing of channels. */
  function AtWork(n: Word): PilotNews
    requires n != []
  {
    if Last(n).ChannelsClosing? then Parting else Working
  }

  lemma {:induction false} OpenedHeard(n: Word, k: nat)
    requires OpenedAt(n, k)
    ensures PilotHears(Out, n) == AtWork(n)
    decreases |n|
  {
    if k == |n| - 1 {
      BegunHeard(Front(n));
    } else {
      assert Work(Last(n));
      assert forall i :: 0 <= i < |n| - 1 ==> Front(n)[i] == n[i];
      OpenedHeard(Front(n), k);
    }
  }

  lemma PilotHearsFirst(e: FacadeEvent)
    ensures PilotHears(Out, [e]) == NextPilotNews(Out, e)
  {
    assert Front([e]) == [];
  }

  lemma PilotSessionHeard(n: Word)
    requires PilotSession(n)
    ensures PilotHears(Out, n) == Out
  {
    if |n| >= 2 && Opened(n[..|n| - 1]) {
      var k: nat :| k < |n| - 1 && OpenedAt(n[..|n| - 1], k);
      OpenedHeard(Front(n), k);
    } else {
      PilotHearsFirst(n[0]);
      assert n == [n[0]] || Front(n) == [n[0]];
    }
  }

  lemma {:induction false} PilotSessionsHeard(n: Word)
    requires PilotSessions(n)
    ensures PilotHears(Out, n) == Out
    decreases |n|
  {
    if n != [] {
      var a: Word, b: Word :| n == a + b && |a| < |n| && PilotSessions(a) && PilotSession(b);
      PilotSessionsHeard(a);
      PilotSessionHeard(b);
      PilotHearsSum(Out, a, b);
    }
  }

  // ---------------------------------------------------------------- what the automaton accepts parses

  /** What has been heard of a session under way. */
  predicate PilotPart(s: PilotNews, b: Word) {
    match s
    case Out => b == []
    case Declined => |b| == 1 && b[0].Error?
    case Starting => Begun(b)
    case Working => Opened(b) && !b[|b| - 1].ChannelsClosing?
    case Parting => Opened(b) && b[|b| - 1].ChannelsClosing?
    case Garbled => false
  }

  lemma AddPilotSession(a: Word, b: Word)
    requires PilotSessions(a) && PilotSession(b)
    ensures PilotSessions(a + b)
  {
  }

  lemma OpenedGrows(b: Word, e: FacadeEvent)
    requires Opened(b) && Work(e)
    ensures Opened(b + [e])
  {
    var k :| 0 <= k < |b| && OpenedAt(b, k);
    assert OpenedAt(b + [e], k);
  }

  lemma PilotSessionGoesOn(s: PilotNews, b: Word, e: FacadeEvent)
    requires PilotPart(s, b) && NextPilotNews(s, e) != Out && NextPilotNews(s, e) != Garbled
    ensures PilotPart(NextPilotNews(s, e), b + [e])
  {
    match s
    case Starting => if e.ChannelsOpened? { assert OpenedAt(b + [e], |b|); }
    case Working => OpenedGrows(b, e);
    case Parting => OpenedGrows(b, e);
    case _ =>
  }

  lemma OpenedIsWord(b: Word)
    requires Opened(b)
    ensures b != []
  {
  }

  lemma OperationCompletes(b: Word, e: FacadeEvent)
    requires b != [] && Opened(b) && b[|b| - 1].ChannelsClosing? && e.Released?
    ensures PilotSession(b + [e])
  {
    hide Opened;
    var n := b + [e];
    assert n[..|n| - 1] == b && n[|n| - 2] == b[|b| - 1] && n[|n| - 1] == e;
  }

  lemma PilotSessionCompletes(s: PilotNews, b: Word, e: FacadeEvent)
    requires PilotPart(s, b) && NextPilotNews(s, e) == Out
    ensures PilotSession(b + [e])
  {
    if s == Parting { OpenedIsWord(b); }
    hide Opened;
    if s == Out {
      assert b + [e] == [e];
    } else if s == Declined {
      assert (b + [e])[0] == b[0] && (b + [e])[1] == e;
    } else {
      assert s == Parting && e.Released?;
      OperationCompletes(b, e);
    }
  }

  lemma PilotParseGrows(s: PilotNews, a: Word, b: Word, e: FacadeEvent) returns (whole: Word, part: Word)
    requires PilotSessions(a) && PilotPart(s, b) && NextPilotNews(s, e) != Garbled
    ensures a + b + [e] == whole + part && PilotSessions(whole) && PilotPart(NextPilotNews(s, e), part)
  {
    assert a + b + [e] == a + (b + [e]);
    if NextPilotNews(s, e) == Out {
      PilotSessionCompletes(s, b, e);
      AddPilotSession(a, b + [e]);
      whole, part := a + (b + [e]), [];
      assert whole + part == whole;
    } else {
      PilotSessionGoesOn(s, b, e);
      whole, part := a, b + [e];
    }
  }

  lemma LastOfWord(n: Word)
    requires n != []
    ensures n == Front(n) + [Last(n)] && |Front(n)| < |n|
  {
  }

  lemma {:induction false} PilotHeardParses(n: Word) returns (whole: Word, part: Word)
    requires PilotHears(Out, n) != Garbled
    ensures n == whole + part && PilotSessions(whole) && PilotPart(PilotHears(Out, n), part)
  {
    if n == [] {
      whole, part := [], [];
    } else {
      PilotHearsFront(n);
      LastOfWord(n);
      hide *;
      var a, b := PilotHeardParses(Front(n));
      whole, part := PilotParseGrows(PilotHears(Out, Front(n)), a, b, Last(n));
    }
  }

  /** How a session under way may end. */
  function PilotEnding(s: PilotNews): Word {
    match s
    case Declined => [FacadeEvent.Released]
    case Starting => [ChannelsOpened([]), ChannelsClosing([]), FacadeEvent.Released]
    case Working => [ChannelsClosing([]), FacadeEvent.Released]
    case Parting => [FacadeEvent.Released]
    case _ => []
  }

  lemma PilotEndingLeadsHome(s: PilotNews)
    requires s != Garbled
    ensures PilotHears(s, PilotEnding(s)) == Out
  {
    var r := FacadeEvent.Released;
    var o := ChannelsOpened([]);
    var c := ChannelsClosing([]);
    assert Front([r]) == [] && Front([c, r]) == [c] && Front([c]) == [];
    assert Front([o, c, r]) == [o, c] && Front([o, c]) == [o] && Front([o]) == [];
    assert PilotHears(s, []) == s;
    assert PilotHears(s, [o]) == NextPilotNews(s, o);
    assert PilotHears(s, [c]) == NextPilotNews(s, c);
    assert PilotHears(s, [o, c]) == NextPilotNews(NextPilotNews(s, o), c);
  }

  lemma {:induction false} GarbledForGood(m: Word)
    ensures PilotHears(Garbled, m) == Garbled
  {
    if m != [] { GarbledForGood(Front(m)); }
  }

  /** The automaton accepts a word exactly when it is the beginning of a sequence of sessions. */
  lemma PilotGrammarExactly(n: Word)
    ensures PilotHears(Out, n) != Garbled <==> exists m: Word :: PilotSessions(n + m)
  {
    var s := PilotHears(Out, n);
    if s != Garbled {
      var m := PilotEnding(s);
      PilotEndingLeadsHome(s);
      PilotHearsSum(Out, n, m);
      var whole, part := PilotHeardParses(n + m);
      assert whole + part == whole;
      assert PilotSessions(n + m);
    }
    if m: Word :| PilotSessions(n + m) {
      PilotSessionsHeard(n + m);
      PilotHearsSum(Out, n, m);
      GarbledForGood(m);
    }
  }
}
