/** What the provenance observer's verdict means, position by position. */
module Conversation {
  import opened Messages
  import opened Channels
  import opened ChannelTheory
  import opened OwnershipMeaning
  import opened Provenance

  // ---------------------------------------------------------------- the event being handled

  /** At position `n` the event taken in at `k` is being handled: it is the last one before `n`. */
  predicate CauseOf(t: seq<Action>, k: int, n: int) {
    0 <= k < n <= |t| && t[k].In? && forall i :: k < i < n ==> !t[i].In?
  }

  predicate NothingSent(t: seq<Action>, k: int, n: int)
    requires 0 <= k <= n <= |t|
  {
    forall i :: k < i < n ==> !t[i].Sent?
  }

  lemma TalkPrefix(role: Role, t: seq<Action>, n: nat)
    requires n < |t|
    ensures Talked(role, t[..n + 1]) == NextTalk(role, Talked(role, t[..n]), t[n])
  {
    assert Front(t[..n + 1]) == t[..n];
  }

  lemma TalkNext(role: Role, v: Talk, a: Action)
    ensures var u := NextTalk(role, v, a);
      && u.cause == (if a.In? then Some(a.event) else v.cause)
      && u.owed == (if a.In? then Owes(role, v.stage, a.event) else v.owed && !a.Sent? && a != Told(Failure))
      && u.due == (if a.In? then DueFor(role, v.stage, a.event) else v.due && !a.Told?)
      && u.ready == (if AnnouncesReady(a) then a.message.ids else v.ready)
      && u.removal == (if AsksRemoval(a) then a.message.ids else v.removal)
      && u.stage == NextStage(role, v.stage, a)
  {
    hide May;
    hide NextStage;
    hide Owes;
    hide DueFor;
  }

  /** The observer, one action further, field by field. */
  lemma TalkFields(role: Role, t: seq<Action>, n: nat)
    requires n < |t|
    ensures var v := Talked(role, t[..n]); var u := Talked(role, t[..n + 1]); var a := t[n];
      && u.cause == (if a.In? then Some(a.event) else v.cause)
      && u.owed == (if a.In? then Owes(role, v.stage, a.event) else v.owed && !a.Sent? && a != Told(Failure))
      && u.due == (if a.In? then DueFor(role, v.stage, a.event) else v.due && !a.Told?)
      && u.ready == (if AnnouncesReady(a) then a.message.ids else v.ready)
      && u.removal == (if AsksRemoval(a) then a.message.ids else v.removal)
      && u.stage == NextStage(role, v.stage, a)
  {
    TalkPrefix(role, t, n);
    TalkNext(role, Talked(role, t[..n]), t[n]);
    hide *;
  }

  lemma CauseHere(t: seq<Action>, n: nat)
    requires n < |t| && t[n].In?
    ensures CauseOf(t, n, n + 1) && NothingSent(t, n, n + 1)
  {
  }

  lemma CauseGoesOn(t: seq<Action>, k: int, n: nat)
    requires k < n < |t|
    ensures CauseOf(t, k, n + 1) <==> CauseOf(t, k, n) && !t[n].In?
    ensures CauseOf(t, k, n) ==> (NothingSent(t, k, n + 1) <==> NothingSent(t, k, n) && !t[n].Sent?)
  {
  }

  /** Where the observer's cause stands in the trace, and what is still to be said on its account. */
  lemma {:induction false} FindCause(role: Role, t: seq<Action>, n: nat) returns (k: nat)
    requires n <= |t| && Talked(role, t[..n]).cause.Some?
    ensures CauseOf(t, k, n) && Talked(role, t[..n]).cause == Some(t[k].event)
    ensures Talked(role, t[..n]).owed ==> NothingSent(t, k, n) && Owes(role, Talked(role, t[..k]).stage, t[k].event)
    ensures Talked(role, t[..n]).due ==> DueFor(role, Talked(role, t[..k]).stage, t[k].event)
  {
    TalkFields(role, t, n - 1);
    if t[n - 1].In? {
      k := n - 1;
      CauseHere(t, k);
      hide *;
    } else {
      k := FindCause(role, t, n - 1);
      CauseGoesOn(t, k, n - 1);
      hide *;
    }
  }

  lemma OneCause(t: seq<Action>, k: int, j: int, n: int)
    requires CauseOf(t, k, n) && CauseOf(t, j, n)
    ensures k == j
  {
  }

  /** Whatever is told to the listener is told on account of the event being handled. */
  lemma ToldForCause(role: Role, t: seq<Action>, i: nat) returns (k: nat)
    requires Talked(role, t).honest && i < |t| && t[i].Told?
    ensures CauseOf(t, k, i)
    ensures if role.PilotRole? then PilotMayTell(t[k].event, t[i].news) else DeviceMayTell(t[k].event, t[i].news)
  {
    HonestThroughout(role, t, i);
    hide PilotMayTell;
    hide DeviceMayTell;
    k := FindCause(role, t, i);
    hide Talked;
  }

  lemma OwedNext(role: Role, t: seq<Action>, n: nat)
    requires n < |t|
    ensures var v := Talked(role, t[..n]);
      Talked(role, t[..n + 1]).owed ==
      if t[n].In? then Owes(role, v.stage, t[n].event) else v.owed && !t[n].Sent? && t[n] != Told(Failure)
  {
    TalkFields(role, t, n);
    hide *;
  }

  lemma DueNext(role: Role, t: seq<Action>, n: nat)
    requires n < |t|
    ensures var v := Talked(role, t[..n]);
      Talked(role, t[..n + 1]).due == if t[n].In? then DueFor(role, v.stage, t[n].event) else v.due && !t[n].Told?
  {
    TalkFields(role, t, n);
    hide *;
  }

  lemma {:induction false} StillOwed(role: Role, t: seq<Action>, k: nat, n: nat)
    requires k < |t| && t[k].In? && k < n <= |t| && Owes(role, Talked(role, t[..k]).stage, t[k].event)
    requires forall i :: k < i < n ==> !t[i].In? && !t[i].Sent? && t[i] != Told(Failure)
    ensures Talked(role, t[..n]).owed
  {
    hide *;
    var m := n - 1;
    if k < m { StillOwed(role, t, k, m); }
    OwedNext(role, t, m);
  }

  lemma {:induction false} StillDue(role: Role, t: seq<Action>, k: nat, n: nat)
    requires k < |t| && t[k].In? && k < n <= |t| && DueFor(role, Talked(role, t[..k]).stage, t[k].event)
    requires forall i :: k < i < n ==> !t[i].In? && !t[i].Told?
    ensures Talked(role, t[..n]).due
  {
    hide *;
    var m := n - 1;
    if k < m { StillDue(role, t, k, m); }
    DueNext(role, t, m);
  }

  /**
   Whatever is sent is owed to the event being handled, nothing else was sent on its account, and the listener has
   heard what it must, but of a session's start.
   */
  lemma SentForCause(role: Role, t: seq<Action>, i: nat) returns (k: nat)
    requires Talked(role, t).honest && i < |t| && t[i].Sent?
    ensures CauseOf(t, k, i) && NothingSent(t, k, i) && Owes(role, Talked(role, t[..k]).stage, t[k].event)
    ensures if role.PilotRole? then PilotMaySend(t[k].event, t[i].message) else DeviceMaySend(t[k].event, t[i].message)
    ensures DueFor(role, Talked(role, t[..k]).stage, t[k].event) && !Brings(t[k].event, Setup) ==>
              exists x :: k < x < i && t[x].Told?
  {
    HonestThroughout(role, t, i);
    hide Owes;
    hide DueFor;
    hide PilotMaySend;
    hide DeviceMaySend;
    k := FindCause(role, t, i);
    hide Talked;
    if DueFor(role, Talked(role, t[..k]).stage, t[k].event) && forall x :: k < x < i ==> !t[x].Told? {
      StillDue(role, t, k, i);
    }
  }

  /** Nothing more is sent on account of an event that calls for nothing, or has got its message. */
  lemma NotOwedNotSent(role: Role, t: seq<Action>, k: nat, n: nat)
    requires Talked(role, t).honest && CauseOf(t, k, n)
    requires !Owes(role, Talked(role, t[..k]).stage, t[k].event)
    ensures NothingSent(t, k, n)
  {
    forall i | k < i < n ensures !t[i].Sent? {
      if t[i].Sent? {
        var j := SentForCause(role, t, i);
        OneCause(t, k, j, i);
      }
    }
  }

  // ---------------------------------------------------------------- nothing is left unsaid

  /** Position `n` ends the handling of the event before it: another is taken in, or all is said and the trace ends. */
  predicate EndsEvent(role: Role, t: seq<Action>, n: nat) {
    n <= |t| && if n < |t| then t[n].In? else !Talked(role, t).owed && !Talked(role, t).due
  }

  lemma CalledForWasSaid(role: Role, t: seq<Action>, k: nat, n: nat, g: Stage)
    requires Talked(role, t).honest && CauseOf(t, k, n) && EndsEvent(role, t, n) && InStage(role, t, k, g)
    ensures Owes(role, g, t[k].event) ==> exists i :: k < i < n && (t[i].Sent? || t[i] == Told(Failure))
    ensures DueFor(role, g, t[k].event) ==> exists i :: k < i < n && t[i].Told?
  {
    StageMeans(role, t, k, g);
    assert t[..|t|] == t;
    if n < |t| { HonestThroughout(role, t, n); }
    assert !Talked(role, t[..n]).owed && !Talked(role, t[..n]).due;
    hide May;
    hide Talked;
    hide InStage;
    hide Owes;
    hide DueFor;
    hide EndsEvent;
    if Owes(role, g, t[k].event) && forall i :: k < i < n ==> !t[i].Sent? && t[i] != Told(Failure) {
      StillOwed(role, t, k, n);
    }
    if DueFor(role, g, t[k].event) && forall i :: k < i < n ==> !t[i].Told? {
      StillDue(role, t, k, n);
    }
  }

  // ---------------------------------------------------------------- the stages

  /** The action that brings a conversation to stage `g` from wherever it is. */
  predicate Begins(role: Role, g: Stage, a: Action) {
    match g
    case Away => a.Told? && a.news.Released?
    case Greeting => a.Sent? && a.message.command == Setup
    case Confirming => role.PilotRole? && AnnouncesReady(a)
    case Adding => role.PilotRole? && a.Sent? && a.message.command == AddChannels
    case Removing => role.PilotRole? && AsksRemoval(a)
    case Asking => role.PilotRole? && a.Sent? && a.message.command == RequestControl
    case Yielding => role.PilotRole? && a.Told? && a.news.ReleaseAsked?
    case Grounded => role.DeviceRole? && a.Told? && (a.news.Attached? || a.news.OperationEnd?)
    case Aloft => role.DeviceRole? && a.Told? && a.news.ChannelsOpened?
    case Leaving =>
      role.DeviceRole? && a.Sent? && a.message.command == Command.Release && a.message.response == None
    case _ => false
  }

  predicate AsksRemoval(a: Action) {
    a.Sent? && a.message.command == RemoveChannels && a.message.response == None
  }

  /** No action strictly between the two positions takes a conversation out of stage `g`. */
  predicate Stays(role: Role, t: seq<Action>, k: int, n: nat, g: Stage)
    requires -1 <= k && n <= |t|
  {
    forall i :: k < i < n ==> NextStage(role, g, t[i]) == g
  }

  predicate BegunBefore(role: Role, t: seq<Action>, n: nat, g: Stage)
    requires n <= |t|
  {
    || (g == Away && Stays(role, t, -1, n, Away))
    || exists k :: 0 <= k < n && Begins(role, g, t[k]) && Stays(role, t, k, n, g)
  }

  /** The message at `k` concluded what was under way, and nothing else has begun since. */
  predicate IdleSince(role: Role, t: seq<Action>, k: nat, n: nat)
    requires k < n <= |t|
  {
    && Stays(role, t, k, n, Idle)
    && exists h: Stage :: h != Idle && h != Lost && BegunBefore(role, t, k, h) && NextStage(role, h, t[k]) == Idle
  }

  predicate IsIdle(role: Role, t: seq<Action>, n: nat)
    requires n <= |t|
  {
    exists k :: 0 <= k < n && IdleSince(role, t, k, n)
  }

  /** Before position `n` the conversation has come to stage `g` and stayed there. */
  predicate InStage(role: Role, t: seq<Action>, n: nat, g: Stage)
    requires n <= |t|
  {
    match g
    case Idle => IsIdle(role, t, n)
    case Lost =>
      exists k :: 0 <= k < n && IsIdle(role, t, k) && NextStage(role, Idle, t[k]) == Lost && Stays(role, t, k, n, Lost)
    case _ => BegunBefore(role, t, n, g)
  }

  lemma BeginsLeads(role: Role, g: Stage, h: Stage, a: Action)
    requires Begins(role, g, a)
    ensures NextStage(role, h, a) == g
  {
  }

  /** How a conversation comes to another stage. */
  lemma StageChanges(role: Role, h: Stage, a: Action)
    requires NextStage(role, h, a) != h
    ensures var g := NextStage(role, h, a); Begins(role, g, a) || (g == Idle && h != Lost) || (g == Lost && h == Idle)
  {
    match a
    case In(e) => if role.PilotRole? && e.Received? { HeardLeadsToIdle(h, e.message); }
    case _ =>
  }

  lemma HeardLeadsToIdle(h: Stage, m: ControlMessage)
    ensures PilotHears(h, m) == h || (PilotHears(h, m) == Idle && h != Lost)
  {
  }

  lemma StageNext(role: Role, t: seq<Action>, n: nat)
    requires n < |t|
    ensures Talked(role, t[..n + 1]).stage == NextStage(role, Talked(role, t[..n]).stage, t[n])
  {
    TalkFields(role, t, n);
    hide *;
  }

  lemma {:induction false} StaysThere(role: Role, t: seq<Action>, k: nat, n: nat, g: Stage)
    requires k < n <= |t| && Stays(role, t, k, n, g) && Talked(role, t[..k + 1]).stage == g
    ensures Talked(role, t[..n]).stage == g
  {
    if k + 1 < n {
      StaysThere(role, t, k, n - 1, g);
      TalkFields(role, t, n - 1);
    }
  }

  lemma {:induction false} StaysAway(role: Role, t: seq<Action>, n: nat)
    requires n <= |t| && Stays(role, t, -1, n, Away)
    ensures Talked(role, t[..n]).stage == Away
  {
    if n > 0 {
      StaysAway(role, t, n - 1);
      TalkFields(role, t, n - 1);
    }
  }

  lemma BegunMeans(role: Role, t: seq<Action>, n: nat, g: Stage)
    requires n <= |t| && BegunBefore(role, t, n, g)
    ensures Talked(role, t[..n]).stage == g
  {
    if g == Away && Stays(role, t, -1, n, Away) {
      StaysAway(role, t, n);
    } else {
      var k :| 0 <= k < n && Begins(role, g, t[k]) && Stays(role, t, k, n, g);
      TalkFields(role, t, k);
      BeginsLeads(role, g, Talked(role, t[..k]).stage, t[k]);
      StaysThere(role, t, k, n, g);
    }
  }

  lemma IdleMeans(role: Role, t: seq<Action>, n: nat)
    requires n <= |t| && IsIdle(role, t, n)
    ensures Talked(role, t[..n]).stage == Idle
  {
    var k :| 0 <= k < n && IdleSince(role, t, k, n);
    var h: Stage :| h != Idle && h != Lost && BegunBefore(role, t, k, h) && NextStage(role, h, t[k]) == Idle;
    BegunMeans(role, t, k, h);
    TalkFields(role, t, k);
    StaysThere(role, t, k, n, Idle);
  }

  lemma InStageMeans(role: Role, t: seq<Action>, n: nat, g: Stage)
    requires n <= |t| && InStage(role, t, n, g)
    ensures Talked(role, t[..n]).stage == g
  {
    if g == Idle {
      IdleMeans(role, t, n);
    } else if g == Lost {
      var k :| 0 <= k < n && IsIdle(role, t, k) && NextStage(role, Idle, t[k]) == Lost && Stays(role, t, k, n, Lost);
      IdleMeans(role, t, k);
      TalkFields(role, t, k);
      StaysThere(role, t, k, n, Lost);
    } else {
      BegunMeans(role, t, n, g);
    }
  }

  /** One action more in the same stage. */
  lemma StaysInStage(role: Role, t: seq<Action>, n: nat, g: Stage)
    requires n < |t| && InStage(role, t, n, g) && NextStage(role, g, t[n]) == g
    ensures InStage(role, t, n + 1, g)
  {
    hide NextStage;
    hide Begins;
    if g == Idle {
      var k :| 0 <= k < n && IdleSince(role, t, k, n);
      assert IdleSince(role, t, k, n + 1);
    } else if g == Lost {
      var k :| 0 <= k < n && IsIdle(role, t, k) && NextStage(role, Idle, t[k]) == Lost && Stays(role, t, k, n, Lost);
      assert Stays(role, t, k, n + 1, Lost);
    } else if g == Away && Stays(role, t, -1, n, Away) {
      assert Stays(role, t, -1, n + 1, Away);
    } else {
      var k :| 0 <= k < n && Begins(role, g, t[k]) && Stays(role, t, k, n, g);
      assert Stays(role, t, k, n + 1, g);
    }
  }

  /** One action that leads to another stage. */
  lemma ComesToStage(role: Role, t: seq<Action>, n: nat, h: Stage)
    requires n < |t| && InStage(role, t, n, h) && NextStage(role, h, t[n]) != h
    ensures InStage(role, t, n + 1, NextStage(role, h, t[n]))
  {
    var g := NextStage(role, h, t[n]);
    StageChanges(role, h, t[n]);
    assert Stays(role, t, n, n + 1, g);
    hide NextStage;
    hide Begins;
    if g == Idle && !Begins(role, g, t[n]) {
      assert IdleSince(role, t, n, n + 1);
    } else if g == Lost && !Begins(role, g, t[n]) {
      assert IsIdle(role, t, n);
    } else {
      BeginsNotIdle(role, g, t[n]);
    }
  }

  lemma BeginsNotIdle(role: Role, g: Stage, a: Action)
    requires Begins(role, g, a)
    ensures g != Idle && g != Lost
  {
  }

  /** The observer's stage is what the positions say. */
  lemma {:induction false} StageMeans(role: Role, t: seq<Action>, n: nat, g: Stage)
    requires n <= |t|
    ensures Talked(role, t[..n]).stage == g <==> InStage(role, t, n, g)
  {
    StageIsIn(role, t, n);
    if InStage(role, t, n, g) { InStageMeans(role, t, n, g); }
  }

  lemma {:induction false} StageIsIn(role: Role, t: seq<Action>, n: nat)
    requires n <= |t|
    ensures InStage(role, t, n, Talked(role, t[..n]).stage)
  {
    if n == 0 {
      assert Stays(role, t, -1, 0, Away);
    } else {
      hide *;
      var m := n - 1;
      StageIsIn(role, t, m);
      StageNext(role, t, m);
      var h := Talked(role, t[..m]).stage;
      if NextStage(role, h, t[m]) == h { StaysInStage(role, t, m, h); } else { ComesToStage(role, t, m, h); }
    }
  }

  // ---------------------------------------------------------------- what was last named to the server

  lemma ReadyNext(role: Role, t: seq<Action>, n: nat)
    requires n < |t|
    ensures Talked(role, t[..n + 1]).ready ==
            if AnnouncesReady(t[n]) then t[n].message.ids else Talked(role, t[..n]).ready
  {
    TalkFields(role, t, n);
    hide *;
  }

  lemma RemovalNext(role: Role, t: seq<Action>, n: nat)
    requires n < |t|
    ensures Talked(role, t[..n + 1]).removal ==
            if AsksRemoval(t[n]) then t[n].message.ids else Talked(role, t[..n]).removal
  {
    TalkFields(role, t, n);
    hide *;
  }

  /** The last CHANNELS_READY before `n`. */
  lemma {:induction false} LastReady(role: Role, t: seq<Action>, n: nat, some: nat) returns (k: nat)
    requires some < n <= |t| && AnnouncesReady(t[some])
    ensures some <= k < n && AnnouncesReady(t[k]) && forall i :: k < i < n ==> !AnnouncesReady(t[i])
    ensures Talked(role, t[..n]).ready == t[k].message.ids
  {
    hide *;
    var m := n - 1;
    ReadyNext(role, t, m);
    if AnnouncesReady(t[m]) { k := m; } else { k := LastReady(role, t, m, some); }
  }

  /** The last request to remove channels before `n`. */
  lemma {:induction false} LastRemoval(role: Role, t: seq<Action>, n: nat, some: nat) returns (k: nat)
    requires some < n <= |t| && AsksRemoval(t[some])
    ensures some <= k < n && AsksRemoval(t[k]) && forall i :: k < i < n ==> !AsksRemoval(t[i])
    ensures Talked(role, t[..n]).removal == t[k].message.ids
  {
    hide *;
    var m := n - 1;
    RemovalNext(role, t, m);
    if AsksRemoval(t[m]) { k := m; } else { k := LastRemoval(role, t, m, some); }
  }
}
