/** Counting what happens in a trace: transitions, stream openings, failed ones and closings, events handled. */
module Tallies {
  import opened Messages
  import opened Channels
  import opened ChannelTheory

  datatype Tally = Tally(
    openings: nat, refusals: nat, closings: nat, releases: nat, moves: nat, innerMoves: nat, recalls: nat,
    handled: seq<Event>)

  function NextTally(t: Tally, a: Action): Tally {
    match a
    case StreamOpened => t.(openings := t.openings + 1)
    case StreamOpenFailed => t.(refusals := t.refusals + 1)
    case StreamClosed => t.(closings := t.closings + 1)
    case Moved => t.(moves := t.moves + 1)
    case MovedInside => t.(innerMoves := t.innerMoves + 1)
    case Recalled => t.(recalls := t.recalls + 1)
    case In(e) => t.(handled := t.handled + [e])
    case Told(n) => if n.Released? then t.(releases := t.releases + 1) else t
    case _ => t
  }

  function Count(t: seq<Action>): Tally {
    if t == [] then Tally(0, 0, 0, 0, 0, 0, 0, []) else NextTally(Count(Front(t)), Last(t))
  }

  /** The stream was opened once, or an attempt failed, as the environment had it; or no attempt was made. */
  predicate OpensBy(before: Tally, after: Tally, attempt: bool, env: Env) {
    && after.openings == before.openings + (if attempt && env.core.Some? && env.opens then 1 else 0)
    && after.refusals == before.refusals + (if attempt && env.core.Some? && !env.opens then 1 else 0)
  }

  /** The stream was closed once, and the listener told if closing returned; or nothing of this. */
  predicate ClosesBy(before: Tally, after: Tally, attempt: bool, env: Env) {
    && after.closings == before.closings + (if attempt then 1 else 0)
    && after.releases == before.releases + (if attempt && env.closes then 1 else 0)
  }

  /** The same but for one more recall, if `recalled`. */
  ghost predicate Recalls(before: World, after: World, recalled: bool) {
    && before.trace <= after.trace
    && Count(after.trace) == Count(before.trace).(recalls := Count(before.trace).recalls + if recalled then 1 else 0)
  }

  lemma Counting()
    ensures forall w: World, a: Action {:trigger Note(w, a)} :: Count(Note(w, a).trace) == NextTally(Count(w.trace), a)
  {
    forall w: World, a: Action {:trigger Note(w, a)}
      ensures Count(Note(w, a).trace) == NextTally(Count(w.trace), a)
    {
      assert Front(w.trace + [a]) == w.trace;
    }
  }

  /** `after` continues the trace of `before` by actions of no account here. */
  ghost predicate Continues(before: World, after: World) {
    before.trace <= after.trace && Count(after.trace) == Count(before.trace)
  }

  lemma ValidateOneContinues(v: Validation, c: ChannelResponse)
    ensures Continues(v.world, ValidateOne(v, c).world)
  {
    Counting();
    hide Count;
  }

  lemma {:induction false} ValidateContinues(w: World, s: seq<ChannelResponse>)
    ensures Continues(w, Validate(w, s).world)
  {
    if s != [] {
      ValidateContinues(w, Front(s));
      ValidateOneContinues(Validate(w, Front(s)), Last(s));
    }
  }

  lemma {:induction false} CloseContinues(w: World, ids: seq<int>)
    ensures Continues(w, Close(w, ids))
  {
    Counting();
    if ids != [] {
      CloseContinues(w, Front(ids));
    }
  }

  lemma {:induction false} SetOwnedContinues(w: World, ids: seq<int>)
    ensures SetOwned(w, ids).trace == w.trace
  {
    if ids != [] {
      SetOwnedContinues(w, Front(ids));
    }
  }
}

/** What one event amounts to for the pilot: how many transitions, and what becomes of the stream. */
module PilotEffects {
  import opened Messages
  import opened Channels
  import opened Tallies
  import opened Pilot

  lemma StartInnerContinues(w: World, s: Inner)
    ensures Recalls(w, StartInner(w, s).world, s.Operating?) && (StartInner(w, s).self.Operating? <==> s.Operating?)
  {
    Counting();
    hide Count;
    if s.ValidatingChannels? { ValidateContinues(w, s.toValidate); }
  }

  lemma ServerReleaseContinues(w: World, s: Inner, env: Env)
    ensures Continues(w, ServerRelease(w, s, env).world)
  {
    Counting();
    hide Count;
    hide Close;
    var all := Listing(w.channels.Keys, env.order);
    ListingPresent(w, env.order);
    CloseContinues(Tell(w, ChannelsClosing(Refs(w, all))), all);
  }

  lemma ClosingContinues(w: World, s: Inner, m: ControlMessage, env: Env)
    requires s.ClosingChannels?
    ensures Continues(w, ClosingMessage(w, s, m, env).world)
  {
    Counting();
    hide Count;
    hide Close;
    ServerReleaseContinues(w, s, env);
    if AllPresent(w, s.channelsToClose) {
      CloseContinues(Tell(w, ChannelsClosing(Refs(w, s.channelsToClose))), s.channelsToClose);
    }
  }

  lemma MessageContinues(w: World, s: Inner, m: ControlMessage, env: Env)
    ensures Recalls(w, HandleInner(w, s, Received(m), env).world, s.Operating? && m.command == OperationUpdated)
  {
    Counting();
    hide Count;
    match s
    case ClosingChannels(_) => ClosingContinues(w, s, m, env);
    case Operating => ServerReleaseContinues(w, s, env);
    case ValidatingChannels(_, _) => ControlContinues(w, s, m, env);
    case RequestingControl(_) => ControlContinues(w, s, m, env);
    case ReleasingControl(_) => ControlContinues(w, s, m, env);
    case _ =>
  }

  lemma ControlContinues(w: World, s: Inner, m: ControlMessage, env: Env)
    ensures s.ValidatingChannels? ==> Continues(w, ValidatingMessage(w, s, m, env).world)
    ensures s.RequestingControl? ==> Continues(w, RequestingMessage(w, s, m, env).world)
    ensures s.ReleasingControl? ==> Continues(w, ReleasingMessage(w, s, m, env).world)
  {
    Counting();
    hide Count;
    hide SetOwned;
    SetOwnedContinues(w, m.ids);
  }

  /** The server has updated the operation that the pilot is in. */
  predicate UpdatesOperation(s: Inner, e: Event) {
    s.Operating? && e.Received? && e.message.command == OperationUpdated
  }

  lemma HandleInnerContinues(w: World, s: Inner, e: Event, env: Env)
    ensures Recalls(w, HandleInner(w, s, e, env).world, UpdatesOperation(s, e))
  {
    Counting();
    hide Count;
    match e
    case Received(m) => MessageContinues(w, s, m, env);
    case _ =>
  }

  lemma ConnectedEffects(w: World, s: Inner, e: Event, env: Env)
    ensures var t := HandleConnected(w, s, e, env); var before := Count(w.trace);
      && w.trace <= t.world.trace
      && var after := Count(t.world.trace);
      && after == before.(innerMoves := after.innerMoves, recalls := after.recalls)
      && after.recalls == before.recalls
         + (if UpdatesOperation(s, e) then 1 else 0)
         + (if after.innerMoves > before.innerMoves && t.self == Connected(Operating) then 1 else 0)
      && before.innerMoves <= Count(t.world.trace).innerMoves <= before.innerMoves + 1
      && (t.next.Some? ==>
            t.next == Some(Disconnecting) && t.world.status == Running && t.self == Connected(Inner.Released))
  {
    Counting();
    hide Count;
    hide HandleInner;
    hide StartInner;
    HandleInnerContinues(w, s, e, env);
    var t := HandleInner(w, s, e, env);
    if t.world.status == Running && t.next.Some? {
      var u := StartInner(Note(t.world, MovedInside), t.next.value);
      StartInnerContinues(Note(t.world, MovedInside), t.next.value);
      assert RunInner(u) == u;
    }
  }

  lemma StartOuterEffects(w: World, s: Outer, env: Env)
    requires w.status == Running
    ensures var t := StartOuter(w, s, env); var before := Count(w.trace); var after := Count(t.world.trace);
      && w.trace <= t.world.trace
      && (t.next.Some? ==> t.next == Some(Disconnected))
      && (s.Disconnected? ==> t.world == w && t.next.None?) && (t.self.Connected? <==> s.Connected?)
      && match s
         case Connecting(_, _) =>
           after == if env.core.None? then before
                    else if env.opens then before.(openings := before.openings + 1)
                    else before.(refusals := before.refusals + 1)
         case Disconnecting =>
           after == before.(closings := before.closings + 1,
                            releases := before.releases + if env.closes then 1 else 0)
           && (t.world.status == Running <==> env.closes)
         case Connected(inner) =>
           after == before.(recalls := before.recalls + if inner.Operating? then 1 else 0)
         case _ => after == before
  {
    Counting();
    hide Count;
    hide StartInner;
    if s.Connected? { StartInnerContinues(w, s.inner); }
  }

  /** The outer loop: how often it goes round, and what it does to the stream, is fixed by where it is to go first. */
  lemma {:induction false} RunOuterEffects(t: Turn<Outer>, env: Env)
    ensures var r := RunOuter(t, env); var before := Count(t.world.trace); var after := Count(r.world.trace);
      && t.world.trace <= r.world.trace
      && before.moves <= after.moves <= before.moves + Rank(t.next)
      && after.innerMoves == before.innerMoves && after.handled == before.handled
      && (t.next.None? ==> r == t)
      && (t.next.Some? && !t.next.value.Connected? ==>
            after.recalls == before.recalls && (t.world.status == Running ==> !r.self.Connected?))
      && (t.next.Some? && t.next.value.Connected? && !t.next.value.inner.Operating? ==> after.recalls == before.recalls)
      && OpensBy(before, after, t.world.status == Running && t.next.Some? && t.next.value.Connecting?, env)
      && ClosesBy(before, after, t.world.status == Running && t.next.Some? && t.next.value.Disconnecting?, env)
      && (after.closings > before.closings ==> (r.world.status == Running <==> env.closes))
      && (t.next.None? || t.next.value.Disconnected? ==> r.world.status == t.world.status)
    decreases Rank(t.next)
  {
    Counting();
    hide Count;
    hide StartOuter;
    if t.world.status == Running && t.next.Some? {
      var moved := Note(t.world, Moved);
      StartOuterEffects(moved, t.next.value, env);
      var u := StartOuter(moved, t.next.value, env);
      assert Rank(u.next) < Rank(Some(t.next.value));
      RunOuterEffects(u, env);
    }
  }

  /**
   One event is at most one inner and two outer transitions. It tries to open the stream at most once, only
   from Disconnected, and with the answer of the environment; it closes it at most once, never from
   Disconnected, and then tells the listener so, once, unless closing threw.
   */
  lemma StepEffects(c: Client, i: Input)
    requires c.world.status == Running && !c.state.Disconnecting?
    ensures var c' := Step(c, i); var before := Count(c.world.trace); var after := Count(c'.world.trace);
      && c.world.trace <= c'.world.trace
      && after.handled == before.handled + [i.event]
      && after.moves <= before.moves + 2
      && after.innerMoves <= before.innerMoves + 1
      && after.recalls == before.recalls
         + (if c.state.Connected? && UpdatesOperation(c.state.inner, i.event) then 1 else 0)
         + (if after.innerMoves > before.innerMoves && c'.state == Connected(Operating) then 1 else 0)
      && OpensBy(before, after, c.state.Disconnected? && i.event.User? && i.event.user.Operate?, i.env)
      && ClosesBy(before, after, !c.state.Disconnected? && after.closings > before.closings, i.env)
      && (after.closings > before.closings ==> (c'.world.status == Running <==> i.env.closes))
  {
    Counting();
    hide Count;
    hide RunOuter;
    hide HandleConnected;
    var w := Note(c.world, In(i.event));
    if c.state.Connected? { ConnectedEffects(w, c.state.inner, i.event, i.env); }
    RunOuterEffects(HandleOuter(w, c.state, i.event, i.env), i.env);
  }
}
