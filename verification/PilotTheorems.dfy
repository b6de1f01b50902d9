/** The pilot's promises, over every run and whatever the server, the user and the network do. */
module PilotTheorems {
  import opened Messages
  import opened Channels
  import opened ChannelTheory
  import opened Observers
  import opened TableInvariant
  import opened TraceMeaning
  import opened OwnershipMeaning
  import opened Tallies
  import opened ListenerGrammar
  import opened PilotGrammar
  import opened Pilot
  import opened PilotInvariant
  import opened PilotRuns
  import PilotEffects

  lemma FitsIsSound(c: Client)
    requires Holds(c)
    ensures Observe(c.world.trace).stream != Broken && Observe(c.world.trace).pending != Overlap
    ensures Observe(c.world.trace).pilot != Garbled && Balanced(c.world)
  {
    hide Observe;
  }

  // ---------------------------------------------------------------- what holds after every run

  /**
   A live channel is owned if and only if some message since it was made granted it - a confirmation of the
   CHANNELS_READY last sent that names it, or the handover last asked for - and none after that took it away.
   */
  lemma OwnershipFollowsHistory(inputs: seq<Input>, id: int, born: nat)
    requires var w := Run(INITIAL, inputs).world;
      w.status == Running && id in w.channels && born < |w.trace| && w.trace[born] == Made(RefOf(w, id))
    ensures var w := Run(INITIAL, inputs).world;
      w.channels[id].owned <==> HeldSince(w.trace, born, id)
  {
    hide Observe;
    hide HeldSince;
    RunKeeps(inputs);
    FitsIsSound(Run(INITIAL, inputs));
    LiveGrantMeans(Run(INITIAL, inputs).world, id, born);
    hide Run;
  }

  /**
   A channel is in the table if and only if it was reported as opened, has not been reported as closing since, and was
   not erased by a failed validation; or it is validated and awaits confirmation.
   */
  lemma ReportsFollowTable(inputs: seq<Input>, r: Ref)
    requires Run(INITIAL, inputs).world.status == Running
    ensures var c := Run(INITIAL, inputs); var t := c.world.trace;
      Alive(c.world, r) <==>
        (ReportStands(t, |t|, r) && Dropped(r) !in t)
        || (c.state.Connected? && c.state.inner.ValidatingChannels? && r in c.state.inner.validated)
  {
    hide Observe;
    RunKeeps(inputs);
    var c := Run(INITIAL, inputs);
    hide Run;
    ReportedMeans(c.world.trace, |c.world.trace|, r);
    hide ReportStands;
    assert c.world.trace[..|c.world.trace|] == c.world.trace;
    if c.state.Connected? && c.state.inner.ValidatingChannels? {
      var validated := c.state.inner.validated;
      if r in validated {
        var i :| 0 <= i < |validated| && validated[i] == r;
      }
    }
  }

  /** The pilot has no channel in any state but Connected. */
  lemma TableEmptyOutsideConnected(inputs: seq<Input>)
    requires Run(INITIAL, inputs).world.status == Running && !Run(INITIAL, inputs).state.Connected?
    ensures Run(INITIAL, inputs).world.channels == map[]
  {
    hide Observe;
    hide Run;
    RunKeeps(inputs);
  }

  /** Between two requests of the pilot, the server concluded the first: procedures never overlap. */
  lemma ProceduresNeverOverlap(inputs: seq<Input>, i: nat, j: nat)
    requires var t := Run(INITIAL, inputs).world.trace; i < j < |t| && IsRequest(t[i]) && IsRequest(t[j])
    ensures var t := Run(INITIAL, inputs).world.trace; exists k :: i < k < j && ConcludedAt(t, i, k)
  {
    RunKeeps(inputs);
    FitsIsSound(Run(INITIAL, inputs));
    RequestsTakeTurns(Run(INITIAL, inputs).world.trace, i, j);
  }

  /**
   Every message goes out on an open stream, the first one on each stream being SETUP; openings and
   closings alternate.
   */
  lemma SessionsAreBracketed(inputs: seq<Input>, i: nat)
    requires i < |Run(INITIAL, inputs).world.trace|
    ensures var t := Run(INITIAL, inputs).world.trace;
      && (t[i].Sent? ==> exists o :: OpenSince(t, o, i) && (t[i].message.command == Setup <==> NothingSent(t, o, i)))
      && (t[i].StreamClosed? ==> exists o :: OpenSince(t, o, i))
      && (t[i].StreamOpened? ==>
          forall o :: 0 <= o < i && t[o].StreamOpened? ==> exists k :: o < k < i && t[k].StreamClosed?)
  {
    RunKeeps(inputs);
    FitsIsSound(Run(INITIAL, inputs));
    var t := Run(INITIAL, inputs).world.trace;
    hide Run;
    if t[i].Sent? { SentOnOpenStream(t, i); }
    BordersAlternate(t, i);
  }

  /** Between events the stream is open exactly in Connecting and Connected, and no state is on its way out. */
  lemma StreamOpenExactly(inputs: seq<Input>)
    requires Run(INITIAL, inputs).world.status == Running
    ensures var c := Run(INITIAL, inputs);
      && Observe(c.world.trace).stream == (if c.state.Connecting? || c.state.Connected? then Live else Shut)
      && !c.state.Disconnecting? && c.state != Connected(Inner.Released)
  {
    hide Observe;
    hide Run;
    RunKeeps(inputs);
  }

  /** What the listener hears is the beginning of a sequence of whole sessions, also in runs that throw. */
  lemma ListenerHearsSessions(inputs: seq<Input>)
    ensures exists rest: Word :: PilotSessions(Heard(Run(INITIAL, inputs).world.trace) + rest)
  {
    hide Run;
    RunKeeps(inputs);
    var t := Run(INITIAL, inputs).world.trace;
    FitsIsSound(Run(INITIAL, inputs));
    PilotGrammar.ObserverHears(t);
    PilotGrammarExactly(Heard(t));
  }

  /** Each channel ever inserted was inserted once, and is live, was dropped once, or was closed once. */
  lemma EachChannelHasOneFate(inputs: seq<Input>, r: Ref)
    requires Made(r) in Run(INITIAL, inputs).world.trace
    ensures var w := Run(INITIAL, inputs).world;
      && Times(w, Made(r)) == 1
      && (if Alive(w, r) then 1 else 0) + Times(w, Dropped(r)) + Times(w, Closed(r)) == 1
  {
    hide Run;
    RunKeeps(inputs);
    FitsIsSound(Run(INITIAL, inputs));
    var w := Run(INITIAL, inputs).world;
    assert Times(w, Made(r)) > 0;
    assert Times(w, Made(r)) <= if r.incarnation < w.made then 1 else 0;
  }

  /**
   Every event ends after at most one inner and two outer transitions, with at most one opening or
   closing of the stream. An opening ends as the environment has it; a closing leaves the client running,
   and the listener told of it, exactly when it returns.
   */
  lemma EventsRunToCompletion(inputs: seq<Input>, i: Input)
    requires Run(INITIAL, inputs).world.status == Running
    ensures var c := Run(INITIAL, inputs); var c' := Step(c, i);
      var before := Count(c.world.trace); var after := Count(c'.world.trace);
      && after.moves <= before.moves + 2 && after.innerMoves <= before.innerMoves + 1
      && after.openings + after.closings <= before.openings + before.closings + 1
      && OpensBy(before, after, c.state.Disconnected? && i.event.User? && i.event.user.Operate?, i.env)
      && ClosesBy(before, after, after.closings > before.closings, i.env)
      && (after.closings > before.closings ==> (c'.world.status == Running <==> i.env.closes))
  {
    RunKeeps(inputs);
    PilotEffects.StepEffects(Run(INITIAL, inputs), i);
  }

  /** Deferred events are recalled, one each time, when the pilot comes to operate and when the operation is updated. */
  lemma DeferredAreRecalled(inputs: seq<Input>, i: Input)
    requires Run(INITIAL, inputs).world.status == Running
    ensures var c := Run(INITIAL, inputs); var c' := Step(c, i);
      var before := Count(c.world.trace); var after := Count(c'.world.trace);
      after.recalls == before.recalls
        + (if c.state.Connected? && PilotEffects.UpdatesOperation(c.state.inner, i.event) then 1 else 0)
        + (if after.innerMoves > before.innerMoves && c'.state == Connected(Operating) then 1 else 0)
  {
    RunKeeps(inputs);
    PilotEffects.StepEffects(Run(INITIAL, inputs), i);
  }
}
