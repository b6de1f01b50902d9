/** The device's promises, over every run and whatever the server, the user and the network do. */
module DeviceTheorems {
  import opened Messages
  import opened Channels
  import opened ChannelTheory
  import opened Observers
  import opened TableInvariant
  import opened TraceMeaning
  import opened Tallies
  import opened Device
  import opened DeviceRuns
  import opened ListenerGrammar
  import DeviceEffects

  /**
   A channel is in the table if and only if it was reported as opened, has not been reported as closing since, and was
   not erased by a failed validation.
   */
  lemma ReportsFollowTable(inputs: seq<Input>, r: Ref)
    requires Run(INITIAL, inputs).world.status == Running
    ensures var w := Run(INITIAL, inputs).world;
      Alive(w, r) <==> ReportStands(w.trace, |w.trace|, r) && Dropped(r) !in w.trace
  {
    hide Observe;
    RunKeeps(inputs);
    var w := Run(INITIAL, inputs).world;
    hide Run;
    ReportedMeans(w.trace, |w.trace|, r);
    hide ReportStands;
    assert w.trace[..|w.trace|] == w.trace;
  }

  /**
   What the listener was told is not always the table: a channel of the table whose id is attached again
   and fails is erased without a word. For every channel, this message does that exactly then.
   */
  lemma ReattachForgetsExactly(c: Client, m: ControlMessage, env: Env, r: Ref)
    requires Holds(c) && c.world.status == Running && c.state.Connected? && c.state.inner.Flying?
    requires m.command == AttachChannels && Alive(c.world, r)
    requires Step(c, Input(Received(m), env)).world.status == Running
    ensures var w := Step(c, Input(Received(m), env)).world;
      && r in Observe(w.trace).reported
      && (!Alive(w, r) <==> SomeFailure(m.channels, r.id))
  {
    hide Observe;
    var w0 := Note(c.world, In(Received(m)));
    var s := c.state.inner;
    var v := Validate(w0, m.channels);
    FitsBy(c.world, s, In(Received(m)));
    assert HandleInner(w0, s, Received(m), env) == Stay(AttachAll(w0, m.channels), s);
    assert RunInner(Stay(AttachAll(w0, m.channels), s)) == Stay(AttachAll(w0, m.channels), s);
    assert Step(c, Input(Received(m), env)).world == AttachAll(w0, m.channels);
    hide Step;
    ForgottenExactly(w0, m.channels, r);
    ValidateAlive(w0, m.channels, r);
    AttachTells(w0, m.channels, r);
  }

  /** Attaching takes nothing back that was reported. */
  lemma AttachTells(w: World, list: seq<ChannelResponse>, r: Ref)
    requires w.status == Running && AttachAll(w, list).status == Running
    ensures r in Observe(w.trace).reported ==> r in Observe(AttachAll(w, list).trace).reported
    ensures Alive(AttachAll(w, list), r) <==> Alive(Validate(w, list).world, r)
    ensures Validate(w, list).world.status == Running
  {
    Observing();
    hide Observe;
    ValidateObserved(w, list);
  }

  /** The device has no channel unless it is flying. */
  lemma TableEmptyUnlessFlying(inputs: seq<Input>)
    requires var c := Run(INITIAL, inputs); c.world.status == Running && !(c.state.Connected? && c.state.inner.Flying?)
    ensures Run(INITIAL, inputs).world.channels == map[]
  {
    hide Observe;
    hide Run;
    RunKeeps(inputs);
  }

  lemma HoldsIsSound(c: Client)
    requires Holds(c)
    ensures Observe(c.world.trace).stream != Broken && Observe(c.world.trace).device != Jumbled && Balanced(c.world)
  {
    hide Observe;
  }

  /** What the listener hears is the beginning of a sequence of whole sessions. */
  lemma ListenerHearsSessions(inputs: seq<Input>)
    ensures exists rest: Word :: DeviceSessions(Heard(Run(INITIAL, inputs).world.trace) + rest)
  {
    hide Run;
    RunKeeps(inputs);
    var t := Run(INITIAL, inputs).world.trace;
    HoldsIsSound(Run(INITIAL, inputs));
    ObserverHears(t);
    DeviceGrammarExactly(Heard(t));
  }

  /**
   Every message goes out on an open stream, the first one on each stream being SETUP; openings and
   closings alternate.
   */
  lemma SessionsAreBracketed(inputs: seq<Input>, i: nat)
    requires i < |Run(INITIAL, inputs).world.trace|
    ensures var t := Run(INITIAL, inputs).world.trace;
      && (t[i].Sent? ==> exists o :: OpenSince(t, o, i) && (t[i].message.command == Setup <==> NothingSent(t, o, i)))
      && (t[i].StreamClosed? ==> exists o :: OpenSince(t, o, i))
      && (t[i].StreamOpened? ==>
          forall o :: 0 <= o < i && t[o].StreamOpened? ==> exists k :: o < k < i && t[k].StreamClosed?)
  {
    RunKeeps(inputs);
    HoldsIsSound(Run(INITIAL, inputs));
    var t := Run(INITIAL, inputs).world.trace;
    hide Run;
    if t[i].Sent? { SentOnOpenStream(t, i); }
    BordersAlternate(t, i);
  }

  /** Between events the stream is open exactly in Connecting and Connected, and no state is on its way out. */
  lemma StreamOpenExactly(inputs: seq<Input>)
    requires Run(INITIAL, inputs).world.status == Running
    ensures var c := Run(INITIAL, inputs);
      && Observe(c.world.trace).stream == (if c.state.Connecting? || c.state.Connected? then Live else Shut)
      && !c.state.Disconnecting? && c.state != Connected(Inner.Released)
  {
    hide Observe;
    hide Run;
    RunKeeps(inputs);
  }

  /** Each channel ever inserted was inserted once, and is live, was dropped once, or was closed once. */
  lemma EachChannelHasOneFate(inputs: seq<Input>, r: Ref)
    requires Made(r) in Run(INITIAL, inputs).world.trace
    ensures var w := Run(INITIAL, inputs).world;
      && Times(w, Made(r)) == 1
      && (if Alive(w, r) then 1 else 0) + Times(w, Dropped(r)) + Times(w, Closed(r)) == 1
  {
    hide Run;
    RunKeeps(inputs);
    HoldsIsSound(Run(INITIAL, inputs));
    var w := Run(INITIAL, inputs).world;
    assert Times(w, Made(r)) > 0;
    assert Times(w, Made(r)) <= if r.incarnation < w.made then 1 else 0;
  }

  /**
   Every event ends after at most one inner and two outer transitions, with at most one opening or
   closing of the stream. An opening ends as the environment has it; a closing leaves the client running,
   and the listener told of it, exactly when it returns.
   */
  lemma EventsRunToCompletion(inputs: seq<Input>, i: Input)
    requires Run(INITIAL, inputs).world.status == Running
    ensures var c := Run(INITIAL, inputs); var c' := Step(c, i);
      var before := Count(c.world.trace); var after := Count(c'.world.trace);
      && after.moves <= before.moves + 2 && after.innerMoves <= before.innerMoves + 1
      && after.openings + after.closings <= before.openings + before.closings + 1
      && OpensBy(before, after, c.state.Disconnected? && i.event == User(Attach), i.env)
      && ClosesBy(before, after, after.closings > before.closings, i.env)
      && (after.closings > before.closings ==> (c'.world.status == Running <==> i.env.closes))
  {
    RunKeeps(inputs);
    DeviceEffects.StepEffects(Run(INITIAL, inputs), i);
  }
}
