/**
 From one event inside Connected to whole runs of the pilot: the outer states, both transition
 loops, and every sequence of inputs whatever the world outside answers.
 */
module PilotRuns {
  import opened Messages
  import opened Channels
  import opened ChannelTheory
  import opened Observers
  import opened TableInvariant
  import opened Pilot
  import opened PilotInvariant

  // ---------------------------------------------------------------- the listener's grammar inside Connected

  predicate NewsEnters(n: PilotNews, next: Inner) {
    n == Parting || (n == Working && !next.Released?)
  }

  predicate NewsFits(n: PilotNews, s: Inner) {
    NewsEnters(n, s) || (n == Starting && s.ValidatingChannels?)
  }

  ghost predicate NewsLeaves(t: Turn<Inner>) {
    var n := Observe(t.world.trace).pilot;
    && n != Garbled
    && (t.world.status == Running ==> if t.next.None? then NewsFits(n, t.self) else NewsEnters(n, t.next.value))
  }

  lemma StartInnerNews(w: World, s: Inner)
    requires w.status == Running
    ensures var n := Observe(w.trace).pilot; var t := StartInner(w, s);
      && (NewsEnters(n, s) ==> NewsLeaves(t))
      && (s.ValidatingChannels? ==> Observe(t.world.trace).pilot == n)
  {
    Observing();
    hide Observe;
    if s.ValidatingChannels? { ValidateObserved(w, s.toValidate); }
  }

  lemma ServerReleaseNews(w: World, s: Inner, env: Env)
    requires Observe(w.trace).pilot == Working || Observe(w.trace).pilot == Parting
    ensures NewsLeaves(ServerRelease(w, s, env))
  {
    Observing();
    hide Observe;
    var all := Listing(w.channels.Keys, env.order);
    ListingPresent(w, env.order);
    CloseObserved(Tell(w, ChannelsClosing(Refs(w, all))), all);
  }

  lemma ClosingNews(w: World, s: Inner, m: ControlMessage, env: Env)
    requires s.ClosingChannels? && NewsFits(Observe(w.trace).pilot, s)
    ensures NewsLeaves(ClosingMessage(w, s, m, env))
  {
    Observing();
    hide Observe;
    if m.command == Command.Release {
      ServerReleaseNews(w, s, env);
    } else if m.command == RemoveChannels && m.response == Accepted && AllPresent(w, s.channelsToClose) {
      CloseObserved(Tell(w, ChannelsClosing(Refs(w, s.channelsToClose))), s.channelsToClose);
    }
  }

  lemma ValidatingNews(w: World, s: Inner, m: ControlMessage, env: Env)
    requires w.status == Running && s.ValidatingChannels? && NewsFits(Observe(w.trace).pilot, s)
    ensures NewsLeaves(ValidatingMessage(w, s, m, env))
  {
    Observing();
    hide Observe;
    hide SetOwned;
    SetOwnedMeaning(w, m.ids);
  }

  lemma ControlNews(w: World, s: Inner, m: ControlMessage, env: Env)
    requires w.status == Running && NewsFits(Observe(w.trace).pilot, s)
    ensures s.RequestingControl? ==> NewsLeaves(RequestingMessage(w, s, m, env))
    ensures s.ReleasingControl? ==> NewsLeaves(ReleasingMessage(w, s, m, env))
  {
    Observing();
    hide Observe;
  }

  lemma HandleInnerNews(w: World, s: Inner, e: Event, env: Env)
    requires w.status == Running && NewsFits(Observe(w.trace).pilot, s)
    ensures NewsLeaves(HandleInner(w, s, e, env))
  {
    Observing();
    hide Observe;
    match e
    case Received(m) => ReceivedNews(w, s, m, env);
    case _ =>
  }

  lemma ReceivedNews(w: World, s: Inner, m: ControlMessage, env: Env)
    requires w.status == Running && NewsFits(Observe(w.trace).pilot, s)
    ensures NewsLeaves(HandleInner(w, s, Received(m), env))
  {
    hide Observe;
    match s
    case ValidatingChannels(_, _) => ValidatingNews(w, s, m, env);
    case OpeningChannels(_) => SimpleNews(w, s, m, env);
    case ClosingChannels(_) => ClosingNews(w, s, m, env);
    case Operating => SimpleNews(w, s, m, env);
    case RequestingControl(_) => ControlNews(w, s, m, env);
    case ReleasingControl(_) => ControlNews(w, s, m, env);
    case Recovering =>
    case Released =>
  }

  lemma SimpleNews(w: World, s: Inner, m: ControlMessage, env: Env)
    requires w.status == Running && NewsFits(Observe(w.trace).pilot, s)
    ensures s.OpeningChannels? ==> NewsLeaves(OpeningMessage(w, s, m, env))
    ensures s.Operating? ==> NewsLeaves(OperatingMessage(w, s, m, env))
  {
    Observing();
    hide Observe;
    if s.Operating? && m.command == Command.Release { ServerReleaseNews(w, s, env); }
  }

  lemma RunInnerNews(t: Turn<Inner>)
    requires NewsLeaves(t)
    ensures NewsLeaves(RunInner(t))
    decreases t.next.Some?
  {
    hide Observe;
    if t.world.status == Running && t.next.Some? {
      ObserveNote(t.world, MovedInside);
      StartInnerNews(Note(t.world, MovedInside), t.next.value);
    }
  }

  // ---------------------------------------------------------------- the outer states

  /** Outside Connected: nothing is under way, no channel exists. */
  ghost predicate Bare(w: World, stream: Stream) {
    var v := Observe(w.trace);
    v.stream == stream && v.pending == Idle && Quiet(v) && Settled(w) && w.channels == map[]
  }

  /** Between events. */
  ghost predicate Fits(w: World, s: Outer) {
    var n := Observe(w.trace).pilot;
    match s
    case Disconnected => Bare(w, Shut) && n == Out
    case Connecting(_, _) => Bare(w, Live) && n == Out
    case Connected(inner) => FitsInner(w, inner) && NewsFits(n, inner) && !inner.Released?
    case Disconnecting => false
  }

  /** About to start `s`. */
  ghost predicate Enters(w: World, s: Outer) {
    var n := Observe(w.trace).pilot;
    match s
    case Disconnected => Bare(w, Shut) && n == Out
    case Connecting(_, _) => Bare(w, Shut) && n == Out
    case Connected(inner) => Bare(w, Live) && n == Out && inner.ValidatingChannels? && inner.validated == []
    case Disconnecting => Bare(w, Live) && (n == Declined || n == Parting)
  }

  /** What may be said of every trace, whatever became of the last handler. */
  ghost predicate Sound(w: World) {
    Safe(w) && Observe(w.trace).pilot != Garbled
  }

  ghost predicate LeavesOuter(t: Turn<Outer>) {
    if t.world.status != Running then Sound(t.world)
    else if t.next.None? then Fits(t.world, t.self)
    else Enters(t.world, t.next.value)
  }

  lemma BareBy(w: World, stream: Stream, a: Action)
    requires Bare(w, stream) && Neutral(Observe(w.trace), a)
    requires var u := NextView(Observe(w.trace), a); u.pending == Idle && Quiet(u)
    ensures Bare(Note(w, a), NextStream(stream, a))
    ensures Observe(Note(w, a).trace).pilot == NextView(Observe(w.trace), a).pilot
  {
    hide Observe;
    ObserveNote(w, a);
    NeutralKeeps(w, a, []);
  }

  lemma HandleConnectedKeeps(w0: World, s: Inner, e: Event, env: Env)
    requires w0.status == Running && Fits(w0, Connected(s))
    ensures LeavesOuter(HandleConnected(Note(w0, In(e)), s, e, env))
  {
    hide Observe;
    hide RunInner;
    var w := Note(w0, In(e));
    HandleInnerKeeps(w0, s, e, env);
    ObserveNote(w0, In(e));
    HandleInnerNews(w, s, e, env);
    RunInnerKeeps(HandleInner(w, s, e, env));
    RunInnerNews(HandleInner(w, s, e, env));
  }

  lemma HandleOuterKeeps(w0: World, s: Outer, e: Event, env: Env)
    requires w0.status == Running && Fits(w0, s)
    ensures LeavesOuter(HandleOuter(Note(w0, In(e)), s, e, env))
  {
    hide Observe;
    if s.Connected? {
      HandleConnectedKeeps(w0, s.inner, e, env);
    } else {
      BareBy(w0, if s.Disconnected? then Shut else Live, In(e));
      var w := Note(w0, In(e));
      if s.Connecting? && e.Received? {
        var m := e.message;
        if m.command == Setup {
          BareBy(w, Live, Told(Error(m.text)));
        } else if IsHeartbeat(m) {
          BareBy(w, Live, Sent(Ack(Heartbeat).(heartbeat := Some((m.heartbeat.value, env.location)))));
        }
      }
    }
  }

  lemma StartOuterKeeps(w: World, s: Outer, env: Env)
    requires w.status == Running && Enters(w, s)
    ensures LeavesOuter(StartOuter(w, s, env))
  {
    hide Observe;
    match s
    case Disconnected =>
    case Connecting(_, _) =>
      BareBy(w, Shut, Told(Failure));
      BareBy(w, Shut, StreamOpenFailed);
      BareBy(Note(w, StreamOpenFailed), Shut, Told(Failure));
      OpenedKeeps(w, Plain(Setup).(key := env.core, requests := s.channels));
    case Connected(inner) => StartConnectedKeeps(w, inner);
    case Disconnecting =>
      BareBy(w, Live, StreamClosed);
      BareBy(Note(w, StreamClosed), Shut, Told(FacadeEvent.Released));
      StatusKeepsBalance(Note(w, StreamClosed), Threw);
  }

  lemma OpenedKeeps(w: World, setup: ClientMessage)
    requires Bare(w, Shut) && setup.command == Setup
    ensures Bare(Send(Note(w, StreamOpened), setup), Live)
    ensures Observe(Send(Note(w, StreamOpened), setup).trace).pilot == Observe(w.trace).pilot
  {
    hide Observe;
    BareBy(w, Shut, StreamOpened);
    ObserveNote(w, StreamOpened);
    BareBy(Note(w, StreamOpened), Fresh, Sent(setup));
  }

  lemma StartConnectedKeeps(w: World, inner: Inner)
    requires w.status == Running && Enters(w, Connected(inner))
    ensures LeavesOuter(StartConnected(w, inner))
  {
    hide Observe;
    StartInnerKeeps(w, inner);
    StartInnerNews(w, inner);
    var t := StartInner(w, inner);
    if t.world.status == Running {
      FitsBy(t.world, t.self, Told(OperationStarted));
      ObserveNote(t.world, Told(OperationStarted));
    }
  }

  lemma RunOuterKeeps(t: Turn<Outer>, env: Env)
    requires LeavesOuter(t)
    ensures LeavesOuter(RunOuter(t, env)) && (RunOuter(t, env).world.status == Running ==> RunOuter(t, env).next.None?)
    decreases Rank(t.next)
  {
    hide Observe;
    if t.world.status == Running && t.next.Some? {
      var s := t.next.value;
      MovedEnters(t.world, s);
      StartOuterKeeps(Note(t.world, Moved), s, env);
      RunOuterKeeps(StartOuter(Note(t.world, Moved), s, env), env);
    }
  }

  lemma MovedEnters(w: World, s: Outer)
    requires Enters(w, s)
    ensures Enters(Note(w, Moved), s)
  {
    hide Observe;
    BareBy(w, if s.Disconnected? || s.Connecting? then Shut else Live, Moved);
  }

  // ---------------------------------------------------------------- whole runs

  ghost predicate Holds(c: Client) {
    if c.world.status == Running then Fits(c.world, c.state) else Sound(c.world)
  }

  lemma StepKeeps(c: Client, i: Input)
    requires Holds(c)
    ensures Holds(Step(c, i))
  {
    hide Observe;
    if c.world.status == Running {
      HandleOuterKeeps(c.world, c.state, i.event, i.env);
      RunOuterKeeps(HandleOuter(Note(c.world, In(i.event)), c.state, i.event, i.env), i.env);
    }
  }

  lemma {:induction false} RunKeeps(inputs: seq<Input>)
    ensures Holds(Run(INITIAL, inputs))
  {
    if inputs == [] {
      assert forall r: Ref ::
          Times(EMPTY, Made(r)) == 0 && Times(EMPTY, Dropped(r)) == 0 && Times(EMPTY, Closed(r)) == 0;
    } else {
      hide Observe;
      RunKeeps(Front(inputs));
      StepKeeps(Run(INITIAL, Front(inputs)), Last(inputs));
    }
  }
}
