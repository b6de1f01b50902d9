/** What every step of the device keeps, up to whole runs whatever the world outside answers. */
module DeviceRuns {
  import opened Messages
  import opened Channels
  import opened ChannelTheory
  import opened Observers
  import opened TableInvariant
  import opened Device

  predicate NewsFits(n: DeviceNews, s: Inner) {
    if s.Flying? then n == Airborne || n == Landing else n == Grounded
  }

  /** The stream is in this phase and nothing the device never does is under way. */
  predicate Calm(v: View, stream: Stream) {
    v.stream == stream && v.pending == Idle && Quiet(v)
  }

  /** Inside Connected, between events. */
  ghost predicate FitsInner(w: World, s: Inner) {
    var v := Observe(w.trace);
    Calm(v, Live) && NewsFits(v.device, s) && Settled(w) && (!s.Flying? ==> w.channels == map[])
  }

  /** No channel exists. */
  ghost predicate Bare(w: World, stream: Stream, n: DeviceNews) {
    Calm(Observe(w.trace), stream) && Observe(w.trace).device == n && Settled(w) && w.channels == map[]
  }

  /** What may be said of every trace, whatever became of the last handler. */
  ghost predicate Sound(w: World) {
    var v := Observe(w.trace);
    v.stream != Broken && v.pending == Idle && v.device != Jumbled && Balanced(w)
  }

  ghost predicate Leaves(t: Turn<Inner>) {
    if t.world.status != Running then Sound(t.world)
    else if t.next.None? then FitsInner(t.world, t.self)
    else Bare(t.world, Live, Grounded)
  }

  lemma FitsBy(w: World, s: Inner, a: Action)
    requires FitsInner(w, s) && Neutral(Observe(w.trace), a)
    requires var u := NextView(Observe(w.trace), a); Calm(u, Live) && NewsFits(u.device, s)
    ensures FitsInner(Note(w, a), s)
  {
    hide Observe;
    ObserveNote(w, a);
    NeutralKeeps(w, a, []);
  }

  lemma BareBy(w: World, stream: Stream, n: DeviceNews, a: Action)
    requires Bare(w, stream, n) && Neutral(Observe(w.trace), a)
    requires Calm(NextView(Observe(w.trace), a), NextStream(stream, a))
    ensures Bare(Note(w, a), NextStream(stream, a), if a.Told? then NextDeviceNews(n, a.news) else n)
  {
    hide Observe;
    ObserveNote(w, a);
    NeutralKeeps(w, a, []);
  }

  // ---------------------------------------------------------------- channels

  /** Attaching channels, from the ground or in the air. */
  lemma AttachKeeps(w: World, s: Inner, list: seq<ChannelResponse>)
    requires w.status == Running && s.Flying?
    requires Calm(Observe(w.trace), Live) && Settled(w)
    requires Observe(w.trace).device == Grounded || NewsFits(Observe(w.trace).device, s)
    ensures var after := AttachAll(w, list);
      if after.status == Running then FitsInner(after, s) else Sound(after)
  {
    hide Observe;
    hide Validate;
    hide Balanced;
    var v := Validate(w, list);
    ValidateObserved(w, list);
    ValidateKeepsBalance(w, list);
    if v.world.status == Running {
      var told := Tell(v.world, ChannelsOpened(v.result));
      ObserveNote(v.world, Told(ChannelsOpened(v.result)));
      if AllAlive(v.world, v.result) {
        ValidatedAwait(w, list);
        NowReported(v.world, v.result);
        FitsBy(told, s, Sent(Ack(AttachChannels).(ids := RefIds(v.result))));
      }
      NoteKeepsBalance(v.world, Told(ChannelsOpened(v.result)));
      StatusKeepsBalance(told, Undefined);
    }
  }

  lemma ReleaseKeeps(w: World, s: Inner, ids: seq<int>)
    requires w.status == Running && s.Flying? && FitsInner(w, s)
    ensures var after := ReleaseAll(w, ids);
      if after.status == Running then FitsInner(after, s) else Sound(after)
  {
    hide Observe;
    hide Close;
    if AllPresent(w, ids) {
      ReportAndClose(w, ids);
      var closed := Close(Tell(w, ChannelsClosing(Refs(w, ids))), ids);
      FitsBy(closed, s, Sent(Ack(ReleaseChannels).(ids := ids)));
    } else {
      StatusKeepsBalance(w, Undefined);
    }
  }

  lemma EndKeeps(w: World, s: Inner, env: Env)
    requires w.status == Running && s.Flying? && FitsInner(w, s)
    ensures EndOperation(w, env).status == Running && Bare(EndOperation(w, env), Live, Grounded)
  {
    hide Observe;
    hide Close;
    var all := Listing(w.channels.Keys, env.order);
    ListingPresent(w, env.order);
    var told := Tell(w, ChannelsClosing(Refs(w, all)));
    ReportAndClose(w, all);
    CloseEverything(told, all);
    var closed := Close(told, all);
    BareBy(closed, Live, Landing, Told(OperationEnd));
    BareBy(Tell(closed, OperationEnd), Live, Grounded, Sent(Ack(OperationEnded)));
  }

  // ---------------------------------------------------------------- one event inside Connected

  lemma StartInnerKeeps(w: World, s: Inner)
    requires w.status == Running && Bare(w, Live, Grounded)
    ensures Leaves(StartInner(w, s))
  {
    hide Observe;
    hide AttachAll;
    match s
    case Ready =>
    case Flying(list) => AttachKeeps(w, s, list);
    case Releasing => BareBy(w, Live, Grounded, Sent(Plain(Command.Release)));
    case Released =>
  }

  lemma DefaultKeeps(w: World, s: Inner, m: ControlMessage, env: Env)
    requires w.status == Running && FitsInner(w, s)
    ensures FitsInner(DefaultMessage(w, m, env), s)
  {
    hide Observe;
    if IsHeartbeat(m) {
      FitsBy(w, s, Sent(Ack(Heartbeat).(heartbeat := Some((m.heartbeat.value, env.location)))));
    }
  }

  lemma HandleInnerKeeps(w0: World, s: Inner, e: Event, env: Env)
    requires w0.status == Running && FitsInner(w0, s)
    ensures Leaves(HandleInner(Note(w0, In(e)), s, e, env))
  {
    hide Observe;
    hide AttachAll;
    hide ReleaseAll;
    hide EndOperation;
    var w := Note(w0, In(e));
    FitsBy(w0, s, In(e));
    if e.Received? {
      DefaultKeeps(w, s, e.message, env);
      if s.Flying? {
        AttachKeeps(w, s, e.message.channels);
        ReleaseKeeps(w, s, e.message.ids);
        EndKeeps(w, s, env);
      }
    }
  }

  lemma RunInnerKeeps(t: Turn<Inner>)
    requires Leaves(t)
    ensures Leaves(RunInner(t)) && (RunInner(t).world.status == Running ==> RunInner(t).next.None?)
    decreases t.next.Some?
  {
    hide Observe;
    if t.world.status == Running && t.next.Some? {
      BareBy(t.world, Live, Grounded, MovedInside);
      StartInnerKeeps(Note(t.world, MovedInside), t.next.value);
    }
  }

  // ---------------------------------------------------------------- the outer states

  /** Between events. */
  ghost predicate Fits(w: World, s: Outer) {
    match s
    case Disconnected => Bare(w, Shut, Away)
    case Connecting => Bare(w, Live, Away)
    case Connected(inner) => FitsInner(w, inner) && !inner.Released?
    case Disconnecting => false
  }

  /** About to start `s`. */
  ghost predicate Enters(w: World, s: Outer) {
    match s
    case Disconnected => Bare(w, Shut, Away)
    case Connecting => Bare(w, Shut, Away)
    case Connected(inner) => Bare(w, Live, Away) && inner.Ready?
    case Disconnecting => Bare(w, Live, Refused) || Bare(w, Live, Grounded)
  }

  ghost predicate LeavesOuter(t: Turn<Outer>) {
    if t.world.status != Running then Sound(t.world)
    else if t.next.None? then Fits(t.world, t.self)
    else Enters(t.world, t.next.value)
  }

  lemma HandleOuterKeeps(w0: World, s: Outer, e: Event, env: Env)
    requires w0.status == Running && Fits(w0, s)
    ensures LeavesOuter(HandleOuter(Note(w0, In(e)), s, e, env))
  {
    hide Observe;
    hide RunInner;
    hide HandleInner;
    var w := Note(w0, In(e));
    if s.Connected? {
      HandleInnerKeeps(w0, s.inner, e, env);
      RunInnerKeeps(HandleInner(w, s.inner, e, env));
    } else {
      BareBy(w0, if s.Disconnected? then Shut else Live, Away, In(e));
      if s.Connecting? && e.Received? {
        var m := e.message;
        if m.command == Setup {
          BareBy(w, Live, Away, Told(Error(m.text)));
        } else if IsHeartbeat(m) {
          BareBy(w, Live, Away, Sent(Ack(Heartbeat).(heartbeat := Some((m.heartbeat.value, env.location)))));
        }
      }
    }
  }

  lemma ConnectingKeeps(w: World, env: Env)
    requires w.status == Running && Bare(w, Shut, Away)
    ensures LeavesOuter(StartConnecting(w, env))
  {
    hide Observe;
    if env.core.None? {
      BareBy(w, Shut, Away, Told(Failure));
    } else if !env.opens {
      BareBy(w, Shut, Away, StreamOpenFailed);
      BareBy(Note(w, StreamOpenFailed), Shut, Away, Told(Failure));
    } else {
      BareBy(w, Shut, Away, StreamOpened);
      BareBy(Note(w, StreamOpened), Fresh, Away, Sent(Plain(Setup).(key := env.core)));
    }
  }

  lemma DisconnectingKeeps(w: World, env: Env, n: DeviceNews)
    requires w.status == Running && Bare(w, Live, n) && (n == Refused || n == Grounded)
    ensures LeavesOuter(StartDisconnecting(w, env))
  {
    hide Observe;
    BareBy(w, Live, n, StreamClosed);
    BareBy(Note(w, StreamClosed), Shut, n, Told(FacadeEvent.Released));
    StatusKeepsBalance(Note(w, StreamClosed), Threw);
  }

  lemma StartOuterKeeps(w: World, s: Outer, env: Env)
    requires w.status == Running && Enters(w, s)
    ensures LeavesOuter(StartOuter(w, s, env))
  {
    hide Observe;
    match s
    case Disconnected =>
    case Connecting => ConnectingKeeps(w, env);
    case Connected(inner) =>
      BareBy(w, Live, Away, Told(FacadeEvent.Attached));
    case Disconnecting => DisconnectingKeeps(w, env, Observe(w.trace).device);
  }

  lemma RunOuterKeeps(t: Turn<Outer>, env: Env)
    requires LeavesOuter(t)
    ensures LeavesOuter(RunOuter(t, env)) && (RunOuter(t, env).world.status == Running ==> RunOuter(t, env).next.None?)
    decreases Rank(t.next)
  {
    hide Observe;
    hide StartOuter;
    if t.world.status == Running && t.next.Some? {
      var s := t.next.value;
      BareBy(t.world, if s.Disconnected? || s.Connecting? then Shut else Live, Observe(t.world.trace).device, Moved);
      StartOuterKeeps(Note(t.world, Moved), s, env);
      assert Rank(StartOuter(Note(t.world, Moved), s, env).next) < Rank(Some(s));
      RunOuterKeeps(StartOuter(Note(t.world, Moved), s, env), env);
    }
  }

  // ---------------------------------------------------------------- whole runs

  ghost predicate Holds(c: Client) {
    if c.world.status == Running then Fits(c.world, c.state) else Sound(c.world)
  }

  lemma StepKeeps(c: Client, i: Input)
    requires Holds(c)
    ensures Holds(Step(c, i))
  {
    hide Observe;
    hide HandleOuter;
    if c.world.status == Running {
      HandleOuterKeeps(c.world, c.state, i.event, i.env);
      RunOuterKeeps(HandleOuter(Note(c.world, In(i.event)), c.state, i.event, i.env), i.env);
    }
  }

  lemma {:induction false} RunKeeps(inputs: seq<Input>)
    ensures Holds(Run(INITIAL, inputs))
  {
    if inputs == [] {
      assert forall r: Ref ::
          Times(EMPTY, Made(r)) == 0 && Times(EMPTY, Dropped(r)) == 0 && Times(EMPTY, Closed(r)) == 0;
    } else {
      hide Observe;
      RunKeeps(Front(inputs));
      StepKeeps(Run(INITIAL, Front(inputs)), Last(inputs));
    }
  }
}
