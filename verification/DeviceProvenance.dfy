/** Why the device says what it says, and that it leaves nothing unsaid. */
module DeviceProvenance {
  import opened Messages
  import opened Channels
  import opened ChannelTheory
  import opened Provenance
  import opened Device

  function Said(w: World): Talk {
    Talked(DeviceRole, w.trace)
  }

  function StageOf(s: Inner): Stage {
    match s
    case Ready => Grounded
    case Flying(_) => Aloft
    case Releasing => Leaving
    case Released => Away
  }

  predicate Settled(v: Talk) {
    v.honest && !v.owed && !v.due
  }

  /** Between events. */
  predicate Remembers(v: Talk, s: Outer) {
    && Settled(v)
    && match s
       case Disconnected => v.stage == Away
       case Connecting => v.stage == Greeting
       case Connected(inner) => v.stage == StageOf(inner) && !inner.Released?
       case Disconnecting => false
  }

  /** About to start `s`: the event being handled is a reason to, and calls for what `s` will say. */
  predicate Reason(v: Talk, s: Inner) {
    && v.honest && v.cause.Some?
    && match s
       case Flying(list) => From(v, AttachChannels) && v.cause.value.message.channels == list && v.owed && v.due
       case Releasing => v.cause.value == User(UserRelease) && v.owed && !v.due
       case Released => Agreed(v, Command.Release) && !v.owed && v.due
       case Ready => !v.owed && !v.due && v.stage == Grounded
  }

  predicate ReasonOuter(v: Talk, s: Outer) {
    && v.honest && v.cause.Some?
    && match s
       case Disconnected => !v.owed && !v.due && v.stage == Away
       case Connecting => v.cause.value == User(Attach) && v.owed && !v.due && v.stage == Away
       case Connected(inner) => Agreed(v, Setup) && inner.Ready? && !v.owed && v.due
       case Disconnecting => !v.owed && ((Refused(v, Setup) && !v.due) || (Agreed(v, Command.Release) && v.due))
  }

  predicate Leaves(t: Turn<Inner>) {
    if t.world.status != Running then Said(t.world).honest
    else if t.next.Some? then Reason(Said(t.world), t.next.value)
    else if t.self.Released? then Reason(Said(t.world), t.self)
    else Settled(Said(t.world)) && Said(t.world).stage == StageOf(t.self)
  }

  predicate LeavesOuter(t: Turn<Outer>) {
    if t.world.status != Running then Said(t.world).honest
    else if t.next.Some? then ReasonOuter(Said(t.world), t.next.value)
    else Remembers(Said(t.world), t.self)
  }

  lemma Speaks(w: World, m: ClientMessage)
    requires May(DeviceRole, Said(w), Sent(m)) && Said(w).honest
    ensures var v := Said(Send(w, m));
      && v.honest && !v.owed && v.due == Said(w).due && v.cause == Said(w).cause
      && v.stage == DeviceStage(Said(w).stage, Sent(m))
  {
    Talking(DeviceRole);
  }

  lemma Tells(w: World, n: FacadeEvent)
    requires Said(w).honest && May(DeviceRole, Said(w), Told(n))
    ensures Said(Tell(w, n)) ==
            Said(w).(due := false, owed := Said(w).owed && !n.Failure?, stage := DeviceStage(Said(w).stage, Told(n)))
  {
    Talking(DeviceRole);
  }

  lemma AttachSays(w: World, list: seq<ChannelResponse>)
    requires w.status == Running && Said(w).honest && Said(w).owed && Said(w).due
    requires From(Said(w), AttachChannels) && Said(w).cause.value.message.channels == list
    ensures var after := AttachAll(w, list);
      Said(after).honest && (after.status == Running ==> Settled(Said(after)) && Said(after).stage == Aloft)
  {
    hide Talked;
    hide Validate;
    var v := Validate(w, list);
    ValidateSilent(DeviceRole, w, list);
    ValidateThrowsExactly(w, list);
    if v.world.status == Running {
      ValidateResult(w, list);
      Tells(v.world, ChannelsOpened(v.result));
      Speaks(Tell(v.world, ChannelsOpened(v.result)), Ack(AttachChannels).(ids := RefIds(v.result)));
    }
  }

  lemma StartInnerSays(w: World, s: Inner)
    requires w.status == Running && Reason(Said(w), s)
    ensures Leaves(StartInner(w, s))
  {
    hide Talked;
    hide AttachAll;
    match s
    case Flying(list) => AttachSays(w, list);
    case Releasing => Speaks(w, Plain(Command.Release));
    case _ =>
  }

  /** State `s` is handling event `e`, in a conversation that stood at `s`; nothing was said about it yet. */
  predicate Handling(w: World, s: Inner, e: Event) {
    && w.status == Running && !s.Released?
    && var v := Said(w);
       && v.honest && v.cause == Some(e) && v.stage == StageOf(s)
       && v.owed == DeviceOwes(StageOf(s), e) && v.due == DeviceDue(StageOf(s), e)
  }

  lemma BeatSays(w: World, s: Inner, m: ControlMessage, env: Env)
    requires Handling(w, s, Received(m)) && IsHeartbeat(m)
    ensures Leaves(Stay(DefaultMessage(w, m, env), s))
  {
    hide Talked;
    Speaks(w, Ack(Heartbeat).(heartbeat := Some((m.heartbeat.value, env.location))));
  }

  lemma ReleaseSays(w: World, s: Inner, m: ControlMessage)
    requires s.Flying? && Handling(w, s, Received(m)) && m.command == ReleaseChannels
    ensures Leaves(Stay(ReleaseAll(w, m.ids), s))
  {
    hide Talked;
    hide Close;
    if AllPresent(w, m.ids) {
      var told := Tell(w, ChannelsClosing(Refs(w, m.ids)));
      assert RefIds(Refs(w, m.ids)) == m.ids;
      Tells(w, ChannelsClosing(Refs(w, m.ids)));
      CloseSilent(DeviceRole, told, m.ids);
      Speaks(Close(told, m.ids), Ack(ReleaseChannels).(ids := m.ids));
    }
  }

  lemma EndSays(w: World, s: Inner, m: ControlMessage, env: Env)
    requires s.Flying? && Handling(w, s, Received(m)) && m.command == OperationEnded
    ensures Leaves(Go(EndOperation(w, env), s, Ready))
  {
    hide Talked;
    hide Close;
    var all := Listing(w.channels.Keys, env.order);
    ListingPresent(w, env.order);
    var told := Tell(w, ChannelsClosing(Refs(w, all)));
    Tells(w, ChannelsClosing(Refs(w, all)));
    CloseSilent(DeviceRole, told, all);
    Tells(Close(told, all), OperationEnd);
    Speaks(Tell(Close(told, all), OperationEnd), Ack(OperationEnded));
  }

  lemma MessageSays(w: World, s: Inner, m: ControlMessage, env: Env)
    requires Handling(w, s, Received(m))
    ensures Leaves(HandleInner(w, s, Received(m), env))
  {
    hide Talked;
    hide AttachAll;
    hide ReleaseAll;
    hide EndOperation;
    if IsHeartbeat(m) {
      BeatSays(w, s, m, env);
    } else if s.Flying? {
      if m.command == AttachChannels { AttachSays(w, m.channels); }
      if m.command == ReleaseChannels { ReleaseSays(w, s, m); }
      if m.command == OperationEnded { EndSays(w, s, m, env); }
    }
  }

  lemma HandleInnerSays(w0: World, s: Inner, e: Event, env: Env)
    requires w0.status == Running && Remembers(Said(w0), Connected(s))
    ensures Leaves(HandleInner(Note(w0, In(e)), s, e, env))
  {
    var w := Note(w0, In(e));
    assert Said(w) == NextTalk(DeviceRole, Said(w0), In(e)) by { Talking(DeviceRole); }
    assert Handling(w, s, e);
    hide Talked;
    match e
    case Received(m) => MessageSays(w, s, m, env);
    case _ =>
  }

  lemma RunInnerSays(t: Turn<Inner>)
    requires Leaves(t)
    ensures Leaves(RunInner(t)) && (RunInner(t).world.status == Running ==> RunInner(t).next.None?)
  {
    if t.world.status == Running && t.next.Some? {
      var w := Note(t.world, MovedInside);
      MuteNote(DeviceRole, t.world, MovedInside);
      hide Talked;
      hide StartInner;
      StartInnerSays(w, t.next.value);
      var u := StartInner(w, t.next.value);
      assert RunInner(u) == u;
    }
  }

  // ---------------------------------------------------------------- the outer states

  lemma ConnectingSays(w0: World, s: Outer, e: Event, env: Env)
    requires w0.status == Running && s.Connecting? && Remembers(Said(w0), s)
    ensures LeavesOuter(HandleOuter(Note(w0, In(e)), s, e, env))
  {
    var w := Note(w0, In(e));
    assert Said(w) == NextTalk(DeviceRole, Said(w0), In(e)) by { Talking(DeviceRole); }
    hide Talked;
    if e.Received? {
      var m := e.message;
      if m.command == Setup {
        if m.response != Accepted { Tells(w, Error(m.text)); }
      } else if IsHeartbeat(m) {
        Speaks(w, Ack(Heartbeat).(heartbeat := Some((m.heartbeat.value, env.location))));
      }
    }
  }

  lemma DisconnectedSays(w0: World, s: Outer, e: Event, env: Env)
    requires w0.status == Running && s.Disconnected? && Remembers(Said(w0), s)
    ensures LeavesOuter(HandleOuter(Note(w0, In(e)), s, e, env))
  {
    Talking(DeviceRole);
    hide Talked;
  }

  lemma ConnectedSays(w0: World, s: Outer, e: Event, env: Env)
    requires w0.status == Running && s.Connected? && Remembers(Said(w0), s)
    ensures LeavesOuter(HandleConnected(Note(w0, In(e)), s.inner, e, env))
  {
    hide Talked;
    hide HandleInner;
    hide RunInner;
    HandleInnerSays(w0, s.inner, e, env);
    RunInnerSays(HandleInner(Note(w0, In(e)), s.inner, e, env));
  }

  lemma HandleOuterSays(w0: World, s: Outer, e: Event, env: Env)
    requires w0.status == Running && Remembers(Said(w0), s)
    ensures LeavesOuter(HandleOuter(Note(w0, In(e)), s, e, env))
  {
    match s
    case Disconnected => DisconnectedSays(w0, s, e, env);
    case Connected(inner) => ConnectedSays(w0, s, e, env);
    case Connecting => ConnectingSays(w0, s, e, env);
  }

  lemma StartConnectingSays(w: World, env: Env)
    requires w.status == Running && ReasonOuter(Said(w), Connecting)
    ensures LeavesOuter(StartConnecting(w, env))
  {
    hide Talked;
    MuteNote(DeviceRole, w, StreamOpened);
    MuteNote(DeviceRole, w, StreamOpenFailed);
    if env.core.None? {
      Tells(w, Failure);
    } else if !env.opens {
      Tells(Note(w, StreamOpenFailed), Failure);
    } else {
      Speaks(Note(w, StreamOpened), Plain(Setup).(key := env.core));
    }
  }

  lemma StartOuterSays(w: World, s: Outer, env: Env)
    requires w.status == Running && ReasonOuter(Said(w), s)
    ensures LeavesOuter(StartOuter(w, s, env))
  {
    hide Talked;
    match s
    case Disconnected =>
    case Connecting => StartConnectingSays(w, env);
    case Connected(inner) => Tells(w, FacadeEvent.Attached);
    case Disconnecting =>
      MuteNote(DeviceRole, w, StreamClosed);
      Tells(Note(w, StreamClosed), FacadeEvent.Released);
  }

  lemma {:induction false} RunOuterSays(t: Turn<Outer>, env: Env)
    requires LeavesOuter(t)
    ensures LeavesOuter(RunOuter(t, env)) && (RunOuter(t, env).world.status == Running ==> RunOuter(t, env).next.None?)
    decreases Rank(t.next)
  {
    if t.world.status == Running && t.next.Some? {
      var w := Note(t.world, Moved);
      MuteNote(DeviceRole, t.world, Moved);
      hide Talked;
      hide StartOuter;
      StartOuterSays(w, t.next.value, env);
      RunOuterSays(StartOuter(w, t.next.value, env), env);
    }
  }

  lemma {:induction false} RunSays(inputs: seq<Input>)
    ensures var c := Run(INITIAL, inputs);
      if c.world.status == Running then Remembers(Said(c.world), c.state) else Said(c.world).honest
  {
    if inputs != [] {
      RunSays(Front(inputs));
      var c := Run(INITIAL, Front(inputs));
      var i := Last(inputs);
      hide HandleOuter;
      hide RunOuter;
      hide Talked;
      if c.world.status == Running {
        HandleOuterSays(c.world, c.state, i.event, i.env);
        RunOuterSays(HandleOuter(Note(c.world, In(i.event)), c.state, i.event, i.env), i.env);
      }
    }
  }

  /** At the end of every event that returned, too, nothing is left unsaid; and the stage tells the state. */
  lemma NothingIsLeftUnsaid(inputs: seq<Input>)
    requires Run(INITIAL, inputs).world.status == Running
    ensures var c := Run(INITIAL, inputs); var v := Said(c.world);
      && !v.owed && !v.due
      && (v.stage == Away <==> c.state.Disconnected?) && (v.stage == Greeting <==> c.state.Connecting?)
      && (c.state.Connected? ==> v.stage == StageOf(c.state.inner))
  {
    RunSays(inputs);
  }
}
