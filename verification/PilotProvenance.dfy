/** Why the pilot says what it says, and that it leaves nothing unsaid. */
module PilotProvenance {
  import opened Messages
  import opened Channels
  import opened ChannelTheory
  import opened Provenance
  import opened Pilot

  function Said(w: World): Talk {
    Talked(PilotRole, w.trace)
  }

  function StageOf(s: Inner): Stage {
    match s
    case ValidatingChannels(_, _) => Confirming
    case OpeningChannels(_) => Adding
    case ClosingChannels(_) => Removing
    case Operating => Idle
    case RequestingControl(_) => Asking
    case ReleasingControl(_) => Yielding
    case Recovering => Lost
    case Released => Away
  }

  /** The conversation is where state `s` has it, and the state remembers what it named to the server. */
  predicate At(v: Talk, s: Inner) {
    && v.honest && !v.owed && v.stage == StageOf(s)
    && (s.ValidatingChannels? ==> v.ready == RefIds(s.validated))
    && (s.ClosingChannels? ==> v.removal == s.channelsToClose)
  }

  /** Between events inside Connected. */
  predicate Remembers(v: Talk, s: Inner) {
    At(v, s) && !v.due && !s.Released?
  }

  /** Between events. */
  predicate RemembersOuter(v: Talk, s: Outer) {
    && v.honest && !v.owed && !v.due
    && match s
       case Disconnected => v.stage == Away
       case Connecting(_, _) => v.stage == Greeting
       case Connected(inner) => Remembers(v, inner)
       case Disconnecting => false
  }

  /** About to start `s`: the event being handled is a reason to, and calls for what `s` will say. */
  predicate Reason(v: Talk, s: Inner) {
    && v.honest && v.cause.Some?
    && match s
       case ValidatingChannels(list, _) =>
         && v.owed && ((Agreed(v, Setup) && v.due) || (Agreed(v, AddChannels) && !v.due))
         && v.cause.value.message.channels == list
       case OpeningChannels(requests) => v.cause.value == User(OpenChannels(requests)) && v.owed && !v.due
       case ClosingChannels(ids) =>
         (v.cause.value == User(CloseChannels(ids)) || v.cause.value == User(UserRelease)) && v.owed && !v.due
       case RequestingControl(id) => v.cause.value == User(UserRequestControl(id)) && v.owed && !v.due
       case ReleasingControl(id) =>
         && From(v, ReleaseControl) && v.cause.value.message.ids != [] && v.cause.value.message.ids[0] == id
         && !v.owed && v.due
       case Operating => !v.owed && !v.due && v.stage == Idle
       case Recovering => !v.owed && !v.due && v.stage == Lost
       case Released => From(v, Command.Release) && !v.owed && !v.due
  }

  predicate ReasonOuter(v: Talk, s: Outer) {
    && v.honest && v.cause.Some?
    && match s
       case Disconnected => !v.owed && !v.due && v.stage == Away
       case Connecting(id, channels) =>
         v.cause.value == User(Operate(id, channels)) && v.owed && !v.due && v.stage == Away
       case Connected(inner) => Agreed(v, Setup) && inner.ValidatingChannels? && Reason(v, inner)
       case Disconnecting => (Refused(v, Setup) || From(v, Command.Release)) && !v.owed && !v.due
  }

  predicate Leaves(t: Turn<Inner>) {
    if t.world.status != Running then Said(t.world).honest
    else if t.next.Some? then
      Reason(Said(t.world), t.next.value) && (t.next.value.ValidatingChannels? ==> !Said(t.world).due)
    else if t.self.Released? then Reason(Said(t.world), Inner.Released)
    else Remembers(Said(t.world), t.self)
  }

  predicate LeavesOuter(t: Turn<Outer>) {
    if t.world.status != Running then Said(t.world).honest
    else if t.next.Some? then ReasonOuter(Said(t.world), t.next.value)
    else RemembersOuter(Said(t.world), t.self)
  }

  lemma Speaks(w: World, m: ClientMessage)
    requires May(PilotRole, Said(w), Sent(m)) && Said(w).honest
    ensures var v := Said(Send(w, m));
      && v.honest && !v.owed && v.due == Said(w).due && v.cause == Said(w).cause
      && v.stage == PilotStage(Said(w).stage, Sent(m))
      && v.ready == (if m.command == ChannelsReady then m.ids else Said(w).ready)
      && v.removal == (if m.command == RemoveChannels && m.response == None then m.ids else Said(w).removal)
  {
    Talking(PilotRole);
  }

  lemma Tells(w: World, n: FacadeEvent)
    requires Said(w).honest && May(PilotRole, Said(w), Told(n))
    ensures Said(Tell(w, n)) ==
            Said(w).(due := false, owed := Said(w).owed && !n.Failure?, stage := PilotStage(Said(w).stage, Told(n)))
  {
    Talking(PilotRole);
  }

  /** What starting `s` leaves: after the first validation, the word on the operation's start is still due. */
  predicate Started(before: Talk, s: Inner, t: Turn<Inner>) {
    && Said(t.world).honest
    && (t.world.status == Running ==>
        && Said(t.world).cause == before.cause
        && if s.ValidatingChannels? then
             t.self.ValidatingChannels? && At(Said(t.world), t.self) && Said(t.world).due == before.due
           else if s.Released? then t.self == s && Reason(Said(t.world), s)
           else Remembers(Said(t.world), t.self))
  }

  lemma StartValidatingSays(w: World, s: Inner)
    requires w.status == Running && s.ValidatingChannels? && Reason(Said(w), s)
    ensures Started(Said(w), s, StartInner(w, s))
  {
    hide Talked;
    hide Validate;
    var v := Validate(w, s.toValidate);
    ValidateSilent(PilotRole, w, s.toValidate);
    ValidateThrowsExactly(w, s.toValidate);
    if v.world.status == Running {
      ValidateResult(w, s.toValidate);
      Speaks(v.world, Plain(ChannelsReady).(ids := RefIds(v.result)));
    }
  }

  lemma StartInnerSays(w: World, s: Inner)
    requires w.status == Running && Reason(Said(w), s)
    ensures Started(Said(w), s, StartInner(w, s))
  {
    hide Talked;
    match s
    case ValidatingChannels(_, _) => StartValidatingSays(w, s);
    case OpeningChannels(requests) => Speaks(w, Plain(AddChannels).(requests := requests));
    case ClosingChannels(ids) => Speaks(w, Plain(RemoveChannels).(ids := ids));
    case RequestingControl(id) => Speaks(w, Plain(RequestControl).(ids := [id]));
    case ReleasingControl(id) => Tells(w, ReleaseAsked(id));
    case Operating => MuteNote(PilotRole, w, Recalled);
    case _ =>
  }

  /** State `s` is handling event `e`, in a conversation that stood at `s`; nothing was said about it yet. */
  predicate Handling(w: World, s: Inner, e: Event) {
    && w.status == Running && !s.Released?
    && var v := Said(w);
       && v.honest && v.cause == Some(e) && v.stage == PilotStage(StageOf(s), In(e))
       && v.owed == PilotOwes(StageOf(s), e) && v.due == PilotDue(StageOf(s), e)
       && (s.ValidatingChannels? ==> v.ready == RefIds(s.validated))
       && (s.ClosingChannels? ==> v.removal == s.channelsToClose)
  }

  lemma ReleasingUserSays(w: World, s: Inner, u: UserEvent, env: Env)
    requires s.ReleasingControl? && Handling(w, s, User(u))
    ensures Leaves(UserInner(w, s, u, env))
  {
    hide Talked;
    match u
    case ReleaseAccepted(data) => Speaks(w, Ack(ReleaseControl).(handover := Some(data)));
    case ReleaseRejected(text) => Speaks(w, Ack(ReleaseControl).(text := text));
    case _ =>
  }

  lemma OperatingUserSays(w: World, s: Inner, u: UserEvent, env: Env)
    requires s.Operating? && Handling(w, s, User(u))
    ensures Leaves(UserInner(w, s, u, env))
  {
    hide Talked;
    hide Listing;
  }

  lemma UserSays(w: World, s: Inner, u: UserEvent, env: Env)
    requires Handling(w, s, User(u))
    ensures Leaves(UserInner(w, s, u, env))
  {
    if s.ReleasingControl? {
      ReleasingUserSays(w, s, u, env);
    } else if s.Operating? {
      OperatingUserSays(w, s, u, env);
    } else {
      hide Talked;
      if s.RequestingControl? && u.UserControlReady? { Speaks(w, Plain(ControlReady)); }
    }
  }

  /** A heartbeat, in any state that answers it. */
  lemma BeatSays(w: World, s: Inner, m: ControlMessage, env: Env)
    requires Handling(w, s, Received(m)) && !s.Recovering? && IsHeartbeat(m)
    ensures Remembers(Said(DefaultMessage(w, m, env)), s)
  {
    hide Talked;
    var answer := Ack(Heartbeat).(heartbeat := Some((m.heartbeat.value, env.location)));
    assert May(PilotRole, Said(w), Sent(answer));
    Speaks(w, answer);
  }

  lemma ValidatingSays(w: World, s: Inner, m: ControlMessage, env: Env)
    requires s.ValidatingChannels? && Handling(w, s, Received(m))
    ensures Leaves(ValidatingMessage(w, s, m, env))
  {
    hide Talked;
    hide SetOwned;
    if m.command != ChannelsReady {
      if IsHeartbeat(m) { BeatSays(w, s, m, env); }
    } else if m.response == Accepted {
      SetOwnedMeaning(w, m.ids);
      Tells(SetOwned(w, m.ids), ChannelsOpened(s.validated));
    } else {
      Tells(w, Error(m.text));
    }
  }

  lemma OpeningSays(w: World, s: Inner, m: ControlMessage, env: Env)
    requires s.OpeningChannels? && Handling(w, s, Received(m))
    ensures Leaves(OpeningMessage(w, s, m, env))
  {
    hide Talked;
    if m.command != AddChannels {
      if IsHeartbeat(m) { BeatSays(w, s, m, env); }
    } else if m.response != Accepted {
      Tells(w, ProcedureRejected(AddChannels, m.text));
    }
  }

  lemma ServerReleaseSays(w: World, s: Inner, m: ControlMessage, env: Env)
    requires (s.Operating? || s.ClosingChannels?) && Handling(w, s, Received(m)) && m.command == Command.Release
    ensures Leaves(ServerRelease(w, s, env))
  {
    hide Talked;
    hide Close;
    var all := Listing(w.channels.Keys, env.order);
    ListingPresent(w, env.order);
    var told := Tell(w, ChannelsClosing(Refs(w, all)));
    Tells(w, ChannelsClosing(Refs(w, all)));
    CloseSilent(PilotRole, told, all);
    Speaks(Close(told, all), Ack(Command.Release));
  }

  lemma RemovalSays(w: World, s: Inner, m: ControlMessage)
    requires s.ClosingChannels? && Handling(w, s, Received(m))
    requires m.command == RemoveChannels && m.response == Accepted && AllPresent(w, s.channelsToClose)
    ensures var told := Tell(w, ChannelsClosing(Refs(w, s.channelsToClose)));
      Reason(Said(Send(Close(told, s.channelsToClose), Ack(RemoveChannels))), Operating)
  {
    hide Talked;
    hide Close;
    var told := Tell(w, ChannelsClosing(Refs(w, s.channelsToClose)));
    assert RefIds(Refs(w, s.channelsToClose)) == s.channelsToClose;
    Tells(w, ChannelsClosing(Refs(w, s.channelsToClose)));
    CloseSilent(PilotRole, told, s.channelsToClose);
    Speaks(Close(told, s.channelsToClose), Ack(RemoveChannels));
  }

  lemma ClosingSays(w: World, s: Inner, m: ControlMessage, env: Env)
    requires s.ClosingChannels? && Handling(w, s, Received(m))
    ensures Leaves(ClosingMessage(w, s, m, env))
  {
    hide Close;
    hide Talked;
    hide ServerRelease;
    if m.command == RemoveChannels {
      if m.response != Accepted {
        Tells(w, ProcedureRejected(RemoveChannels, m.text));
      } else if AllPresent(w, s.channelsToClose) {
        RemovalSays(w, s, m);
        CloseMembers(Tell(w, ChannelsClosing(Refs(w, s.channelsToClose))), s.channelsToClose);
      }
    } else if m.command == Command.Release {
      ServerReleaseSays(w, s, m, env);
    } else {
      if IsHeartbeat(m) { BeatSays(w, s, m, env); }
    }
  }

  lemma OperatingSays(w: World, s: Inner, m: ControlMessage, env: Env)
    requires s.Operating? && Handling(w, s, Received(m))
    ensures Leaves(OperatingMessage(w, s, m, env))
  {
    hide Talked;
    hide ServerRelease;
    if m.command == OperationUpdated {
      Tells(w, OperationUpdate);
      MuteNote(PilotRole, Tell(w, OperationUpdate), Recalled);
    } else if m.command == Command.Release {
      ServerReleaseSays(w, s, m, env);
    } else if m.command != ReleaseControl {
      if IsHeartbeat(m) { BeatSays(w, s, m, env); }
    }
  }

  lemma RequestingSays(w: World, s: Inner, m: ControlMessage, env: Env)
    requires s.RequestingControl? && Handling(w, s, Received(m))
    ensures Leaves(RequestingMessage(w, s, m, env))
  {
    hide Talked;
    if m.command == RequestControl {
      Tells(w, if m.response == Accepted then HandoverAccepted(m.handover)
               else ProcedureRejected(RequestControl, m.text));
    } else if m.command == ControlReady && m.response == Accepted {
      if s.channelId in w.channels { Tells(SetOwnedOne(w, s.channelId, true), HandoverDone); }
    } else {
      if IsHeartbeat(m) { BeatSays(w, s, m, env); }
    }
  }

  lemma ReleasingSays(w: World, s: Inner, m: ControlMessage, env: Env)
    requires s.ReleasingControl? && Handling(w, s, Received(m))
    ensures Leaves(ReleasingMessage(w, s, m, env))
  {
    hide Talked;
    if m.command != ControlReleased {
      if IsHeartbeat(m) { BeatSays(w, s, m, env); }
    } else if s.channelId in w.channels {
      Tells(SetOwnedOne(w, s.channelId, false), ControlGone);
      Speaks(Tell(SetOwnedOne(w, s.channelId, false), ControlGone), Ack(ControlReleased));
    }
  }

  lemma MessageSays(w: World, s: Inner, m: ControlMessage, env: Env)
    requires Handling(w, s, Received(m))
    ensures Leaves(HandleInner(w, s, Received(m), env))
  {
    hide Talked;
    hide ValidatingMessage;
    hide OpeningMessage;
    hide ClosingMessage;
    hide OperatingMessage;
    hide RequestingMessage;
    hide ReleasingMessage;
    match s
    case ValidatingChannels(_, _) => ValidatingSays(w, s, m, env);
    case OpeningChannels(_) => OpeningSays(w, s, m, env);
    case ClosingChannels(_) => ClosingSays(w, s, m, env);
    case Operating => OperatingSays(w, s, m, env);
    case RequestingControl(_) => RequestingSays(w, s, m, env);
    case ReleasingControl(_) => ReleasingSays(w, s, m, env);
    case Recovering =>
  }

  lemma HandleInnerSays(w0: World, s: Inner, e: Event, env: Env)
    requires w0.status == Running && Remembers(Said(w0), s)
    ensures Leaves(HandleInner(Note(w0, In(e)), s, e, env))
  {
    var w := Note(w0, In(e));
    assert Said(w) == NextTalk(PilotRole, Said(w0), In(e)) by { Talking(PilotRole); }
    assert Handling(w, s, e);
    hide Talked;
    match e
    case User(u) => UserSays(w, s, u, env);
    case Received(m) => MessageSays(w, s, m, env);
    case _ =>
  }

  lemma RunInnerSays(t: Turn<Inner>)
    requires Leaves(t)
    ensures Leaves(RunInner(t)) && (RunInner(t).world.status == Running ==> RunInner(t).next.None?)
  {
    if t.world.status == Running && t.next.Some? {
      var w := Note(t.world, MovedInside);
      MuteNote(PilotRole, t.world, MovedInside);
      hide Talked;
      hide StartInner;
      StartInnerSays(w, t.next.value);
      var u := StartInner(w, t.next.value);
      assert RunInner(u) == u;
    }
  }

  // ---------------------------------------------------------------- the outer states

  lemma ConnectingSays(w0: World, s: Outer, e: Event, env: Env)
    requires w0.status == Running && s.Connecting? && RemembersOuter(Said(w0), s)
    ensures LeavesOuter(HandleOuter(Note(w0, In(e)), s, e, env))
  {
    var w := Note(w0, In(e));
    assert Said(w) == NextTalk(PilotRole, Said(w0), In(e)) by { Talking(PilotRole); }
    hide Talked;
    if e.Received? {
      var m := e.message;
      if m.command == Setup {
        if m.response != Accepted { Tells(w, Error(m.text)); }
      } else if IsHeartbeat(m) {
        Speaks(w, Ack(Heartbeat).(heartbeat := Some((m.heartbeat.value, env.location))));
      }
    }
  }

  lemma DisconnectedSays(w0: World, s: Outer, e: Event, env: Env)
    requires w0.status == Running && s.Disconnected? && RemembersOuter(Said(w0), s)
    ensures LeavesOuter(HandleOuter(Note(w0, In(e)), s, e, env))
  {
    Talking(PilotRole);
    hide Talked;
  }

  lemma ConnectedSays(w0: World, s: Outer, e: Event, env: Env)
    requires w0.status == Running && s.Connected? && RemembersOuter(Said(w0), s)
    ensures LeavesOuter(HandleConnected(Note(w0, In(e)), s.inner, e, env))
  {
    hide Talked;
    hide HandleInner;
    hide RunInner;
    HandleInnerSays(w0, s.inner, e, env);
    RunInnerSays(HandleInner(Note(w0, In(e)), s.inner, e, env));
  }

  lemma HandleOuterSays(w0: World, s: Outer, e: Event, env: Env)
    requires w0.status == Running && RemembersOuter(Said(w0), s)
    ensures LeavesOuter(HandleOuter(Note(w0, In(e)), s, e, env))
  {
    match s
    case Disconnected => DisconnectedSays(w0, s, e, env);
    case Connected(inner) => ConnectedSays(w0, s, e, env);
    case Connecting(_, _) => ConnectingSays(w0, s, e, env);
  }

  lemma StartConnectingSays(w: World, s: Outer, env: Env)
    requires w.status == Running && s.Connecting? && ReasonOuter(Said(w), s)
    ensures LeavesOuter(StartConnecting(w, s, env))
  {
    assert Said(Note(w, StreamOpened)) == Said(w) && Said(Note(w, StreamOpenFailed)) == Said(w) by {
      MuteNote(PilotRole, w, StreamOpened);
      MuteNote(PilotRole, w, StreamOpenFailed);
    }
    hide Talked;
    if env.core.None? {
      Tells(w, Failure);
    } else if !env.opens {
      Tells(Note(w, StreamOpenFailed), Failure);
    } else {
      Speaks(Note(w, StreamOpened), Plain(Setup).(key := env.core, requests := s.channels));
    }
  }

  lemma StartConnectedSays(w: World, s: Outer)
    requires w.status == Running && s.Connected? && ReasonOuter(Said(w), s)
    ensures LeavesOuter(StartConnected(w, s.inner))
  {
    hide Talked;
    hide StartInner;
    StartInnerSays(w, s.inner);
    var t := StartInner(w, s.inner);
    if t.world.status == Running { Tells(t.world, OperationStarted); }
  }

  lemma StartDisconnectingSays(w: World, s: Outer, env: Env)
    requires w.status == Running && s.Disconnecting? && ReasonOuter(Said(w), s)
    ensures LeavesOuter(StartDisconnecting(w, s, env))
  {
    hide Talked;
    MuteNote(PilotRole, w, StreamClosed);
    Tells(Note(w, StreamClosed), FacadeEvent.Released);
  }

  lemma StartOuterSays(w: World, s: Outer, env: Env)
    requires w.status == Running && ReasonOuter(Said(w), s)
    ensures LeavesOuter(StartOuter(w, s, env))
  {
    hide Talked;
    match s
    case Disconnected =>
    case Connecting(_, _) => StartConnectingSays(w, s, env);
    case Connected(_) => StartConnectedSays(w, s);
    case Disconnecting => StartDisconnectingSays(w, s, env);
  }

  lemma {:induction false} RunOuterSays(t: Turn<Outer>, env: Env)
    requires LeavesOuter(t)
    ensures LeavesOuter(RunOuter(t, env)) && (RunOuter(t, env).world.status == Running ==> RunOuter(t, env).next.None?)
    decreases Rank(t.next)
  {
    if t.world.status == Running && t.next.Some? {
      var w := Note(t.world, Moved);
      MuteNote(PilotRole, t.world, Moved);
      hide Talked;
      hide StartOuter;
      StartOuterSays(w, t.next.value, env);
      RunOuterSays(StartOuter(w, t.next.value, env), env);
    }
  }

  lemma {:induction false} RunSays(inputs: seq<Input>)
    ensures var c := Run(INITIAL, inputs);
      if c.world.status == Running then RemembersOuter(Said(c.world), c.state) else Said(c.world).honest
  {
    if inputs != [] {
      RunSays(Front(inputs));
      var c := Run(INITIAL, Front(inputs));
      var i := Last(inputs);
      hide HandleOuter;
      hide RunOuter;
      hide Talked;
      if c.world.status == Running {
        HandleOuterSays(c.world, c.state, i.event, i.env);
        RunOuterSays(HandleOuter(Note(c.world, In(i.event)), c.state, i.event, i.env), i.env);
      }
    }
  }

  /** At the end of every event that returned, too, nothing is left unsaid; and the stage tells the state. */
  lemma NothingIsLeftUnsaid(inputs: seq<Input>)
    requires Run(INITIAL, inputs).world.status == Running
    ensures var c := Run(INITIAL, inputs); var v := Said(c.world);
      && !v.owed && !v.due
      && (v.stage == Away <==> c.state.Disconnected?) && (v.stage == Greeting <==> c.state.Connecting?)
      && (c.state.Connected? ==> v.stage == StageOf(c.state.inner))
  {
    RunSays(inputs);
  }
}
