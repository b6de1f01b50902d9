/**
 How an event can go wrong for the pilot, exactly: which messages make a handler look up a channel
 that is not there, which make it throw; and that the user's own release never does.
 */
module PilotOutcomes {
  import opened Messages
  import opened Channels
  import opened ChannelTheory
  import opened Observers
  import opened TableInvariant
  import opened Pilot
  import opened PilotInvariant
  import opened PilotRuns

  /** The descriptions this event makes the pilot validate, if any. */
  function ToValidate(s: Outer, e: Event): Option<seq<ChannelResponse>> {
    if e.Received? && e.message.response == Accepted
       && ((s.Connecting? && e.message.command == Setup)
           || (s.Connected? && s.inner.OpeningChannels? && e.message.command == AddChannels))
    then Some(e.message.channels) else None
  }

  /** The server ends the operation, or refuses to begin it. */
  predicate EndsSession(s: Outer, e: Event) {
    && e.Received?
    && ((s.Connecting? && e.message.command == Setup && e.message.response != Accepted)
        || (s.Connected? && (s.inner.Operating? || s.inner.ClosingChannels?) && e.message.command == Command.Release))
  }

  /** The event names a channel the table does not have, where the client does not check. */
  predicate Misses(w: World, s: Inner, e: Event) {
    && e.Received?
    && var m := e.message;
       match s
       case ValidatingChannels(_, _) => m.command == ChannelsReady && m.response == Accepted && !AllPresent(w, m.ids)
       case ClosingChannels(ids) => m.command == RemoveChannels && m.response == Accepted && !AllPresent(w, ids)
       case Operating => m.command == ReleaseControl && m.ids == []
       case RequestingControl(id) => m.command == ControlReady && m.response == Accepted && id !in w.channels
       case ReleasingControl(id) => m.command == ControlReleased && id !in w.channels
       case _ => false
  }

  lemma ValidatingOutcome(w: World, list: seq<ChannelResponse>, none: seq<Ref>)
    requires w.status == Running && Balanced(w)
    ensures StartInner(w, ValidatingChannels(list, none)).world.status == Verdicts(list)
    ensures StartInner(w, ValidatingChannels(list, none)).self.ValidatingChannels?
  {
    ValidateThrowsExactly(w, list);
    if !SomeThrow(list) {
      forall id | id in w.channels ensures w.channels[id].incarnation < w.made {
        assert Alive(w, RefOf(w, id));
        assert Times(w, Made(RefOf(w, id))) <= if RefOf(w, id).incarnation < w.made then 1 else 0;
      }
      PointersLiveExactly(w, list);
    }
  }

  lemma StartInnerOutcome(w: World, s: Inner)
    requires w.status == Running && !s.ValidatingChannels?
    ensures StartInner(w, s).world.status == Running && StartInner(w, s).self == s
  {
  }

  lemma ServerReleaseOutcome(w: World, s: Inner, env: Env)
    ensures ServerRelease(w, s, env).world.status == w.status && ServerRelease(w, s, env).next == Some(Inner.Released)
    ensures ServerRelease(w, s, env).self == s
  {
    hide Close;
    var all := Listing(w.channels.Keys, env.order);
    ListingPresent(w, env.order);
    CloseMembers(Tell(w, ChannelsClosing(Refs(w, all))), all);
  }

  /** One event in an inner state, up to the state it goes to. */
  lemma HandleInnerOutcome(w: World, s: Inner, e: Event, env: Env)
    requires w.status == Running
    ensures var t := HandleInner(w, s, e, env);
      && t.world.status == (if Misses(w, s, e) then Undefined else Running)
      && (t.world.status == Running ==>
          && (ToValidate(Connected(s), e).Some? <==> t.next.Some? && t.next.value.ValidatingChannels?)
          && (ToValidate(Connected(s), e).Some? ==>
             t.next == Some(ValidatingChannels(ToValidate(Connected(s), e).value, [])))
          && (EndsSession(Connected(s), e) <==> t.next == Some(Inner.Released))
          && t.self == s)
  {
    match e
    case Received(m) => MessageOutcome(w, s, m, env);
    case _ =>
  }

  lemma MessageOutcome(w: World, s: Inner, m: ControlMessage, env: Env)
    requires w.status == Running
    ensures var t := HandleInner(w, s, Received(m), env); var e := Received(m);
      && t.world.status == (if Misses(w, s, e) then Undefined else Running)
      && (t.world.status == Running ==>
          && (ToValidate(Connected(s), e).Some? <==> t.next.Some? && t.next.value.ValidatingChannels?)
          && (ToValidate(Connected(s), e).Some? ==>
             t.next == Some(ValidatingChannels(ToValidate(Connected(s), e).value, [])))
          && (EndsSession(Connected(s), e) <==> t.next == Some(Inner.Released))
          && t.self == s)
  {
    hide SetOwned;
    hide Close;
    hide ServerRelease;
    match s
    case ValidatingChannels(_, _) => SetOwnedMeaning(w, m.ids);
    case ClosingChannels(ids) =>
      ServerReleaseOutcome(w, s, env);
      if AllPresent(w, ids) { CloseMembers(Tell(w, ChannelsClosing(Refs(w, ids))), ids); }
    case Operating => ServerReleaseOutcome(w, s, env);
    case _ =>
  }

  lemma RunInnerOutcome(t: Turn<Inner>)
    requires t.world.status == Running && t.next.Some? && Balanced(t.world)
    ensures var r := RunInner(t);
      if t.next.value.ValidatingChannels? then
        r.world.status == Verdicts(t.next.value.toValidate) && r.self.ValidatingChannels?
      else r.world.status == Running && r.self == t.next.value
  {
    var w := Note(t.world, MovedInside);
    NoteKeepsBalance(t.world, MovedInside);
    var u := StartInner(w, t.next.value);
    if t.next.value.ValidatingChannels? {
      ValidatingOutcome(w, t.next.value.toValidate, t.next.value.validated);
    } else {
      StartInnerOutcome(w, t.next.value);
    }
    assert RunInner(u) == u;
  }

  /** What the whole event ends in. */
  function Outcome(w: World, s: Outer, i: Input): Status {
    if s.Connected? && Misses(w, s.inner, i.event) then Undefined
    else if ToValidate(s, i.event).Some? then Verdicts(ToValidate(s, i.event).value)
    else if EndsSession(s, i.event) && !i.env.closes then Threw
    else Running
  }

  lemma ConnectedOutcome(w0: World, s: Inner, i: Input)
    requires w0.status == Running && Fits(w0, Connected(s))
    ensures var t := HandleConnected(Note(w0, In(i.event)), s, i.event, i.env);
      && t.world.status == (if Misses(w0, s, i.event) then Undefined
                            else if ToValidate(Connected(s), i.event).Some?
                              then Verdicts(ToValidate(Connected(s), i.event).value)
                            else Running)
      && (t.world.status == Running ==>
         t.next == if EndsSession(Connected(s), i.event) then Some(Disconnecting) else None)
  {
    hide Observe;
    hide HandleInner;
    hide StartInner;
    var w := Note(w0, In(i.event));
    HandleInnerKeeps(w0, s, i.event, i.env);
    HandleInnerOutcome(w, s, i.event, i.env);
    assert Misses(w, s, i.event) == Misses(w0, s, i.event);
    var t := HandleInner(w, s, i.event, i.env);
    if t.world.status == Running && t.next.Some? { RunInnerOutcome(t); }
  }

  lemma DisconnectingOutcome(t: Turn<Outer>, env: Env)
    requires t.world.status == Running && t.next == Some(Disconnecting)
    ensures RunOuter(t, env).world.status == if env.closes then Running else Threw
  {
    var u := StartOuter(Note(t.world, Moved), Disconnecting, env);
    if env.closes {
      var v := StartOuter(Note(u.world, Moved), Disconnected, env);
      assert RunOuter(v, env) == v;
      assert RunOuter(u, env) == v;
    }
  }

  /** How an event ends is fixed by the state, the message and the environment's answers. */
  lemma OutcomeExactly(c: Client, i: Input)
    requires c.world.status == Running && Fits(c.world, c.state)
    ensures Step(c, i).world.status == Outcome(c.world, c.state, i)
  {
    hide Observe;
    var w := Note(c.world, In(i.event));
    match c.state
    case Connected(s) =>
      ConnectedOutcome(c.world, s, i);
      hide HandleConnected;
      if EndsSession(c.state, i.event) && HandleConnected(w, s, i.event, i.env).world.status == Running {
        DisconnectingOutcome(HandleConnected(w, s, i.event, i.env), i.env);
      }
    case Connecting(_, _) => ConnectingOutcome(c, i);
    case Disconnected => DisconnectedOutcome(c, i);
  }

  lemma ConnectingOutcome(c: Client, i: Input)
    requires c.world.status == Running && Fits(c.world, c.state) && c.state.Connecting?
    ensures Step(c, i).world.status == Outcome(c.world, c.state, i)
  {
    hide Observe;
    var w := Note(c.world, In(i.event));
    BareBy(c.world, Live, In(i.event));
    var t := HandleOuter(w, c.state, i.event, i.env);
    if EndsSession(c.state, i.event) {
      DisconnectingOutcome(t, i.env);
    } else if ToValidate(c.state, i.event).Some? {
      var moved := Note(w, Moved);
      NoteKeepsBalance(w, Moved);
      ValidatingOutcome(moved, i.event.message.channels, []);
      var u := StartConnected(moved, ValidatingChannels(i.event.message.channels, []));
      assert RunOuter(u, i.env) == u;
    }
  }

  lemma DisconnectedOutcome(c: Client, i: Input)
    requires c.world.status == Running && c.state.Disconnected?
    ensures Step(c, i).world.status == Running
  {
    var w := Note(c.world, In(i.event));
    var t := HandleOuter(w, c.state, i.event, i.env);
    if t.next.Some? {
      var u := StartConnecting(Note(w, Moved), t.next.value, i.env);
      if u.next.Some? {
        var v := StartOuter(Note(u.world, Moved), Disconnected, i.env);
        assert RunOuter(v, i.env) == v;
      }
      assert RunOuter(t, i.env) == RunOuter(u, i.env);
    }
  }

  // ---------------------------------------------------------------- the user's release

  /** The pilot waits for the server's answer to a removal of channels, after each of these inputs. */
  ghost predicate KeepsWaiting(c: Client, inputs: seq<Input>) {
    forall k :: 0 <= k <= |inputs| ==>
      Run(c, inputs[..k]).state.Connected? && Run(c, inputs[..k]).state.inner.ClosingChannels?
  }

  lemma LeavingIsOut(t: Turn<Outer>, env: Env)
    requires t.world.status == Running && t.next == Some(Disconnecting)
    ensures !RunOuter(t, env).self.Connected?
  {
    var u := StartOuter(Note(t.world, Moved), Disconnecting, env);
    if env.closes {
      var v := StartOuter(Note(u.world, Moved), Disconnected, env);
      assert RunOuter(v, env) == v;
      assert RunOuter(u, env) == v;
    }
  }

  lemma StepWaiting(c: Client, i: Input)
    requires c.world.status == Running && c.state.Connected? && c.state.inner.ClosingChannels?
    requires Step(c, i).state.Connected? && Step(c, i).state.inner.ClosingChannels?
    ensures Step(c, i).state == c.state && Step(c, i).world.channels == c.world.channels
    ensures !Misses(c.world, c.state.inner, i.event) ==> Step(c, i).world.status == Running
  {
    hide Close;
    var w := Note(c.world, In(i.event));
    var s := c.state.inner;
    var t := HandleInner(w, s, i.event, i.env);
    ServerReleaseOutcome(w, s, i.env);
    hide ServerRelease;
    if AllPresent(w, s.channelsToClose) {
      CloseMembers(Tell(w, ChannelsClosing(Refs(w, s.channelsToClose))), s.channelsToClose);
    }
    if t.world.status == Running && t.next.Some? {
      var u := StartInner(Note(t.world, MovedInside), t.next.value);
      assert RunInner(u) == u;
      if u.self.Released? {
        LeavingIsOut(HandleConnected(w, s, i.event, i.env), i.env);
      }
    }
  }

  lemma {:induction false} RunWaiting(c: Client, inputs: seq<Input>)
    requires c.world.status == Running && c.state.Connected? && c.state.inner.ClosingChannels?
    requires KeepsWaiting(c, inputs)
    requires AllPresent(c.world, c.state.inner.channelsToClose)
    ensures Run(c, inputs).state == c.state && Run(c, inputs).world.channels == c.world.channels
    ensures Run(c, inputs).world.status == Running
  {
    assert inputs[..|inputs|] == inputs;
    if inputs != [] {
      assert forall k :: 0 <= k <= |Front(inputs)| ==> Front(inputs)[..k] == inputs[..k];
      RunWaiting(c, Front(inputs));
      StepWaiting(Run(c, Front(inputs)), Last(inputs));
    }
  }

  /** The user releases in Operating: the request that goes out names every channel of the table, once. */
  lemma ReleaseNamesAll(c: Client, env: Env)
    requires c.world.status == Running && c.state == Connected(Operating)
    ensures var c' := Step(c, Input(User(UserRelease), env));
      && c'.world.status == Running && c'.world.channels == c.world.channels
      && c'.state.Connected? && c'.state.inner.ClosingChannels?
      && Lists(c'.state.inner.channelsToClose, c.world.channels.Keys)
      && AllPresent(c'.world, c'.state.inner.channelsToClose)
      && c'.world.trace == c.world.trace + [
           In(User(UserRelease)), MovedInside, Sent(Plain(RemoveChannels).(ids := c'.state.inner.channelsToClose))]
  {
    var w := Note(c.world, In(User(UserRelease)));
    var ids := Listing(w.channels.Keys, env.order);
    ListingPresent(w, env.order);
    var t := HandleInner(w, Operating, User(UserRelease), env);
    assert t == Go(w, Operating, ClosingChannels(ids));
    var u := StartInner(Note(w, MovedInside), ClosingChannels(ids));
    assert RunInner(t) == RunInner(u) == u;
  }

  lemma AcceptedRemoval(c: Client, m: ControlMessage, env: Env)
    requires c.world.status == Running && c.state.Connected? && c.state.inner.ClosingChannels?
    requires AllPresent(c.world, c.state.inner.channelsToClose)
    requires m.command == RemoveChannels && m.response == Accepted
    ensures var c' := Step(c, Input(Received(m), env)); var ids := c.state.inner.channelsToClose;
      && c'.world.status == Running && c'.state == Connected(Operating)
      && c'.world.channels == (map id | id in c.world.channels && id !in ids :: c.world.channels[id])
  {
    hide Close;
    var w := Note(c.world, In(Received(m)));
    var s := c.state.inner;
    var told := Tell(w, ChannelsClosing(Refs(w, s.channelsToClose)));
    CloseMembers(told, s.channelsToClose);
    var t := HandleInner(w, s, Received(m), env);
    assert t == Go(Send(Close(told, s.channelsToClose), Ack(RemoveChannels)), s, Operating);
    var u := StartInner(Note(t.world, MovedInside), Operating);
    assert RunInner(t) == RunInner(u) == u;
  }

  /**
   A user's release is safe and complete: whatever happens until the server answers, every channel named
   is still there, so the lookup is defined, and acceptance leaves the table empty.
   */
  lemma UserReleaseEmptiesTable(c: Client, env: Env, inputs: seq<Input>, m: ControlMessage, later: Env)
    requires c.world.status == Running && c.state == Connected(Operating)
    requires KeepsWaiting(Step(c, Input(User(UserRelease), env)), inputs)
    requires m.command == RemoveChannels && m.response == Accepted
    ensures var before := Run(Step(c, Input(User(UserRelease), env)), inputs);
      var after := Step(before, Input(Received(m), later));
      && before.world.channels == c.world.channels
      && after.world.status == Running && after.state == Connected(Operating) && after.world.channels == map[]
  {
    ReleaseNamesAll(c, env);
    var released := Step(c, Input(User(UserRelease), env));
    RunWaiting(released, inputs);
    var before := Run(released, inputs);
    hide Step;
    hide Run;
    AcceptedRemoval(before, m, later);
    var after := Step(before, Input(Received(m), later));
    assert forall id :: id in c.world.channels.Keys ==> id in before.state.inner.channelsToClose;
    assert after.world.channels == map[];
  }
}
