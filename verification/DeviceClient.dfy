/** The device as an object: the current state is swapped in place, and the channel table changed in place. */
module DeviceClient {
  import opened Messages
  import opened Channels
  import opened StateContext
  import opened Device
  import DeviceRuns
  import DeviceOutcomes

  class DeviceClient {
    const context: StateContext
    var state: Outer

    ghost predicate Valid()
      reads context.handler
    {
      context.Valid()
    }

    ghost function Now(status: Status): World
      reads context.handler, context.handler.channels.Values, context.handler.journal
    {
      context.View(status)
    }

    ghost function View(status: Status): Client
      reads this, context.handler, context.handler.channels.Values, context.handler.journal
    {
      Client(Now(status), state)
    }

    constructor ()
      ensures Valid() && View(Running) == INITIAL && DeviceRuns.Holds(View(Running))
      ensures fresh(context.journal) && fresh(context.handler) && context.handler.channels.Values == {}
    {
      context := new StateContext();
      state := Disconnected;
      new;
      DeviceRuns.RunKeeps([]);
    }

    // -------------------------------------------------------------- the channel procedures of Flying

    /** Validates the channels, reports the ones that opened and answers the server. */
    method AttachChannels(channels: seq<ChannelResponse>) returns (threw: bool)
      requires Valid() && AttachAll(Now(Running), channels).status != Undefined
      modifies context.journal, context.handler
      ensures Valid() && fresh(context.handler.channels.Values - old(context.handler.channels.Values))
      ensures Now(Ended(threw)) == AttachAll(old(Now(Running)), channels)
    {
      hide Validate;
      var result;
      result, threw := context.handler.ValidateChannels(channels);
      if !threw {
        context.Tell(ChannelsOpened(result));
        var ids := context.IdsOf(result);
        context.Send(Ack(Command.AttachChannels).(ids := ids));
      }
    }

    /** Reports and closes the named channels, and names them again in the answer. */
    method ReleaseChannels(ids: seq<int>)
      requires Valid() && ReleaseAll(Now(Running), ids).status != Undefined
      modifies context.journal, context.handler
      ensures Valid() && context.handler.channels.Values <= old(context.handler.channels.Values)
      ensures Now(Running) == ReleaseAll(old(Now(Running)), ids)
    {
      hide Close;
      context.ReportAndClose(ids);
      context.Send(Ack(Command.ReleaseChannels).(ids := ids));
    }

    method EndOperation(env: Env)
      requires Valid() && Lists(env.order, context.handler.channels.Keys)
      modifies context.journal, context.handler
      ensures Valid() && context.handler.channels.Values == {}
      ensures Now(Running) == Device.EndOperation(old(Now(Running)), env)
    {
      hide Close;
      context.ReportAndCloseAll(env.order);
      context.Tell(OperationEnd);
      context.Send(Ack(OperationEnded));
    }

    // -------------------------------------------------------------- inner states

    method StartInner(s: Inner) returns (next: Option<Inner>, threw: bool)
      requires Valid() && Device.StartInner(Now(Running), s).world.status != Undefined
      modifies context.journal, context.handler
      ensures Valid() && fresh(context.handler.channels.Values - old(context.handler.channels.Values))
      ensures Turn(Now(Ended(threw)), s, next) == Device.StartInner(old(Now(Running)), s)
    {
      hide AttachAll;
      next, threw := None, false;
      match s
      case Ready =>
      case Flying(channels) => threw := AttachChannels(channels);
      case Releasing => context.Send(Plain(Command.Release));
      case Released =>
    }

    method FlyingMessage(s: Inner, m: ControlMessage, env: Env) returns (next: Option<Inner>, threw: bool)
      requires Valid() && Lists(env.order, context.handler.channels.Keys)
      requires Device.FlyingMessage(Now(Running), s, m, env).world.status != Undefined
      modifies context.journal, context.handler
      ensures Valid() && fresh(context.handler.channels.Values - old(context.handler.channels.Values))
      ensures Turn(Now(Ended(threw)), s, next) == Device.FlyingMessage(old(Now(Running)), s, m, env)
    {
      hide AttachAll;
      hide ReleaseAll;
      hide Device.EndOperation;
      next, threw := None, false;
      if m.command == Command.AttachChannels {
        threw := AttachChannels(m.channels);
      } else if m.command == Command.ReleaseChannels {
        ReleaseChannels(m.ids);
      } else if m.command == OperationEnded {
        EndOperation(env);
        next := Some(Ready);
      } else {
        context.DefaultMessageHandle(m, env);
      }
    }

    method HandleMessage(s: Inner, m: ControlMessage, env: Env) returns (next: Option<Inner>, threw: bool)
      requires Valid() && Lists(env.order, context.handler.channels.Keys)
      requires HandleInner(Now(Running), s, Received(m), env).world.status != Undefined
      modifies context.journal, context.handler
      ensures Valid() && fresh(context.handler.channels.Values - old(context.handler.channels.Values))
      ensures Turn(Now(Ended(threw)), s, next) == HandleInner(old(Now(Running)), s, Received(m), env)
    {
      hide Device.FlyingMessage;
      next, threw := None, false;
      match s
      case Ready =>
        if m.command == Command.AttachChannels {
          next := Some(Flying(m.channels));
        } else {
          context.DefaultMessageHandle(m, env);
        }
      case Flying(_) => next, threw := FlyingMessage(s, m, env);
      case Releasing =>
        if m.command == Command.Release && m.response == Accepted {
          next := Some(Inner.Released);
        } else {
          context.DefaultMessageHandle(m, env);
        }
      case Released => context.DefaultMessageHandle(m, env);
    }

    method HandleInnerEvent(s: Inner, e: Event, env: Env) returns (next: Option<Inner>, threw: bool)
      requires Valid() && Lists(env.order, context.handler.channels.Keys)
      requires HandleInner(Now(Running), s, e, env).world.status != Undefined
      modifies context.journal, context.handler
      ensures Valid() && fresh(context.handler.channels.Values - old(context.handler.channels.Values))
      ensures Turn(Now(Ended(threw)), s, next) == HandleInner(old(Now(Running)), s, e, env)
    {
      hide Device.FlyingMessage;
      next, threw := None, false;
      match e
      case User(u) =>
        if s.Ready? && u.UserRelease? {
          next := Some(Releasing);
        }
      case Received(m) => next, threw := HandleMessage(s, m, env);
      case _ =>
    }

    /** The inner transition loop, and the outer state that its last state asks for. */
    method OnNewState(first: Option<Inner>) returns (outer: Option<Outer>, threw: bool)
      requires Valid() && state.Connected?
      requires RunInner(Turn(Now(Running), state.inner, first)).world.status != Undefined
      modifies this, context.journal, context.handler
      ensures Valid() && fresh(context.handler.channels.Values - old(context.handler.channels.Values))
      ensures state.Connected?
      ensures var t := RunInner(old(Turn(Now(Running), state.inner, first)));
              && Now(Ended(threw)) == t.world && state.inner == t.self
              && outer == if !threw && t.self.Released? then Some(Disconnecting) else None
    {
      hide Device.StartInner;
      ghost var goal := RunInner(Turn(Now(Running), state.inner, first));
      var newState := first;
      threw := false;
      while newState.Some? && !threw
        invariant Valid() && fresh(context.handler.channels.Values - old(context.handler.channels.Values))
        invariant state.Connected?
        invariant RunInner(Turn(Now(Ended(threw)), state.inner, newState)) == goal
        decreases newState.Some? && !threw
      {
        state := Connected(newState.value);
        context.Record(MovedInside);
        newState, threw := StartInner(state.inner);
      }
      outer := if !threw && state.inner.Released? then Some(Disconnecting) else None;
    }

    // -------------------------------------------------------------- outer states

    /** Asks the core for a session, opens its stream and sends SETUP; whatever throws is reported and undone. */
    method StartConnecting(env: Env) returns (next: Option<Outer>)
      requires Valid() && state.Connecting?
      modifies context.journal
      ensures Valid()
      ensures Turn(Now(Running), state, next) == Device.StartConnecting(old(Now(Running)), env)
    {
      if env.core.None? {
        context.Tell(Failure);
        return Some(Disconnected);
      }
      if !env.opens {
        context.Record(StreamOpenFailed);
        context.Tell(Failure);
        return Some(Disconnected);
      }
      context.Record(StreamOpened);
      context.Send(Plain(Setup).(key := env.core));
      next := None;
    }

    /** Starts the inner state and reports the attachment. */
    method StartConnected() returns (next: Option<Outer>, threw: bool)
      requires Valid() && state.Connected?
      requires Device.StartConnected(Now(Running), state.inner).world.status != Undefined
      modifies this, context.journal, context.handler
      ensures Valid() && fresh(context.handler.channels.Values - old(context.handler.channels.Values))
      ensures Turn(Now(Ended(threw)), state, next) == Device.StartConnected(old(Now(Running)), old(state.inner))
    {
      hide Device.StartInner;
      var more;
      more, threw := StartInner(state.inner);
      if !threw {
        context.Tell(Attached);
      }
      next := None;
    }

    /** Closes the stream and reports the release; closing may throw. */
    method StartDisconnecting(env: Env) returns (next: Option<Outer>, threw: bool)
      requires Valid() && state.Disconnecting?
      modifies context.journal
      ensures Valid()
      ensures Turn(Now(Ended(threw)), state, next) == Device.StartDisconnecting(old(Now(Running)), env)
    {
      context.Record(StreamClosed);
      threw := !env.closes;
      next := None;
      if !threw {
        context.Tell(FacadeEvent.Released);
        next := Some(Disconnected);
      }
    }

    method StartOuter(env: Env) returns (next: Option<Outer>, threw: bool)
      requires Valid()
      requires Device.StartOuter(Now(Running), state, env).world.status != Undefined
      modifies this, context.journal, context.handler
      ensures Valid() && fresh(context.handler.channels.Values - old(context.handler.channels.Values))
      ensures Turn(Now(Ended(threw)), state, next) == Device.StartOuter(old(Now(Running)), old(state), env)
    {
      hide Device.StartConnecting;
      hide Device.StartConnected;
      hide Device.StartDisconnecting;
      next, threw := None, false;
      match state
      case Disconnected =>
      case Connecting => next := StartConnecting(env);
      case Connected(_) => next, threw := StartConnected();
      case Disconnecting => next, threw := StartDisconnecting(env);
    }

    method ConnectingMessage(m: ControlMessage, env: Env) returns (next: Option<Outer>)
      requires Valid() && state.Connecting?
      modifies context.journal
      ensures Valid()
      ensures Turn(Now(Running), state, next) == Device.ConnectingMessage(old(Now(Running)), m, env)
    {
      next := None;
      if m.command == Setup {
        if m.response == Accepted {
          next := Some(Connected(Ready));
        } else {
          context.Tell(Error(m.text));
          next := Some(Disconnecting);
        }
      } else {
        context.DefaultMessageHandle(m, env);
      }
    }

    /** The event handed to the current state; Connected hands it to its own state and follows the transitions there. */
    method HandleByState(e: Event, env: Env) returns (next: Option<Outer>, threw: bool)
      requires Valid() && Lists(env.order, context.handler.channels.Keys)
      requires HandleOuter(Now(Running), state, e, env).world.status != Undefined
      modifies this, context.journal, context.handler
      ensures Valid() && fresh(context.handler.channels.Values - old(context.handler.channels.Values))
      ensures Turn(Now(Ended(threw)), state, next) == HandleOuter(old(Now(Running)), old(state), e, env)
    {
      hide HandleInner;
      hide RunInner;
      hide Device.ConnectingMessage;
      next, threw := None, false;
      match state
      case Disconnected =>
        if e.User? && e.user.Attach? {
          next := Some(Connecting);
        }
      case Connecting =>
        if e.Received? {
          next := ConnectingMessage(e.message, env);
        }
      case Connected(inner) =>
        RunInnerStuck(HandleInner(Now(Running), inner, e, env));
        var newState;
        newState, threw := HandleInnerEvent(inner, e, env);
        if !threw {
          next, threw := OnNewState(newState);
        }
      case Disconnecting =>
    }

    /** The outer transition loop. */
    method FollowTransitions(first: Option<Outer>, env: Env) returns (threw: bool)
      requires Valid() && RunOuter(Turn(Now(Running), state, first), env).world.status != Undefined
      modifies this, context.journal, context.handler
      ensures Valid() && fresh(context.handler.channels.Values - old(context.handler.channels.Values))
      ensures var t := RunOuter(old(Turn(Now(Running), state, first)), env);
              View(Ended(threw)) == Client(t.world, t.self)
    {
      hide Device.StartOuter;
      ghost var goal := RunOuter(Turn(Now(Running), state, first), env);
      var newState := first;
      threw := false;
      while newState.Some? && !threw
        invariant Valid() && fresh(context.handler.channels.Values - old(context.handler.channels.Values))
        invariant RunOuter(Turn(Now(Ended(threw)), state, newState), env) == goal
        decreases Rank(newState), !threw
      {
        state := newState.value;
        context.Record(Moved);
        RunOuterStuck(Device.StartOuter(Now(Running), state, env), env);
        newState, threw := StartOuter(env);
      }
    }

    /**
     One event: handed to the state, then followed through the transitions. The caller must see to it that
     the event does not look up what is not there; a run that began in the constructor keeps the rest.
     */
    method HandleEvent(i: Input) returns (threw: bool)
      requires Valid() && Lists(i.env.order, context.handler.channels.Keys)
      requires DeviceRuns.Holds(View(Running))
      requires DeviceOutcomes.Outcome(Now(Running), state, i) != Undefined
      modifies this, context.journal, context.handler
      ensures Valid() && fresh(context.handler.channels.Values - old(context.handler.channels.Values))
      ensures View(Ended(threw)) == Step(old(View(Running)), i)
      ensures DeviceRuns.Holds(View(Ended(threw)))
      ensures Ended(threw) == DeviceOutcomes.Outcome(old(Now(Running)), old(state), i)
    {
      hide RunOuter;
      hide HandleOuter;
      hide DeviceRuns.Fits;
      hide DeviceRuns.Sound;
      hide DeviceOutcomes.Outcome;
      ghost var before := View(Running);
      DeviceRuns.StepKeeps(before, i);
      DeviceOutcomes.OutcomeExactly(before, i);
      context.Record(In(i.event));
      RunOuterStuck(HandleOuter(Now(Running), state, i.event, i.env), i.env);
      var next;
      next, threw := HandleByState(i.event, i.env);
      if !threw {
        threw := FollowTransitions(next, i.env);
      }
    }
  }

  lemma RunInnerStuck(t: Turn<Inner>)
    ensures t.world.status != Running ==> RunInner(t) == t
  {
  }

  lemma RunOuterStuck(t: Turn<Outer>, env: Env)
    ensures t.world.status != Running ==> RunOuter(t, env) == t
  {
  }
}
