/** The pilot as an object: the current state is swapped in place, and the channel table changed in place. */
module PilotClient {
  import opened Messages
  import opened Channels
  import opened ChannelTheory
  import opened StateContext
  import opened Pilot
  import PilotRuns
  import PilotOutcomes

  class PilotClient {
    const context: StateContext
    var state: Outer

    ghost predicate Valid()
      reads context.handler
    {
      context.Valid()
    }

    ghost function Now(status: Status): World
      reads context.handler, context.handler.channels.Values, context.handler.journal
    {
      context.View(status)
    }

    ghost function View(status: Status): Client
      reads this, context.handler, context.handler.channels.Values, context.handler.journal
    {
      Client(Now(status), state)
    }

    constructor ()
      ensures Valid() && View(Running) == INITIAL && PilotRuns.Holds(View(Running))
      ensures fresh(context.journal) && fresh(context.handler) && context.handler.channels.Values == {}
    {
      context := new StateContext();
      state := Disconnected;
      new;
      PilotRuns.RunKeeps([]);
    }

    // -------------------------------------------------------------- entry actions of the inner states

    method StartInner(s: Inner) returns (self: Inner, next: Option<Inner>, threw: bool)
      requires Valid() && Pilot.StartInner(Now(Running), s).world.status != Undefined
      modifies context.journal, context.handler
      ensures Valid() && fresh(context.handler.channels.Values - old(context.handler.channels.Values))
      ensures Turn(Now(Ended(threw)), self, next) == Pilot.StartInner(old(Now(Running)), s)
    {
      hide Validate;
      self, next, threw := s, None, false;
      match s
      case ValidatingChannels(toValidate, _) =>
        var validated;
        validated, threw := context.handler.ValidateChannels(toValidate);
        if !threw {
          self := ValidatingChannels(toValidate, validated);
          var ids := context.IdsOf(validated);
          context.Send(Plain(ChannelsReady).(ids := ids));
        }
      case OpeningChannels(requests) => context.Send(Plain(AddChannels).(requests := requests));
      case ClosingChannels(ids) => context.Send(Plain(RemoveChannels).(ids := ids));
      case Operating => context.Record(Recalled);
      case RequestingControl(id) => context.Send(Plain(RequestControl).(ids := [id]));
      case ReleasingControl(id) => context.Tell(ReleaseAsked(id));
      case Recovering =>
      case Released =>
    }

    // -------------------------------------------------------------- events in the inner states

    method HandleUserEvent(s: Inner, u: UserEvent, env: Env) returns (next: Option<Inner>)
      requires Valid() && Lists(env.order, context.handler.channels.Keys)
      modifies context.journal
      ensures Valid()
      ensures Turn(Now(Running), s, next) == UserInner(old(Now(Running)), s, u, env)
    {
      next := None;
      match s
      case Operating =>
        match u {
          case OpenChannels(requests) => next := Some(OpeningChannels(requests));
          case CloseChannels(ids) => next := Some(ClosingChannels(ids));
          case UserRequestControl(id) => next := Some(RequestingControl(id));
          case UserRelease =>
            context.handler.SameKeys();
            var ids := context.handler.GetChannelsIds(env.order);
            next := Some(ClosingChannels(ids));
          case _ =>
        }
      case RequestingControl(_) =>
        if u.UserControlReady? {
          context.Send(Plain(ControlReady));
        }
      case ReleasingControl(_) =>
        match u {
          case ReleaseAccepted(data) => context.Send(Ack(ReleaseControl).(handover := Some(data)));
          case ReleaseRejected(text) =>
            context.Send(Ack(ReleaseControl).(text := text));
            next := Some(Operating);
          case _ =>
        }
      case _ =>
    }

    method ValidatingMessage(s: Inner, m: ControlMessage, env: Env) returns (next: Option<Inner>)
      requires Valid() && s.ValidatingChannels?
      requires Pilot.ValidatingMessage(Now(Running), s, m, env).world.status != Undefined
      modifies context.journal, context.handler.channels.Values
      ensures Valid()
      ensures Turn(Now(Running), s, next) == Pilot.ValidatingMessage(old(Now(Running)), s, m, env)
    {
      hide SetOwned;
      next := None;
      if m.command == ChannelsReady {
        if m.response == Accepted {
          SetOwnedMeaning(Now(Running), m.ids);
          context.handler.SetOwned(m.ids);
          context.Tell(ChannelsOpened(s.validated));
          next := Some(Operating);
        } else {
          context.Tell(Error(m.text));
          context.DefaultMessageHandle(m, env);
        }
      } else {
        context.DefaultMessageHandle(m, env);
      }
    }

    method OpeningMessage(s: Inner, m: ControlMessage, env: Env) returns (next: Option<Inner>)
      requires Valid()
      modifies context.journal
      ensures Valid()
      ensures Turn(Now(Running), s, next) == Pilot.OpeningMessage(old(Now(Running)), s, m, env)
    {
      next := None;
      if m.command == AddChannels {
        if m.response == Accepted {
          next := Some(ValidatingChannels(m.channels, []));
        } else {
          context.Tell(ProcedureRejected(AddChannels, m.text));
          next := Some(Operating);
        }
      } else {
        context.DefaultMessageHandle(m, env);
      }
    }

    /** The server's release, in the states that obey it. */
    method ReleaseByServer(s: Inner, env: Env) returns (next: Option<Inner>)
      requires Valid() && Lists(env.order, context.handler.channels.Keys)
      modifies context.journal, context.handler
      ensures Valid() && context.handler.channels.Values == {}
      ensures Turn(Now(Running), s, next) == ServerRelease(old(Now(Running)), s, env)
    {
      hide Close;
      context.ReportAndCloseAll(env.order);
      context.Send(Ack(Command.Release));
      next := Some(Inner.Released);
    }

    method ClosingMessage(s: Inner, m: ControlMessage, env: Env) returns (next: Option<Inner>)
      requires Valid() && s.ClosingChannels? && Lists(env.order, context.handler.channels.Keys)
      requires Pilot.ClosingMessage(Now(Running), s, m, env).world.status != Undefined
      modifies context.journal, context.handler
      ensures Valid() && context.handler.channels.Values <= old(context.handler.channels.Values)
      ensures Turn(Now(Running), s, next) == Pilot.ClosingMessage(old(Now(Running)), s, m, env)
    {
      hide Close;
      hide ServerRelease;
      next := None;
      if m.command == RemoveChannels {
        if m.response == Accepted {
          context.ReportAndClose(s.channelsToClose);
          context.Send(Ack(RemoveChannels));
        } else {
          context.Tell(ProcedureRejected(RemoveChannels, m.text));
        }
        next := Some(Operating);
      } else if m.command == Command.Release {
        next := ReleaseByServer(s, env);
      } else {
        context.DefaultMessageHandle(m, env);
      }
    }

    method OperatingMessage(s: Inner, m: ControlMessage, env: Env) returns (next: Option<Inner>)
      requires Valid() && Lists(env.order, context.handler.channels.Keys)
      requires Pilot.OperatingMessage(Now(Running), s, m, env).world.status != Undefined
      modifies context.journal, context.handler
      ensures Valid() && context.handler.channels.Values <= old(context.handler.channels.Values)
      ensures Turn(Now(Running), s, next) == Pilot.OperatingMessage(old(Now(Running)), s, m, env)
    {
      hide ServerRelease;
      next := None;
      if m.command == OperationUpdated {
        context.Tell(OperationUpdate);
        context.Record(Recalled);
      } else if m.command == ReleaseControl {
        next := Some(ReleasingControl(m.ids[0]));
      } else if m.command == Command.Release {
        next := ReleaseByServer(s, env);
      } else {
        context.DefaultMessageHandle(m, env);
      }
    }

    method RequestingMessage(s: Inner, m: ControlMessage, env: Env) returns (next: Option<Inner>)
      requires Valid() && s.RequestingControl?
      requires Pilot.RequestingMessage(Now(Running), s, m, env).world.status != Undefined
      modifies context.journal, context.handler.channels.Values
      ensures Valid()
      ensures Turn(Now(Running), s, next) == Pilot.RequestingMessage(old(Now(Running)), s, m, env)
    {
      next := None;
      if m.command == RequestControl {
        if m.response == Accepted {
          context.Tell(HandoverAccepted(m.handover));
        } else {
          context.Tell(ProcedureRejected(RequestControl, m.text));
          next := Some(Operating);
        }
      } else if m.command == ControlReady && m.response == Accepted {
        context.handler.SetChannelOwned(s.channelId, true);
        context.Tell(HandoverDone);
        next := Some(Operating);
      } else {
        context.DefaultMessageHandle(m, env);
      }
    }

    method ReleasingMessage(s: Inner, m: ControlMessage, env: Env) returns (next: Option<Inner>)
      requires Valid() && s.ReleasingControl?
      requires Pilot.ReleasingMessage(Now(Running), s, m, env).world.status != Undefined
      modifies context.journal, context.handler.channels.Values
      ensures Valid()
      ensures Turn(Now(Running), s, next) == Pilot.ReleasingMessage(old(Now(Running)), s, m, env)
    {
      next := None;
      if m.command == ControlReleased {
        context.handler.SetChannelOwned(s.channelId, false);
        context.Tell(ControlGone);
        context.Send(Ack(ControlReleased));
        next := Some(Operating);
      } else {
        context.DefaultMessageHandle(m, env);
      }
    }

    method HandleMessage(s: Inner, m: ControlMessage, env: Env) returns (next: Option<Inner>)
      requires Valid() && Lists(env.order, context.handler.channels.Keys)
      requires HandleInner(Now(Running), s, Received(m), env).world.status != Undefined
      modifies context.journal, context.handler, context.handler.channels.Values
      ensures Valid() && context.handler.channels.Values <= old(context.handler.channels.Values)
      ensures Turn(Now(Running), s, next) == HandleInner(old(Now(Running)), s, Received(m), env)
    {
      hide Pilot.ValidatingMessage;
      hide Pilot.OpeningMessage;
      hide Pilot.ClosingMessage;
      hide Pilot.OperatingMessage;
      hide Pilot.RequestingMessage;
      hide Pilot.ReleasingMessage;
      next := None;
      match s
      case ValidatingChannels(_, _) => next := ValidatingMessage(s, m, env);
      case OpeningChannels(_) => next := OpeningMessage(s, m, env);
      case ClosingChannels(_) => next := ClosingMessage(s, m, env);
      case Operating => next := OperatingMessage(s, m, env);
      case RequestingControl(_) => next := RequestingMessage(s, m, env);
      case ReleasingControl(_) => next := ReleasingMessage(s, m, env);
      case Recovering =>
      case Released =>
    }

    method HandleInnerEvent(s: Inner, e: Event, env: Env) returns (next: Option<Inner>)
      requires Valid() && Lists(env.order, context.handler.channels.Keys)
      requires HandleInner(Now(Running), s, e, env).world.status != Undefined
      modifies context.journal, context.handler, context.handler.channels.Values
      ensures Valid() && context.handler.channels.Values <= old(context.handler.channels.Values)
      ensures Turn(Now(Running), s, next) == HandleInner(old(Now(Running)), s, e, env)
    {
      hide Pilot.ValidatingMessage;
      hide Pilot.OpeningMessage;
      hide Pilot.ClosingMessage;
      hide Pilot.OperatingMessage;
      hide Pilot.RequestingMessage;
      hide Pilot.ReleasingMessage;
      hide UserInner;
      next := None;
      match e
      case User(u) => next := HandleUserEvent(s, u, env);
      case Received(m) => next := HandleMessage(s, m, env);
      case ConnectionLost =>
        if s.Operating? {
          next := Some(Recovering);
        }
      case _ =>
    }

    /** The inner transition loop, and the outer state that its last state asks for. */
    method OnNewState(first: Option<Inner>) returns (outer: Option<Outer>, threw: bool)
      requires Valid() && state.Connected?
      requires RunInner(Turn(Now(Running), state.inner, first)).world.status != Undefined
      modifies this, context.journal, context.handler
      ensures Valid() && fresh(context.handler.channels.Values - old(context.handler.channels.Values))
      ensures state.Connected?
      ensures var t := RunInner(old(Turn(Now(Running), state.inner, first)));
              && Now(Ended(threw)) == t.world && state.inner == t.self
              && outer == if !threw && t.self.Released? then Some(Disconnecting) else None
    {
      hide Pilot.StartInner;
      ghost var goal := RunInner(Turn(Now(Running), state.inner, first));
      var newState := first;
      threw := false;
      while newState.Some? && !threw
        invariant Valid() && fresh(context.handler.channels.Values - old(context.handler.channels.Values))
        invariant state.Connected?
        invariant RunInner(Turn(Now(Ended(threw)), state.inner, newState)) == goal
        decreases newState.Some? && !threw
      {
        state := Connected(newState.value);
        context.Record(MovedInside);
        var self;
        self, newState, threw := StartInner(state.inner);
        state := Connected(self);
      }
      outer := if !threw && state.inner.Released? then Some(Disconnecting) else None;
    }

    // -------------------------------------------------------------- outer states

    /** Asks the core for a session, opens its stream and sends SETUP; whatever throws is reported and undone. */
    method StartConnecting(env: Env) returns (next: Option<Outer>)
      requires Valid() && state.Connecting?
      modifies context.journal
      ensures Valid()
      ensures Turn(Now(Running), state, next) == Pilot.StartConnecting(old(Now(Running)), state, env)
    {
      if env.core.None? {
        context.Tell(Failure);
        return Some(Disconnected);
      }
      if !env.opens {
        context.Record(StreamOpenFailed);
        context.Tell(Failure);
        return Some(Disconnected);
      }
      context.Record(StreamOpened);
      context.Send(Plain(Setup).(key := env.core, requests := state.channels));
      next := None;
    }

    /** Starts the inner state and reports the operation. */
    method StartConnected() returns (next: Option<Outer>, threw: bool)
      requires Valid() && state.Connected?
      requires Pilot.StartConnected(Now(Running), state.inner).world.status != Undefined
      modifies this, context.journal, context.handler
      ensures Valid() && fresh(context.handler.channels.Values - old(context.handler.channels.Values))
      ensures Turn(Now(Ended(threw)), state, next) == Pilot.StartConnected(old(Now(Running)), old(state.inner))
    {
      hide Pilot.StartInner;
      var self, more;
      self, more, threw := StartInner(state.inner);
      state := Connected(self);
      if !threw {
        context.Tell(OperationStarted);
      }
      next := None;
    }

    /** Closes the stream and reports the release; closing may throw. */
    method StartDisconnecting(env: Env) returns (next: Option<Outer>, threw: bool)
      requires Valid() && state.Disconnecting?
      modifies context.journal
      ensures Valid()
      ensures Turn(Now(Ended(threw)), state, next) == Pilot.StartDisconnecting(old(Now(Running)), state, env)
    {
      context.Record(StreamClosed);
      threw := !env.closes;
      next := None;
      if !threw {
        context.Tell(FacadeEvent.Released);
        next := Some(Disconnected);
      }
    }

    method StartOuter(env: Env) returns (next: Option<Outer>, threw: bool)
      requires Valid()
      requires Pilot.StartOuter(Now(Running), state, env).world.status != Undefined
      modifies this, context.journal, context.handler
      ensures Valid() && fresh(context.handler.channels.Values - old(context.handler.channels.Values))
      ensures Turn(Now(Ended(threw)), state, next) == Pilot.StartOuter(old(Now(Running)), old(state), env)
    {
      hide Pilot.StartConnecting;
      hide Pilot.StartConnected;
      hide Pilot.StartDisconnecting;
      next, threw := None, false;
      match state
      case Disconnected =>
      case Connecting(_, _) => next := StartConnecting(env);
      case Connected(_) => next, threw := StartConnected();
      case Disconnecting => next, threw := StartDisconnecting(env);
    }

    method ConnectingMessage(m: ControlMessage, env: Env) returns (next: Option<Outer>)
      requires Valid() && state.Connecting?
      modifies context.journal
      ensures Valid()
      ensures Turn(Now(Running), state, next) == Pilot.ConnectingMessage(old(Now(Running)), state, m, env)
    {
      next := None;
      if m.command == Setup {
        if m.response == Accepted {
          next := Some(Connected(ValidatingChannels(m.channels, [])));
        } else {
          context.Tell(Error(m.text));
          next := Some(Disconnecting);
        }
      } else {
        context.DefaultMessageHandle(m, env);
      }
    }

    /** The event handed to the current state; Connected hands it to its own state and follows the transitions there. */
    method HandleByState(e: Event, env: Env) returns (next: Option<Outer>, threw: bool)
      requires Valid() && Lists(env.order, context.handler.channels.Keys)
      requires HandleOuter(Now(Running), state, e, env).world.status != Undefined
      modifies this, context.journal, context.handler, context.handler.channels.Values
      ensures Valid() && fresh(context.handler.channels.Values - old(context.handler.channels.Values))
      ensures Turn(Now(Ended(threw)), state, next) == HandleOuter(old(Now(Running)), old(state), e, env)
    {
      hide HandleInner;
      hide RunInner;
      hide Pilot.ConnectingMessage;
      next, threw := None, false;
      match state
      case Disconnected =>
        if e.User? && e.user.Operate? {
          next := Some(Connecting(e.user.deviceId, e.user.channels));
        }
      case Connecting(_, _) =>
        if e.Received? {
          next := ConnectingMessage(e.message, env);
        }
      case Connected(inner) =>
        RunInnerStuck(HandleInner(Now(Running), inner, e, env));
        var newState := HandleInnerEvent(inner, e, env);
        next, threw := OnNewState(newState);
      case Disconnecting =>
    }

    /** The outer transition loop. */
    method FollowTransitions(first: Option<Outer>, env: Env) returns (threw: bool)
      requires Valid() && RunOuter(Turn(Now(Running), state, first), env).world.status != Undefined
      modifies this, context.journal, context.handler
      ensures Valid() && fresh(context.handler.channels.Values - old(context.handler.channels.Values))
      ensures var t := RunOuter(old(Turn(Now(Running), state, first)), env);
              View(Ended(threw)) == Client(t.world, t.self)
    {
      hide Pilot.StartOuter;
      ghost var goal := RunOuter(Turn(Now(Running), state, first), env);
      var newState := first;
      threw := false;
      while newState.Some? && !threw
        invariant Valid() && fresh(context.handler.channels.Values - old(context.handler.channels.Values))
        invariant RunOuter(Turn(Now(Ended(threw)), state, newState), env) == goal
        decreases Rank(newState), !threw
      {
        state := newState.value;
        context.Record(Moved);
        RunOuterStuck(Pilot.StartOuter(Now(Running), state, env), env);
        newState, threw := StartOuter(env);
      }
    }

    /**
     One event: handed to the state, then followed through the transitions. The caller must see to it that
     the event does not look up what is not there; a run that began in the constructor keeps the rest.
     */
    method HandleEvent(i: Input) returns (threw: bool)
      requires Valid() && Lists(i.env.order, context.handler.channels.Keys)
      requires PilotRuns.Holds(View(Running))
      requires PilotOutcomes.Outcome(Now(Running), state, i) != Undefined
      modifies this, context.journal, context.handler, context.handler.channels.Values
      ensures Valid() && fresh(context.handler.channels.Values - old(context.handler.channels.Values))
      ensures View(Ended(threw)) == Step(old(View(Running)), i)
      ensures PilotRuns.Holds(View(Ended(threw)))
      ensures Ended(threw) == PilotOutcomes.Outcome(old(Now(Running)), old(state), i)
    {
      hide RunOuter;
      hide HandleOuter;
      hide PilotRuns.Fits;
      hide PilotRuns.Sound;
      hide PilotOutcomes.Outcome;
      ghost var before := View(Running);
      PilotRuns.StepKeeps(before, i);
      PilotOutcomes.OutcomeExactly(before, i);
      context.Record(In(i.event));
      RunOuterStuck(HandleOuter(Now(Running), state, i.event, i.env), i.env);
      var next;
      next, threw := HandleByState(i.event, i.env);
      if !threw {
        threw := FollowTransitions(next, i.env);
      }
    }
  }

  lemma RunInnerStuck(t: Turn<Inner>)
    ensures t.world.status != Running ==> RunInner(t) == t
  {
  }

  lemma RunOuterStuck(t: Turn<Outer>, env: Env)
    ensures t.world.status != Running ==> RunOuter(t, env) == t
  {
  }
}
