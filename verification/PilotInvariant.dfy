/**
 What every step of the pilot keeps. `Fits` holds between events; `Enters` holds when the machine
 is about to start a state. Each ties the protocol state to what the observers made of the trace.
 */
module PilotInvariant {
  import opened Messages
  import opened Channels
  import opened ChannelTheory
  import opened Observers
  import opened TableInvariant
  import opened Pilot

  // ---------------------------------------------------------------- the state against the trace

  predicate PendingFits(p: Pending, s: Inner) {
    match s
    case ValidatingChannels(_, _) => p == Idle || p == Confirming
    case OpeningChannels(_) => p == Adding
    case ClosingChannels(_) => p == Removing
    case RequestingControl(_) => p == Asking
    case _ => p == Idle
  }

  predicate LedgerFits(l: Ledger, s: Inner) {
    && l.confirming == s.ValidatingChannels?
    && l.asked == (if s.RequestingControl? then Some(s.channelId) else None)
    && l.yielding == (if s.ReleasingControl? then Some(s.channelId) else None)
  }

  predicate ControlFits(v: View, s: Inner) {
    v.stream == Live && PendingFits(v.pending, s) && LedgerFits(v.ledger, s)
  }

  predicate ControlEnters(v: View, s: Inner) {
    v.stream == Live && Quiet(v) && (v.pending == Idle || (s.ValidatingChannels? && v.pending == Confirming))
  }

  ghost predicate TableFits(w: World, s: Inner) {
    && (if s.ValidatingChannels? then Awaiting(w, s.validated) else Settled(w))
    && (s.Released? ==> w.channels == map[])
  }

  /** Inside Connected, between events. */
  ghost predicate FitsInner(w: World, s: Inner) {
    ControlFits(Observe(w.trace), s) && TableFits(w, s)
  }

  /** Inside Connected, about to start `s`. */
  ghost predicate EntersInner(w: World, s: Inner) {
    ControlEnters(Observe(w.trace), s) && Settled(w) && (s.Released? ==> w.channels == map[])
  }

  /** What may be said of every trace, also of one that ends in an exception. */
  ghost predicate Safe(w: World) {
    Observe(w.trace).stream != Broken && Observe(w.trace).pending != Overlap && Balanced(w)
  }

  /** What a method of an inner state must leave. */
  ghost predicate Leaves(t: Turn<Inner>) {
    if t.world.status != Running then Safe(t.world)
    else if t.next.None? then FitsInner(t.world, t.self)
    else EntersInner(t.world, t.next.value) && (t.next.value.ValidatingChannels? ==> t.next.value.validated == [])
  }

  // ---------------------------------------------------------------- starting an inner state

  /** Starting a state whose entry action is one neutral action. */
  lemma EnterBy(w: World, s: Inner, a: Action)
    requires EntersInner(w, s) && !s.ValidatingChannels?
    requires Neutral(Observe(w.trace), a)
    requires ControlFits(NextView(Observe(w.trace), a), s)
    ensures FitsInner(Note(w, a), s)
  {
    hide Observe;
    ObserveNote(w, a);
    NeutralKeeps(w, a, []);
  }

  lemma StartValidatingKeeps(w: World, list: seq<ChannelResponse>)
    requires w.status == Running && EntersInner(w, ValidatingChannels(list, []))
    ensures Leaves(StartInner(w, ValidatingChannels(list, [])))
  {
    hide Observe;
    hide Validate;
    var v := Validate(w, list);
    ValidateObserved(w, list);
    ValidateKeepsBalance(w, list);
    if v.world.status == Running && AllAlive(v.world, v.result) {
      ValidatedAwait(w, list);
      var a := Sent(Plain(ChannelsReady).(ids := RefIds(v.result)));
      ObserveNote(v.world, a);
      NeutralKeeps(v.world, a, v.result);
    } else {
      StatusKeepsBalance(v.world, Undefined);
    }
  }

  lemma StartInnerKeeps(w: World, s: Inner)
    requires w.status == Running && EntersInner(w, s)
    requires s.ValidatingChannels? ==> s.validated == []
    ensures Leaves(StartInner(w, s))
  {
    hide Observe;
    hide Validate;
    match s
    case ValidatingChannels(list, _) => StartValidatingKeeps(w, list);
    case OpeningChannels(requests) => EnterBy(w, s, Sent(Plain(AddChannels).(requests := requests)));
    case ClosingChannels(ids) => EnterBy(w, s, Sent(Plain(RemoveChannels).(ids := ids)));
    case Operating => EnterBy(w, s, Recalled);
    case RequestingControl(id) => EnterBy(w, s, Sent(Plain(RequestControl).(ids := [id])));
    case ReleasingControl(id) => EnterBy(w, s, Told(ReleaseAsked(id)));
    case Recovering =>
    case Released =>
  }

  // ---------------------------------------------------------------- handling an event inside Connected

  lemma FitsBy(w: World, s: Inner, a: Action)
    requires FitsInner(w, s) && Neutral(Observe(w.trace), a)
    requires ControlFits(NextView(Observe(w.trace), a), s)
    ensures FitsInner(Note(w, a), s)
  {
    hide Observe;
    ObserveNote(w, a);
    NeutralKeeps(w, a, if s.ValidatingChannels? then s.validated else []);
  }

  lemma LeavesBy(w: World, s: Inner, a: Action, next: Inner)
    requires FitsInner(w, s) && !s.ValidatingChannels? && !next.Released? && Neutral(Observe(w.trace), a)
    requires ControlEnters(NextView(Observe(w.trace), a), next)
    ensures EntersInner(Note(w, a), next)
  {
    hide Observe;
    ObserveNote(w, a);
    NeutralKeeps(w, a, []);
  }

  lemma EntersBy(w: World, s: Inner, a: Action)
    requires EntersInner(w, s) && Neutral(Observe(w.trace), a)
    requires ControlEnters(NextView(Observe(w.trace), a), s)
    ensures EntersInner(Note(w, a), s)
  {
    hide Observe;
    ObserveNote(w, a);
    NeutralKeeps(w, a, []);
  }

  lemma DefaultKeeps(w: World, s: Inner, m: ControlMessage, env: Env)
    requires w.status == Running && FitsInner(w, s)
    ensures FitsInner(DefaultMessage(w, m, env), s)
  {
    hide Observe;
    if IsHeartbeat(m) {
      FitsBy(w, s, Sent(Ack(Heartbeat).(heartbeat := Some((m.heartbeat.value, env.location)))));
    }
  }

  lemma ReleasingUserKeeps(w0: World, s: Inner, u: UserEvent, env: Env)
    requires w0.status == Running && FitsInner(w0, s) && s.ReleasingControl?
    ensures Leaves(UserInner(Note(w0, In(User(u))), s, u, env))
  {
    hide Observe;
    var w := Note(w0, In(User(u)));
    match u
    case ReleaseRejected(text) =>
      LeavesBy(w0, s, In(User(u)), Operating);
      EntersBy(w, Operating, Sent(Ack(ReleaseControl).(text := text)));
    case ReleaseAccepted(data) =>
      FitsBy(w0, s, In(User(u)));
      FitsBy(w, s, Sent(Ack(ReleaseControl).(handover := Some(data))));
    case _ => FitsBy(w0, s, In(User(u)));
  }

  lemma UserKeeps(w0: World, s: Inner, u: UserEvent, env: Env)
    requires w0.status == Running && FitsInner(w0, s)
    ensures Leaves(UserInner(Note(w0, In(User(u))), s, u, env))
  {
    hide Observe;
    var w := Note(w0, In(User(u)));
    if s.ReleasingControl? {
      ReleasingUserKeeps(w0, s, u, env);
    } else {
      FitsBy(w0, s, In(User(u)));
      if s.Operating? {
        OperatingIsQuiet(w);
      } else if s.RequestingControl? && u.UserControlReady? {
        FitsBy(w, s, Sent(Plain(ControlReady)));
      }
    }
  }

  /** From Operating any state but Released may be started at once. */
  lemma OperatingIsQuiet(w: World)
    requires FitsInner(w, Operating)
    ensures forall next: Inner :: !next.Released? ==> EntersInner(w, next)
  {
    hide Observe;
  }

  lemma OpeningKeeps(w0: World, s: Inner, m: ControlMessage, env: Env)
    requires w0.status == Running && FitsInner(w0, s) && s.OpeningChannels?
    ensures Leaves(OpeningMessage(Note(w0, In(Received(m))), s, m, env))
  {
    hide Observe;
    var w := Note(w0, In(Received(m)));
    if m.command != AddChannels {
      FitsBy(w0, s, In(Received(m)));
      DefaultKeeps(w, s, m, env);
    } else if m.response == Accepted {
      LeavesBy(w0, s, In(Received(m)), ValidatingChannels(m.channels, []));
    } else {
      LeavesBy(w0, s, In(Received(m)), Operating);
      EntersBy(w, Operating, Told(ProcedureRejected(AddChannels, m.text)));
    }
  }

  // ---------------------------------------------------------------- closing channels

  lemma ServerReleaseKeeps(w: World, s: Inner, env: Env)
    requires w.status == Running && Settled(w)
    requires ControlEnters(Observe(w.trace), Inner.Released)
    ensures Leaves(ServerRelease(w, s, env))
  {
    hide Observe;
    hide Close;
    var all := Listing(w.channels.Keys, env.order);
    ListingPresent(w, env.order);
    var told := Tell(w, ChannelsClosing(Refs(w, all)));
    ReportAndClose(w, all);
    CloseEverything(told, all);
    EntersBy(Close(told, all), Inner.Released, Sent(Ack(Command.Release)));
  }

  lemma ClosingKeeps(w0: World, s: Inner, m: ControlMessage, env: Env)
    requires w0.status == Running && FitsInner(w0, s) && s.ClosingChannels?
    ensures Leaves(ClosingMessage(Note(w0, In(Received(m))), s, m, env))
  {
    hide Observe;
    hide Close;
    var w := Note(w0, In(Received(m)));
    if m.command == RemoveChannels {
      LeavesBy(w0, s, In(Received(m)), Operating);
      if m.response != Accepted {
        EntersBy(w, Operating, Told(ProcedureRejected(RemoveChannels, m.text)));
      } else if AllPresent(w, s.channelsToClose) {
        ReportAndClose(w, s.channelsToClose);
        var closed := Close(Tell(w, ChannelsClosing(Refs(w, s.channelsToClose))), s.channelsToClose);
        EntersBy(closed, Operating, Sent(Ack(RemoveChannels)));
      } else {
        StatusKeepsBalance(w, Undefined);
      }
    } else if m.command == Command.Release {
      LeavesBy(w0, s, In(Received(m)), Operating);
      ServerReleaseKeeps(w, s, env);
    } else {
      FitsBy(w0, s, In(Received(m)));
      DefaultKeeps(w, s, m, env);
    }
  }

  lemma OperatingKeeps(w0: World, s: Inner, m: ControlMessage, env: Env)
    requires w0.status == Running && FitsInner(w0, s) && s.Operating?
    ensures Leaves(OperatingMessage(Note(w0, In(Received(m))), s, m, env))
  {
    hide Observe;
    hide Close;
    var w := Note(w0, In(Received(m)));
    FitsBy(w0, s, In(Received(m)));
    OperatingIsQuiet(w);
    if m.command == OperationUpdated {
      FitsBy(w, s, Told(OperationUpdate));
      FitsBy(Tell(w, OperationUpdate), s, Recalled);
    } else if m.command == ReleaseControl {
      StatusKeepsBalance(w, Undefined);
    } else if m.command == Command.Release {
      ServerReleaseKeeps(w, s, env);
    } else {
      DefaultKeeps(w, s, m, env);
    }
  }

  // ---------------------------------------------------------------- ownership messages

  /** The table after marking `ids`, against a ledger in which exactly `ids` were granted meanwhile. */
  lemma MarkedAgree(w0: World, w: World, ids: seq<int>)
    requires w.status == Running && w.channels == w0.channels && w.made == w0.made
    requires FlagsAgree(w0) && AllPresent(w, ids)
    requires Observe(w.trace).ledger.granted == Observe(w0.trace).ledger.granted + set id | id in ids
    ensures FlagsAgree(SetOwned(w, ids))
  {
    hide Observe;
    SetOwnedMeaning(w, ids);
  }

  lemma ConfirmedKeeps(w0: World, s: Inner, m: ControlMessage)
    requires w0.status == Running && FitsInner(w0, s) && s.ValidatingChannels?
    requires m.command == ChannelsReady && m.response == Accepted
    ensures var marked := SetOwned(Note(w0, In(Received(m))), m.ids);
      && marked.status == Running ==> EntersInner(Tell(marked, ChannelsOpened(s.validated)), Operating)
  {
    hide Observe;
    hide SetOwned;
    var w := Note(w0, In(Received(m)));
    var marked := SetOwned(w, m.ids);
    ObserveNote(w0, In(Received(m)));
    NoteTable(w0, In(Received(m)));
    SetOwnedMeaning(w, m.ids);
    if marked.status == Running {
      MarkedAgree(w0, w, m.ids);
      SetOwnedKeepsBalance(w, m.ids);
      assert forall r :: Alive(marked, r) == Alive(w0, r);
      NowReported(marked, s.validated);
    }
  }

  lemma ValidatingKeeps(w0: World, s: Inner, m: ControlMessage, env: Env)
    requires w0.status == Running && FitsInner(w0, s) && s.ValidatingChannels?
    ensures Leaves(ValidatingMessage(Note(w0, In(Received(m))), s, m, env))
  {
    hide Observe;
    hide SetOwned;
    var w := Note(w0, In(Received(m)));
    if m.command != ChannelsReady {
      FitsBy(w0, s, In(Received(m)));
      DefaultKeeps(w, s, m, env);
    } else if m.response != Accepted {
      FitsBy(w0, s, In(Received(m)));
      FitsBy(w, s, Told(Error(m.text)));
    } else {
      ConfirmedKeeps(w0, s, m);
      ObserveNote(w0, In(Received(m)));
      NoteTable(w0, In(Received(m)));
      SetOwnedMeaning(w, m.ids);
      SetOwnedKeepsBalance(w, m.ids);
    }
  }

  /** Marking one channel, against a ledger in which exactly that channel was granted or revoked meanwhile. */
  lemma MarkedOneKeeps(w0: World, a: Action, id: int, owned: bool)
    requires w0.status == Running && Settled(w0) && Outward(a)
    requires var v := Observe(w0.trace); var u := NextView(v, a);
      && ControlEnters(u, Operating) && u.reported == v.reported
      && u.ledger.granted == if owned then v.ledger.granted + {id} else v.ledger.granted - {id}
    ensures var marked := SetOwnedOne(Note(w0, a), id, owned);
      if marked.status == Running then EntersInner(marked, Operating) else Safe(marked)
  {
    hide Observe;
    hide Balanced;
    var w := Note(w0, a);
    ObserveNote(w0, a);
    NoteTable(w0, a);
    if id in w.channels {
      var marked := SetOwnedOne(w, id, owned);
      SetOwnedOneKeepsBalance(w, id, owned);
      forall r: Ref ensures Alive(marked, r) == Alive(w0, r) && Known(marked, r) == Known(w0, r) {
      }
    } else {
      StatusKeepsBalance(w, Undefined);
    }
  }

  lemma RequestingKeeps(w0: World, s: Inner, m: ControlMessage, env: Env)
    requires w0.status == Running && FitsInner(w0, s) && s.RequestingControl?
    ensures Leaves(RequestingMessage(Note(w0, In(Received(m))), s, m, env))
  {
    hide Observe;
    hide SetOwnedOne;
    var w := Note(w0, In(Received(m)));
    if m.command == RequestControl {
      if m.response == Accepted {
        FitsBy(w0, s, In(Received(m)));
        FitsBy(w, s, Told(HandoverAccepted(m.handover)));
      } else {
        LeavesBy(w0, s, In(Received(m)), Operating);
        EntersBy(w, Operating, Told(ProcedureRejected(RequestControl, m.text)));
      }
    } else if m.command == ControlReady && m.response == Accepted {
      MarkedOneKeeps(w0, In(Received(m)), s.channelId, true);
      var marked := SetOwnedOne(w, s.channelId, true);
      if marked.status == Running { EntersBy(marked, Operating, Told(HandoverDone)); }
    } else {
      FitsBy(w0, s, In(Received(m)));
      DefaultKeeps(w, s, m, env);
    }
  }

  lemma ReleasingKeeps(w0: World, s: Inner, m: ControlMessage, env: Env)
    requires w0.status == Running && FitsInner(w0, s) && s.ReleasingControl?
    ensures Leaves(ReleasingMessage(Note(w0, In(Received(m))), s, m, env))
  {
    hide Observe;
    hide SetOwnedOne;
    var w := Note(w0, In(Received(m)));
    if m.command == ControlReleased {
      MarkedOneKeeps(w0, In(Received(m)), s.channelId, false);
      var marked := SetOwnedOne(w, s.channelId, false);
      if marked.status == Running {
        EntersBy(marked, Operating, Told(ControlGone));
        EntersBy(Tell(marked, ControlGone), Operating, Sent(Ack(ControlReleased)));
      }
    } else {
      FitsBy(w0, s, In(Received(m)));
      DefaultKeeps(w, s, m, env);
    }
  }

  // ---------------------------------------------------------------- one event inside Connected

  lemma HandleInnerKeeps(w0: World, s: Inner, e: Event, env: Env)
    requires w0.status == Running && FitsInner(w0, s)
    ensures Leaves(HandleInner(Note(w0, In(e)), s, e, env))
  {
    hide Observe;
    match e
    case User(u) => UserKeeps(w0, s, u, env);
    case Received(m) => ReceivedKeeps(w0, s, m, env);
    case ConnectionLost =>
      FitsBy(w0, s, In(e));
      if s.Operating? { OperatingIsQuiet(Note(w0, In(e))); }
    case ConnectionClosed => FitsBy(w0, s, In(e));
    case ConnectionError => FitsBy(w0, s, In(e));
  }

  lemma ReceivedKeeps(w0: World, s: Inner, m: ControlMessage, env: Env)
    requires w0.status == Running && FitsInner(w0, s)
    ensures Leaves(HandleInner(Note(w0, In(Received(m))), s, Received(m), env))
  {
    hide Observe;
    match s
    case ValidatingChannels(_, _) => ValidatingKeeps(w0, s, m, env);
    case OpeningChannels(_) => OpeningKeeps(w0, s, m, env);
    case ClosingChannels(_) => ClosingKeeps(w0, s, m, env);
    case Operating => OperatingKeeps(w0, s, m, env);
    case RequestingControl(_) => RequestingKeeps(w0, s, m, env);
    case ReleasingControl(_) => ReleasingKeeps(w0, s, m, env);
    case Recovering => FitsBy(w0, s, In(Received(m)));
    case Released => FitsBy(w0, s, In(Received(m)));
  }

  lemma RunInnerKeeps(t: Turn<Inner>)
    requires Leaves(t)
    ensures Leaves(RunInner(t)) && (RunInner(t).world.status == Running ==> RunInner(t).next.None?)
    decreases t.next.Some?
  {
    hide Observe;
    if t.world.status == Running && t.next.Some? {
      EntersBy(t.world, t.next.value, MovedInside);
      StartInnerKeeps(Note(t.world, MovedInside), t.next.value);
    }
  }
}
