/** The pilot does things in that order. */
module PilotWatching {
  import opened Messages
  import opened Channels
  import opened ChannelTheory
  import opened Watching
  import opened Pilot

  lemma StartInnerKeen(w: World, s: Inner)
    requires Keen(w) && w.status == Running
    ensures Keen(StartInner(w, s).world)
  {
    Watches();
    hide Keen;
    if s.ValidatingChannels? {
      var v := Validate(w, s.toValidate);
      ValidateKeen(w, s.toValidate);
      StatusKeen(v.world, Undefined);
      hide Validate;
    }
  }

  lemma ServerReleaseKeen(w: World, s: Inner, env: Env)
    requires Keen(w) && Unsent(w)
    ensures Keen(ServerRelease(w, s, env).world)
  {
    var all := Listing(w.channels.Keys, env.order);
    ListingPresent(w, env.order);
    ReportAndCloseKeen(w, all);
    Watches();
    hide Keen;
    hide Close;
  }

  lemma ClosingKeen(w: World, s: Inner, m: ControlMessage, env: Env)
    requires Keen(w) && Unsent(w) && s.ClosingChannels?
    ensures Keen(ClosingMessage(w, s, m, env).world)
  {
    Watches();
    hide Keen;
    hide Close;
    ServerReleaseKeen(w, s, env);
    hide ServerRelease;
    if AllPresent(w, s.channelsToClose) { ReportAndCloseKeen(w, s.channelsToClose); }
    StatusKeen(w, Undefined);
  }

  lemma DefaultKeen(w: World, m: ControlMessage, env: Env)
    requires Keen(w)
    ensures Keen(DefaultMessage(w, m, env))
  {
    hide Keen;
    if IsHeartbeat(m) {
      NoteKeen(w, Sent(Ack(Heartbeat).(heartbeat := Some((m.heartbeat.value, env.location)))));
    }
  }

  lemma ConfirmingKeen(w: World, s: Inner, m: ControlMessage, env: Env)
    requires Keen(w) && w.status == Running && s.ValidatingChannels?
    ensures Keen(ValidatingMessage(w, s, m, env).world)
  {
    hide Keen;
    hide SetOwned;
    hide DefaultMessage;
    SetOwnedKeen(w, m.ids);
    NoteKeen(w, Told(Error(m.text)));
    DefaultKeen(w, m, env);
    DefaultKeen(Tell(w, Error(m.text)), m, env);
    NoteKeen(SetOwned(w, m.ids), Told(ChannelsOpened(s.validated)));
  }

  lemma RequestingKeen(w: World, s: Inner, m: ControlMessage, env: Env)
    requires Keen(w) && w.status == Running && s.RequestingControl?
    ensures Keen(RequestingMessage(w, s, m, env).world)
  {
    hide Keen;
    hide SetOwnedOne;
    hide DefaultMessage;
    SetOwnedOneKeen(w, s.channelId, true);
    DefaultKeen(w, m, env);
    NoteKeen(w, Told(HandoverAccepted(m.handover)));
    NoteKeen(w, Told(ProcedureRejected(RequestControl, m.text)));
    NoteKeen(SetOwnedOne(w, s.channelId, true), Told(HandoverDone));
  }

  lemma ReleasingKeen(w: World, s: Inner, m: ControlMessage, env: Env)
    requires Keen(w) && w.status == Running && s.ReleasingControl?
    ensures Keen(ReleasingMessage(w, s, m, env).world)
  {
    hide Keen;
    hide SetOwnedOne;
    hide DefaultMessage;
    var marked := SetOwnedOne(w, s.channelId, false);
    SetOwnedOneKeen(w, s.channelId, false);
    DefaultKeen(w, m, env);
    NoteKeen(marked, Told(ControlGone));
    NoteKeen(Tell(marked, ControlGone), Sent(Ack(ControlReleased)));
  }

  lemma MessageKeen(w: World, s: Inner, m: ControlMessage, env: Env)
    requires Keen(w) && Unsent(w) && w.status == Running
    ensures Keen(HandleInner(w, s, Received(m), env).world)
  {
    Watches();
    hide Keen;
    match s
    case ClosingChannels(_) => ClosingKeen(w, s, m, env);
    case Operating =>
      ServerReleaseKeen(w, s, env);
      StatusKeen(w, Undefined);
      hide ServerRelease;
    case ValidatingChannels(_, _) =>
      ConfirmingKeen(w, s, m, env);
      hide ValidatingMessage;
    case RequestingControl(_) =>
      RequestingKeen(w, s, m, env);
      hide RequestingMessage;
    case ReleasingControl(_) =>
      ReleasingKeen(w, s, m, env);
      hide ReleasingMessage;
    case _ =>
  }

  lemma HandleInnerKeen(w: World, s: Inner, e: Event, env: Env)
    requires Keen(w) && Unsent(w) && w.status == Running
    ensures Keen(HandleInner(w, s, e, env).world)
  {
    Watches();
    hide Keen;
    match e
    case Received(m) => MessageKeen(w, s, m, env);
    case _ =>
  }

  lemma RunInnerKeen(t: Turn<Inner>)
    requires Keen(t.world)
    ensures Keen(RunInner(t).world)
  {
    if t.world.status == Running && t.next.Some? {
      Watches();
      hide Keen;
      hide StartInner;
      StartInnerKeen(Note(t.world, MovedInside), t.next.value);
      var u := StartInner(Note(t.world, MovedInside), t.next.value);
      assert RunInner(u) == u;
    }
  }

  lemma HandleOuterKeen(w: World, s: Outer, e: Event, env: Env)
    requires Keen(w) && Unsent(w) && w.status == Running
    ensures Keen(HandleOuter(w, s, e, env).world)
  {
    Watches();
    hide Keen;
    hide HandleInner;
    hide RunInner;
    if s.Connected? {
      HandleInnerKeen(w, s.inner, e, env);
      RunInnerKeen(HandleInner(w, s.inner, e, env));
    }
  }

  lemma StartDisconnectingKeen(w: World, s: Outer, env: Env)
    requires Keen(w)
    ensures Keen(StartDisconnecting(w, s, env).world)
  {
    ReleasedKeen(w);
    NoteKeen(w, StreamClosed);
    hide Keen;
    StatusKeen(Note(w, StreamClosed), Threw);
  }

  lemma StartOuterKeen(w: World, s: Outer, env: Env)
    requires Keen(w) && w.status == Running
    ensures Keen(StartOuter(w, s, env).world)
  {
    Watches();
    hide Keen;
    hide StartInner;
    hide StartDisconnecting;
    if s.Connected? { StartInnerKeen(w, s.inner); }
    if s.Disconnecting? { StartDisconnectingKeen(w, s, env); }
  }

  lemma {:induction false} RunOuterKeen(t: Turn<Outer>, env: Env)
    requires Keen(t.world)
    ensures Keen(RunOuter(t, env).world)
    decreases Rank(t.next)
  {
    if t.world.status == Running && t.next.Some? {
      Watches();
      hide Keen;
      hide StartOuter;
      StartOuterKeen(Note(t.world, Moved), t.next.value, env);
      var u := StartOuter(Note(t.world, Moved), t.next.value, env);
      assert Rank(u.next) < Rank(Some(t.next.value));
      RunOuterKeen(u, env);
    }
  }

  lemma {:induction false} RunKeen(inputs: seq<Input>)
    ensures Keen(Run(INITIAL, inputs).world)
  {
    if inputs != [] {
      RunKeen(Front(inputs));
      var c := Run(INITIAL, Front(inputs));
      var i := Last(inputs);
      NoteKeen(c.world, In(i.event));
      hide Keen;
      if c.world.status == Running {
        HandleOuterKeen(Note(c.world, In(i.event)), c.state, i.event, i.env);
        RunOuterKeen(HandleOuter(Note(c.world, In(i.event)), c.state, i.event, i.env), i.env);
      }
    }
  }

  function TraceOf(c: Client): seq<Action> {
    c.world.trace
  }

  /** On every run: whoever is reported as closing was made before and is still there. */
  lemma ClosingNamesLiveChannels(inputs: seq<Input>, i: nat, r: Ref)
    requires i < |TraceOf(Run(INITIAL, inputs))| && ClosingTold(TraceOf(Run(INITIAL, inputs))[i], r)
    ensures LiveAt(TraceOf(Run(INITIAL, inputs)), i, r)
  {
    RunKeen(inputs);
    ToldWhileLive(TraceOf(Run(INITIAL, inputs)), i, r);
  }

  /**
   On every run: a channel is closed after the listener was told, in the same event, and before the
   server is answered.
   */
  lemma ChannelsCloseAfterReport(inputs: seq<Input>, i: nat, r: Ref)
    requires i < |TraceOf(Run(INITIAL, inputs))| && TraceOf(Run(INITIAL, inputs))[i] == Closed(r)
    ensures var t := TraceOf(Run(INITIAL, inputs));
      && (exists k :: 0 <= k < i && ClosingTold(t[k], r) && SameEvent(t, k, i))
      && (forall k :: 0 <= k < i && t[k].Sent? ==> exists n :: k < n < i && t[n].In?)
  {
    RunKeen(inputs);
    ClosedAfterTold(TraceOf(Run(INITIAL, inputs)), i, r);
  }

  /** On every run: RELEASED comes after the closing of the stream, in the same event. */
  lemma ReleasedComesLast(inputs: seq<Input>, i: nat)
    requires i < |TraceOf(Run(INITIAL, inputs))| && TraceOf(Run(INITIAL, inputs))[i] == Told(FacadeEvent.Released)
    ensures var t := TraceOf(Run(INITIAL, inputs));
      exists k :: 0 <= k < i && t[k].StreamClosed? && SameEvent(t, k, i)
  {
    RunKeen(inputs);
    ReleasedAfterClosing(TraceOf(Run(INITIAL, inputs)), i);
  }
}
