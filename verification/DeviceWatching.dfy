/** The device does things in that order. */
module DeviceWatching {
  import opened Messages
  import opened Channels
  import opened ChannelTheory
  import opened Watching
  import opened Device

  lemma AttachKeen(w: World, list: seq<ChannelResponse>)
    requires Keen(w)
    ensures Keen(AttachAll(w, list))
  {
    Watches();
    hide Keen;
    var v := Validate(w, list);
    ValidateKeen(w, list);
    StatusKeen(Tell(v.world, ChannelsOpened(v.result)), Undefined);
    hide Validate;
  }

  lemma ReleaseKeen(w: World, ids: seq<int>)
    requires Keen(w) && Unsent(w)
    ensures Keen(ReleaseAll(w, ids))
  {
    Watches();
    hide Keen;
    hide Close;
    if AllPresent(w, ids) { ReportAndCloseKeen(w, ids); }
    StatusKeen(w, Undefined);
  }

  lemma EndKeen(w: World, env: Env)
    requires Keen(w) && Unsent(w)
    ensures Keen(EndOperation(w, env))
  {
    var all := Listing(w.channels.Keys, env.order);
    ListingPresent(w, env.order);
    ReportAndCloseKeen(w, all);
    Watches();
    hide Keen;
    hide Close;
  }

  lemma StartInnerKeen(w: World, s: Inner)
    requires Keen(w) && w.status == Running
    ensures Keen(StartInner(w, s).world)
  {
    Watches();
    hide Keen;
    hide AttachAll;
    if s.Flying? { AttachKeen(w, s.initialChannels); }
  }

  lemma MessageKeen(w: World, s: Inner, m: ControlMessage, env: Env)
    requires Keen(w) && Unsent(w) && w.status == Running
    ensures Keen(HandleInner(w, s, Received(m), env).world)
  {
    Watches();
    hide Keen;
    AttachKeen(w, m.channels);
    ReleaseKeen(w, m.ids);
    EndKeen(w, env);
    hide AttachAll;
    hide ReleaseAll;
    hide EndOperation;
  }

  lemma HandleInnerKeen(w: World, s: Inner, e: Event, env: Env)
    requires Keen(w) && Unsent(w) && w.status == Running
    ensures Keen(HandleInner(w, s, e, env).world)
  {
    Watches();
    hide Keen;
    match e
    case Received(m) => MessageKeen(w, s, m, env);
    case _ =>
  }

  lemma RunInnerKeen(t: Turn<Inner>)
    requires Keen(t.world)
    ensures Keen(RunInner(t).world)
  {
    if t.world.status == Running && t.next.Some? {
      Watches();
      hide Keen;
      hide StartInner;
      StartInnerKeen(Note(t.world, MovedInside), t.next.value);
      var u := StartInner(Note(t.world, MovedInside), t.next.value);
      assert RunInner(u) == u;
    }
  }

  lemma HandleOuterKeen(w: World, s: Outer, e: Event, env: Env)
    requires Keen(w) && Unsent(w) && w.status == Running
    ensures Keen(HandleOuter(w, s, e, env).world)
  {
    Watches();
    hide Keen;
    hide HandleInner;
    hide RunInner;
    if s.Connected? {
      HandleInnerKeen(w, s.inner, e, env);
      RunInnerKeen(HandleInner(w, s.inner, e, env));
    }
  }

  lemma StartDisconnectingKeen(w: World, env: Env)
    requires Keen(w)
    ensures Keen(StartDisconnecting(w, env).world)
  {
    ReleasedKeen(w);
    NoteKeen(w, StreamClosed);
    hide Keen;
    StatusKeen(Note(w, StreamClosed), Threw);
  }

  lemma StartOuterKeen(w: World, s: Outer, env: Env)
    requires Keen(w) && w.status == Running
    ensures Keen(StartOuter(w, s, env).world)
  {
    Watches();
    hide Keen;
    hide StartInner;
    hide StartDisconnecting;
    if s.Connected? { StartInnerKeen(w, s.inner); }
    if s.Disconnecting? { StartDisconnectingKeen(w, env); }
  }

  lemma {:induction false} RunOuterKeen(t: Turn<Outer>, env: Env)
    requires Keen(t.world)
    ensures Keen(RunOuter(t, env).world)
    decreases Rank(t.next)
  {
    if t.world.status == Running && t.next.Some? {
      Watches();
      hide Keen;
      hide StartOuter;
      StartOuterKeen(Note(t.world, Moved), t.next.value, env);
      var u := StartOuter(Note(t.world, Moved), t.next.value, env);
      assert Rank(u.next) < Rank(Some(t.next.value));
      RunOuterKeen(u, env);
    }
  }

  lemma {:induction false} RunKeen(inputs: seq<Input>)
    ensures Keen(Run(INITIAL, inputs).world)
  {
    if inputs != [] {
      RunKeen(Front(inputs));
      var c := Run(INITIAL, Front(inputs));
      var i := Last(inputs);
      NoteKeen(c.world, In(i.event));
      hide Keen;
      if c.world.status == Running {
        HandleOuterKeen(Note(c.world, In(i.event)), c.state, i.event, i.env);
        RunOuterKeen(HandleOuter(Note(c.world, In(i.event)), c.state, i.event, i.env), i.env);
      }
    }
  }

  function TraceOf(c: Client): seq<Action> {
    c.world.trace
  }

  /** On every run: whoever is reported as closing was made before and is still there. */
  lemma ClosingNamesLiveChannels(inputs: seq<Input>, i: nat, r: Ref)
    requires i < |TraceOf(Run(INITIAL, inputs))| && ClosingTold(TraceOf(Run(INITIAL, inputs))[i], r)
    ensures LiveAt(TraceOf(Run(INITIAL, inputs)), i, r)
  {
    RunKeen(inputs);
    ToldWhileLive(TraceOf(Run(INITIAL, inputs)), i, r);
  }

  /**
   On every run: a channel is closed after the listener was told, in the same event, and before the
   server is answered.
   */
  lemma ChannelsCloseAfterReport(inputs: seq<Input>, i: nat, r: Ref)
    requires i < |TraceOf(Run(INITIAL, inputs))| && TraceOf(Run(INITIAL, inputs))[i] == Closed(r)
    ensures var t := TraceOf(Run(INITIAL, inputs));
      && (exists k :: 0 <= k < i && ClosingTold(t[k], r) && SameEvent(t, k, i))
      && (forall k :: 0 <= k < i && t[k].Sent? ==> exists n :: k < n < i && t[n].In?)
  {
    RunKeen(inputs);
    ClosedAfterTold(TraceOf(Run(INITIAL, inputs)), i, r);
  }

  /** On every run: RELEASED comes after the closing of the stream, in the same event. */
  lemma ReleasedComesLast(inputs: seq<Input>, i: nat)
    requires i < |TraceOf(Run(INITIAL, inputs))| && TraceOf(Run(INITIAL, inputs))[i] == Told(FacadeEvent.Released)
    ensures var t := TraceOf(Run(INITIAL, inputs));
      exists k :: 0 <= k < i && t[k].StreamClosed? && SameEvent(t, k, i)
  {
    RunKeen(inputs);
    ReleasedAfterClosing(TraceOf(Run(INITIAL, inputs)), i);
  }
}
