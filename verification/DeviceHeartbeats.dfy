/** The device part: see Heartbeats. */
module DeviceHeartbeats {
  import opened Messages
  import opened Channels
  import opened ChannelTheory
  import opened Heartbeats
  import opened Device
  import opened DeviceRuns

  lemma AttachStill(w: World, list: seq<ChannelResponse>)
    ensures AttachAll(Still(w), list) == Still(AttachAll(w, list))
  {
    Stilling();
    hide WithoutBeats;
    var v := Validate(w, list);
    ValidateStill(w, list);
    StillLooksSame(Tell(v.world, ChannelsOpened(v.result)), [], v.result);
    assert Still(Tell(v.world, ChannelsOpened(v.result))) == Tell(Still(v.world), ChannelsOpened(v.result));
  }

  lemma ReleaseStill(w: World, ids: seq<int>)
    ensures ReleaseAll(Still(w), ids) == Still(ReleaseAll(w, ids))
  {
    Stilling();
    hide WithoutBeats;
    StillLooksSame(w, ids, []);
    if AllPresent(w, ids) { CloseStill(Tell(w, ChannelsClosing(Refs(w, ids))), ids); }
  }

  lemma EndStill(w: World, env: Env)
    ensures EndOperation(Still(w), env) == Still(EndOperation(w, env))
  {
    Stilling();
    hide WithoutBeats;
    var all := Listing(w.channels.Keys, env.order);
    ListingPresent(w, env.order);
    StillLooksSame(w, all, []);
    CloseStill(Tell(w, ChannelsClosing(Refs(w, all))), all);
  }

  lemma StartInnerStill(w: World, s: Inner)
    ensures StartInner(Still(w), s) == StillTurn(StartInner(w, s))
  {
    Stilling();
    hide WithoutBeats;
    hide AttachAll;
    if s.Flying? { AttachStill(w, s.initialChannels); }
  }

  lemma HandleInnerStill(w: World, s: Inner, e: Event, env: Env)
    requires !IsBeatEvent(e)
    ensures HandleInner(Still(w), s, e, env) == StillTurn(HandleInner(w, s, e, env))
  {
    Stilling();
    hide WithoutBeats;
    hide AttachAll;
    hide ReleaseAll;
    hide EndOperation;
    if e.Received? {
      AttachStill(w, e.message.channels);
      ReleaseStill(w, e.message.ids);
      EndStill(w, env);
    }
  }

  lemma RunInnerStill(t: Turn<Inner>)
    ensures RunInner(StillTurn(t)) == StillTurn(RunInner(t))
    decreases t.next.Some?
  {
    Stilling();
    hide WithoutBeats;
    if t.world.status == Running && t.next.Some? {
      StartInnerStill(Note(t.world, MovedInside), t.next.value);
      RunInnerStill(StartInner(Note(t.world, MovedInside), t.next.value));
    }
  }

  lemma HandleOuterStill(w: World, s: Outer, e: Event, env: Env)
    requires !IsBeatEvent(e)
    ensures HandleOuter(Still(w), s, e, env) == StillTurn(HandleOuter(w, s, e, env))
  {
    Stilling();
    hide WithoutBeats;
    if s.Connected? {
      HandleInnerStill(w, s.inner, e, env);
      RunInnerStill(HandleInner(w, s.inner, e, env));
    }
  }

  lemma StartOuterStill(w: World, s: Outer, env: Env)
    ensures StartOuter(Still(w), s, env) == StillTurn(StartOuter(w, s, env))
  {
    Stilling();
    hide WithoutBeats;
    if s.Connected? {
      StartInnerStill(w, s.inner);
    } else if s.Disconnecting? {
      assert Still(Note(w, StreamClosed)) == Note(Still(w), StreamClosed);
      assert Still(Throw(Note(w, StreamClosed))) == Throw(Still(Note(w, StreamClosed)));
    }
  }

  lemma {:induction false} RunOuterStill(t: Turn<Outer>, env: Env)
    ensures RunOuter(StillTurn(t), env) == StillTurn(RunOuter(t, env))
    decreases Rank(t.next)
  {
    Stilling();
    hide WithoutBeats;
    if t.world.status == Running && t.next.Some? {
      StartOuterStill(Note(t.world, Moved), t.next.value, env);
      RunOuterStill(StartOuter(Note(t.world, Moved), t.next.value, env), env);
    }
  }

  function StillClient(c: Client): Client {
    Client(Still(c.world), c.state)
  }

  lemma StepStill(c: Client, i: Input)
    requires !IsBeatEvent(i.event)
    ensures Step(StillClient(c), i) == StillClient(Step(c, i))
  {
    Stilling();
    hide WithoutBeats;
    var w := Note(c.world, In(i.event));
    HandleOuterStill(w, c.state, i.event, i.env);
    RunOuterStill(HandleOuter(w, c.state, i.event, i.env), i.env);
  }

  /** A heartbeat gets one answer, with its key, while the stream is in use, and changes nothing else. */
  lemma HeartbeatAnswered(c: Client, i: Input)
    requires IsBeatEvent(i.event) && c.world.status == Running && c.state != Connected(Inner.Released)
    ensures var w := Note(c.world, In(i.event));
      var answer := Ack(Heartbeat).(heartbeat := Some((i.event.message.heartbeat.value, i.env.location)));
      Step(c, i) == Client(if c.state.Connecting? || c.state.Connected? then Send(w, answer) else w, c.state)
  {
  }

  /** Deleting the heartbeats from any run deletes the heartbeats from its trace, and nothing else. */
  lemma {:induction false} HeartbeatsTransparent(inputs: seq<Input>)
    ensures Run(INITIAL, Strip(inputs)) == StillClient(Run(INITIAL, inputs))
  {
    if inputs != [] {
      var c := Run(INITIAL, Front(inputs));
      var i := Last(inputs);
      HeartbeatsTransparent(Front(inputs));
      if IsBeatEvent(i.event) {
        RunKeeps(Front(inputs));
        Stilling();
        assert Strip(Front(inputs)) + [] == Strip(Front(inputs));
        if c.world.status == Running { HeartbeatAnswered(c, i); }
      } else {
        StepStill(c, i);
        assert Front(Strip(inputs)) == Strip(Front(inputs)) && Last(Strip(inputs)) == i;
      }
    }
  }
}
