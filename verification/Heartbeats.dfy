/**
 Heartbeats are transparent: a run with all heartbeat messages deleted goes through the same states,
 makes the same channels and tells its listener the same; only the heartbeats' own entries are missing
 from its trace.
 */
module Heartbeats {
  import opened Messages
  import opened Channels
  import opened ChannelTheory

  predicate IsBeatEvent(e: Event) {
    e.Received? && IsHeartbeat(e.message)
  }

  /** A heartbeat coming in, or its answer going out. */
  predicate Beat(a: Action) {
    (a.In? && IsBeatEvent(a.event)) || (a.Sent? && a.message.command == Heartbeat)
  }

  function WithoutBeats(t: seq<Action>): seq<Action> {
    if t == [] then []
    else WithoutBeats(Front(t)) + if Beat(Last(t)) then [] else [Last(t)]
  }

  function Strip(inputs: seq<Input>): seq<Input> {
    if inputs == [] then []
    else Strip(Front(inputs)) + if IsBeatEvent(Last(inputs).event) then [] else [Last(inputs)]
  }

  /** The world with the heartbeats left out of its trace. */
  function Still(w: World): World {
    w.(trace := WithoutBeats(w.trace))
  }

  function StillTurn<S>(t: Turn<S>): Turn<S> {
    Turn(Still(t.world), t.self, t.next)
  }

  lemma Stilling()
    ensures forall w: World, a: Action {:trigger Still(Note(w, a))} ::
              Still(Note(w, a)) == if Beat(a) then Still(w) else Note(Still(w), a)
  {
    forall w: World, a: Action {:trigger Still(Note(w, a))}
      ensures Still(Note(w, a)) == if Beat(a) then Still(w) else Note(Still(w), a)
    {
      assert Front(w.trace + [a]) == w.trace;
      assert WithoutBeats(w.trace) + [] == WithoutBeats(w.trace);
    }
  }

  lemma StillLooksSame(w: World, ids: seq<int>, refs: seq<Ref>)
    ensures AllPresent(Still(w), ids) == AllPresent(w, ids)
    ensures AllPresent(w, ids) ==> Refs(Still(w), ids) == Refs(w, ids)
    ensures AllAlive(Still(w), refs) == AllAlive(w, refs)
  {
    hide WithoutBeats;
    if AllPresent(w, ids) {
      assert forall i :: 0 <= i < |ids| ==> RefOf(Still(w), ids[i]) == RefOf(w, ids[i]);
    }
    assert forall r :: Alive(Still(w), r) == Alive(w, r);
  }

  lemma ValidateOneStill(v: Validation, c: ChannelResponse)
    ensures ValidateOne(v.(world := Still(v.world)), c) == ValidateOne(v, c).(world := Still(ValidateOne(v, c).world))
  {
    Stilling();
    hide WithoutBeats;
    var w := v.world;
    var e := Emplace(w, c.id);
    if c.id !in w.channels {
      assert e == Note(w.(channels := w.channels[c.id := Entry(w.made, false)], made := w.made + 1),
        Made(Ref(c.id, w.made)));
      assert Still(e) == Emplace(Still(w), c.id);
    }
    assert Drop(e, c.id) == Note(e.(channels := e.channels - {c.id}), Dropped(RefOf(e, c.id)));
    assert Still(Drop(e, c.id)) == Drop(Still(e), c.id);
  }

  lemma {:induction false} ValidateStill(w: World, s: seq<ChannelResponse>)
    ensures Validate(Still(w), s) == Validate(w, s).(world := Still(Validate(w, s).world))
  {
    if s != [] {
      ValidateStill(w, Front(s));
      ValidateOneStill(Validate(w, Front(s)), Last(s));
    }
  }

  lemma CloseOneStill(w: World, id: int)
    ensures CloseOne(Still(w), id) == Still(CloseOne(w, id))
  {
    Stilling();
    hide WithoutBeats;
    if id in w.channels {
      assert CloseOne(w, id) == Note(w.(channels := w.channels - {id}), Closed(RefOf(w, id)));
    }
  }

  lemma {:induction false} CloseStill(w: World, ids: seq<int>)
    ensures Close(Still(w), ids) == Still(Close(w, ids))
  {
    if ids != [] {
      CloseStill(w, Front(ids));
      CloseOneStill(Close(w, Front(ids)), Last(ids));
    }
  }

  lemma {:induction false} SetOwnedStill(w: World, ids: seq<int>)
    ensures SetOwned(Still(w), ids) == Still(SetOwned(w, ids))
  {
    hide WithoutBeats;
    if ids != [] {
      SetOwnedStill(w, Front(ids));
    }
  }
}

/** The pilot part. */
module PilotHeartbeats {
  import opened Messages
  import opened Channels
  import opened ChannelTheory
  import opened Heartbeats
  import opened Pilot
  import opened PilotRuns

  lemma StartInnerStill(w: World, s: Inner)
    ensures StartInner(Still(w), s) == StillTurn(StartInner(w, s))
  {
    Stilling();
    hide WithoutBeats;
    if s.ValidatingChannels? {
      ValidateStill(w, s.toValidate);
      StillLooksSame(Validate(w, s.toValidate).world, [], Validate(w, s.toValidate).result);
    }
  }

  lemma ServerReleaseStill(w: World, s: Inner, env: Env)
    ensures ServerRelease(Still(w), s, env) == StillTurn(ServerRelease(w, s, env))
  {
    Stilling();
    hide WithoutBeats;
    var all := Listing(w.channels.Keys, env.order);
    ListingPresent(w, env.order);
    StillLooksSame(w, all, []);
    CloseStill(Tell(w, ChannelsClosing(Refs(w, all))), all);
  }

  lemma ClosingStill(w: World, s: Inner, m: ControlMessage, env: Env)
    requires s.ClosingChannels? && !IsHeartbeat(m)
    ensures ClosingMessage(Still(w), s, m, env) == StillTurn(ClosingMessage(w, s, m, env))
  {
    Stilling();
    hide WithoutBeats;
    ServerReleaseStill(w, s, env);
    StillLooksSame(w, s.channelsToClose, []);
    if AllPresent(w, s.channelsToClose) {
      CloseStill(Tell(w, ChannelsClosing(Refs(w, s.channelsToClose))), s.channelsToClose);
    }
  }

  lemma ValidatingStill(w: World, s: Inner, m: ControlMessage, env: Env)
    requires s.ValidatingChannels? && !IsHeartbeat(m)
    ensures ValidatingMessage(Still(w), s, m, env) == StillTurn(ValidatingMessage(w, s, m, env))
  {
    Stilling();
    hide WithoutBeats;
    hide SetOwned;
    SetOwnedStill(w, m.ids);
  }

  lemma OperatingStill(w: World, s: Inner, m: ControlMessage, env: Env)
    requires !IsHeartbeat(m)
    ensures OperatingMessage(Still(w), s, m, env) == StillTurn(OperatingMessage(w, s, m, env))
  {
    Stilling();
    hide WithoutBeats;
    hide ServerRelease;
    ServerReleaseStill(w, s, env);
  }

  lemma MessageStill(w: World, s: Inner, m: ControlMessage, env: Env)
    requires !IsHeartbeat(m)
    ensures HandleInner(Still(w), s, Received(m), env) == StillTurn(HandleInner(w, s, Received(m), env))
  {
    Stilling();
    hide WithoutBeats;
    hide ValidatingMessage;
    hide ClosingMessage;
    hide OperatingMessage;
    match s
    case ValidatingChannels(_, _) => ValidatingStill(w, s, m, env);
    case ClosingChannels(_) => ClosingStill(w, s, m, env);
    case Operating => OperatingStill(w, s, m, env);
    case _ =>
  }

  lemma HandleInnerStill(w: World, s: Inner, e: Event, env: Env)
    requires !IsBeatEvent(e)
    ensures HandleInner(Still(w), s, e, env) == StillTurn(HandleInner(w, s, e, env))
  {
    Stilling();
    hide WithoutBeats;
    match e
    case Received(m) => MessageStill(w, s, m, env);
    case _ =>
  }

  lemma RunInnerStill(t: Turn<Inner>)
    ensures RunInner(StillTurn(t)) == StillTurn(RunInner(t))
    decreases t.next.Some?
  {
    Stilling();
    hide WithoutBeats;
    if t.world.status == Running && t.next.Some? {
      StartInnerStill(Note(t.world, MovedInside), t.next.value);
      RunInnerStill(StartInner(Note(t.world, MovedInside), t.next.value));
    }
  }

  lemma HandleOuterStill(w: World, s: Outer, e: Event, env: Env)
    requires !IsBeatEvent(e)
    ensures HandleOuter(Still(w), s, e, env) == StillTurn(HandleOuter(w, s, e, env))
  {
    Stilling();
    hide WithoutBeats;
    if s.Connected? {
      HandleInnerStill(w, s.inner, e, env);
      RunInnerStill(HandleInner(w, s.inner, e, env));
    }
  }

  lemma StartOuterStill(w: World, s: Outer, env: Env)
    ensures StartOuter(Still(w), s, env) == StillTurn(StartOuter(w, s, env))
  {
    Stilling();
    hide WithoutBeats;
    if s.Connected? {
      StartInnerStill(w, s.inner);
    } else if s.Disconnecting? {
      assert Still(Note(w, StreamClosed)) == Note(Still(w), StreamClosed);
      assert Still(Throw(Note(w, StreamClosed))) == Throw(Still(Note(w, StreamClosed)));
    }
  }

  lemma {:induction false} RunOuterStill(t: Turn<Outer>, env: Env)
    ensures RunOuter(StillTurn(t), env) == StillTurn(RunOuter(t, env))
    decreases Rank(t.next)
  {
    Stilling();
    hide WithoutBeats;
    if t.world.status == Running && t.next.Some? {
      StartOuterStill(Note(t.world, Moved), t.next.value, env);
      RunOuterStill(StartOuter(Note(t.world, Moved), t.next.value, env), env);
    }
  }

  function StillClient(c: Client): Client {
    Client(Still(c.world), c.state)
  }

  lemma StepStill(c: Client, i: Input)
    requires !IsBeatEvent(i.event)
    ensures Step(StillClient(c), i) == StillClient(Step(c, i))
  {
    Stilling();
    hide WithoutBeats;
    var w := Note(c.world, In(i.event));
    HandleOuterStill(w, c.state, i.event, i.env);
    RunOuterStill(HandleOuter(w, c.state, i.event, i.env), i.env);
  }

  /** The states that answer heartbeats. */
  predicate Answering(s: Outer) {
    s.Connecting? || (s.Connected? && !s.inner.Recovering? && !s.inner.Released?)
  }

  /** A heartbeat gets one answer, with its key, and changes nothing else. */
  lemma HeartbeatAnswered(c: Client, i: Input)
    requires IsBeatEvent(i.event) && c.world.status == Running && c.state != Connected(Inner.Released)
    ensures var w := Note(c.world, In(i.event));
      var answer := Ack(Heartbeat).(heartbeat := Some((i.event.message.heartbeat.value, i.env.location)));
      Step(c, i) == Client(if Answering(c.state) then Send(w, answer) else w, c.state)
  {
  }

  /** Deleting the heartbeats from any run deletes the heartbeats from its trace, and nothing else. */
  lemma {:induction false} HeartbeatsTransparent(inputs: seq<Input>)
    ensures Run(INITIAL, Strip(inputs)) == StillClient(Run(INITIAL, inputs))
  {
    if inputs != [] {
      var c := Run(INITIAL, Front(inputs));
      var i := Last(inputs);
      HeartbeatsTransparent(Front(inputs));
      if IsBeatEvent(i.event) {
        RunKeeps(Front(inputs));
        Stilling();
        assert Strip(Front(inputs)) + [] == Strip(Front(inputs));
        if c.world.status == Running { HeartbeatAnswered(c, i); }
      } else {
        StepStill(c, i);
        assert Front(Strip(inputs)) == Strip(Front(inputs)) && Last(Strip(inputs)) == i;
      }
    }
  }
}
