/** How an event can go wrong for the device, exactly. */
module DeviceOutcomes {
  import opened Messages
  import opened Channels
  import opened ChannelTheory
  import opened TableInvariant
  import opened Observers
  import opened Device
  import opened DeviceRuns

  /** The descriptions this event makes the device validate, if any. */
  function ToValidate(s: Outer, e: Event): Option<seq<ChannelResponse>> {
    if e.Received? && s.Connected? && (s.inner.Ready? || s.inner.Flying?) && e.message.command == AttachChannels
    then Some(e.message.channels) else None
  }

  /** The server refuses to begin, or agrees to the device's release. */
  predicate EndsSession(s: Outer, e: Event) {
    && e.Received?
    && ((s.Connecting? && e.message.command == Setup && e.message.response != Accepted)
        || (s.Connected? && s.inner.Releasing?
            && e.message.command == Command.Release && e.message.response == Accepted))
  }

  /** The event names a channel the table does not have, where the client does not check. */
  predicate Misses(w: World, s: Outer, e: Event) {
    && e.Received? && s.Connected? && s.inner.Flying?
    && e.message.command == ReleaseChannels && !AllPresent(w, e.message.ids)
  }

  /** What the whole event ends in. */
  function Outcome(w: World, s: Outer, i: Input): Status {
    if Misses(w, s, i.event) then Undefined
    else if ToValidate(s, i.event).Some? then Verdicts(ToValidate(s, i.event).value)
    else if EndsSession(s, i.event) && !i.env.closes then Threw
    else Running
  }

  lemma AttachOutcome(w: World, list: seq<ChannelResponse>)
    requires w.status == Running && Balanced(w)
    ensures AttachAll(w, list).status == Verdicts(list)
  {
    ValidateThrowsExactly(w, list);
    if !SomeThrow(list) {
      forall id | id in w.channels ensures w.channels[id].incarnation < w.made {
        assert Alive(w, RefOf(w, id));
        assert Times(w, Made(RefOf(w, id))) <= if RefOf(w, id).incarnation < w.made then 1 else 0;
      }
      PointersLiveExactly(w, list);
      var v := Validate(w, list);
      assert forall r :: Alive(Tell(v.world, ChannelsOpened(v.result)), r) == Alive(v.world, r);
    }
  }

  lemma ReleaseOutcome(w: World, ids: seq<int>)
    requires w.status == Running
    ensures ReleaseAll(w, ids).status == if AllPresent(w, ids) then Running else Undefined
  {
    hide Close;
    if AllPresent(w, ids) { CloseMembers(Tell(w, ChannelsClosing(Refs(w, ids))), ids); }
  }

  lemma ConnectedOutcome(w0: World, s: Inner, i: Input)
    requires w0.status == Running && Fits(w0, Connected(s))
    ensures var t := HandleConnected(Note(w0, In(i.event)), s, i.event, i.env);
      && t.world.status == (if Misses(w0, Connected(s), i.event) then Undefined
                            else if ToValidate(Connected(s), i.event).Some?
                              then Verdicts(ToValidate(Connected(s), i.event).value)
                            else Running)
      && (t.world.status == Running ==>
         t.next == if EndsSession(Connected(s), i.event) then Some(Disconnecting) else None)
  {
    hide Observe;
    hide AttachAll;
    hide ReleaseAll;
    hide EndOperation;
    var w := Note(w0, In(i.event));
    FitsBy(w0, s, In(i.event));
    NoteKeepsBalance(w, MovedInside);
    if i.event.Received? {
      var m := i.event.message;
      AttachOutcome(w, m.channels);
      AttachOutcome(Note(w, MovedInside), m.channels);
      ReleaseOutcome(w, m.ids);
      if s.Flying? { EndKeeps(w, s, i.env); }
    }
    var t := HandleInner(w, s, i.event, i.env);
    if t.world.status == Running && t.next.Some? {
      var u := StartInner(Note(t.world, MovedInside), t.next.value);
      assert RunInner(t) == RunInner(u) == u;
    }
  }

  lemma DisconnectingOutcome(t: Turn<Outer>, env: Env)
    requires t.world.status == Running && t.next == Some(Disconnecting)
    ensures RunOuter(t, env).world.status == if env.closes then Running else Threw
  {
    var u := StartOuter(Note(t.world, Moved), Disconnecting, env);
    if env.closes {
      var v := StartOuter(Note(u.world, Moved), Disconnected, env);
      assert RunOuter(v, env) == v;
      assert RunOuter(u, env) == v;
    }
  }

  /** Outside Connected. */
  lemma PlainOutcome(c: Client, i: Input)
    requires c.world.status == Running && (c.state.Disconnected? || c.state.Connecting?)
    ensures Step(c, i).world.status == Outcome(c.world, c.state, i)
  {
    var w := Note(c.world, In(i.event));
    var t := HandleOuter(w, c.state, i.event, i.env);
    if EndsSession(c.state, i.event) {
      DisconnectingOutcome(t, i.env);
    } else if t.next.Some? {
      var u := StartOuter(Note(w, Moved), t.next.value, i.env);
      if u.next.Some? {
        var v := StartOuter(Note(u.world, Moved), Disconnected, i.env);
        assert RunOuter(v, i.env) == v;
      }
      assert RunOuter(t, i.env) == RunOuter(u, i.env);
    }
  }

  /** How an event ends is fixed by the state, the message and the environment's answers. */
  lemma OutcomeExactly(c: Client, i: Input)
    requires c.world.status == Running && Fits(c.world, c.state)
    ensures Step(c, i).world.status == Outcome(c.world, c.state, i)
  {
    hide Observe;
    if c.state.Connected? {
      var w := Note(c.world, In(i.event));
      ConnectedOutcome(c.world, c.state.inner, i);
      hide HandleConnected;
      var t := HandleConnected(w, c.state.inner, i.event, i.env);
      if t.world.status == Running && t.next.Some? { DisconnectingOutcome(t, i.env); }
    } else {
      PlainOutcome(c, i);
    }
  }
}
