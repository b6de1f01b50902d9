/** What one event amounts to for the device: how many transitions, and what becomes of the stream. */
module DeviceEffects {
  import opened Messages
  import opened Channels
  import opened Tallies
  import opened Device

  lemma AttachContinues(w: World, list: seq<ChannelResponse>)
    ensures Continues(w, AttachAll(w, list))
  {
    Counting();
    hide Count;
    ValidateContinues(w, list);
  }

  lemma ReleaseContinues(w: World, ids: seq<int>)
    ensures Continues(w, ReleaseAll(w, ids))
  {
    Counting();
    hide Count;
    if AllPresent(w, ids) { CloseContinues(Tell(w, ChannelsClosing(Refs(w, ids))), ids); }
  }

  lemma EndContinues(w: World, env: Env)
    ensures Continues(w, EndOperation(w, env))
  {
    Counting();
    hide Count;
    var all := Listing(w.channels.Keys, env.order);
    ListingPresent(w, env.order);
    CloseContinues(Tell(w, ChannelsClosing(Refs(w, all))), all);
  }

  lemma StartInnerContinues(w: World, s: Inner)
    ensures Continues(w, StartInner(w, s).world)
  {
    Counting();
    hide Count;
    hide AttachAll;
    if s.Flying? { AttachContinues(w, s.initialChannels); }
  }

  lemma HandleInnerContinues(w: World, s: Inner, e: Event, env: Env)
    ensures Continues(w, HandleInner(w, s, e, env).world)
  {
    Counting();
    hide Count;
    hide AttachAll;
    hide ReleaseAll;
    hide EndOperation;
    if s.Flying? && e.Received? {
      AttachContinues(w, e.message.channels);
      ReleaseContinues(w, e.message.ids);
      EndContinues(w, env);
    }
  }

  lemma ConnectedEffects(w: World, s: Inner, e: Event, env: Env)
    ensures var t := HandleConnected(w, s, e, env); var before := Count(w.trace);
      && w.trace <= t.world.trace
      && Count(t.world.trace) == before.(innerMoves := Count(t.world.trace).innerMoves)
      && before.innerMoves <= Count(t.world.trace).innerMoves <= before.innerMoves + 1
      && (t.next.Some? ==> t.next == Some(Disconnecting))
  {
    Counting();
    hide Count;
    hide HandleInner;
    hide StartInner;
    HandleInnerContinues(w, s, e, env);
    var t := HandleInner(w, s, e, env);
    if t.world.status == Running && t.next.Some? {
      var u := StartInner(Note(t.world, MovedInside), t.next.value);
      StartInnerContinues(Note(t.world, MovedInside), t.next.value);
      assert RunInner(u) == u;
    }
  }

  lemma StartOuterEffects(w: World, s: Outer, env: Env)
    requires w.status == Running
    ensures var t := StartOuter(w, s, env); var before := Count(w.trace); var after := Count(t.world.trace);
      && w.trace <= t.world.trace
      && (t.next.Some? ==> t.next == Some(Disconnected))
      && (s.Disconnected? ==> t.world == w && t.next.None?)
      && match s
         case Connecting =>
           after == if env.core.None? then before
                    else if env.opens then before.(openings := before.openings + 1)
                    else before.(refusals := before.refusals + 1)
         case Disconnecting =>
           after == before.(closings := before.closings + 1,
                            releases := before.releases + if env.closes then 1 else 0)
           && (t.world.status == Running <==> env.closes)
         case _ => after == before
  {
    Counting();
    hide Count;
    hide StartInner;
    if s.Connected? { StartInnerContinues(w, s.inner); }
  }

  /** The outer loop: how often it goes round, and what it does to the stream, is fixed by where it is to go first. */
  lemma {:induction false} RunOuterEffects(t: Turn<Outer>, env: Env)
    ensures var r := RunOuter(t, env); var before := Count(t.world.trace); var after := Count(r.world.trace);
      && t.world.trace <= r.world.trace
      && before.moves <= after.moves <= before.moves + Rank(t.next)
      && after.innerMoves == before.innerMoves && after.handled == before.handled
      && OpensBy(before, after, t.world.status == Running && t.next.Some? && t.next.value.Connecting?, env)
      && ClosesBy(before, after, t.world.status == Running && t.next.Some? && t.next.value.Disconnecting?, env)
      && (after.closings > before.closings ==> (r.world.status == Running <==> env.closes))
      && (t.next.None? || t.next.value.Disconnected? ==> r.world.status == t.world.status)
    decreases Rank(t.next)
  {
    Counting();
    hide Count;
    hide StartOuter;
    if t.world.status == Running && t.next.Some? {
      var moved := Note(t.world, Moved);
      StartOuterEffects(moved, t.next.value, env);
      var u := StartOuter(moved, t.next.value, env);
      assert Rank(u.next) < Rank(Some(t.next.value));
      RunOuterEffects(u, env);
    }
  }

  /**
   One event is at most one inner and two outer transitions. It tries to open the stream at most once, only
   from Disconnected, and with the answer of the environment; it closes it at most once, never from
   Disconnected, and then tells the listener so, once, unless closing threw.
   */
  lemma StepEffects(c: Client, i: Input)
    requires c.world.status == Running && !c.state.Disconnecting?
    ensures var c' := Step(c, i); var before := Count(c.world.trace); var after := Count(c'.world.trace);
      && c.world.trace <= c'.world.trace
      && after.handled == before.handled + [i.event]
      && after.moves <= before.moves + 2
      && after.innerMoves <= before.innerMoves + 1
      && OpensBy(before, after, c.state.Disconnected? && i.event == User(Attach), i.env)
      && ClosesBy(before, after, !c.state.Disconnected? && after.closings > before.closings, i.env)
      && (after.closings > before.closings ==> (c'.world.status == Running <==> i.env.closes))
  {
    Counting();
    hide Count;
    hide RunOuter;
    hide HandleConnected;
    var w := Note(c.world, In(i.event));
    if c.state.Connected? { ConnectedEffects(w, c.state.inner, i.event, i.env); }
    RunOuterEffects(HandleOuter(w, c.state, i.event, i.env), i.env);
  }
}
