/** How a session begins, exactly: for the pilot. */
module PilotSetup {
  import opened Messages
  import opened Channels
  import opened ChannelTheory
  import opened Pilot

  /** What the session's first message says: the core's key and the channels the user asked for. */
  function SetupMessage(key: Option<string>, channels: seq<ChannelRequest>): ClientMessage {
    ClientMessage(Setup, None, "", key, [], channels, None, None)
  }

  /**
   A call to operate opens a session if and only if the core answers and the stream opens. Then the pilot is
   connecting, and the one message that went out is SETUP with the core's key and the user's channels. In the
   other cases it is disconnected again, nothing went out, and the listener knows of the failure.
   */
  lemma OperateOpensSession(c: Client, id: int, channels: seq<ChannelRequest>, env: Env)
    requires c.world.status == Running && c.state == Disconnected
    ensures var operate := User(Operate(id, channels)); var c' := Step(c, Input(operate, env));
      && c'.world == c.world.(trace := c'.world.trace)
      && (c'.state == Connecting(id, channels) <==> env.core.Some? && env.opens)
      && (env.core.Some? && env.opens ==>
            c'.world.trace == c.world.trace +
              [In(operate), Moved, StreamOpened, Sent(SetupMessage(env.core, channels))])
      && (env.core.Some? && !env.opens ==>
            && c'.state == Disconnected
            && c'.world.trace == c.world.trace + [In(operate), Moved, StreamOpenFailed, Told(Failure), Moved])
      && (env.core.None? ==>
            c'.state == Disconnected && c'.world.trace == c.world.trace + [In(operate), Moved, Told(Failure), Moved])
  {
    var operate := User(Operate(id, channels));
    var w := Note(c.world, In(operate));
    var t := HandleOuter(w, c.state, operate, env);
    var u := StartConnecting(Note(w, Moved), Connecting(id, channels), env);
    if u.next.Some? {
      var v := StartOuter(Note(u.world, Moved), Disconnected, env);
      assert RunOuter(v, env) == v;
    }
    assert RunOuter(t, env) == RunOuter(u, env);
  }

  /** No other event has an effect on a pilot that is disconnected. */
  lemma OnlyOperateConnects(c: Client, i: Input)
    requires c.world.status == Running && c.state == Disconnected && !(i.event.User? && i.event.user.Operate?)
    ensures Step(c, i) == Client(Note(c.world, In(i.event)), Disconnected)
  {
  }
}

/** How a session begins, exactly: for the device. */
module DeviceSetup {
  import opened Messages
  import opened Channels
  import opened ChannelTheory
  import opened Device
  import PilotSetup

  /** The same for a call to attach; the device's SETUP asks for no channels. */
  lemma AttachOpensSession(c: Client, env: Env)
    requires c.world.status == Running && c.state == Disconnected
    ensures var attach := User(Attach); var c' := Step(c, Input(attach, env));
      && c'.world == c.world.(trace := c'.world.trace)
      && (c'.state == Connecting <==> env.core.Some? && env.opens)
      && (env.core.Some? && env.opens ==>
            c'.world.trace ==
            c.world.trace + [In(attach), Moved, StreamOpened, Sent(PilotSetup.SetupMessage(env.core, []))])
      && (env.core.Some? && !env.opens ==>
            && c'.state == Disconnected
            && c'.world.trace == c.world.trace + [In(attach), Moved, StreamOpenFailed, Told(Failure), Moved])
      && (env.core.None? ==>
            c'.state == Disconnected && c'.world.trace == c.world.trace + [In(attach), Moved, Told(Failure), Moved])
  {
    var w := Note(c.world, In(User(Attach)));
    var t := HandleOuter(w, c.state, User(Attach), env);
    var u := StartConnecting(Note(w, Moved), env);
    if u.next.Some? {
      var v := StartOuter(Note(u.world, Moved), Disconnected, env);
      assert RunOuter(v, env) == v;
    }
    assert RunOuter(t, env) == RunOuter(u, env);
  }

  lemma OnlyAttachConnects(c: Client, i: Input)
    requires c.world.status == Running && c.state == Disconnected && i.event != User(Attach)
    ensures Step(c, i) == Client(Note(c.world, In(i.event)), Disconnected)
  {
  }
}
