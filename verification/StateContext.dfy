/** What every protocol state has at hand: the channels handler, the facade stream and the listener. */
module StateContext {
  import opened Messages
  import opened Channels
  import opened ChannelsHandler

  /** How a handler ended, told by whether an exception left it. */
  function Ended(threw: bool): Status {
    if threw then Threw else Running
  }

  class StateContext {
    const journal: Journal
    const handler: ChannelsHandler

    ghost predicate Valid()
      reads handler
    {
      handler.Valid() && handler.journal == journal
    }

    ghost function View(status: Status): World
      reads handler, handler.channels.Values, handler.journal
    {
      handler.View(status)
    }

    constructor ()
      ensures Valid() && fresh(journal) && fresh(handler)
      ensures View(Running) == EMPTY && handler.channels.Values == {}
    {
      var j := new Journal();
      handler := new ChannelsHandler(j);
      journal := j;
    }

    method Record(a: Action)
      requires Valid()
      modifies journal
      ensures Valid() && View(Running) == Note(old(View(Running)), a)
    {
      journal.Write(a);
      assert View(Running).channels == old(View(Running)).channels;
    }

    method Send(message: ClientMessage)
      requires Valid()
      modifies journal
      ensures Valid() && View(Running) == Channels.Send(old(View(Running)), message)
    {
      Record(Sent(message));
    }

    method Tell(news: FacadeEvent)
      requires Valid()
      modifies journal
      ensures Valid() && View(Running) == Channels.Tell(old(View(Running)), news)
    {
      Record(Told(news));
    }

    /** Answers a heartbeat under its own key. */
    method HandleHeartbeat(m: ControlMessage, location: Location)
      requires Valid() && m.heartbeat.Some?
      modifies journal
      ensures Valid()
      ensures View(Running) ==
              Channels.Send(old(View(Running)), Ack(Heartbeat).(heartbeat := Some((m.heartbeat.value, location))))
    {
      var answer := Ack(Heartbeat);
      Send(answer.(heartbeat := Some((m.heartbeat.value, location))));
    }

    method DefaultMessageHandle(m: ControlMessage, env: Env)
      requires Valid()
      modifies journal
      ensures Valid() && View(Running) == DefaultMessage(old(View(Running)), m, env)
    {
      if m.command == Heartbeat && m.heartbeat.Some? {
        HandleHeartbeat(m, env.location);
      }
    }

    /** The ids of the channels pointed to, in order. */
    method IdsOf(channels: seq<Ref>) returns (ids: seq<int>)
      ensures ids == RefIds(channels)
    {
      ids := [];
      for i := 0 to |channels|
        invariant |ids| == i && forall k :: 0 <= k < i ==> ids[k] == channels[k].id
      {
        ids := ids + [channels[i].id];
      }
    }

    /** Reports the named channels as closing and closes them; the lookup is not checked. */
    method ReportAndClose(ids: seq<int>)
      requires Valid() && AllPresent(View(Running), ids)
      modifies journal, handler
      ensures Valid() && handler.channels.Values <= old(handler.channels.Values)
      ensures var w := old(View(Running)); View(Running) == Close(Channels.Tell(w, ChannelsClosing(Refs(w, ids))), ids)
    {
      hide Close;
      var closing := handler.GetChannels(ids);
      Tell(ChannelsClosing(closing));
      handler.CloseChannels(ids);
    }

    /** Reports every channel as closing and closes them all. */
    method ReportAndCloseAll(order: seq<int>)
      requires Valid() && Lists(order, handler.channels.Keys)
      modifies journal, handler
      ensures Valid() && handler.channels.Values == {}
      ensures Listing(old(View(Running)).channels.Keys, order) == order && AllPresent(old(View(Running)), order)
      ensures var w := old(View(Running));
              View(Running) == Close(Channels.Tell(w, ChannelsClosing(Refs(w, order))), order)
    {
      hide Close;
      handler.SameKeys();
      var closing := handler.GetAllChannels(order);
      Tell(ChannelsClosing(closing));
      handler.CloseAllChannels(order);
    }
  }
}
