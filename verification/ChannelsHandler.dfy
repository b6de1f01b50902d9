/** The channel table as the client keeps it: channel objects in a map that its methods change in place. */
module ChannelsHandler {
  import opened Messages
  import opened Channels
  import opened ChannelTheory

  /** Where everything that can be seen from outside is written down. */
  class Journal {
    var trace: seq<Action>

    constructor ()
      ensures trace == []
    {
      trace := [];
    }

    method Write(a: Action)
      modifies this
      ensures trace == old(trace) + [a]
    {
      trace := trace + [a];
    }
  }

  class ChannelImpl {
    const id: int
    const incarnation: nat
    const journal: Journal
    var owned: bool

    constructor (id: int, incarnation: nat, journal: Journal)
      ensures this.id == id && this.incarnation == incarnation && this.journal == journal && !owned
    {
      this.id := id;
      this.incarnation := incarnation;
      this.journal := journal;
      owned := false;
    }

    /** Connects, sends the validation request and reads the answer; only a failure to read is caught. */
    method Open(remote: Remote) returns (outcome: Dialled)
      ensures outcome == Dial(remote)
      ensures outcome == Verdict(true) <==> remote == Answers(true)
      ensures outcome == Thrown <==> remote == ConnectThrows || remote == SendThrows
    {
      if remote.ConnectThrows? { return Thrown; }
      if remote.RequestNotSerialized? { return Verdict(false); }
      if remote.SendThrows? { return Thrown; }
      if remote.ReadThrows? { return Verdict(false); }
      outcome := Verdict(remote.accepted);
    }

    method Close()
      modifies journal
      ensures journal.trace == old(journal.trace) + [Closed(Ref(id, incarnation))]
    {
      journal.Write(Closed(Ref(id, incarnation)));
    }

    method SetOwned(owned: bool)
      modifies this
      ensures this.owned == owned
    {
      this.owned := owned;
    }
  }

  class ChannelsHandler {
    const journal: Journal
    var channels: map<int, ChannelImpl>
    var made: nat

    ghost predicate Valid()
      reads this
    {
      forall id :: id in channels ==> channels[id].id == id && channels[id].journal == journal
    }

    ghost function View(status: Status): World
      reads this, channels.Values, journal
    {
      World(status, map id | id in channels :: Entry(channels[id].incarnation, channels[id].owned), made, journal.trace)
    }

    constructor (journal: Journal)
      ensures Valid() && this.journal == journal && View(Running) == World(Running, map[], 0, journal.trace)
      ensures channels.Values == {}
    {
      this.journal := journal;
      channels := map[];
      made := 0;
    }

    /** The pointers to the named channels; the lookup is not checked. */
    method GetChannels(ids: seq<int>) returns (result: seq<Ref>)
      requires Valid() && AllPresent(View(Running), ids)
      ensures result == Refs(View(Running), ids)
    {
      result := [];
      for i := 0 to |ids|
        invariant |result| == i && forall k :: 0 <= k < i ==> result[k] == RefOf(View(Running), ids[k])
      {
        var c := channels[ids[i]];
        result := result + [Ref(c.id, c.incarnation)];
      }
    }

    /** The ids of the table, in the order in which the hash table lists them. */
    method GetChannelsIds(order: seq<int>) returns (result: seq<int>)
      requires Lists(order, channels.Keys)
      ensures result == Listing(channels.Keys, order)
      ensures forall id :: id in result <==> id in channels
    {
      result := [];
      for i := 0 to |order|
        invariant result == order[..i]
      {
        result := result + [order[i]];
      }
    }

    method GetAllChannels(order: seq<int>) returns (result: seq<Ref>)
      requires Valid() && Lists(order, channels.Keys)
      ensures AllPresent(View(Running), Listing(channels.Keys, order))
      ensures result == Refs(View(Running), Listing(channels.Keys, order))
    {
      ListingPresent(View(Running), order);
      assert View(Running).channels.Keys == channels.Keys;
      result := GetChannels(order);
    }

    /** `emplace`: inserts a channel under an id that has none, and finds the one that is there. */
    method Emplaced(id: int) returns (channel: ChannelImpl)
      requires Valid()
      modifies this, journal
      ensures Valid() && fresh(channels.Values - old(channels.Values))
      ensures View(Running) == Emplace(old(View(Running)), id)
      ensures id in channels && channel == channels[id]
    {
      if id !in channels {
        var added := new ChannelImpl(id, made, journal);
        channels := channels[id := added];
        made := made + 1;
        journal.Write(Made(Ref(added.id, added.incarnation)));
        assert View(Running).channels == old(View(Running)).channels[id := Entry(old(made), false)];
      }
      channel := channels[id];
    }

    /** `erase` of a channel that failed; its socket stays as it is. */
    method EraseFailed(id: int)
      requires Valid() && id in channels
      modifies this, journal
      ensures Valid() && channels == old(channels) - {id}
      ensures View(Running) == Drop(old(View(Running)), id)
    {
      journal.Write(Dropped(Ref(channels[id].id, channels[id].incarnation)));
      channels := channels - {id};
      assert View(Running).channels == old(View(Running)).channels - {id};
    }

    /** No socket class exists for some parameters: then building throws. */
    method BuildSocket(c: ChannelResponse) returns (threw: bool)
      ensures threw <==> !Builds(c)
      ensures threw <==> c.protocol == UnknownProtocol || (c.protocol == Udp && c.security == Tls)
    {
      match c.protocol
      case Udp => threw := c.security.Tls?;
      case Tcp => threw := false;
      case UnknownProtocol => threw := true;
    }

    lemma SameKeys()
      ensures View(Running).channels.Keys == channels.Keys
    {
    }

    /** The body of the loop: one more description, after those that gave `before`. */
    method ValidateChannel(c: ChannelResponse, before: seq<Ref>) returns (result: seq<Ref>, threw: bool)
      requires Valid()
      modifies this, journal
      ensures Valid() && fresh(channels.Values - old(channels.Values))
      ensures Validation(View(if threw then Threw else Running), result) ==
              ValidateOne(Validation(old(View(Running)), before), c)
    {
      hide Emplace;
      hide Drop;
      hide Builds;
      hide Dial;
      result := before;
      threw := BuildSocket(c);
      if threw {
        return;
      }
      var channel := Emplaced(c.id);
      var outcome := channel.Open(c.remote);
      if outcome.Thrown? {
        threw := true;
        return;
      }
      if outcome.accepted {
        result := result + [Ref(channel.id, channel.incarnation)];
      } else {
        EraseFailed(c.id);
      }
    }

    /**
     The table afterwards holds an id exactly when its last description was accepted, or it was there and
     is not listed; the result holds the accepted ids in list order.
     */
    method ValidateChannels(toValidate: seq<ChannelResponse>) returns (result: seq<Ref>, threw: bool)
      requires Valid()
      modifies this, journal
      ensures Valid() && fresh(channels.Values - old(channels.Values))
      ensures Validation(View(if threw then Threw else Running), result) == Validate(old(View(Running)), toValidate)
      ensures !threw ==> RefIds(result) == AcceptedIds(toValidate)
      ensures !threw ==> forall id ::
                id in channels <==> LastAccepted(toValidate, id) || (id in old(channels) && !Listed(toValidate, id))
    {
      hide Validate;
      hide ValidateOne;
      hide LastAccepted;
      hide Listed;
      hide AcceptedIds;
      hide RefIds;
      ghost var w := View(Running);
      ValidateNone(w);
      result, threw := [], false;
      var i := 0;
      while i < |toValidate|
        invariant 0 <= i <= |toValidate|
        invariant Valid() && fresh(channels.Values - old(channels.Values))
        invariant Validation(View(Running), result) == Validate(w, toValidate[..i])
      {
        ValidateNext(w, toValidate, i);
        result, threw := ValidateChannel(toValidate[i], result);
        if threw {
          return;
        }
        i := i + 1;
      }
      assert toValidate[..i] == toValidate;
      Summary(w, toValidate);
      SameKeys();
    }

    /** Closes the named channels that exist; the others are only logged. */
    method CloseChannels(toClose: seq<int>)
      requires Valid()
      modifies this, journal
      ensures Valid() && channels == old(channels) - set id | id in toClose
      ensures View(Running) == Channels.Close(old(View(Running)), toClose)
    {
      hide Channels.Close;
      ghost var w := View(Running);
      CloseNone(w);
      var i := 0;
      while i < |toClose|
        invariant 0 <= i <= |toClose|
        invariant Valid() && channels == old(channels) - set id | id in toClose[..i]
        invariant View(Running) == Channels.Close(w, toClose[..i])
      {
        CloseNext(w, toClose, i);
        var id := toClose[i];
        if id in channels {
          var c := channels[id];
          c.Close();
          channels := channels - {id};
          assert View(Running).channels == Channels.Close(w, toClose[..i]).channels - {id};
        }
        assert toClose[..i + 1] == toClose[..i] + [id];
        i := i + 1;
      }
      assert toClose[..i] == toClose;
    }

    /** Closes every channel, then forgets them all. */
    method CloseAllChannels(order: seq<int>)
      requires Valid() && Lists(order, channels.Keys)
      modifies this, journal
      ensures Valid() && channels == map[]
      ensures View(Running) == Channels.Close(old(View(Running)), order)
    {
      hide Channels.Close;
      ghost var w := View(Running);
      CloseNone(w);
      SameKeys();
      for i := 0 to |order|
        invariant Valid() && channels == old(channels) && made == old(made)
        invariant journal.trace == Channels.Close(w, order[..i]).trace
      {
        assert order[i] in order;
        CloseDistinct(w, order, i);
        channels[order[i]].Close();
      }
      assert order[..|order|] == order;
      channels := map[];
      CloseEverything(w, order);
    }

    /** Marks the named channels; the lookup is not checked. */
    method SetOwned(ids: seq<int>)
      requires Valid() && AllPresent(View(Running), ids)
      modifies channels.Values
      ensures Valid() && View(Running) == Channels.SetOwned(old(View(Running)), ids)
      ensures forall id :: id in channels ==> (channels[id].owned <==> old(channels[id].owned) || id in ids)
    {
      hide Channels.SetOwned;
      ghost var w := View(Running);
      SetOwnedNone(w);
      var i := 0;
      while i < |ids|
        invariant 0 <= i <= |ids|
        invariant Valid() && View(Running) == Channels.SetOwned(w, ids[..i])
      {
        SetOwnedNext(w, ids, i);
        SetChannelOwned(ids[i], true);
        i := i + 1;
      }
      assert ids[..i] == ids;
      SetOwnedMeaning(w, ids);
      SameFlags();
    }

    lemma SameFlags()
      requires Valid()
      ensures forall id :: id in channels ==> View(Running).channels[id].owned == channels[id].owned
    {
    }

    /** Marks or unmarks one channel; the lookup is not checked. */
    method SetChannelOwned(id: int, owned: bool)
      requires Valid() && id in channels
      modifies channels[id]
      ensures Valid() && View(Running) == SetOwnedOne(old(View(Running)), id, owned)
    {
      channels[id].SetOwned(owned);
      assert forall k :: k in channels && k != id ==> channels[k] != channels[id];
      assert View(Running).channels == SetOwnedOne(old(View(Running)), id, owned).channels;
    }
  }

  lemma SetOwnedNone(w: World)
    ensures Channels.SetOwned(w, []) == w
  {
  }

  lemma SetOwnedNext(w: World, ids: seq<int>, i: nat)
    requires i < |ids| && w.status == Running && AllPresent(w, ids)
    ensures Channels.SetOwned(w, ids[..i + 1]) == SetOwnedOne(Channels.SetOwned(w, ids[..i]), ids[i], true)
    ensures ids[i] in Channels.SetOwned(w, ids[..i]).channels
  {
    assert ids[..i + 1][..i] == ids[..i];
    SetOwnedMeaning(w, ids[..i]);
  }

  /** Among distinct ids, the next one is still in the table when the earlier ones are closed. */
  lemma CloseDistinct(w: World, order: seq<int>, i: nat)
    requires i < |order| && Lists(order, w.channels.Keys)
    ensures Channels.Close(w, order[..i + 1]).trace ==
            Channels.Close(w, order[..i]).trace + [Closed(RefOf(w, order[i]))]
  {
    assert order[i] in order;
    CloseNext(w, order, i);
    CloseMembers(w, order[..i]);
  }

  lemma Summary(w: World, s: seq<ChannelResponse>)
    requires w.status == Running && Validate(w, s).world.status == Running
    ensures RefIds(Validate(w, s).result) == AcceptedIds(s)
    ensures forall id :: id in Validate(w, s).world.channels <==>
            LastAccepted(s, id) || (id in w.channels && !Listed(s, id))
  {
    ValidateResult(w, s);
    forall id { ValidateMembers(w, s, id); }
  }

  lemma ValidateNone(w: World)
    ensures Validate(w, []) == Validation(w, [])
  {
  }

  lemma CloseNone(w: World)
    ensures Channels.Close(w, []) == w
  {
  }

  lemma CloseNext(w: World, ids: seq<int>, i: nat)
    requires i < |ids|
    ensures Channels.Close(w, ids[..i + 1]) == CloseOne(Channels.Close(w, ids[..i]), ids[i])
  {
    assert ids[..i + 1][..i] == ids[..i];
  }

  /** One more description, and what an exception there means for the whole list. */
  lemma {:induction false} ValidateNext(w: World, s: seq<ChannelResponse>, i: nat)
    requires i < |s|
    ensures Validate(w, s[..i + 1]) == ValidateOne(Validate(w, s[..i]), s[i])
    ensures Validate(w, s[..i + 1]).world.status != Running ==> Validate(w, s) == Validate(w, s[..i + 1])
    decreases |s|
  {
    assert s[..i + 1][..i] == s[..i];
    if i + 1 < |s| {
      var f := s[..|s| - 1];
      ValidateNext(w, f, i);
      assert f[..i + 1] == s[..i + 1] && f[..i] == s[..i];
    } else {
      assert s[..i + 1] == s;
    }
  }
}
