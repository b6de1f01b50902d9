/** What the pilot says, and what makes it say so, by positions in the trace of any run. */
module PilotConversation {
  import opened Messages
  import opened Channels
  import opened ChannelTheory
  import opened OwnershipMeaning
  import opened Provenance
  import opened Conversation
  import opened Pilot
  import opened PilotProvenance

  function TraceOf(c: Client): seq<Action> {
    c.world.trace
  }

  lemma RunIsHonest(inputs: seq<Input>)
    ensures Talked(PilotRole, TraceOf(Run(INITIAL, inputs))).honest
  {
    hide Run;
    RunSays(inputs);
  }

  /** Every message answers the event being handled, carries its data, and is the only one to do so. */
  lemma MessagesAnswerEvents(inputs: seq<Input>, i: nat)
    requires i < |TraceOf(Run(INITIAL, inputs))| && TraceOf(Run(INITIAL, inputs))[i].Sent?
    ensures var t := TraceOf(Run(INITIAL, inputs));
      exists k :: CauseOf(t, k, i) && NothingSent(t, k, i) && PilotMaySend(t[k].event, t[i].message)
  {
    RunIsHonest(inputs);
    var k := SentForCause(PilotRole, TraceOf(Run(INITIAL, inputs)), i);
  }

  /**
   The listener hears of an event, at whatever stage that is called for, before the server is answered; only the start
   of a session is told after its first message.
   */
  lemma ListenerHearsFirst(inputs: seq<Input>, i: nat)
    requires i < |TraceOf(Run(INITIAL, inputs))| && TraceOf(Run(INITIAL, inputs))[i].Sent?
    ensures var t := TraceOf(Run(INITIAL, inputs));
      exists k :: CauseOf(t, k, i)
        && forall g :: InStage(PilotRole, t, k, g) && PilotDue(g, t[k].event) && !Brings(t[k].event, Setup) ==>
             exists x :: k < x < i && t[x].Told?
  {
    RunIsHonest(inputs);
    var t := TraceOf(Run(INITIAL, inputs));
    var k := SentForCause(PilotRole, t, i);
    forall g | InStage(PilotRole, t, k, g) ensures g == Talked(PilotRole, t[..k]).stage {
      StageMeans(PilotRole, t, k, g);
    }
    hide InStage;
    hide PilotDue;
    hide Run;
    hide Talked;
  }

  /** Everything the listener hears is on account of the event being handled, and carries its data. */
  lemma NewsAnswersEvents(inputs: seq<Input>, i: nat)
    requires i < |TraceOf(Run(INITIAL, inputs))| && TraceOf(Run(INITIAL, inputs))[i].Told?
    ensures var t := TraceOf(Run(INITIAL, inputs));
      exists k :: CauseOf(t, k, i) && PilotMayTell(t[k].event, t[i].news)
  {
    RunIsHonest(inputs);
    var k := ToldForCause(PilotRole, TraceOf(Run(INITIAL, inputs)), i);
  }

  lemma ReadyAnswersOffer(e: Event, m: ClientMessage)
    requires PilotMaySend(e, m) && m.command == ChannelsReady
    ensures ReceivesAccepted(In(e), Setup) || ReceivesAccepted(In(e), AddChannels)
    ensures m.ids == AcceptedIds(e.message.channels)
  {
  }

  /**
   CHANNELS_READY answers an accepted SETUP or ADD_CHANNELS and names, in order, the channels of that very
   offer that were accepted at their remote ends.
   */
  lemma ReadyNamesOffer(inputs: seq<Input>, i: nat)
    requires i < |TraceOf(Run(INITIAL, inputs))| && AnnouncesReady(TraceOf(Run(INITIAL, inputs))[i])
    ensures var t := TraceOf(Run(INITIAL, inputs));
      exists k :: CauseOf(t, k, i) && NothingSent(t, k, i)
        && (ReceivesAccepted(t[k], Setup) || ReceivesAccepted(t[k], AddChannels))
        && t[i].message.ids == AcceptedIds(t[k].event.message.channels)
  {
    RunIsHonest(inputs);
    var t := TraceOf(Run(INITIAL, inputs));
    var k := SentForCause(PilotRole, t, i);
    ReadyAnswersOffer(t[k].event, t[i].message);
    hide PilotMaySend;
    hide Run;
    hide Talked;
  }

  /**
   The listener is told that channels opened when the server has confirmed, for the first time, the CHANNELS_READY
   last sent; and it is told of exactly the channels that message named.
   */
  lemma OpenedNamesReady(inputs: seq<Input>, i: nat)
    requires i < |TraceOf(Run(INITIAL, inputs))|
    requires TraceOf(Run(INITIAL, inputs))[i].Told? && TraceOf(Run(INITIAL, inputs))[i].news.ChannelsOpened?
    ensures var t := TraceOf(Run(INITIAL, inputs));
      exists j, k :: 0 <= j < k && CauseOf(t, k, i) && AnnouncesReady(t[j]) && ReceivesAccepted(t[k], ChannelsReady)
        && (forall x :: j < x < i ==> !AnnouncesReady(t[x]))
        && (forall x :: j < x < k ==> !ReceivesAccepted(t[x], ChannelsReady))
        && RefIds(t[i].news.channels) == t[j].message.ids
  {
    RunIsHonest(inputs);
    var j, k := OpenedAfterReady(TraceOf(Run(INITIAL, inputs)), i);
    hide Run;
    assert AnnouncesReady(TraceOf(Run(INITIAL, inputs))[j]);
  }

  /** What allows the pilot to report channels as opened, and at which stage it can have been called for. */
  lemma OpenedIsJustified(v: Talk, refs: seq<Ref>)
    requires May(PilotRole, v, Told(ChannelsOpened(refs)))
    ensures v.due && v.cause.Some? && ReceivesAccepted(In(v.cause.value), ChannelsReady) && RefIds(refs) == v.ready
    ensures forall g :: PilotDue(g, v.cause.value) ==> g == Confirming && !PilotOwes(g, v.cause.value)
  {
  }

  lemma OpenedAfterReady(t: seq<Action>, i: nat) returns (j: nat, k: nat)
    requires Talked(PilotRole, t).honest && i < |t| && t[i].Told? && t[i].news.ChannelsOpened?
    ensures j < k && CauseOf(t, k, i) && AnnouncesReady(t[j]) && ReceivesAccepted(t[k], ChannelsReady)
    ensures forall x :: j < x < i ==> !AnnouncesReady(t[x])
    ensures forall x :: j < x < k ==> !ReceivesAccepted(t[x], ChannelsReady)
    ensures RefIds(t[i].news.channels) == t[j].message.ids
  {
    HonestThroughout(PilotRole, t, i);
    OpenedIsJustified(Talked(PilotRole, t[..i]), t[i].news.channels);
    k := FindCause(PilotRole, t, i);
    hide Talked;
    hide May;
    hide PilotDueFor;
    hide PilotOwes;
    assert PilotDue(Talked(PilotRole, t[..k]).stage, t[k].event);
    NotOwedNotSent(PilotRole, t, k, i);
    var s := ConfirmingBegan(t, k);
    hide PilotDue;
    j := LastReady(PilotRole, t, i, s);
    forall x | j < x < k ensures !ReceivesAccepted(t[x], ChannelsReady) {
      assert !(s < x < k) || !ReceivesAccepted(t[x], ChannelsReady);
    }
  }

  lemma ConfirmingBegan(t: seq<Action>, k: nat) returns (s: nat)
    requires k <= |t| && Talked(PilotRole, t[..k]).stage == Confirming
    ensures s < k && AnnouncesReady(t[s]) && forall x :: s < x < k ==> !ReceivesAccepted(t[x], ChannelsReady)
  {
    StageMeans(PilotRole, t, k, Confirming);
    hide Talked;
    s :| s < k && Begins(PilotRole, Confirming, t[s]) && Stays(PilotRole, t, s, k, Confirming);
    forall x | s < x < k ensures !ReceivesAccepted(t[x], ChannelsReady) {
      assert NextStage(PilotRole, Confirming, t[x]) == Confirming;
    }
  }

  /**
   The listener is told that channels close when the server releases the pilot, or when it accepts the removal
   last asked for; then it is told of exactly the channels that the request named.
   */
  lemma ClosingNamesRemoval(inputs: seq<Input>, i: nat)
    requires i < |TraceOf(Run(INITIAL, inputs))|
    requires TraceOf(Run(INITIAL, inputs))[i].Told? && TraceOf(Run(INITIAL, inputs))[i].news.ChannelsClosing?
    ensures var t := TraceOf(Run(INITIAL, inputs));
      exists k :: CauseOf(t, k, i)
        && (Receives(t[k], Command.Release)
            || (ReceivesAccepted(t[k], RemoveChannels) && exists j :: 0 <= j < k && RemovalAt(t, j, i)))
  {
    RunIsHonest(inputs);
    var t := TraceOf(Run(INITIAL, inputs));
    var k := ClosingAfterRemoval(t, i);
  }

  /** The last request before `i` to remove channels is at `j`, and the closing told at `i` is of what it named. */
  predicate RemovalAt(t: seq<Action>, j: int, i: int)
    requires 0 <= j < i < |t| && t[i].Told? && t[i].news.ChannelsClosing?
  {
    && AsksRemoval(t[j]) && (forall x :: j < x < i ==> !AsksRemoval(t[x]))
    && RefIds(t[i].news.channels) == t[j].message.ids
  }

  /** What allows the pilot to report channels as closing, and at which stage it can have been called for. */
  lemma ClosingIsJustified(v: Talk, refs: seq<Ref>)
    requires May(PilotRole, v, Told(ChannelsClosing(refs)))
    ensures v.due && v.cause.Some?
    ensures !Receives(In(v.cause.value), Command.Release) ==>
              && ReceivesAccepted(In(v.cause.value), RemoveChannels) && RefIds(refs) == v.removal
              && (forall g :: PilotDue(g, v.cause.value) ==> g == Removing)
              && (forall m :: PilotMaySend(v.cause.value, m) ==> !AsksRemoval(Sent(m)))
  {
  }

  lemma RemovalBegan(t: seq<Action>, k: nat) returns (s: nat)
    requires k <= |t| && Talked(PilotRole, t[..k]).stage == Removing
    ensures s < k && AsksRemoval(t[s])
  {
    StageMeans(PilotRole, t, k, Removing);
    hide Talked;
    s :| s < k && Begins(PilotRole, Removing, t[s]) && Stays(PilotRole, t, s, k, Removing);
  }

  /** After a request whose acceptance is being handled at `i` no other request has gone out. */
  lemma NoRemovalSince(t: seq<Action>, k: nat, j: nat, i: nat)
    requires Talked(PilotRole, t).honest && CauseOf(t, k, i) && j < i && AsksRemoval(t[j])
    requires forall m :: PilotMaySend(t[k].event, m) ==> !AsksRemoval(Sent(m))
    ensures j < k
  {
    hide Talked;
    hide PilotMaySend;
    assert t[j] == Sent(t[j].message);
    if k < j {
      var c := SentForCause(PilotRole, t, j);
      OneCause(t, c, k, j);
    }
  }

  lemma ClosingAfterRemoval(t: seq<Action>, i: nat) returns (k: nat)
    requires Talked(PilotRole, t).honest && i < |t| && t[i].Told? && t[i].news.ChannelsClosing?
    ensures CauseOf(t, k, i)
    ensures Receives(t[k], Command.Release)
            || (ReceivesAccepted(t[k], RemoveChannels) && exists j :: 0 <= j < k && RemovalAt(t, j, i))
  {
    HonestThroughout(PilotRole, t, i);
    ClosingIsJustified(Talked(PilotRole, t[..i]), t[i].news.channels);
    k := FindCause(PilotRole, t, i);
    hide Talked;
    hide May;
    hide PilotDueFor;
    hide PilotMaySend;
    if !Receives(t[k], Command.Release) {
      assert PilotDue(Talked(PilotRole, t[..k]).stage, t[k].event);
      hide PilotDue;
      hide Owes;
      hide DueFor;
      var s := RemovalBegan(t, k);
      var j := LastRemoval(PilotRole, t, i, s);
      NoRemovalSince(t, k, j, i);
      assert RemovalAt(t, j, i);
    }
  }

  /**
   Whatever an event calls for at the stage the conversation is in comes before the event's handling ends: the message,
   or word that no session could be opened; and the word to the listener.
   */
  lemma CalledForIsSaid(inputs: seq<Input>, k: nat, n: nat, g: Stage)
    requires var c := Run(INITIAL, inputs); var t := TraceOf(c);
      && CauseOf(t, k, n) && InStage(PilotRole, t, k, g)
      && (if n < |t| then t[n].In? else c.world.status == Running)
    ensures var t := TraceOf(Run(INITIAL, inputs));
      && (PilotOwes(g, t[k].event) ==> exists i :: k < i < n && (t[i].Sent? || t[i] == Told(Failure)))
      && (PilotDue(g, t[k].event) ==> exists i :: k < i < n && t[i].Told?)
  {
    RunIsHonest(inputs);
    if Run(INITIAL, inputs).world.status == Running { NothingIsLeftUnsaid(inputs); }
    hide Run;
    CalledForWasSaid(PilotRole, TraceOf(Run(INITIAL, inputs)), k, n, g);
  }
}
