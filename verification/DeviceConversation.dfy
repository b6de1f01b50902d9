/** What the device says, and what makes it say so, by positions in the trace of any run. */
module DeviceConversation {
  import opened Messages
  import opened Channels
  import opened ChannelTheory
  import opened OwnershipMeaning
  import opened Provenance
  import opened Conversation
  import opened Device
  import opened DeviceProvenance

  function TraceOf(c: Client): seq<Action> {
    c.world.trace
  }

  lemma RunIsHonest(inputs: seq<Input>)
    ensures Talked(DeviceRole, TraceOf(Run(INITIAL, inputs))).honest
  {
    hide Run;
    RunSays(inputs);
  }

  /** Every message answers the event being handled, carries its data, and is the only one to do so. */
  lemma MessagesAnswerEvents(inputs: seq<Input>, i: nat)
    requires i < |TraceOf(Run(INITIAL, inputs))| && TraceOf(Run(INITIAL, inputs))[i].Sent?
    ensures var t := TraceOf(Run(INITIAL, inputs));
      exists k :: CauseOf(t, k, i) && NothingSent(t, k, i) && DeviceMaySend(t[k].event, t[i].message)
  {
    RunIsHonest(inputs);
    var k := SentForCause(DeviceRole, TraceOf(Run(INITIAL, inputs)), i);
  }

  /**
   The listener hears of an event, at whatever stage that is called for, before the server is answered; only the start
   of a session is told after its first message.
   */
  lemma ListenerHearsFirst(inputs: seq<Input>, i: nat)
    requires i < |TraceOf(Run(INITIAL, inputs))| && TraceOf(Run(INITIAL, inputs))[i].Sent?
    ensures var t := TraceOf(Run(INITIAL, inputs));
      exists k :: CauseOf(t, k, i)
        && forall g :: InStage(DeviceRole, t, k, g) && DeviceDue(g, t[k].event) && !Brings(t[k].event, Setup) ==>
             exists x :: k < x < i && t[x].Told?
  {
    RunIsHonest(inputs);
    var t := TraceOf(Run(INITIAL, inputs));
    var k := SentForCause(DeviceRole, t, i);
    forall g | InStage(DeviceRole, t, k, g) ensures g == Talked(DeviceRole, t[..k]).stage {
      StageMeans(DeviceRole, t, k, g);
    }
    hide InStage;
    hide DeviceDue;
    hide Run;
    hide Talked;
  }

  /** Everything the listener hears is on account of the event being handled, and carries its data. */
  lemma NewsAnswersEvents(inputs: seq<Input>, i: nat)
    requires i < |TraceOf(Run(INITIAL, inputs))| && TraceOf(Run(INITIAL, inputs))[i].Told?
    ensures var t := TraceOf(Run(INITIAL, inputs));
      exists k :: CauseOf(t, k, i) && DeviceMayTell(t[k].event, t[i].news)
  {
    RunIsHonest(inputs);
    var k := ToldForCause(DeviceRole, TraceOf(Run(INITIAL, inputs)), i);
  }

  /** The server is answered with the same: the ids accepted of its attachment, in order, and the ids of its release. */
  lemma AnswersNameTheSame(inputs: seq<Input>, i: nat)
    requires i < |TraceOf(Run(INITIAL, inputs))| && TraceOf(Run(INITIAL, inputs))[i].Sent?
    requires var c := TraceOf(Run(INITIAL, inputs))[i].message.command; c == AttachChannels || c == ReleaseChannels
    ensures var t := TraceOf(Run(INITIAL, inputs));
      exists k :: CauseOf(t, k, i) && NothingSent(t, k, i) && Receives(t[k], t[i].message.command)
        && t[i].message.ids ==
           if t[i].message.command == AttachChannels then AcceptedIds(t[k].event.message.channels)
             else t[k].event.message.ids
  {
    RunIsHonest(inputs);
    var t := TraceOf(Run(INITIAL, inputs));
    var k := SentForCause(DeviceRole, t, i);
    AnswerIsJustified(t[k].event, t[i].message);
    hide DeviceMaySend;
    hide Run;
    hide Talked;
  }

  lemma AnswerIsJustified(e: Event, m: ClientMessage)
    requires DeviceMaySend(e, m) && (m.command == AttachChannels || m.command == ReleaseChannels)
    ensures Receives(In(e), m.command)
    ensures m.ids == if m.command == AttachChannels then AcceptedIds(e.message.channels) else e.message.ids
  {
  }

  /**
   Whatever an event calls for at the stage the conversation is in comes before the event's handling ends: the
   message, or word that no session could be opened; and the word to the listener.
   */
  lemma CalledForIsSaid(inputs: seq<Input>, k: nat, n: nat, g: Stage)
    requires var c := Run(INITIAL, inputs); var t := TraceOf(c);
      && CauseOf(t, k, n) && InStage(DeviceRole, t, k, g)
      && (if n < |t| then t[n].In? else c.world.status == Running)
    ensures var t := TraceOf(Run(INITIAL, inputs));
      && (DeviceOwes(g, t[k].event) ==> exists i :: k < i < n && (t[i].Sent? || t[i] == Told(Failure)))
      && (DeviceDue(g, t[k].event) ==> exists i :: k < i < n && t[i].Told?)
  {
    RunIsHonest(inputs);
    if Run(INITIAL, inputs).world.status == Running { NothingIsLeftUnsaid(inputs); }
    hide Run;
    CalledForWasSaid(DeviceRole, TraceOf(Run(INITIAL, inputs)), k, n, g);
  }
}
