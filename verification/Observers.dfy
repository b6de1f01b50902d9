/**
 Observers of a run. Each reads only the trace - messages in and out, events told to the listener,
 the opening and closing of the stream, the making of channels - and never a protocol state.
 They are the reference the protocol machines are held against.
 */
module Observers {
  import opened Messages
  import opened Channels
  import opened ChannelTheory

  // ---------------------------------------------------------------- the stream

  /** Shut; opened with nothing sent yet; in use; or used wrongly. */
  datatype Stream = Shut | Fresh | Live | Broken

  function NextStream(s: Stream, a: Action): Stream {
    match a
    case StreamOpened => if s == Shut then Fresh else Broken
    case StreamOpenFailed => if s == Shut then Shut else Broken
    case Sent(m) => if (s == Fresh && m.command == Setup) || (s == Live && m.command != Setup) then Live else Broken
    case StreamClosed => if s == Live then Shut else Broken
    case _ => s
  }

  // ---------------------------------------------------------------- the pilot's procedures

  /** The request the server has not concluded yet; Overlap once a second one was sent meanwhile. */
  datatype Pending = Idle | Adding | Confirming | Removing | Asking | Overlap

  predicate IsRequest(a: Action) {
    a.Sent? && a.message.response == None
    && (a.message.command == AddChannels || a.message.command == RemoveChannels || a.message.command == RequestControl)
  }

  /** Message `m` of the server concludes the procedure that a request with this command began. */
  predicate Concludes(request: Command, m: ControlMessage) {
    match request
    case AddChannels =>
      (m.command == AddChannels && m.response != Accepted) || (m.command == ChannelsReady && m.response == Accepted)
    case RemoveChannels => m.command == RemoveChannels || m.command == Command.Release
    case RequestControl =>
      (m.command == RequestControl && m.response != Accepted) || (m.command == ControlReady && m.response == Accepted)
    case _ => false
  }

  function NextPending(p: Pending, a: Action): Pending {
    if IsRequest(a) then
      if p != Idle then Overlap
      else if a.message.command == AddChannels then Adding
      else if a.message.command == RemoveChannels then Removing
      else Asking
    else if a.In? && a.event.Received? then
      var m := a.event.message;
      match p
      case Adding => if m.command != AddChannels then p else if m.response == Accepted then Confirming else Idle
      case Confirming => if m.command == ChannelsReady && m.response == Accepted then Idle else p
      case Removing => if Concludes(RemoveChannels, m) then Idle else p
      case Asking => if Concludes(RequestControl, m) then Idle else p
      case _ => p
    else p
  }

  // ---------------------------------------------------------------- ownership

  /**
   The ownership history as the two ends talk about it. `confirming`: a list of validated channels was
   sent and not confirmed yet. `asked`: control of this channel was requested. `yielding`: the user was
   told to give up this channel. `granted`: the last word about the present channel of this id was a grant.
   */
  datatype Ledger = Ledger(confirming: bool, asked: Option<int>, yielding: Option<int>, granted: set<int>)

  const BLANK_LEDGER := Ledger(false, None, None, {})

  function NextLedger(l: Ledger, a: Action): Ledger {
    match a
    case Made(r) => l.(granted := l.granted - {r.id})
    case Sent(m) =>
      if m.command == ChannelsReady then l.(confirming := true)
      else if m.command == RequestControl && m.ids != [] then l.(asked := Some(m.ids[0]))
      else l
    case Told(n) => if n.ReleaseAsked? then l.(yielding := Some(n.channelId)) else l
    case In(e) =>
      (match e
       case User(u) => if u.ReleaseRejected? then l.(yielding := None) else l
       case Received(m) => LedgerReceives(l, m)
       case _ => l)
    case _ => l
  }

  function LedgerReceives(l: Ledger, m: ControlMessage): Ledger {
    if m.command == ChannelsReady && m.response == Accepted && l.confirming then
      l.(confirming := false, granted := l.granted + set id | id in m.ids)
    else if m.command == ControlReady && m.response == Accepted && l.asked.Some? then
      l.(asked := None, granted := l.granted + {l.asked.value})
    else if m.command == RequestControl && m.response != Accepted then l.(asked := None)
    else if m.command == ControlReleased && l.yielding.Some? then
      l.(yielding := None, granted := l.granted - {l.yielding.value})
    else l
  }

  // ---------------------------------------------------------------- what the listener was told

  /** Channels reported as opened and not reported as closing since. */
  function NextReported(s: set<Ref>, a: Action): set<Ref> {
    if !a.Told? then s
    else match a.news
      case ChannelsOpened(refs) => s + set r | r in refs
      case ChannelsClosing(refs) => s - set r | r in refs
      case _ => s
  }

  /**
   The device listener's grammar, as a deterministic automaton for the prefixes of repeated
   Failure | Error Released |
   Attached (ChannelsOpened (ChannelsOpened | ChannelsClosing)* ChannelsClosing OperationEnd)* Released.
   */
  datatype DeviceNews = Away | Refused | Grounded | Airborne | Landing | Jumbled

  function NextDeviceNews(s: DeviceNews, n: FacadeEvent): DeviceNews {
    match (s, n)
    case (Away, Failure) => Away
    case (Away, Error(_)) => Refused
    case (Refused, Released) => Away
    case (Away, Attached) => Grounded
    case (Grounded, ChannelsOpened(_)) => Airborne
    case (Airborne, ChannelsOpened(_)) => Airborne
    case (Airborne, ChannelsClosing(_)) => Landing
    case (Landing, ChannelsOpened(_)) => Airborne
    case (Landing, ChannelsClosing(_)) => Landing
    case (Landing, OperationEnd) => Grounded
    case (Grounded, Released) => Away
    case (_, _) => Jumbled
  }

  /**
   The pilot listener's grammar, for the prefixes of repeated
   Failure | Error Released | OperationStarted Error* ChannelsOpened Work* ChannelsClosing Released
   where Work is any event but Failure, Released, OperationStarted and the device's own.
   */
  datatype PilotNews = Out | Declined | Starting | Working | Parting | Garbled

  function NextPilotNews(s: PilotNews, n: FacadeEvent): PilotNews {
    match s
    case Out =>
      if n.Failure? then Out else if n.Error? then Declined else if n.OperationStarted? then Starting else Garbled
    case Declined => if n.Released? then Out else Garbled
    case Starting => if n.Error? then Starting else if n.ChannelsOpened? then Working else Garbled
    case Working =>
      if n.ChannelsClosing? then Parting
      else if n.Failure? || n.Released? || n.OperationStarted? || n.Attached? || n.OperationEnd? then Garbled
      else Working
    case Parting =>
      if n.Released? then Out
      else if n.ChannelsClosing? then Parting
      else if n.Failure? || n.OperationStarted? || n.Attached? || n.OperationEnd? then Garbled else Working
    case Garbled => Garbled
  }

  // ---------------------------------------------------------------- all of them at once

  datatype View = View(
    stream: Stream, pending: Pending, ledger: Ledger, reported: set<Ref>, device: DeviceNews, pilot: PilotNews)

  function NextView(v: View, a: Action): View {
    View(NextStream(v.stream, a), NextPending(v.pending, a), NextLedger(v.ledger, a), NextReported(v.reported, a),
         if a.Told? then NextDeviceNews(v.device, a.news) else v.device,
         if a.Told? then NextPilotNews(v.pilot, a.news) else v.pilot)
  }

  function Observe(t: seq<Action>): View {
    if t == [] then View(Shut, Idle, BLANK_LEDGER, {}, Away, Out) else NextView(Observe(Front(t)), Last(t))
  }

  lemma Observing()
    ensures forall w: World, a: Action {:trigger Note(w, a)} ::
              Observe(Note(w, a).trace) == NextView(Observe(w.trace), a)
  {
    forall w: World, a: Action {:trigger Note(w, a)}
      ensures Observe(Note(w, a).trace) == NextView(Observe(w.trace), a)
    {
      assert Front(w.trace + [a]) == w.trace;
    }
  }

  /** A live channel is owned exactly when the ledger's last word about it was a grant. */
  ghost predicate FlagsAgree(w: World) {
    forall id :: id in w.channels ==> (w.channels[id].owned <==> id in Observe(w.trace).ledger.granted)
  }

  // ---------------------------------------------------------------- observers and the table's loops

  /** Everything the observers know stays, but for which present channels were granted. */
  ghost predicate OnlyGrantsDiffer(v: View, u: View) {
    u == v.(ledger := v.ledger.(granted := u.ledger.granted))
  }

  lemma ObserveNote(w: World, a: Action)
    ensures Observe(Note(w, a).trace) == NextView(Observe(w.trace), a)
  {
    Observing();
  }

  lemma EmplaceObserved(w: World, id: int)
    ensures OnlyGrantsDiffer(Observe(w.trace), Observe(Emplace(w, id).trace))
    ensures FlagsAgree(w) ==> FlagsAgree(Emplace(w, id))
  {
    hide Observe;
    ObserveNote(w.(channels := w.channels[id := Entry(w.made, false)], made := w.made + 1), Made(Ref(id, w.made)));
  }

  lemma DropObserved(w: World, id: int)
    requires id in w.channels
    ensures Observe(Drop(w, id).trace) == Observe(w.trace)
    ensures FlagsAgree(w) ==> FlagsAgree(Drop(w, id))
  {
    hide Observe;
    ObserveNote(w.(channels := w.channels - {id}), Dropped(RefOf(w, id)));
  }

  lemma ValidateOneObserved(v: Validation, c: ChannelResponse)
    ensures OnlyGrantsDiffer(Observe(v.world.trace), Observe(ValidateOne(v, c).world.trace))
    ensures FlagsAgree(v.world) ==> FlagsAgree(ValidateOne(v, c).world)
  {
    hide Observe;
    EmplaceObserved(v.world, c.id);
    DropObserved(Emplace(v.world, c.id), c.id);
  }

  lemma {:induction false} ValidateObserved(w: World, s: seq<ChannelResponse>)
    ensures OnlyGrantsDiffer(Observe(w.trace), Observe(Validate(w, s).world.trace))
    ensures FlagsAgree(w) ==> FlagsAgree(Validate(w, s).world)
  {
    if s != [] {
      ValidateObserved(w, Front(s));
      ValidateOneObserved(Validate(w, Front(s)), Last(s));
    }
  }

  lemma {:induction false} CloseObserved(w: World, ids: seq<int>)
    ensures Observe(Close(w, ids).trace) == Observe(w.trace)
  {
    Observing();
    if ids != [] {
      CloseObserved(w, Front(ids));
    }
  }

  lemma {:induction false} CloseDropsNothing(w: World, ids: seq<int>, r: Ref)
    ensures Dropped(r) in Close(w, ids).trace <==> Dropped(r) in w.trace
  {
    if ids != [] {
      CloseDropsNothing(w, Front(ids), r);
    }
  }

  /** One description: what becomes of channel `r`. */
  lemma ValidateOneAlive(v: Validation, c: ChannelResponse, r: Ref)
    requires Balanced(v.world) && v.world.status == Running && ValidateOne(v, c).world.status == Running
    ensures var u := ValidateOne(v, c);
      if Accepts(c) then
        && (Alive(u.world, r) <==> Alive(v.world, r) || r == u.result[|u.result| - 1])
        && (Dropped(r) in u.world.trace <==> Dropped(r) in v.world.trace)
        && |u.result| == |v.result| + 1 && u.result[..|v.result|] == v.result
        && Dropped(u.result[|u.result| - 1]) !in u.world.trace
      else
        && (Alive(u.world, r) <==> Alive(v.world, r) && Dropped(r) !in u.world.trace)
        && (Dropped(r) in v.world.trace ==> Dropped(r) in u.world.trace)
        && u.result == v.result
  {
  }

  /** The channels after a validation that returned: the old ones and the accepted ones, without the dropped ones. */
  lemma {:induction false} ValidateAlive(w: World, s: seq<ChannelResponse>, r: Ref)
    requires Balanced(w) && w.status == Running && Validate(w, s).world.status == Running
    ensures var v := Validate(w, s);
      Alive(v.world, r) <==> (Alive(w, r) || r in v.result) && Dropped(r) !in v.world.trace
  {
    if s == [] {
      if Alive(w, r) { AliveIsNotDropped(w, r); }
    } else {
      ValidateAlive(w, Front(s), r);
      ValidateKeepsBalance(w, Front(s));
      ValidateOneAlive(Validate(w, Front(s)), Last(s), r);
    }
  }

  lemma AliveIsNotDropped(w: World, r: Ref)
    requires Balanced(w) && Alive(w, r)
    ensures Dropped(r) !in w.trace
  {
    assert Times(w, Made(r)) == 1 + Times(w, Dropped(r)) + Times(w, Closed(r));
  }
}
