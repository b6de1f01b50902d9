/**
 The client's end of the facade stream as a value: one outstanding WRITE fed from a queue, one
 outstanding READ that re-arms itself, and the gRPC completion queue as the set of operations that
 are outstanding and may complete in any order.
 */
module FacadePump {
  import opened Messages

  /** An event taken from the completion queue. `slot` tells which of the outstanding READs completed. */
  datatype Completion =
    | OpenDone(ok: bool)
    | CloseDone(ok: bool)
    | WriteDone(ok: bool)
    | ReadDone(ok: bool, slot: nat, message: ControlMessage)

  /** A good READ, whoever took its completion: only the poll task hands the message on. */
  datatype Arrival = Arrival(message: ControlMessage, polled: bool)

  /**
   The first line is the backend's own fields; `toRead` is the address of the buffer it will hand out
   next. The second is gRPC's side: outstanding operations, the buffers of the outstanding READs, the
   contents of the buffers, and how many buffers were ever allocated. The rest is history: the session's
   messages given to `send` and to the stream and the queue it began with; every message ever read, and
   where the session begins among them; every buffer ever handed to an event; and whether the session
   was opened with nothing of an earlier one outstanding.
   */
  datatype Pump = Pump(
    keepReader: bool, sending: bool, sendingQueue: seq<ClientMessage>, toRead: nat,
    opens: nat, closes: nat, writes: nat, reading: seq<nat>, memory: map<nat, ControlMessage>, buffers: nat,
    sent: seq<ClientMessage>, written: seq<ClientMessage>, leftover: seq<ClientMessage>,
    read: seq<Arrival>, since: nat, handed: seq<nat>, rested: bool)

  const COLD := Pump(false, false, [], 0, 0, 0, 0, [], map[], 1, [], [], [], [], 0, [], true)

  function Write(p: Pump, m: ClientMessage): Pump {
    p.(writes := p.writes + 1, written := p.written + [m])
  }

  function SendMessage(p: Pump, m: ClientMessage): Pump {
    var q := p.(sent := p.sent + [m]);
    if q.sending then q.(sendingQueue := q.sendingQueue + [m]) else Write(q.(sending := true), m)
  }

  /** A fresh buffer, and a READ into it. */
  function Rearm(p: Pump): Pump {
    p.(toRead := p.buffers, buffers := p.buffers + 1, reading := p.reading + [p.buffers])
  }

  /** The operation of this completion is outstanding. */
  predicate Due(p: Pump, c: Completion) {
    match c
    case OpenDone(_) => p.opens > 0
    case CloseDone(_) => p.closes > 0
    case WriteDone(_) => p.writes > 0
    case ReadDone(_, slot, _) => slot < |p.reading|
  }

  /** The completion leaves the queue; a successful READ has filled its buffer, and nobody has been told. */
  function Take(p: Pump, c: Completion): Pump
    requires Due(p, c)
  {
    match c
    case OpenDone(_) => p.(opens := p.opens - 1)
    case CloseDone(_) => p.(closes := p.closes - 1)
    case WriteDone(_) => p.(writes := p.writes - 1)
    case ReadDone(ok, slot, message) =>
      var q := p.(reading := p.reading[..slot] + p.reading[slot + 1..]);
      if ok then q.(memory := q.memory[p.reading[slot] := message], read := q.read + [Arrival(message, false)]) else q
  }

  /** No READ and no WRITE is outstanding. */
  predicate AtRest(p: Pump) {
    p.writes == 0 && p.reading == []
  }

  // ---------------------------------------------------------------- opening

  /** The stream is requested; the completion queue answers in time or not. */
  function Requested(p: Pump): Pump {
    p.(opens := p.opens + 1)
  }

  predicate Opens(answer: Option<Completion>) {
    answer == Some(OpenDone(true))
  }

  function Open(p: Pump, answer: Option<Completion>): Pump
    requires answer.Some? ==> Due(Requested(p), answer.value)
  {
    var q := Requested(p);
    if answer.None? then q
    else if Opens(answer) then
      Rearm(Take(q, answer.value)).(
        sending := false, keepReader := true, sent := [], written := [], leftover := p.sendingQueue,
        since := |p.read|, rested := AtRest(p))
    else Take(q, answer.value)
  }

  // ---------------------------------------------------------------- polling

  /** The message just read goes to an event, in the buffer at hand, and another buffer is armed. */
  function HandOn(p: Pump): Pump
    requires p.read != []
  {
    var last := p.read[|p.read| - 1];
    Rearm(p.(handed := p.handed + [p.toRead], read := p.read[..|p.read| - 1] + [last.(polled := true)]))
  }

  /** The next queued message is written, if there is one. */
  function NextWrite(p: Pump): Pump {
    if p.sendingQueue == [] then p.(sending := false)
    else Write(p.(sendingQueue := p.sendingQueue[1..]), p.sendingQueue[0])
  }

  function PolledRead(p: Pump, slot: nat, message: ControlMessage): (q: Pump)
    requires Due(p, ReadDone(true, slot, message))
    ensures q.read == p.read + [Arrival(message, true)]
  {
    HandOn(Take(p, ReadDone(true, slot, message)))
  }

  function PolledWrite(p: Pump): Pump
    requires p.writes > 0
  {
    NextWrite(p.(writes := p.writes - 1))
  }

  /** One poll: what the completion queue gave before the deadline, if anything. */
  function Polled(p: Pump, c: Option<Completion>): Pump
    requires c.Some? ==> Due(p, c.value)
  {
    if c.None? then p
    else match c.value
      case ReadDone(ok, slot, message) => if ok then PolledRead(p, slot, message) else Take(p, c.value)
      case WriteDone(ok) => if ok then PolledWrite(p) else Take(p, c.value)
      case _ => Take(p, c.value)
  }

  // ---------------------------------------------------------------- closing

  function Finishing(p: Pump): Pump {
    p.(keepReader := false, closes := p.closes + 1)
  }

  /** These completions can be taken one after another. */
  predicate DueInTurn(p: Pump, cs: seq<Completion>)
    decreases |cs|
  {
    cs == [] || (Due(p, cs[0]) && DueInTurn(Take(p, cs[0]), cs[1..]))
  }

  function TakeAll(p: Pump, cs: seq<Completion>): Pump
    requires DueInTurn(p, cs)
    decreases |cs|
  {
    if cs == [] then p else TakeAll(Take(p, cs[0]), cs[1..])
  }

  predicate Cleanup(c: Completion) {
    c.ReadDone? || c.WriteDone?
  }

  /** What the drain loop takes: READs and WRITEs until something else completes. */
  predicate Drains(p: Pump, cs: seq<Completion>) {
    && DueInTurn(Finishing(p), cs)
    && cs != []
    && (forall i :: 0 <= i < |cs| - 1 ==> Cleanup(cs[i]))
    && !Cleanup(cs[|cs| - 1])
  }

  /** Closing returns; otherwise it throws. */
  predicate Closes(cs: seq<Completion>) {
    cs != [] && cs[|cs| - 1] == CloseDone(true)
  }

  function Close(p: Pump, cs: seq<Completion>): Pump
    requires Drains(p, cs)
  {
    TakeAll(Finishing(p), cs)
  }
}

/** What the pump keeps, in every session and under every interleaving. */
module PumpTheory {
  import opened Messages
  import opened FacadePump

  // ---------------------------------------------------------------- one session

  /** What may happen to an open stream. A completion that is not due does not happen. */
  datatype Act = Sending(message: ClientMessage) | Polling(completion: Option<Completion>)

  function Do(p: Pump, a: Act): Pump {
    match a
    case Sending(m) => SendMessage(p, m)
    case Polling(c) => if c.Some? && !Due(p, c.value) then p else Polled(p, c)
  }

  function DoAll(p: Pump, acts: seq<Act>): Pump {
    if acts == [] then p else Do(DoAll(p, acts[..|acts| - 1]), acts[|acts| - 1])
  }

  /** What the session's messages look like on the wire: the first one overtakes what was left in the queue. */
  function WireOrder(leftover: seq<ClientMessage>, sent: seq<ClientMessage>): seq<ClientMessage> {
    if sent == [] then leftover else [sent[0]] + leftover + sent[1..]
  }

  /**
   At most one WRITE and one READ are outstanding; everything sent is written or queued, in order;
   nothing waits in the queue without a WRITE that was begun before it.
   */
  ghost predicate Flows(p: Pump) {
    && p.writes <= 1 && (p.writes == 1 ==> p.sending)
    && (p.reading == [] || p.reading == [p.toRead])
    && p.written + p.sendingQueue == WireOrder(p.leftover, p.sent)
    && (p.sent == [] ==> !p.sending && p.written == [])
    && (p.sent != [] && p.sendingQueue != [] ==> p.sending)
  }

  /** A session flows from its opening if and only if it was opened at rest. */
  lemma OpenFlowsExactly(p: Pump, answer: Option<Completion>)
    requires Opens(answer) && Due(Requested(p), answer.value)
    ensures Flows(Open(p, answer)) <==> AtRest(p)
    ensures Open(p, answer).leftover == p.sendingQueue && Open(p, answer).rested == AtRest(p)
  {
    if p.reading != [] { assert (p.reading + [p.buffers])[0] == p.reading[0]; }
  }

  lemma WireOrderGrows(leftover: seq<ClientMessage>, sent: seq<ClientMessage>, m: ClientMessage)
    ensures WireOrder(leftover, sent + [m]) == if sent == [] then [m] + leftover else WireOrder(leftover, sent) + [m]
  {
    if sent == [] {
      assert sent + [m] == [m] && [m][1..] == [];
    } else {
      assert (sent + [m])[1..] == sent[1..] + [m];
    }
  }

  lemma SendKeepsFlow(p: Pump, m: ClientMessage)
    requires Flows(p)
    ensures Flows(SendMessage(p, m))
  {
    WireOrderGrows(p.leftover, p.sent, m);
    assert p.sent == [] ==> WireOrder(p.leftover, p.sent) == p.leftover;
    hide WireOrder;
    assert p.written + (p.sendingQueue + [m]) == p.written + p.sendingQueue + [m];
    if !p.sending {
      assert p.written + [m] + p.sendingQueue == p.written + ([m] + p.sendingQueue);
      if p.sent == [] {
        assert p.written == [] && p.written + p.sendingQueue == p.sendingQueue && p.written + [m] == [m];
      } else {
        assert p.sendingQueue == [];
      }
    }
  }

  lemma WriteKeepsFlow(p: Pump)
    requires Flows(p) && p.writes > 0
    ensures Flows(PolledWrite(p))
  {
    if p.sendingQueue != [] {
      assert p.written + [p.sendingQueue[0]] + p.sendingQueue[1..] == p.written + p.sendingQueue;
    }
  }

  lemma ReadKeepsFlow(p: Pump, slot: nat, message: ControlMessage)
    requires Flows(p) && Due(p, ReadDone(true, slot, message))
    ensures Flows(PolledRead(p, slot, message))
  {
    var q := PolledRead(p, slot, message);
    assert q.reading == [q.toRead];
    assert q == p.(reading := q.reading, toRead := q.toRead, buffers := q.buffers, memory := q.memory,
                   handed := q.handed, read := q.read);
  }

  lemma PollKeepsFlow(p: Pump, c: Completion)
    requires Flows(p) && Due(p, c)
    ensures Flows(Polled(p, Some(c)))
  {
    hide PolledWrite;
    hide PolledRead;
    match c
    case WriteDone(ok) => if ok { WriteKeepsFlow(p); }
    case ReadDone(ok, slot, message) => if ok { ReadKeepsFlow(p, slot, message); }
    case _ =>
  }

  lemma PollKeepsLeftover(p: Pump, c: Completion)
    requires Due(p, c)
    ensures Polled(p, Some(c)).leftover == p.leftover
  {
  }

  lemma DoKeepsFlow(p: Pump, a: Act)
    requires Flows(p)
    ensures Flows(Do(p, a)) && Do(p, a).leftover == p.leftover
  {
    hide Flows;
    hide Polled;
    match a
    case Sending(m) => SendKeepsFlow(p, m);
    case Polling(c) =>
      if c.Some? && Due(p, c.value) {
        PollKeepsFlow(p, c.value);
        PollKeepsLeftover(p, c.value);
      } else {
        assert Do(p, a) == p by { NoPoll(p); }
      }
  }

  lemma NoPoll(p: Pump)
    ensures Polled(p, None) == p
  {
  }

  /** Under every interleaving of `send` with the completions. */
  lemma {:induction false} SessionFlows(p: Pump, acts: seq<Act>)
    requires Flows(p)
    ensures Flows(DoAll(p, acts)) && DoAll(p, acts).leftover == p.leftover
  {
    if acts != [] {
      SessionFlows(p, acts[..|acts| - 1]);
      DoKeepsFlow(DoAll(p, acts[..|acts| - 1]), acts[|acts| - 1]);
    }
  }

  lemma WireOrderExactly(leftover: seq<ClientMessage>, sent: seq<ClientMessage>)
    ensures WireOrder(leftover, sent) == sent <==> leftover == []
  {
    if sent != [] { assert [sent[0]] + [] + sent[1..] == sent; }
  }

  /** The wire follows the order of the calls exactly when the session began with an empty queue. */
  lemma FifoExactly(p: Pump, acts: seq<Act>)
    requires Flows(p)
    ensures var q := DoAll(p, acts);
      q.written + q.sendingQueue == q.sent <==> p.leftover == []
  {
    SessionFlows(p, acts);
    hide DoAll;
    hide WireOrder;
    WireOrderExactly(p.leftover, DoAll(p, acts).sent);
  }

  // ---------------------------------------------------------------- closing

  function Outstanding(p: Pump): nat {
    p.writes + |p.reading|
  }

  lemma {:induction false} TakeAllCounts(p: Pump, cs: seq<Completion>)
    requires DueInTurn(p, cs) && forall i :: 0 <= i < |cs| ==> Cleanup(cs[i])
    ensures var q := TakeAll(p, cs);
      && Outstanding(q) == Outstanding(p) - |cs|
      && q.opens == p.opens && q.closes == p.closes && q.keepReader == p.keepReader
      && q.sendingQueue == p.sendingQueue && q.sending == p.sending
    decreases |cs|
  {
    if cs != [] {
      TakeAllCounts(Take(p, cs[0]), cs[1..]);
    }
  }

  lemma TakeNone(p: Pump)
    ensures DueInTurn(p, []) && TakeAll(p, []) == p
  {
  }

  lemma TakeAllStep(p: Pump, c: Completion, cs: seq<Completion>)
    requires Due(p, c) && DueInTurn(Take(p, c), cs)
    ensures DueInTurn(p, [c] + cs) && TakeAll(p, [c] + cs) == TakeAll(Take(p, c), cs)
  {
    assert ([c] + cs)[1..] == cs;
  }

  /** Closing with nothing but CLOSE completed. */
  lemma EarlyClose(p: Pump)
    ensures var early := [CloseDone(true)];
      && Drains(p, early) && Closes(early) && Close(p, early) == Take(Finishing(p), CloseDone(true))
  {
    TakeNone(Take(Finishing(p), CloseDone(true)));
    TakeAllStep(Finishing(p), CloseDone(true), []);
    assert [CloseDone(true)] + [] == [CloseDone(true)];
  }

  lemma {:induction false} TakeAllSplit(p: Pump, cs: seq<Completion>)
    requires DueInTurn(p, cs) && cs != []
    ensures DueInTurn(p, cs[..|cs| - 1])
    ensures Due(TakeAll(p, cs[..|cs| - 1]), cs[|cs| - 1])
    ensures TakeAll(p, cs) == Take(TakeAll(p, cs[..|cs| - 1]), cs[|cs| - 1])
    decreases |cs|
  {
    if |cs| > 1 {
      TakeAllSplit(Take(p, cs[0]), cs[1..]);
      assert cs[1..][..|cs| - 2] == cs[..|cs| - 1][1..];
    }
  }

  /**
   The drain loop takes at most one completion for each outstanding READ and WRITE before it ends; no
   longer run of them is possible. It ends with CLOSE unless an abandoned opening completes just then.
   The queue of unsent messages stays as it is.
   */
  lemma DrainEnds(p: Pump, cs: seq<Completion>)
    requires Drains(p, cs)
    ensures |cs| <= Outstanding(p) + 1
    ensures p.opens == 0 ==> cs[|cs| - 1].CloseDone?
    ensures Outstanding(Close(p, cs)) == Outstanding(p) + 1 - |cs|
    ensures Close(p, cs).sendingQueue == p.sendingQueue && !Close(p, cs).keepReader
  {
    TakeAllSplit(Finishing(p), cs);
    TakeAllCounts(Finishing(p), cs[..|cs| - 1]);
  }

  /**
   In a session whose stream flows: at most two extra completions. The last is CLOSE, or the OPEN of an
   opening that was given up; it is CLOSE if there was no such opening.
   */
  lemma SessionDrainEnds(p: Pump, cs: seq<Completion>)
    requires Flows(p) && Drains(p, cs)
    ensures |cs| <= 3 && (cs[|cs| - 1].CloseDone? || cs[|cs| - 1].OpenDone?)
    ensures p.opens == 0 ==> cs[|cs| - 1].CloseDone?
    ensures AtRest(Close(p, cs)) <==> |cs| == Outstanding(p) + 1
  {
    DrainEnds(p, cs);
  }

  // ---------------------------------------------------------------- what a session leaves to the next

  /** The first `n` WRITEs from now on complete well, one after another. */
  function Flushed(p: Pump, n: nat): Pump
    requires p.writes > 0
    decreases n
  {
    if n == 0 then p
    else
      var q := Polled(p, Some(WriteDone(true)));
      if q.writes > 0 then Flushed(q, n - 1) else q
  }

  lemma {:induction false} FlushWritesQueue(p: Pump)
    requires p.writes == 1
    ensures var q := Flushed(p, |p.sendingQueue| + 1);
      && q.written == p.written + p.sendingQueue && q.sendingQueue == [] && !q.sending && q.writes == 0
      && q.sent == p.sent && q.leftover == p.leftover
    decreases |p.sendingQueue|
  {
    if p.sendingQueue != [] {
      FlushWritesQueue(Polled(p, Some(WriteDone(true))));
      assert p.written + [p.sendingQueue[0]] + p.sendingQueue[1..] == p.written + p.sendingQueue;
    } else {
      assert p.written + [] == p.written;
    }
  }

  /**
   Messages still queued when the stream is closed are not lost: all of them go out in the next session,
   right after that session's own first message.
   */
  lemma LeftoverReachesNextSession(p: Pump, cs: seq<Completion>, first: ClientMessage)
    requires Flows(p) && Drains(p, cs) && AtRest(Close(p, cs))
    ensures var next := SendMessage(FacadePump.Open(Close(p, cs), Some(OpenDone(true))), first);
      && Flows(next) && next.leftover == p.sendingQueue && next.writes == 1 && next.sendingQueue == p.sendingQueue
      && Flushed(next, |p.sendingQueue| + 1).sent == [first]
      && Flushed(next, |p.sendingQueue| + 1).written == [first] + p.sendingQueue
  {
    DrainEnds(p, cs);
    var opened' := FacadePump.Open(Close(p, cs), Some(OpenDone(true)));
    OpenFlowsExactly(Close(p, cs), Some(OpenDone(true)));
    SendKeepsFlow(opened', first);
    FlushWritesQueue(SendMessage(opened', first));
  }

  /** A closing in good order: the READ fails, the WRITE completes well, and then CLOSE. */
  lemma OrderlyClose(p: Pump, m: ControlMessage)
    requires |p.reading| == 1 && p.writes == 1
    ensures var cs := [ReadDone(false, 0, m), WriteDone(true), CloseDone(true)];
      && Drains(p, cs) && Closes(cs) && AtRest(Close(p, cs)) && Close(p, cs).sendingQueue == p.sendingQueue
  {
    var f := Finishing(p);
    var r := Take(f, ReadDone(false, 0, m));
    var w := Take(r, WriteDone(true));
    TakeNone(Take(w, CloseDone(true)));
    TakeAllStep(w, CloseDone(true), []);
    TakeAllStep(r, WriteDone(true), [CloseDone(true)]);
    TakeAllStep(f, ReadDone(false, 0, m), [WriteDone(true), CloseDone(true)]);
    hide TakeAll;
    hide DueInTurn;
    assert [CloseDone(true)] + [] == [CloseDone(true)];
    assert [WriteDone(true)] + [CloseDone(true)] == [WriteDone(true), CloseDone(true)];
    assert [ReadDone(false, 0, m)] + [WriteDone(true), CloseDone(true)] ==
      [ReadDone(false, 0, m), WriteDone(true), CloseDone(true)];
  }

  /**
   A session does end like that: its second message waits for the first WRITE to complete, and
   closing comes first.
   */
  lemma QueueMayOutliveSession(p: Pump, answer: Option<Completion>, setup: ClientMessage, last: ClientMessage,
      m: ControlMessage)
    requires AtRest(p) && Opens(answer) && Due(Requested(p), answer.value) && p.sendingQueue == []
    ensures var q := SendMessage(SendMessage(FacadePump.Open(p, answer), setup), last);
      var cs := [ReadDone(false, 0, m), WriteDone(true), CloseDone(true)];
      && Flows(q) && Drains(q, cs) && Closes(cs) && AtRest(Close(q, cs)) && Close(q, cs).sendingQueue == [last]
  {
    hide Flows;
    var o := FacadePump.Open(p, answer);
    OpenFlowsExactly(p, answer);
    SendKeepsFlow(o, setup);
    SendKeepsFlow(SendMessage(o, setup), last);
    var q := SendMessage(SendMessage(o, setup), last);
    assert |q.reading| == 1 && q.writes == 1 && q.sendingQueue == [last];
    OrderlyClose(q, m);
  }

  /**
   If CLOSE completes before the WRITE, the WRITE outlives its session: the next session's first message
   makes two outstanding WRITEs, and that session does not flow.
   */
  lemma EarlyCloseDoublesWrite(p: Pump, setup: ClientMessage)
    requires Flows(p) && p.writes == 1
    ensures var closed := Close(p, [CloseDone(true)]);
      var next := SendMessage(FacadePump.Open(closed, Some(OpenDone(true))), setup);
      && Drains(p, [CloseDone(true)]) && Closes([CloseDone(true)]) && !AtRest(closed)
      && next.writes == 2 && !Flows(next)
  {
    EarlyClose(p);
  }

  /** A session opened while something was outstanding: a READ too many, or a WRITE that `sending` does not tell of. */
  predicate Crowded(p: Pump) {
    (p.reading != [] && p.reading != [p.toRead]) || p.writes > if p.sending then 1 else 0
  }

  lemma CrowdedDoesNotFlow(p: Pump)
    requires Crowded(p)
    ensures !Flows(p)
  {
  }

  lemma OpenCrowds(p: Pump, answer: Option<Completion>)
    requires Opens(answer) && Due(Requested(p), answer.value) && !AtRest(p)
    ensures Crowded(Open(p, answer))
  {
    if p.reading != [] { assert (p.reading + [p.buffers])[0] == p.reading[0]; }
  }

  lemma SendKeepsCrowd(p: Pump, m: ClientMessage)
    requires Crowded(p)
    ensures Crowded(SendMessage(p, m))
  {
  }
}
