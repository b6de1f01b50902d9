/** The client's end of the facade stream as an object, over gRPC's asynchronous stream. */
module ClientBackend {
  import opened Messages
  import opened FacadePump
  import opened PumpTheory

  /** The stream and its completion queue: operations begin here, and complete when the environment says so. */
  class Stream {
    var opens: nat
    var closes: nat
    var writes: nat
    var reading: seq<nat>
    var memory: map<nat, ControlMessage>
    ghost var written: seq<ClientMessage>

    constructor ()
      ensures opens == closes == writes == 0 && reading == [] && memory == map[] && written == []
    {
      opens, closes, writes, reading, memory, written := 0, 0, 0, [], map[], [];
    }

    method Request()
      modifies this`opens
      ensures opens == old(opens) + 1
    {
      opens := opens + 1;
    }

    method Finish()
      modifies this`closes
      ensures closes == old(closes) + 1
    {
      closes := closes + 1;
    }

    method Write(m: ClientMessage)
      modifies this`writes, this`written
      ensures writes == old(writes) + 1 && written == old(written) + [m]
    {
      writes, written := writes + 1, written + [m];
    }

    method Read(buffer: nat)
      modifies this`reading
      ensures reading == old(reading) + [buffer]
    {
      reading := reading + [buffer];
    }
  }

  class ClientBackend {
    const stream: Stream
    var keepReader: bool
    var sending: bool
    var sendingQueue: seq<ClientMessage>
    var toRead: nat
    var buffers: nat
    ghost var sent: seq<ClientMessage>
    ghost var leftover: seq<ClientMessage>
    ghost var read: seq<Arrival>
    ghost var since: nat
    ghost var handed: seq<nat>
    ghost var rested: bool

    ghost function View(): Pump
      reads this, stream
    {
      Pump(keepReader, sending, sendingQueue, toRead,
           stream.opens, stream.closes, stream.writes, stream.reading, stream.memory, buffers,
           sent, stream.written, leftover, read, since, handed, rested)
    }

    constructor ()
      ensures View() == COLD && fresh(stream)
    {
      stream := new Stream();
      keepReader, sending, sendingQueue, toRead, buffers := false, false, [], 0, 1;
      sent, leftover, read, since, handed, rested := [], [], [], 0, [], true;
    }

    /** Written at once, or queued behind the WRITE that is outstanding. */
    method Send(message: ClientMessage)
      modifies this, stream
      ensures View() == SendMessage(old(View()), message)
      ensures old(Flows(View())) ==> Flows(View())
    {
      hide Flows;
      if Flows(View()) { SendKeepsFlow(View(), message); }
      sent := sent + [message];
      if sending {
        sendingQueue := sendingQueue + [message];
      } else {
        sending := true;
        stream.Write(message);
      }
    }

    /** Takes one event from the completion queue. */
    method AsyncNext(c: Completion)
      requires Due(View(), c)
      modifies this`read, stream
      ensures View() == Take(old(View()), c)
    {
      match c
      case OpenDone(_) => stream.opens := stream.opens - 1;
      case CloseDone(_) => stream.closes := stream.closes - 1;
      case WriteDone(_) => stream.writes := stream.writes - 1;
      case ReadDone(ok, slot, message) =>
        var buffer := stream.reading[slot];
        stream.reading := stream.reading[..slot] + stream.reading[slot + 1..];
        if ok {
          stream.memory := stream.memory[buffer := message];
          read := read + [Arrival(message, false)];
        }
    }

    /** A fresh buffer, and a READ into it. */
    method ReadNext()
      modifies this, stream
      ensures View() == Rearm(old(View()))
    {
      toRead, buffers := buffers, buffers + 1;
      stream.Read(toRead);
    }

    /** `answer` is what the completion queue gives in time. */
    method OpenFacadeConnection(answer: Option<Completion>) returns (threw: bool)
      requires answer.Some? ==> Due(Requested(View()), answer.value)
      modifies this, stream
      ensures View() == FacadePump.Open(old(View()), answer)
      ensures threw <==> !Opens(answer)
      ensures !threw ==> (Flows(View()) <==> old(AtRest(View()))) && leftover == old(sendingQueue)
    {
      hide Flows;
      hide AtRest;
      ghost var p := View();
      if Opens(answer) { OpenFlowsExactly(p, answer); }
      stream.Request();
      if answer.None? { return true; }
      AsyncNext(answer.value);
      if answer.value != OpenDone(true) { return true; }
      ReadNext();
      sending, keepReader := false, true;
      BeginSession(AtRest(p));
      threw := false;
    }

    /** The histories of a session begin. */
    ghost method BeginSession(resting: bool)
      modifies this, stream`written
      ensures View() == old(View()).(
                sent := [], written := [], leftover := sendingQueue, since := |read|, rested := resting)
    {
      stream.written := [];
      sent, leftover, since, rested := [], sendingQueue, |read|, resting;
    }

    /** The buffer of the message just read goes to an event. */
    method NotifyReceived() returns (received: nat)
      requires read != []
      modifies this, stream
      ensures View() == HandOn(old(View())) && received == old(toRead)
    {
      received := toRead;
      handed, read := handed + [toRead], read[..|read| - 1] + [read[|read| - 1].(polled := true)];
      ReadNext();
    }

    method WriteQueued()
      modifies this, stream
      ensures View() == NextWrite(old(View()))
    {
      if sendingQueue == [] {
        sending := false;
      } else {
        stream.Write(sendingQueue[0]);
        sendingQueue := sendingQueue[1..];
      }
    }

    /** One run of the poll task: the buffer of a message that was read, and whether to post the task again. */
    method ProceedGrpcQueue(answer: Option<Completion>) returns (received: Option<nat>, again: bool)
      requires answer.Some? ==> Due(View(), answer.value)
      modifies this, stream
      ensures View() == Polled(old(View()), answer) && again == keepReader
      ensures received == if answer.Some? && answer.value.ReadDone? && answer.value.ok then Some(old(toRead)) else None
      ensures old(Flows(View())) ==> Flows(View())
    {
      hide Flows;
      hide HandOn;
      hide NextWrite;
      ghost var p := View();
      if Flows(View()) && answer.Some? { PollKeepsFlow(View(), answer.value); }
      received := None;
      if answer.Some? {
        AsyncNext(answer.value);
        match answer.value
        case ReadDone(ok, slot, message) =>
          if ok {
            var buffer := NotifyReceived();
            received := Some(buffer);
          }
        case WriteDone(ok) =>
          if ok {
            WriteQueued();
          }
        case _ =>
      }
      again := keepReader;
    }

    /**
     The drain loop. `waits` is what each wait for a completion gives; None: it timed out. A wait that times
     out leaves the tag of the one before, so the loop goes round once more; the first one has no tag before
     it and must be answered. The loop ends, at the latest when every READ and WRITE is in; it returns only
     if the last completion is a good CLOSE.
     */
    method CloseFacadeConnection(waits: seq<Option<Completion>>) returns (threw: bool)
      requires waits != [] && waits[0].Some? && waits[|waits| - 1].Some?
      requires Drains(View(), Answered(waits))
      modifies this, stream
      ensures View() == FacadePump.Close(old(View()), Answered(waits))
      ensures threw <==> !Closes(Answered(waits))
      ensures !keepReader && sendingQueue == old(sendingQueue)
      ensures |Answered(waits)| <= Outstanding(old(View())) + 1
    {
      hide TakeAll;
      hide DueInTurn;
      hide Take;
      hide Due;
      hide Answered;
      hide Reached;
      ghost var p := View();
      ghost var arrivals := Answered(waits);
      ghost var taken := 1;
      DrainEnds(p, arrivals);
      DrainNone(Finishing(p), arrivals);
      ReachedFirst(waits);
      keepReader := false;
      stream.Finish();
      DrainNext(Finishing(p), arrivals, 0);
      AsyncNext(waits[0].value);
      var tag := waits[0].value;
      var i := 1;
      while Cleanup(tag)
        invariant 1 <= i <= |waits| && Reached(waits, i, taken) && 1 <= taken <= |arrivals|
        invariant tag == arrivals[taken - 1]
        invariant DueInTurn(Finishing(p), arrivals[..taken]) && View() == TakeAll(Finishing(p), arrivals[..taken])
        decreases |waits| - i
      {
        ReachedNext(waits, i, taken);
        if waits[i].Some? {
          DrainNext(Finishing(p), arrivals, taken);
          AsyncNext(waits[i].value);
          tag := waits[i].value;
          taken := taken + 1;
        }
        i := i + 1;
      }
      assert arrivals[..taken] == arrivals;
      threw := tag != CloseDone(true);
    }
  }

  /** The completions among what some waits gave. */
  function Answered(waits: seq<Option<Completion>>): seq<Completion> {
    if waits == [] then []
    else
      var before := Answered(waits[..|waits| - 1]);
      if waits[|waits| - 1].Some? then before + [waits[|waits| - 1].value] else before
  }

  /** The first `i` waits gave the first `n` completions. */
  predicate Reached(waits: seq<Option<Completion>>, i: nat, n: nat)
    requires i <= |waits|
  {
    && n <= |Answered(waits)| && Answered(waits[..i]) == Answered(waits)[..n]
    && (i == |waits| ==> n == |Answered(waits)|)
  }

  lemma ReachedFirst(waits: seq<Option<Completion>>)
    requires waits != [] && waits[0].Some?
    ensures Reached(waits, 1, 1) && Answered(waits)[0] == waits[0].value
  {
    AnsweredNext(waits, 0);
    assert waits[..0] == [];
    if |waits| == 1 { assert waits[..1] == waits; }
  }

  lemma ReachedNext(waits: seq<Option<Completion>>, i: nat, n: nat)
    requires waits != [] && waits[|waits| - 1].Some? && i <= |waits| && Reached(waits, i, n)
    requires 1 <= n && Cleanup(Answered(waits)[n - 1]) && !Cleanup(Answered(waits)[|Answered(waits)| - 1])
    ensures i < |waits|
    ensures waits[i].Some? ==>
            n < |Answered(waits)| && Answered(waits)[n] == waits[i].value && Reached(waits, i + 1, n + 1)
    ensures waits[i].None? ==> Reached(waits, i + 1, n)
  {
    assert i < |waits|;
    AnsweredNext(waits, i);
    if i + 1 == |waits| { assert waits[..i + 1] == waits; }
  }

  lemma {:induction false} AnsweredNext(waits: seq<Option<Completion>>, i: nat)
    requires i < |waits|
    ensures Answered(waits[..i + 1]) ==
            if waits[i].Some? then Answered(waits[..i]) + [waits[i].value] else Answered(waits[..i])
    ensures Answered(waits[..i + 1]) <= Answered(waits)
    decreases |waits|
  {
    assert waits[..i + 1][..i] == waits[..i];
    if i + 1 == |waits| {
      assert waits[..i + 1] == waits;
    } else {
      var f := waits[..|waits| - 1];
      AnsweredNext(f, i);
      assert f[..i + 1] == waits[..i + 1] && f[..i] == waits[..i];
    }
  }

  lemma DrainNone(p: Pump, cs: seq<Completion>)
    ensures DueInTurn(p, cs[..0]) && TakeAll(p, cs[..0]) == p
  {
  }

  lemma {:induction false} DrainNext(p: Pump, cs: seq<Completion>, i: nat)
    requires DueInTurn(p, cs) && i < |cs|
    ensures DueInTurn(p, cs[..i]) && DueInTurn(p, cs[..i + 1]) && Due(TakeAll(p, cs[..i]), cs[i])
    ensures TakeAll(p, cs[..i + 1]) == Take(TakeAll(p, cs[..i]), cs[i])
    decreases |cs|
  {
    if i < |cs| - 1 {
      TakeAllSplit(p, cs);
      var f := cs[..|cs| - 1];
      DrainNext(p, f, i);
      assert f[..i] == cs[..i] && f[..i + 1] == cs[..i + 1];
    } else {
      TakeAllSplit(p, cs);
      assert cs[..i + 1] == cs;
    }
  }
}
