/** Which messages read from the stream reach an event, and whether the event holds the right one. */
module PumpDelivery {
  import opened Messages
  import opened ChannelTheory
  import opened FacadePump
  import opened PumpTheory

  // ---------------------------------------------------------------- the record of good READs

  function All(read: seq<Arrival>): seq<ControlMessage> {
    if read == [] then [] else All(Front(read)) + [Last(read).message]
  }

  /** The messages that the poll task handed on. */
  function Polls(read: seq<Arrival>): seq<ControlMessage> {
    if read == [] then [] else Polls(Front(read)) + if Last(read).polled then [Last(read).message] else []
  }

  /** The good READs among these completions, as nobody hands them on. */
  function Discarded(cs: seq<Completion>): seq<Arrival>
    decreases |cs|
  {
    if cs == [] then []
    else (if cs[0].ReadDone? && cs[0].ok then [Arrival(cs[0].message, false)] else []) + Discarded(cs[1..])
  }

  lemma {:induction false} PollsSum(a: seq<Arrival>, b: seq<Arrival>)
    ensures Polls(a + b) == Polls(a) + Polls(b)
  {
    if b == [] {
      assert a + b == a;
    } else {
      assert Front(a + b) == a + Front(b) && Last(a + b) == Last(b);
      PollsSum(a, Front(b));
    }
  }

  /** A READ taken by a poll is recorded as handed on, and nothing else is recorded. */
  lemma PollRecords(p: Pump, c: Completion)
    requires Due(p, c)
    ensures Polled(p, Some(c)).read == p.read + if c.ReadDone? && c.ok then [Arrival(c.message, true)] else []
    ensures Polls(Polled(p, Some(c)).read) == Polls(p.read) + if c.ReadDone? && c.ok then [c.message] else []
  {
    if c.ReadDone? && c.ok {
      assert Front(p.read + [Arrival(c.message, true)]) == p.read;
    } else {
      assert p.read + [] == p.read;
    }
  }

  /** Whatever the drain loop reads is recorded, and discarded. */
  lemma {:induction false} TakeAllRecords(p: Pump, cs: seq<Completion>)
    requires DueInTurn(p, cs)
    ensures TakeAll(p, cs).read == p.read + Discarded(cs)
    decreases |cs|
  {
    if cs == [] {
      assert p.read + [] == p.read;
    } else {
      var q := Take(p, cs[0]);
      TakeRecords(p, cs[0]);
      hide Take;
      TakeAllRecords(q, cs[1..]);
      var first: seq<Arrival> := if cs[0].ReadDone? && cs[0].ok then [Arrival(cs[0].message, false)] else [];
      assert TakeAll(p, cs).read == (p.read + first) + Discarded(cs[1..]);
      assert Discarded(cs) == first + Discarded(cs[1..]);
      Associates(p.read, first, Discarded(cs[1..]));
    }
  }

  lemma Associates<T>(a: seq<T>, b: seq<T>, c: seq<T>)
    ensures (a + b) + c == a + (b + c)
  {
  }

  lemma TakeRecords(p: Pump, c: Completion)
    requires Due(p, c)
    ensures Take(p, c).read == p.read + if c.ReadDone? && c.ok then [Arrival(c.message, false)] else []
  {
    assert p.read + [] == p.read;
  }

  lemma {:induction false} DiscardedUnpolled(cs: seq<Completion>)
    ensures |Discarded(cs)| <= |cs| && Polls(Discarded(cs)) == []
    ensures forall i :: 0 <= i < |Discarded(cs)| ==> !Discarded(cs)[i].polled
    decreases |cs|
  {
    if cs != [] {
      DiscardedUnpolled(cs[1..]);
      var first: seq<Arrival> := if cs[0].ReadDone? && cs[0].ok then [Arrival(cs[0].message, false)] else [];
      PollsSum(first, Discarded(cs[1..]));
    }
  }

  /** A closing discards exactly the messages that the drain loop reads. */
  lemma ClosingDiscards(p: Pump, cs: seq<Completion>)
    requires Drains(p, cs)
    ensures Close(p, cs).read == p.read + Discarded(cs) && Close(p, cs).handed == p.handed
    ensures Polls(Close(p, cs).read) == Polls(p.read)
  {
    TakeAllRecords(Finishing(p), cs);
    DiscardedUnpolled(cs);
    PollsSum(p.read, Discarded(cs));
    TakeAllHandsNothing(Finishing(p), cs);
    assert Polls(p.read) + [] == Polls(p.read);
  }

  lemma {:induction false} TakeAllHandsNothing(p: Pump, cs: seq<Completion>)
    requires DueInTurn(p, cs)
    ensures TakeAll(p, cs).handed == p.handed
    decreases |cs|
  {
    if cs != [] {
      TakeAllHandsNothing(Take(p, cs[0]), cs[1..]);
    }
  }

  /** An opening discards the message of the READ that it takes for its OPEN, if it takes one. */
  lemma OpeningDiscards(p: Pump, answer: Option<Completion>)
    requires answer.Some? ==> Due(Requested(p), answer.value)
    ensures FacadePump.Open(p, answer).read == p.read + if answer.Some? then Discarded([answer.value]) else []
    ensures FacadePump.Open(p, answer).handed == p.handed
  {
    assert p.read + [] == p.read;
    if answer.Some? {
      var c := answer.value;
      assert [c][1..] == [];
      assert Discarded([c]) == (if c.ReadDone? && c.ok then [Arrival(c.message, false)] else []) + [];
      TakeRecords(Requested(p), c);
    }
  }

  /** What a READ outstanding at closing had read by then is lost: a closing that is otherwise in order. */
  lemma ClosingLosesMessage(p: Pump, m: ControlMessage)
    requires Flows(p) && p.reading == [p.toRead] && p.writes == 0
    ensures var cs := [ReadDone(true, 0, m), CloseDone(true)];
      && Drains(p, cs) && Closes(cs) && AtRest(Close(p, cs))
      && Close(p, cs).read == p.read + [Arrival(m, false)] && Close(p, cs).handed == p.handed
  {
    var f := Finishing(p);
    var q := Take(f, ReadDone(true, 0, m));
    TakeNone(Take(q, CloseDone(true)));
    TakeAllStep(q, CloseDone(true), []);
    TakeAllStep(f, ReadDone(true, 0, m), [CloseDone(true)]);
    assert [CloseDone(true)] + [] == [CloseDone(true)];
    assert [ReadDone(true, 0, m)] + [CloseDone(true)] == [ReadDone(true, 0, m), CloseDone(true)];
    assert Take(q, CloseDone(true)).read == p.read + [Arrival(m, false)];
  }

  // ---------------------------------------------------------------- one session

  /**
   In a session opened at rest, all that was read is handed on, but perhaps the last message, once
   the stream is closed.
   */
  ghost predicate Logged(p: Pump) {
    && p.since <= |p.read|
    && (p.rested ==>
          && (p.reading == [] || p.reading == [p.toRead])
          && (forall i :: p.since <= i < |p.read| - 1 ==> p.read[i].polled)
          && (|p.read| > p.since && !Last(p.read).polled ==> !p.keepReader && p.reading == []))
  }

  lemma TakeKeepsLog(p: Pump, c: Completion)
    requires Logged(p) && Due(p, c) && !p.keepReader
    ensures Logged(Take(p, c))
  {
  }

  lemma {:induction false} TakeAllKeepsLog(p: Pump, cs: seq<Completion>)
    requires Logged(p) && DueInTurn(p, cs) && !p.keepReader
    ensures Logged(TakeAll(p, cs))
    decreases |cs|
  {
    if cs != [] {
      TakeKeepsLog(p, cs[0]);
      TakeAllKeepsLog(Take(p, cs[0]), cs[1..]);
    }
  }

  lemma OpenKeepsLog(p: Pump, answer: Option<Completion>)
    requires Logged(p) && !p.keepReader && (answer.Some? ==> Due(Requested(p), answer.value))
    ensures Logged(FacadePump.Open(p, answer))
  {
    if answer.Some? && !Opens(answer) { TakeKeepsLog(Requested(p), answer.value); }
  }

  lemma ReadKeepsLog(p: Pump, slot: nat, message: ControlMessage)
    requires Logged(p) && Due(p, ReadDone(true, slot, message))
    ensures Logged(PolledRead(p, slot, message))
  {
    var q := PolledRead(p, slot, message);
    assert q.read == p.read + [Arrival(message, true)];
    assert q.since == p.since && q.rested == p.rested && q.toRead == p.buffers;
    if p.rested {
      assert p.reading == [p.toRead] && slot == 0;
      assert q.reading == [q.toRead];
    }
  }

  lemma PollKeepsLog(p: Pump, c: Completion)
    requires Logged(p) && Due(p, c)
    ensures Logged(Polled(p, Some(c)))
  {
    hide PolledRead;
    if c.ReadDone? && c.ok { ReadKeepsLog(p, c.slot, c.message); }
  }

  /** Of a session opened at rest, what is handed on falls short of what was read by the last message at most. */
  lemma SessionShortfall(p: Pump)
    requires Logged(p) && p.rested
    ensures var session := p.read[p.since..];
      && Polls(session) <= All(session)
      && |All(session)| - |Polls(session)| <= 1
      && (Polls(session) == All(session) <==> session == [] || Last(session).polled)
      && (p.keepReader ==> Polls(session) == All(session))
  {
    var session := p.read[p.since..];
    if session != [] {
      assert forall i :: 0 <= i < |session| - 1 ==> session[i] == p.read[p.since + i];
      AllPolled(Front(session));
      AllLength(session);
    }
  }

  lemma {:induction false} AllPolled(read: seq<Arrival>)
    requires forall i :: 0 <= i < |read| ==> read[i].polled
    ensures Polls(read) == All(read)
  {
    if read != [] {
      AllPolled(Front(read));
    }
  }

  lemma {:induction false} AllLength(read: seq<Arrival>)
    ensures |All(read)| == |read|
  {
    if read != [] {
      AllLength(Front(read));
    }
  }

  // ---------------------------------------------------------------- the right message

  /** Each READ has a buffer of its own, empty until it completes. */
  ghost predicate Arms(p: Pump) {
    && (forall i, j :: 0 <= i < j < |p.reading| ==> p.reading[i] != p.reading[j])
    && (forall i :: 0 <= i < |p.reading| ==> p.reading[i] < p.buffers && p.reading[i] !in p.memory)
    && (forall b :: b in p.memory ==> b < p.buffers)
    && p.toRead < p.buffers
    && (forall b :: b in p.handed ==> b < p.buffers)
  }

  /** How buffers are handed out and filled: what holds on every run. */
  ghost predicate Buffers(p: Pump) {
    Arms(p) && (p.keepReader ==> p.toRead !in p.memory)
  }

  lemma TakeKeepsArms(p: Pump, c: Completion)
    requires Arms(p) && Due(p, c)
    ensures Arms(Take(p, c))
  {
  }

  lemma TakeKeepsBuffers(p: Pump, c: Completion)
    requires Buffers(p) && Due(p, c) && !p.keepReader
    ensures Buffers(Take(p, c))
  {
    hide Arms;
    TakeKeepsArms(p, c);
  }

  lemma {:induction false} TakeAllKeepsBuffers(p: Pump, cs: seq<Completion>)
    requires Buffers(p) && DueInTurn(p, cs) && !p.keepReader
    ensures Buffers(TakeAll(p, cs))
    decreases |cs|
  {
    if cs != [] {
      TakeKeepsBuffers(p, cs[0]);
      TakeAllKeepsBuffers(Take(p, cs[0]), cs[1..]);
    }
  }

  lemma OpenKeepsBuffers(p: Pump, answer: Option<Completion>)
    requires Buffers(p) && !p.keepReader && (answer.Some? ==> Due(Requested(p), answer.value))
    ensures Buffers(FacadePump.Open(p, answer))
  {
    if answer.Some? { TakeKeepsBuffers(Requested(p), answer.value); }
  }

  lemma RearmKeepsArms(p: Pump)
    requires Arms(p)
    ensures Buffers(Rearm(p))
  {
  }

  lemma HandOnKeepsBuffers(p: Pump)
    requires Arms(p) && p.read != []
    ensures Buffers(HandOn(p))
  {
    var q := p.(handed := p.handed + [p.toRead], read := HandOn(p).read);
    assert Arms(q);
    hide Arms;
    RearmKeepsArms(q);
  }

  lemma PollKeepsBuffers(p: Pump, c: Completion)
    requires Buffers(p) && Due(p, c)
    ensures Buffers(Polled(p, Some(c)))
  {
    TakeKeepsArms(p, c);
    if c.ReadDone? && c.ok {
      HandOnKeepsBuffers(Take(p, c));
    } else {
      hide Arms;
      assert Arms(Take(p, c));
      PollTouchesNoBuffer(p, c);
    }
  }

  lemma PollTouchesNoBuffer(p: Pump, c: Completion)
    requires Due(p, c) && !(c.ReadDone? && c.ok)
    ensures Arms(Polled(p, Some(c))) == Arms(Take(p, c))
    ensures var q := Polled(p, Some(c)); q.keepReader == p.keepReader && q.toRead == p.toRead && q.memory == p.memory
  {
  }

  /** Every buffer handed to an event holds the message read for it, and no READ is filling it. */
  ghost predicate Delivers(p: Pump) {
    && |p.handed| == |Polls(p.read)|
    && (forall i :: 0 <= i < |p.handed| ==> p.handed[i] in p.memory && p.memory[p.handed[i]] == Polls(p.read)[i])
  }

  /**
   The poll takes a good READ into another buffer than the one it hands out, and the one it hands out
   does not happen to hold the same message.
   */
  predicate Mistakes(p: Pump, c: Completion)
    requires Due(p, c)
  {
    && c.ReadDone? && c.ok && p.reading[c.slot] != p.toRead
    && !(p.toRead in p.memory && p.memory[p.toRead] == c.message)
  }

  /** While the stream is open the buffer at hand is empty: any READ into another one is a mistake. */
  lemma MistakesWhileOpen(p: Pump, c: Completion)
    requires Buffers(p) && p.keepReader && Due(p, c)
    ensures Mistakes(p, c) <==> c.ReadDone? && c.ok && p.reading[c.slot] != p.toRead
  {
  }

  /** One poll keeps every event's buffer right if and only if it makes no such mistake. */
  lemma PollDeliversExactly(p: Pump, c: Completion)
    requires Buffers(p) && Delivers(p) && Due(p, c)
    ensures Delivers(Polled(p, Some(c))) <==> !Mistakes(p, c)
  {
    hide Buffers;
    hide Polls;
    if c.ReadDone? && c.ok {
      assert Polled(p, Some(c)) == PolledRead(p, c.slot, c.message);
      hide Polled;
      ReadDeliversExactly(p, c.slot, c.message);
    } else {
      PollRecords(p, c);
      PollTouchesNoBuffer(p, c);
      OnlyReadsAreHandedOn(p, Some(c));
      hide Polled;
      assert p.handed + [] == p.handed && Polls(p.read) + [] == Polls(p.read);
    }
  }

  lemma ReadDeliversExactly(p: Pump, slot: nat, message: ControlMessage)
    requires Buffers(p) && Delivers(p) && Due(p, ReadDone(true, slot, message))
    ensures Delivers(PolledRead(p, slot, message)) <==> !Mistakes(p, ReadDone(true, slot, message))
  {
    var q := PolledRead(p, slot, message);
    PollRecords(p, ReadDone(true, slot, message));
    hide Polls;
    var n := |p.handed|;
    assert q.handed[n] == p.toRead && Polls(q.read)[n] == message;
    assert forall i :: 0 <= i < n ==> q.handed[i] == p.handed[i] && Polls(q.read)[i] == Polls(p.read)[i];
    assert forall i :: 0 <= i < n ==> p.handed[i] in p.memory;
  }

  /** What is already delivered stays. */
  ghost predicate Preserves(p: Pump, q: Pump) {
    && Polls(q.read) == Polls(p.read) && q.handed == p.handed
    && forall b :: b in p.handed && b in p.memory ==> b in q.memory && q.memory[b] == p.memory[b]
  }

  lemma TakeDelivers(p: Pump, c: Completion)
    requires Buffers(p) && Due(p, c)
    ensures Preserves(p, Take(p, c))
  {
    if c.ReadDone? && c.ok { PollsSum(p.read, [Arrival(c.message, false)]); }
  }

  lemma {:induction false} TakeAllDelivers(p: Pump, cs: seq<Completion>)
    requires Buffers(p) && DueInTurn(p, cs) && !p.keepReader
    ensures Preserves(p, TakeAll(p, cs))
    decreases |cs|
  {
    if cs != [] {
      TakeDelivers(p, cs[0]);
      TakeKeepsBuffers(p, cs[0]);
      TakeAllDelivers(Take(p, cs[0]), cs[1..]);
    }
  }

  lemma OpenDelivers(p: Pump, answer: Option<Completion>)
    requires Buffers(p) && (answer.Some? ==> Due(Requested(p), answer.value))
    ensures Preserves(p, FacadePump.Open(p, answer))
  {
    if answer.Some? { TakeDelivers(Requested(p), answer.value); }
  }

  /**
   A poll that read a message goes on reading: there is a READ into a buffer that was never used before, the
   buffer the next event will get, and as many READs are outstanding as before.
   */
  lemma ReadIsFollowedByRead(p: Pump, slot: nat, message: ControlMessage)
    requires Buffers(p) && Due(p, ReadDone(true, slot, message))
    ensures var q := Polled(p, Some(ReadDone(true, slot, message)));
      && q.toRead != p.toRead && q.toRead !in p.reading && q.toRead !in p.memory && q.toRead !in p.handed
      && q.reading == p.reading[..slot] + p.reading[slot + 1..] + [q.toRead]
      && |q.reading| == |p.reading|
  {
  }

  /** A poll that read a message hands out the buffer at hand, and nothing else does. */
  lemma OnlyReadsAreHandedOn(p: Pump, c: Option<Completion>)
    requires c.Some? ==> Due(p, c.value)
    ensures Polled(p, c).handed ==
            p.handed + if c.Some? && c.value.ReadDone? && c.value.ok then [p.toRead] else []
  {
    assert p.handed + [] == p.handed;
  }

  /** What the client knows of itself: the part of the pump that is not gRPC's. */
  predicate SameClient(p: Pump, q: Pump) {
    && q.keepReader == p.keepReader && q.sending == p.sending && q.sendingQueue == p.sendingQueue
    && q.toRead == p.toRead && q.buffers == p.buffers && q.memory == p.memory
    && q.sent == p.sent && q.written == p.written && q.read == p.read && q.handed == p.handed
  }

  /** A completion that failed changes nothing but that its operation is no longer outstanding. */
  lemma FailuresAreIgnored(p: Pump, c: Completion)
    requires Due(p, c) && !c.ok
    ensures var q := Polled(p, Some(c));
      && SameClient(p, q)
      && q.opens + q.closes + q.writes + |q.reading| == p.opens + p.closes + p.writes + |p.reading| - 1
      && (if c.ReadDone? then q.reading == p.reading[..c.slot] + p.reading[c.slot + 1..] else q.reading == p.reading)
      && (c.WriteDone? <==> q.writes != p.writes)
  {
  }

  /** In and after a session opened at rest no poll makes that mistake, until the next opening. */
  lemma RestedMakesNoMistake(p: Pump, c: Completion)
    requires Logged(p) && p.rested && Due(p, c)
    ensures !Mistakes(p, c)
  {
  }

  /**
   If CLOSE completes before the READ, the READ outlives its session; when it completes well in the
   next one, the event is handed a buffer that is empty and that gRPC has still to fill.
   */
  lemma EarlyCloseHandsOutLiveBuffer(p: Pump, m: ControlMessage)
    requires Flows(p) && Buffers(p) && p.reading == [p.toRead]
    ensures var closed := Close(p, [CloseDone(true)]);
      var next := FacadePump.Open(closed, Some(OpenDone(true)));
      && Drains(p, [CloseDone(true)]) && Closes([CloseDone(true)]) && !AtRest(closed)
      && Due(next, ReadDone(true, 0, m)) && Mistakes(next, ReadDone(true, 0, m))
      && Polled(next, Some(ReadDone(true, 0, m))).handed == p.handed + [p.buffers]
      && p.buffers in Polled(next, Some(ReadDone(true, 0, m))).reading
      && p.buffers !in Polled(next, Some(ReadDone(true, 0, m))).memory
  {
    EarlyClose(p);
    var next := FacadePump.Open(Close(p, [CloseDone(true)]), Some(OpenDone(true)));
    assert next.reading == [p.toRead, p.buffers];
    assert next.reading[..0] + next.reading[1..] == [p.buffers];
  }
}
