/**
 The channel table against the trace: what the listener was told of, what the ownership ledger
 granted, and the books of insertions and removals. Both protocol machines keep it.
 */
module TableInvariant {
  import opened Messages
  import opened Channels
  import opened ChannelTheory
  import opened Observers

  // ---------------------------------------------------------------- the table against the trace

  /** Reported, and not erased by a failed validation since. */
  ghost predicate Known(w: World, r: Ref) {
    r in Observe(w.trace).reported && Dropped(r) !in w.trace
  }

  /** The table holds exactly what the listener knows of; flags follow the ledger; the books balance. */
  ghost predicate Settled(w: World) {
    && FlagsAgree(w)
    && Balanced(w)
    && forall r :: Alive(w, r) <==> Known(w, r)
  }

  /** The same while `validated` channels await confirmation: they are in the table and unreported. */
  ghost predicate Awaiting(w: World, validated: seq<Ref>) {
    && FlagsAgree(w)
    && Balanced(w)
    && AllAlive(w, validated)
    && forall r :: Alive(w, r) <==> Known(w, r) || r in validated
  }

  /** An action that makes or takes out no channel. */
  predicate Outward(a: Action) {
    !a.Made? && !a.Dropped? && !a.Closed?
  }

  /** An action that says nothing about which channels there are or who owns them. */
  predicate Neutral(v: View, a: Action) {
    && Outward(a)
    && NextReported(v.reported, a) == v.reported
    && NextLedger(v.ledger, a).granted == v.ledger.granted
  }

  lemma NoteTable(w: World, a: Action)
    requires Outward(a)
    ensures Balanced(w) ==> Balanced(Note(w, a))
    ensures forall r :: Alive(Note(w, a), r) == Alive(w, r)
    ensures forall r :: Dropped(r) in Note(w, a).trace <==> Dropped(r) in w.trace
  {
    hide Observe;
    if Balanced(w) { NoteKeepsBalance(w, a); }
  }

  lemma NeutralKeeps(w: World, a: Action, validated: seq<Ref>)
    requires Neutral(Observe(w.trace), a)
    ensures Settled(w) ==> Settled(Note(w, a))
    ensures Awaiting(w, validated) ==> Awaiting(Note(w, a), validated)
  {
    hide Observe;
    ObserveNote(w, a);
    NoteTable(w, a);
    forall r ensures Known(Note(w, a), r) == Known(w, r) {}
  }

  /** The trace has nothing open that would belong to a particular state. */
  predicate Quiet(v: View) {
    !v.ledger.confirming && v.ledger.asked == None && v.ledger.yielding == None
  }

  // ---------------------------------------------------------------- validation

  /** The table and the reports, after a validation that returned. */
  lemma ValidatedReports(w: World, s: seq<ChannelResponse>, r: Ref)
    requires w.status == Running && Settled(w)
    requires var v := Validate(w, s); v.world.status == Running && AllAlive(v.world, v.result)
    ensures var v := Validate(w, s); Alive(v.world, r) <==> Known(v.world, r) || r in v.result
  {
    hide Observe;
    var v := Validate(w, s);
    ValidateAlive(w, s, r);
    ValidateObserved(w, s);
    ValidateRemembersDrops(w, s, r);
    assert r in v.result ==> Alive(v.world, r);
  }

  lemma {:induction false} ValidateRemembersDrops(w: World, s: seq<ChannelResponse>, r: Ref)
    ensures Dropped(r) in w.trace ==> Dropped(r) in Validate(w, s).world.trace
  {
    if s != [] {
      ValidateRemembersDrops(w, Front(s), r);
    }
  }

  /**
   However a validation ends, the listener knows of the channels that were there before, and of no other: after an
   exception the accepted ones and the one that was being opened are in the table unreported, for good.
   */
  lemma ValidationReportsNothing(w: World, s: seq<ChannelResponse>, r: Ref)
    requires Settled(w) && Alive(Validate(w, s).world, r)
    ensures Known(Validate(w, s).world, r) <==> Alive(w, r)
  {
    hide Observe;
    ValidateKeepsBalance(w, s);
    AliveIsNotDropped(Validate(w, s).world, r);
    ValidateObserved(w, s);
    ValidateRemembersDrops(w, s, r);
    hide Validate;
    hide Balanced;
  }

  lemma ValidatedAwait(w: World, s: seq<ChannelResponse>)
    requires w.status == Running && Settled(w)
    requires var v := Validate(w, s); v.world.status == Running && AllAlive(v.world, v.result)
    ensures Awaiting(Validate(w, s).world, Validate(w, s).result)
  {
    hide Observe;
    hide Validate;
    var v := Validate(w, s);
    forall r ensures Alive(v.world, r) <==> Known(v.world, r) || r in v.result {
      ValidatedReports(w, s, r);
    }
    ValidateObserved(w, s);
    ValidateKeepsBalance(w, s);
  }

  /**
   A validation makes the listener's picture of a live channel wrong exactly when some description of
   its id fails: the channel is then erased without a word.
   */
  lemma ForgottenExactly(w: World, s: seq<ChannelResponse>, r: Ref)
    requires w.status == Running && Balanced(w) && Alive(w, r)
    requires Validate(w, s).world.status == Running
    ensures Dropped(r) in Validate(w, s).world.trace <==> SomeFailure(s, r.id)
  {
    ValidateAlive(w, s, r);
    ValidateFlags(w, s, r.id);
    assert Times(w, Made(r)) <= if r.incarnation < w.made then 1 else 0;
    assert Times(w, Made(r)) == 1 + Times(w, Dropped(r)) + Times(w, Closed(r));
  }

  // ---------------------------------------------------------------- reporting

  /** Telling the listener of the channels it did not know of. */
  lemma NowReported(w: World, validated: seq<Ref>)
    requires Awaiting(w, validated)
    ensures Settled(Tell(w, ChannelsOpened(validated)))
    ensures Observe(Tell(w, ChannelsOpened(validated)).trace) ==
            NextView(Observe(w.trace), Told(ChannelsOpened(validated)))
  {
    hide Observe;
    var told := Tell(w, ChannelsOpened(validated));
    ObserveNote(w, Told(ChannelsOpened(validated)));
    NoteTable(w, Told(ChannelsOpened(validated)));
    forall r ensures Alive(told, r) <==> Known(told, r) {
      if Alive(w, r) { AliveIsNotDropped(w, r); }
    }
  }

  lemma CloseAlive(w: World, ids: seq<int>, r: Ref)
    ensures Alive(Close(w, ids), r) <==> Alive(w, r) && r.id !in ids
  {
    CloseMembers(w, ids);
  }

  /** Reporting the named channels as closing and then closing them keeps table and reports together. */
  lemma ReportAndClose(w: World, ids: seq<int>)
    requires Settled(w) && AllPresent(w, ids)
    ensures var a := Told(ChannelsClosing(Refs(w, ids))); var after := Close(Note(w, a), ids);
      && Settled(after)
      && Observe(after.trace) == NextView(Observe(w.trace), a)
      && after.status == w.status
  {
    hide Observe;
    hide Close;
    var a := Told(ChannelsClosing(Refs(w, ids)));
    var told := Note(w, a);
    ObserveNote(w, a);
    NoteTable(w, a);
    CloseObserved(told, ids);
    CloseKeepsBalance(told, ids);
    CloseMembers(told, ids);
    forall r ensures Alive(Close(told, ids), r) <==> Known(Close(told, ids), r) {
      ReportAndCloseOne(w, ids, r);
    }
  }

  lemma ReportAndCloseOne(w: World, ids: seq<int>, r: Ref)
    requires Settled(w) && AllPresent(w, ids)
    ensures var after := Close(Note(w, Told(ChannelsClosing(Refs(w, ids)))), ids);
      Alive(after, r) <==> Known(after, r)
  {
    hide Observe;
    hide Close;
    var told := Note(w, Told(ChannelsClosing(Refs(w, ids))));
    ObserveNote(w, Told(ChannelsClosing(Refs(w, ids))));
    CloseObserved(told, ids);
    CloseAlive(told, ids, r);
    CloseDropsNothing(told, ids, r);
    assert Alive(told, r) == Alive(w, r);
    if Alive(w, r) { NamedRefs(w, ids, r); }
  }

  lemma NamedRefs(w: World, ids: seq<int>, r: Ref)
    requires AllPresent(w, ids) && Alive(w, r)
    ensures r in Refs(w, ids) <==> r.id in ids
  {
    if r.id in ids {
      var i :| 0 <= i < |ids| && ids[i] == r.id;
      assert Refs(w, ids)[i] == r;
    }
  }
}
