/** What the observers' verdicts say of a trace, position by position. */
module TraceMeaning {
  import opened Messages
  import opened Channels
  import opened ChannelTheory
  import opened Observers

  lemma ObservePrefix(t: seq<Action>, i: nat)
    requires i < |t|
    ensures Observe(t[..i + 1]) == NextView(Observe(t[..i]), t[i])
  {
    assert Front(t[..i + 1]) == t[..i];
  }

  /** A wrong use is never forgotten. */
  lemma {:induction false} VerdictsLast(t: seq<Action>, i: nat)
    requires i <= |t|
    ensures Observe(t).stream != Broken ==> Observe(t[..i]).stream != Broken
    ensures Observe(t).pending != Overlap ==> Observe(t[..i]).pending != Overlap
  {
    if i < |t| {
      VerdictsLast(Front(t), i);
      assert Front(t)[..i] == t[..i];
    } else {
      assert t[..i] == t;
    }
  }

  // ---------------------------------------------------------------- procedures

  predicate ConcludedAt(t: seq<Action>, i: int, k: int)
    requires 0 <= i < |t| && 0 <= k < |t| && t[i].Sent?
  {
    t[k].In? && t[k].event.Received? && Concludes(t[i].message.command, t[k].event.message)
  }

  /** The procedure begun at `i` was not concluded before `j`, so the observer still has it. */
  lemma {:induction false} StillPending(t: seq<Action>, i: nat, j: nat)
    requires i < j <= |t| && IsRequest(t[i])
    requires Observe(t[..j]).pending != Overlap
    requires forall k :: i < k < j ==> !ConcludedAt(t, i, k)
    ensures var p := Observe(t[..j]).pending;
      match t[i].message.command
      case AddChannels => p == Adding || p == Confirming
      case RemoveChannels => p == Removing
      case _ => p == Asking
  {
    ObservePrefix(t, j - 1);
    VerdictsLast(t[..j], j - 1);
    assert t[..j][..j - 1] == t[..j - 1];
    hide Observe;
    if i < j - 1 {
      StillPending(t, i, j - 1);
      assert !ConcludedAt(t, i, j - 1);
    }
  }

  /** Between any two requests in the trace the server concluded the first. */
  lemma RequestsTakeTurns(t: seq<Action>, i: nat, j: nat)
    requires Observe(t).pending != Overlap
    requires i < j < |t| && IsRequest(t[i]) && IsRequest(t[j])
    ensures exists k :: i < k < j && ConcludedAt(t, i, k)
  {
    if forall k :: i < k < j ==> !ConcludedAt(t, i, k) {
      VerdictsLast(t, j);
      VerdictsLast(t, j + 1);
      StillPending(t, i, j);
      ObservePrefix(t, j);
      assert false;
    }
  }

  // ---------------------------------------------------------------- the stream

  predicate Border(a: Action) {
    a.StreamOpened? || a.StreamClosed?
  }

  /** The stream was opened at `o` and neither opened nor closed since, up to `i`. */
  predicate OpenSince(t: seq<Action>, o: int, i: int)
    requires 0 <= i <= |t|
  {
    0 <= o < i && t[o].StreamOpened? && forall k :: o < k < i ==> !Border(t[k])
  }

  predicate NothingSent(t: seq<Action>, o: int, i: int)
    requires 0 <= o <= i <= |t|
  {
    forall k :: o < k < i ==> !t[k].Sent?
  }

  lemma {:induction false} StreamMeans(t: seq<Action>, i: nat)
    requires i <= |t| && Observe(t[..i]).stream != Broken
    ensures var s := Observe(t[..i]).stream;
      && (s == Shut ==> forall o :: 0 <= o < i && t[o].StreamOpened? ==> exists k :: o < k < i && t[k].StreamClosed?)
      && (s != Shut ==> exists o :: OpenSince(t, o, i) && (s == Fresh <==> NothingSent(t, o, i)))
  {
    if i > 0 {
      ObservePrefix(t, i - 1);
      VerdictsLast(t[..i], i - 1);
      assert t[..i][..i - 1] == t[..i - 1];
      StreamMeans(t, i - 1);
      hide Observe;
      var before := Observe(t[..i - 1]).stream;
      var a := t[i - 1];
      if a.StreamOpened? {
        assert OpenSince(t, i - 1, i) && NothingSent(t, i - 1, i);
      } else if !a.StreamClosed? && before != Shut {
        var o :| OpenSince(t, o, i - 1) && (before == Fresh <==> NothingSent(t, o, i - 1));
        assert OpenSince(t, o, i);
        if before == Fresh && a.Sent? { assert !NothingSent(t, o, i); }
        if before == Live { assert !NothingSent(t, o, i); }
      } else if a.StreamClosed? {
        assert t[i - 1].StreamClosed?;
      }
    }
  }

  /** Every message goes out on an open stream, and the first one on it, no other, is SETUP. */
  lemma SentOnOpenStream(t: seq<Action>, i: nat)
    requires Observe(t).stream != Broken && i < |t| && t[i].Sent?
    ensures exists o :: OpenSince(t, o, i) && (t[i].message.command == Setup <==> NothingSent(t, o, i))
  {
    VerdictsLast(t, i);
    VerdictsLast(t, i + 1);
    ObservePrefix(t, i);
    StreamMeans(t, i);
  }

  /** Openings and closings alternate, beginning with an opening. */
  lemma BordersAlternate(t: seq<Action>, i: nat)
    requires Observe(t).stream != Broken && i < |t|
    ensures t[i].StreamClosed? ==> exists o :: OpenSince(t, o, i)
    ensures t[i].StreamOpened? ==>
              forall o :: 0 <= o < i && t[o].StreamOpened? ==> exists k :: o < k < i && t[k].StreamClosed?
  {
    VerdictsLast(t, i);
    VerdictsLast(t, i + 1);
    ObservePrefix(t, i);
    StreamMeans(t, i);
  }

  // ---------------------------------------------------------------- what the listener was told

  predicate TellsOpened(a: Action, r: Ref) {
    a.Told? && a.news.ChannelsOpened? && r in a.news.channels
  }

  predicate TellsClosing(a: Action, r: Ref) {
    a.Told? && a.news.ChannelsClosing? && r in a.news.channels
  }

  /** Before `n` channel `r` was reported as opened, and has not been reported as closing since. */
  predicate ReportStands(t: seq<Action>, n: nat, r: Ref)
    requires n <= |t|
  {
    exists k :: 0 <= k < n && TellsOpened(t[k], r) && forall i :: k < i < n ==> !TellsClosing(t[i], r)
  }

  lemma ReportStandsStep(t: seq<Action>, n: nat, r: Ref)
    requires n < |t|
    ensures ReportStands(t, n + 1, r) <==> TellsOpened(t[n], r) || (ReportStands(t, n, r) && !TellsClosing(t[n], r))
  {
    hide TellsOpened;
    hide TellsClosing;
  }

  lemma ReportedStep(t: seq<Action>, n: nat, r: Ref)
    requires n < |t|
    ensures r in Observe(t[..n + 1]).reported <==>
            TellsOpened(t[n], r) || (r in Observe(t[..n]).reported && !TellsClosing(t[n], r))
  {
    ObservePrefix(t, n);
    hide Observe;
  }

  lemma {:induction false} ReportedMeans(t: seq<Action>, n: nat, r: Ref)
    requires n <= |t|
    ensures r in Observe(t[..n]).reported <==> ReportStands(t, n, r)
  {
    if n > 0 {
      hide *;
      var m := n - 1;
      ReportedMeans(t, m, r);
      ReportedStep(t, m, r);
      ReportStandsStep(t, m, r);
    } else {
      assert t[..0] == [];
    }
  }
}
