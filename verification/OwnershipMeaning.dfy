/**
 What the ownership ledger's verdict means, position by position: which message at which place in the trace
 is a grant of a channel, which is a revocation, and which had the last word.
 */
module OwnershipMeaning {
  import opened Messages
  import opened Channels
  import opened ChannelTheory
  import opened Observers
  import opened TraceMeaning

  predicate Receives(a: Action, command: Command) {
    a.In? && a.event.Received? && a.event.message.command == command
  }

  predicate ReceivesAccepted(a: Action, command: Command) {
    Receives(a, command) && a.event.message.response == Accepted
  }

  // ---------------------------------------------------------------- what is under way at a position

  predicate AnnouncesReady(a: Action) {
    a.Sent? && a.message.command == ChannelsReady
  }

  /** Before position `n` CHANNELS_READY was sent, and it has not been confirmed since. */
  predicate ReadyOpen(t: seq<Action>, n: nat)
    requires n <= |t|
  {
    exists k :: 0 <= k < n && AnnouncesReady(t[k]) && forall i :: k < i < n ==> !ReceivesAccepted(t[i], ChannelsReady)
  }

  predicate AsksFor(a: Action, id: int) {
    a.Sent? && a.message.command == RequestControl && a.message.ids != [] && a.message.ids[0] == id
  }

  predicate EndsAsking(a: Action) {
    || (a.Sent? && a.message.command == RequestControl && a.message.ids != [])
    || ReceivesAccepted(a, ControlReady)
    || (Receives(a, RequestControl) && a.event.message.response != Accepted)
  }

  /**
   The last REQUEST_CONTROL before position `n` was for `id`, and the handover has neither come nor
   been refused since.
   */
  predicate AskedFor(t: seq<Action>, n: nat, id: int)
    requires n <= |t|
  {
    exists k :: 0 <= k < n && AsksFor(t[k], id) && forall i :: k < i < n ==> !EndsAsking(t[i])
  }

  predicate EndsYielding(a: Action) {
    || (a.Told? && a.news.ReleaseAsked?)
    || Receives(a, ControlReleased)
    || (a.In? && a.event.User? && a.event.user.ReleaseRejected?)
  }

  /** The user was last asked to give up `id`, has not refused, and it has not been taken since. */
  predicate YieldingOf(t: seq<Action>, n: nat, id: int)
    requires n <= |t|
  {
    exists k :: 0 <= k < n && t[k] == Told(ReleaseAsked(id)) && forall i :: k < i < n ==> !EndsYielding(t[i])
  }

  // ---------------------------------------------------------------- grants and revocations

  /** The message at `k` grants `id`: a confirmation that names it, or the handover that was asked for. */
  predicate Grants(t: seq<Action>, k: nat, id: int)
    requires k < |t|
  {
    || (ReceivesAccepted(t[k], ChannelsReady) && ReadyOpen(t, k) && id in t[k].event.message.ids)
    || (ReceivesAccepted(t[k], ControlReady) && AskedFor(t, k, id))
  }

  predicate Revokes(t: seq<Action>, k: nat, id: int)
    requires k < |t|
  {
    Receives(t[k], ControlReleased) && YieldingOf(t, k, id)
  }

  predicate Makes(a: Action, id: int) {
    a.Made? && a.ref.id == id
  }

  /** Some message after `born` grants `id`, and none after that one revokes it. */
  predicate HeldSince(t: seq<Action>, born: int, id: int) {
    exists k :: 0 <= k < |t| && born < k && Grants(t, k, id) && forall i :: k < i < |t| ==> !Revokes(t, i, id)
  }

  // ---------------------------------------------------------------- the ledger

  lemma LedgerPrefix(t: seq<Action>, n: nat)
    requires n < |t|
    ensures Observe(t[..n + 1]).ledger == NextLedger(Observe(t[..n]).ledger, t[n])
  {
    ObservePrefix(t, n);
  }

  lemma LedgerConfirms(l: Ledger, a: Action)
    ensures NextLedger(l, a).confirming <==>
            AnnouncesReady(a) || (l.confirming && !ReceivesAccepted(a, ChannelsReady))
  {
  }

  lemma LedgerAsks(l: Ledger, a: Action, id: int)
    ensures NextLedger(l, a).asked == Some(id) <==> AsksFor(a, id) || (l.asked == Some(id) && !EndsAsking(a))
  {
  }

  lemma LedgerYields(l: Ledger, a: Action, id: int)
    ensures NextLedger(l, a).yielding == Some(id) <==>
            a == Told(ReleaseAsked(id)) || (l.yielding == Some(id) && !EndsYielding(a))
  {
  }

  lemma ReadyStep(t: seq<Action>, n: nat)
    requires n < |t|
    ensures ReadyOpen(t, n + 1) <==>
            AnnouncesReady(t[n]) || (ReadyOpen(t, n) && !ReceivesAccepted(t[n], ChannelsReady))
  {
    hide AnnouncesReady;
    hide ReceivesAccepted;
  }

  lemma {:induction false} ConfirmingMeans(t: seq<Action>, n: nat)
    requires n <= |t|
    ensures Observe(t[..n]).ledger.confirming <==> ReadyOpen(t, n)
  {
    if n > 0 {
      ConfirmingMeans(t, n - 1);
      ReadyStep(t, n - 1);
      LedgerPrefix(t, n - 1);
      hide Observe;
      hide ReadyOpen;
      LedgerConfirms(Observe(t[..n - 1]).ledger, t[n - 1]);
      hide NextLedger;
    }
  }

  lemma AskedStep(t: seq<Action>, n: nat, id: int)
    requires n < |t|
    ensures AskedFor(t, n + 1, id) <==> AsksFor(t[n], id) || (AskedFor(t, n, id) && !EndsAsking(t[n]))
  {
    hide AsksFor;
    hide EndsAsking;
  }

  lemma {:induction false} AskedMeans(t: seq<Action>, n: nat, id: int)
    requires n <= |t|
    ensures Observe(t[..n]).ledger.asked == Some(id) <==> AskedFor(t, n, id)
  {
    if n > 0 {
      AskedMeans(t, n - 1, id);
      AskedStep(t, n - 1, id);
      LedgerPrefix(t, n - 1);
      hide Observe;
      hide AskedFor;
      LedgerAsks(Observe(t[..n - 1]).ledger, t[n - 1], id);
      hide NextLedger;
    }
  }

  lemma YieldingStep(t: seq<Action>, n: nat, id: int)
    requires n < |t|
    ensures YieldingOf(t, n + 1, id) <==>
            t[n] == Told(ReleaseAsked(id)) || (YieldingOf(t, n, id) && !EndsYielding(t[n]))
  {
    hide EndsYielding;
  }

  lemma {:induction false} YieldingMeans(t: seq<Action>, n: nat, id: int)
    requires n <= |t|
    ensures Observe(t[..n]).ledger.yielding == Some(id) <==> YieldingOf(t, n, id)
  {
    if n > 0 {
      YieldingMeans(t, n - 1, id);
      YieldingStep(t, n - 1, id);
      LedgerPrefix(t, n - 1);
      hide Observe;
      hide YieldingOf;
      LedgerYields(Observe(t[..n - 1]).ledger, t[n - 1], id);
      hide NextLedger;
    }
  }

  /** Up to position `n`: a grant, with neither a revocation nor a new channel of that id after it. */
  predicate GrantStands(t: seq<Action>, n: nat, id: int)
    requires n <= |t|
  {
    exists k :: 0 <= k < n && Grants(t, k, id) && forall i :: k < i < n ==> !Revokes(t, i, id) && !Makes(t[i], id)
  }

  /** One action changes the ledger's grants exactly as its position says. */
  lemma GrantStep(t: seq<Action>, n: nat, id: int)
    requires n < |t|
    ensures id in Observe(t[..n + 1]).ledger.granted <==>
            Grants(t, n, id) || (id in Observe(t[..n]).ledger.granted && !Revokes(t, n, id) && !Makes(t[n], id))
  {
    LedgerPrefix(t, n);
    ConfirmingMeans(t, n);
    AskedMeans(t, n, id);
    YieldingMeans(t, n, id);
    hide Observe;
    hide ReadyOpen;
    hide AskedFor;
    hide YieldingOf;
  }

  lemma GrantStandsStep(t: seq<Action>, n: nat, id: int)
    requires n < |t|
    ensures GrantStands(t, n + 1, id) <==>
            Grants(t, n, id) || (GrantStands(t, n, id) && !Revokes(t, n, id) && !Makes(t[n], id))
  {
    hide Grants;
    hide Revokes;
    hide Makes;
  }

  lemma {:induction false} GrantedMeans(t: seq<Action>, n: nat, id: int)
    requires n <= |t|
    ensures id in Observe(t[..n]).ledger.granted <==> GrantStands(t, n, id)
  {
    if n > 0 {
      hide Grants;
      hide Revokes;
      hide Observe;
      hide GrantStands;
      GrantedMeans(t, n - 1, id);
      GrantStep(t, n - 1, id);
      GrantStandsStep(t, n - 1, id);
    } else {
      assert t[..0] == [];
    }
  }

  // ---------------------------------------------------------------- the channel that is live

  lemma {:induction false} NewestMeans(t: seq<Action>, id: int) returns (k: nat)
    requires Newest(t, id).Some?
    ensures k < |t| && t[k] == Made(Ref(id, Newest(t, id).value)) && forall i :: k < i < |t| ==> !Makes(t[i], id)
  {
    if Makes(Last(t), id) {
      k := |t| - 1;
    } else {
      k := NewestMeans(Front(t), id);
      assert forall i :: k < i < |Front(t)| ==> t[i] == Front(t)[i];
    }
  }

  lemma TwiceCounts(t: seq<Action>, i: nat, j: nat)
    requires i < j < |t| && t[i] == t[j]
    ensures multiset(t)[t[i]] >= 2
  {
    assert t == t[..j] + t[j..];
    assert t[..j][i] in multiset(t[..j]) && t[j..][0] in multiset(t[j..]);
  }

  /** Nothing else is made under the id of a live channel after it. */
  lemma NoneMadeSince(w: World, id: int, born: nat)
    requires Balanced(w) && id in w.channels
    requires born < |w.trace| && w.trace[born] == Made(RefOf(w, id))
    ensures forall i :: born < i < |w.trace| ==> !Makes(w.trace[i], id)
  {
    var k := NewestMeans(w.trace, id);
    var r := RefOf(w, id);
    assert Times(w, Made(r)) <= if r.incarnation < w.made then 1 else 0;
    assert Makes(w.trace[born], id);
    if born < k { TwiceCounts(w.trace, born, k); }
  }

  /** For a live channel the ledger's grants are the grants since it was made. */
  lemma LiveGrantMeans(w: World, id: int, born: nat)
    requires Balanced(w) && id in w.channels
    requires born < |w.trace| && w.trace[born] == Made(RefOf(w, id))
    ensures id in Observe(w.trace).ledger.granted <==> HeldSince(w.trace, born, id)
  {
    var t := w.trace;
    assert t[..|t|] == t;
    GrantedMeans(t, |t|, id);
    NoneMadeSince(w, id, born);
    hide Observe;
    if GrantStands(t, |t|, id) {
      var k :| 0 <= k < |t| && Grants(t, k, id) && forall i :: k < i < |t| ==> !Revokes(t, i, id) && !Makes(t[i], id);
      assert Makes(t[born], id);
      assert k != born;
      hide Grants;
      assert HeldSince(t, born, id);
    }
  }
}
