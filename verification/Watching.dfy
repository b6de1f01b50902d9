/**
 In which order things are done to channels and said about them. An observer of the trace alone: it knows
 which channels there are, which were reported as closing since the last event was taken in, whether the
 server was told anything since, and whether the stream was closed since.
 */
module Watching {
  import opened Messages
  import opened Channels
  import opened ChannelTheory

  /** `proper`: nothing was made twice, removed without being there, closed unreported, or told too early. */
  datatype Watch = Watch(ever: set<Ref>, live: set<Ref>, closing: set<Ref>, sent: bool, shut: bool, proper: bool)

  predicate Proper(v: Watch, a: Action) {
    match a
    case Made(r) => r !in v.ever
    case Dropped(r) => r in v.live
    case Closed(r) => r in v.live && r in v.closing && !v.sent
    case Told(n) =>
      && (n.ChannelsClosing? ==> forall r :: r in n.channels ==> r in v.live)
      && (n.Released? ==> v.shut)
    case _ => true
  }

  function NextWatch(v: Watch, a: Action): Watch {
    var u := v.(proper := v.proper && Proper(v, a));
    match a
    case Made(r) => u.(ever := v.ever + {r}, live := v.live + {r})
    case Dropped(r) => u.(live := v.live - {r})
    case Closed(r) => u.(live := v.live - {r})
    case Told(n) => if n.ChannelsClosing? then u.(closing := v.closing + set r | r in n.channels) else u
    case Sent(_) => u.(sent := true)
    case StreamClosed => u.(shut := true)
    case In(_) => u.(closing := {}, sent := false, shut := false)
    case _ => u
  }

  function Watched(t: seq<Action>): Watch {
    if t == [] then Watch({}, {}, {}, false, false, true) else NextWatch(Watched(Front(t)), Last(t))
  }

  lemma WatchNote(w: World, a: Action)
    ensures Watched(Note(w, a).trace) == NextWatch(Watched(w.trace), a)
  {
    assert Front(w.trace + [a]) == w.trace;
  }

  // ---------------------------------------------------------------- what every operation keeps

  /** All was proper, and the channels that the observer knows of are those of the table. */
  ghost predicate Keen(w: World) {
    var v := Watched(w.trace);
    && v.proper
    && (forall r :: r in v.live <==> Alive(w, r))
    && (forall r :: r in v.ever ==> r.incarnation < w.made)
  }

  /** Nothing was sent since the last event was taken in. */
  predicate Unsent(w: World) {
    !Watched(w.trace).sent
  }

  /** An action that is proper at any time and leaves the table alone. */
  predicate Harmless(a: Action) {
    !a.Made? && !a.Dropped? && !a.Closed? && !(a.Told? && (a.news.ChannelsClosing? || a.news.Released?))
  }

  lemma NoteKeen(w: World, a: Action)
    requires Keen(w) && Harmless(a)
    ensures Keen(Note(w, a))
    ensures a.In? ==> Unsent(Note(w, a))
    ensures !a.Sent? && Unsent(w) ==> Unsent(Note(w, a))
  {
    WatchNote(w, a);
    hide Watched;
    assert forall r :: Alive(Note(w, a), r) == Alive(w, r);
  }

  /** The same for every harmless action at once. */
  lemma Watches()
    ensures forall w: World, a: Action {:trigger Note(w, a)} :: Keen(w) && Harmless(a) ==> Keen(Note(w, a))
  {
    forall w: World, a: Action {:trigger Note(w, a)} | Keen(w) && Harmless(a)
      ensures Keen(Note(w, a))
    {
      NoteKeen(w, a);
    }
  }

  lemma StatusKeen(w: World, status: Status)
    requires Keen(w)
    ensures Keen(w.(status := status)) && (Unsent(w) ==> Unsent(w.(status := status)))
  {
    assert forall r :: Alive(w.(status := status), r) == Alive(w, r);
  }

  lemma EmplaceKeen(w: World, id: int)
    requires Keen(w)
    ensures Keen(Emplace(w, id))
  {
    if id !in w.channels {
      var wider := w.(channels := w.channels[id := Entry(w.made, false)], made := w.made + 1);
      var r := Ref(id, w.made);
      WatchNote(wider, Made(r));
      hide Watched;
      assert forall k :: Alive(Note(wider, Made(r)), k) <==> Alive(w, k) || k == r;
    }
  }

  lemma DropKeen(w: World, id: int)
    requires Keen(w) && id in w.channels
    ensures Keen(Drop(w, id))
  {
    var rest := w.(channels := w.channels - {id});
    var r := RefOf(w, id);
    WatchNote(rest, Dropped(r));
    hide Watched;
    assert Alive(w, r);
    assert forall k :: Alive(Note(rest, Dropped(r)), k) <==> Alive(w, k) && k != r;
  }

  lemma ValidateOneKeen(v: Validation, c: ChannelResponse)
    requires Keen(v.world)
    ensures Keen(ValidateOne(v, c).world)
  {
    hide Keen;
    var e := Emplace(v.world, c.id);
    EmplaceKeen(v.world, c.id);
    DropKeen(e, c.id);
    StatusKeen(v.world, Threw);
    StatusKeen(e, Threw);
  }

  lemma {:induction false} ValidateKeen(w: World, s: seq<ChannelResponse>)
    requires Keen(w)
    ensures Keen(Validate(w, s).world)
  {
    if s != [] {
      hide Keen;
      ValidateKeen(w, Front(s));
      ValidateOneKeen(Validate(w, Front(s)), Last(s));
    }
  }

  lemma SetOwnedKeen(w: World, ids: seq<int>)
    requires Keen(w) && w.status == Running
    ensures Keen(SetOwned(w, ids))
  {
    SetOwnedMeaning(w, ids);
    hide SetOwned;
    hide Watched;
    assert forall r :: Alive(SetOwned(w, ids), r) == Alive(w, r);
  }

  lemma SetOwnedOneKeen(w: World, id: int, owned: bool)
    requires Keen(w)
    ensures Keen(SetOwnedOne(w, id, owned))
  {
    hide Watched;
    assert forall r :: Alive(SetOwnedOne(w, id, owned), r) == Alive(w, r);
  }

  /** Every live channel named was reported as closing, in the event being handled; nothing was sent since. */
  ghost predicate Announced(w: World, ids: seq<int>) {
    && Unsent(w)
    && forall id :: id in ids && id in w.channels ==> RefOf(w, id) in Watched(w.trace).closing
  }

  lemma CloseOneKeen(w: World, id: int, ids: seq<int>)
    requires Keen(w) && Announced(w, ids) && id in ids
    ensures Keen(CloseOne(w, id)) && Announced(CloseOne(w, id), ids)
  {
    if id in w.channels {
      var rest := w.(channels := w.channels - {id});
      var r := RefOf(w, id);
      WatchNote(rest, Closed(r));
      hide Watched;
      assert Alive(w, r);
      assert forall k :: Alive(Note(rest, Closed(r)), k) <==> Alive(w, k) && k != r;
      assert forall k :: k in rest.channels ==> RefOf(CloseOne(w, id), k) == RefOf(w, k);
    }
  }

  lemma {:induction false} CloseKeen(w: World, some: seq<int>, ids: seq<int>)
    requires Keen(w) && Announced(w, ids) && forall i :: 0 <= i < |some| ==> some[i] in ids
    ensures Keen(Close(w, some)) && Announced(Close(w, some), ids)
  {
    if some != [] {
      hide Keen;
      hide Announced;
      CloseKeen(w, Front(some), ids);
      CloseOneKeen(Close(w, Front(some)), Last(some), ids);
    }
  }

  /** Telling the listener which channels close, and then closing them. */
  lemma ReportAndCloseKeen(w: World, ids: seq<int>)
    requires Keen(w) && Unsent(w) && AllPresent(w, ids)
    ensures Keen(Close(Tell(w, ChannelsClosing(Refs(w, ids))), ids))
  {
    var told := Tell(w, ChannelsClosing(Refs(w, ids)));
    TellClosingKeen(w, ids);
    hide Keen;
    CloseKeen(told, ids, ids);
  }

  lemma TellClosingKeen(w: World, ids: seq<int>)
    requires Keen(w) && Unsent(w) && AllPresent(w, ids)
    ensures var told := Tell(w, ChannelsClosing(Refs(w, ids))); Keen(told) && Announced(told, ids)
  {
    var refs := Refs(w, ids);
    var told := Tell(w, ChannelsClosing(refs));
    WatchNote(w, Told(ChannelsClosing(refs)));
    hide Watched;
    assert forall r :: Alive(told, r) == Alive(w, r);
    forall r | r in refs ensures Alive(w, r) {
      var i :| 0 <= i < |refs| && refs[i] == r;
    }
    forall id | id in ids && id in told.channels ensures RefOf(told, id) in Watched(told.trace).closing {
      var i :| 0 <= i < |ids| && ids[i] == id;
      assert refs[i] == RefOf(told, id) && refs[i] in refs;
    }
  }

  /** The listener hears of the release once the stream is closed. */
  lemma ReleasedKeen(w: World)
    requires Keen(w)
    ensures Keen(Tell(Note(w, StreamClosed), Released))
  {
    NoteKeen(w, StreamClosed);
    WatchNote(w, StreamClosed);
    WatchNote(Note(w, StreamClosed), Told(Released));
    hide Watched;
    assert forall r :: Alive(Tell(Note(w, StreamClosed), Released), r) == Alive(Note(w, StreamClosed), r);
  }

  // ---------------------------------------------------------------- what it means, position by position

  lemma WatchPrefix(t: seq<Action>, n: nat)
    requires n < |t|
    ensures Watched(t[..n + 1]) == NextWatch(Watched(t[..n]), t[n])
  {
    assert Front(t[..n + 1]) == t[..n];
  }

  lemma {:induction false} ProperThroughout(t: seq<Action>, n: nat)
    requires Watched(t).proper && n < |t|
    ensures Proper(Watched(t[..n]), t[n]) && Watched(t[..n]).proper
  {
    if n < |t| - 1 {
      ProperThroughout(Front(t), n);
      assert Front(t)[..n] == t[..n];
    }
  }

  /** Channel `r` was made at some position before `n`, and neither closed nor dropped anywhere before `n`. */
  predicate LiveAt(t: seq<Action>, n: nat, r: Ref)
    requires n <= |t|
  {
    && (exists k :: 0 <= k < n && t[k] == Made(r))
    && (forall k :: 0 <= k < n ==> t[k] != Closed(r) && t[k] != Dropped(r))
  }

  predicate Untouched(t: seq<Action>, n: nat, r: Ref)
    requires n <= |t|
  {
    forall k :: 0 <= k < n ==> t[k] != Made(r) && t[k] != Closed(r) && t[k] != Dropped(r)
  }

  lemma {:induction false} WatchedMeans(t: seq<Action>, n: nat, r: Ref)
    requires n <= |t| && Watched(t[..n]).proper
    ensures r in Watched(t[..n]).live ==> r in Watched(t[..n]).ever
    ensures r !in Watched(t[..n]).ever ==> Untouched(t, n, r)
    ensures r in Watched(t[..n]).live ==> LiveAt(t, n, r)
  {
    if n > 0 {
      var m := n - 1;
      WatchPrefix(t, m);
      hide Watched;
      WatchedMeans(t, m, r);
      assert t[m] == Made(r) ==> LiveAt(t, n, r);
    } else {
      assert t[..0] == [];
    }
  }

  /** Since `k` no event was taken in, up to `n`. */
  predicate SameEvent(t: seq<Action>, k: int, n: int)
    requires 0 <= k <= n <= |t|
  {
    forall i :: k < i < n ==> !t[i].In?
  }

  predicate ClosingTold(a: Action, r: Ref) {
    a.Told? && a.news.ChannelsClosing? && r in a.news.channels
  }

  lemma {:induction false} ClosingMeans(t: seq<Action>, n: nat, r: Ref)
    requires n <= |t| && r in Watched(t[..n]).closing
    ensures exists k :: 0 <= k < n && ClosingTold(t[k], r) && SameEvent(t, k, n)
  {
    assert t[..0] == [];
    if n > 0 {
      var m := n - 1;
      WatchPrefix(t, m);
      hide Watched;
      if ClosingTold(t[m], r) {
        assert SameEvent(t, m, n);
      } else {
        ClosingMeans(t, m, r);
        var k :| 0 <= k < m && ClosingTold(t[k], r) && SameEvent(t, k, m);
        assert SameEvent(t, k, n);
      }
    }
  }

  lemma {:induction false} UnsentMeans(t: seq<Action>, n: nat)
    requires n <= |t| && !Watched(t[..n]).sent
    ensures forall k :: 0 <= k < n && t[k].Sent? ==> exists i :: k < i < n && t[i].In?
  {
    if n > 0 {
      var m := n - 1;
      WatchPrefix(t, m);
      hide Watched;
      if !t[m].In? { UnsentMeans(t, m); }
    }
  }

  lemma {:induction false} ShutMeans(t: seq<Action>, n: nat)
    requires n <= |t| && Watched(t[..n]).shut
    ensures exists k :: 0 <= k < n && t[k].StreamClosed? && SameEvent(t, k, n)
  {
    assert t[..0] == [];
    if n > 0 {
      var m := n - 1;
      WatchPrefix(t, m);
      hide Watched;
      if t[m].StreamClosed? {
        assert SameEvent(t, m, n);
      } else {
        ShutMeans(t, m);
        var k :| 0 <= k < m && t[k].StreamClosed? && SameEvent(t, k, m);
        assert SameEvent(t, k, n);
      }
    }
  }

  // ---------------------------------------------------------------- what a proper trace promises

  /** A channel that the listener is told is closing was made before and is still there. */
  lemma ToldWhileLive(t: seq<Action>, i: nat, r: Ref)
    requires Watched(t).proper && i < |t| && ClosingTold(t[i], r)
    ensures LiveAt(t, i, r)
  {
    ProperThroughout(t, i);
    WatchedMeans(t, i, r);
  }

  /** A channel is closed after the listener was told, in the same event, and before the server is sent anything. */
  lemma ClosedAfterTold(t: seq<Action>, i: nat, r: Ref)
    requires Watched(t).proper && i < |t| && t[i] == Closed(r)
    ensures LiveAt(t, i, r)
    ensures exists k :: 0 <= k < i && ClosingTold(t[k], r) && SameEvent(t, k, i)
    ensures forall k :: 0 <= k < i && t[k].Sent? ==> exists n :: k < n < i && t[n].In?
  {
    ProperThroughout(t, i);
    WatchedMeans(t, i, r);
    ClosingMeans(t, i, r);
    UnsentMeans(t, i);
  }

  /** The listener hears of the release after the stream was closed, in the same event. */
  lemma ReleasedAfterClosing(t: seq<Action>, i: nat)
    requires Watched(t).proper && i < |t| && t[i] == Told(Released)
    ensures exists k :: 0 <= k < i && t[k].StreamClosed? && SameEvent(t, k, i)
  {
    ProperThroughout(t, i);
    ShutMeans(t, i);
  }
}
