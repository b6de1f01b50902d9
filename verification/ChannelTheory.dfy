/**
 What the loops of the channels handler amount to, for every list: with repeats, with ids already
 in the table and with ids that are not.
 */
module ChannelTheory {
  import opened Messages
  import opened Channels

  /** The part of `s` before its last element. */
  function Front<T>(s: seq<T>): seq<T>
    requires s != []
  {
    s[..|s| - 1]
  }

  function Last<T>(s: seq<T>): T
    requires s != []
  {
    s[|s| - 1]
  }

  // ---------------------------------------------------------------- validation

  /** A validation leaves by an exception exactly when some description in the list throws. */
  lemma {:induction false} ValidateThrowsExactly(w: World, s: seq<ChannelResponse>)
    requires w.status == Running
    ensures Validate(w, s).world.status == if exists i :: 0 <= i < |s| && Throws(s[i]) then Threw else Running
  {
    if s != [] {
      ValidateThrowsExactly(w, Front(s));
      assert forall i :: 0 <= i < |Front(s)| ==> Front(s)[i] == s[i];
      if exists i :: 0 <= i < |s| && Throws(s[i]) {
        var i :| 0 <= i < |s| && Throws(s[i]);
        assert i < |s| - 1 ==> Throws(Front(s)[i]);
      }
    }
  }

  lemma LastAcceptedStep(s: seq<ChannelResponse>, id: int)
    requires s != []
    ensures LastAccepted(s, id) <==> if Last(s).id == id then Accepts(Last(s)) else LastAccepted(Front(s), id)
  {
    var n := |s| - 1;
    var f := Front(s);
    assert forall i :: 0 <= i < n ==> f[i] == s[i];
    if LastAccepted(s, id) {
      var i :| 0 <= i < |s| && s[i].id == id && Accepts(s[i]) && forall j :: i < j < |s| ==> s[j].id != id;
      assert s[n].id == id ==> i == n;
      if s[n].id != id { assert f[i].id == id && Accepts(f[i]); }
    }
    if s[n].id != id && LastAccepted(f, id) {
      var i :| 0 <= i < |f| && f[i].id == id && Accepts(f[i]) && forall j :: i < j < |f| ==> f[j].id != id;
      assert s[i].id == id && Accepts(s[i]);
      assert forall j :: i < j < |s| ==> j == n || s[j] == f[j];
    }
  }

  /** One more description: how the three list predicates change. */
  lemma ListStep(s: seq<ChannelResponse>, id: int)
    requires s != []
    ensures Listed(s, id) <==> Listed(Front(s), id) || Last(s).id == id
    ensures SomeFailure(s, id) <==> SomeFailure(Front(s), id) || (Last(s).id == id && Fails(Last(s)))
    ensures LastAccepted(s, id) <==> if Last(s).id == id then Accepts(Last(s)) else LastAccepted(Front(s), id)
  {
    hide LastAccepted;
    LastAcceptedStep(s, id);
    var n := |s| - 1;
    var f := Front(s);
    assert forall i :: 0 <= i < n ==> f[i] == s[i];
    if Listed(s, id) && s[n].id != id {
      var i :| 0 <= i < |s| && s[i].id == id;
      assert f[i].id == id;
    }
    if SomeFailure(s, id) && !(s[n].id == id && Fails(s[n])) {
      var i :| 0 <= i < |s| && s[i].id == id && Fails(s[i]);
      assert f[i].id == id && Fails(f[i]);
    }
  }

  /**
   The table after a validation that returned: an id is in it exactly when its last description
   was accepted, or it was there and is not listed.
   */
  lemma {:induction false} ValidateMembers(w: World, s: seq<ChannelResponse>, id: int)
    requires w.status == Running && Validate(w, s).world.status == Running
    ensures id in Validate(w, s).world.channels <==> LastAccepted(s, id) || (id in w.channels && !Listed(s, id))
  {
    if s != [] {
      ValidateMembers(w, Front(s), id);
      ListStep(s, id);
    }
  }

  /**
   The incarnation and the ownership flag of an old channel survive exactly when no description of
   its id failed; every other channel of the new table is a new incarnation and not owned.
   */
  lemma {:induction false} ValidateFlags(w: World, s: seq<ChannelResponse>, id: int)
    requires w.status == Running && Validate(w, s).world.status == Running
    ensures var after := Validate(w, s).world;
      && after.made >= w.made
      && (id in after.channels ==>
        if id in w.channels && !SomeFailure(s, id) then after.channels[id] == w.channels[id]
        else w.made <= after.channels[id].incarnation < after.made && !after.channels[id].owned)
      && (id in w.channels && !SomeFailure(s, id) ==> id in after.channels)
  {
    if s != [] {
      ValidateFlags(w, Front(s), id);
      ListStep(s, id);
    }
  }

  /** The result holds the accepted descriptions, in list order. */
  lemma {:induction false} ValidateResult(w: World, s: seq<ChannelResponse>)
    requires w.status == Running && Validate(w, s).world.status == Running
    ensures RefIds(Validate(w, s).result) == AcceptedIds(s)
  {
    if s != [] {
      ValidateResult(w, Front(s));
    }
  }

  predicate FirstThrow(s: seq<ChannelResponse>, i: nat) {
    i < |s| && Throws(s[i]) && forall j :: 0 <= j < i ==> !Throws(s[j])
  }

  /**
   What an exception leaves: the table as the descriptions before made it, and, if a socket could be built for
   the one that threw, an entry for its id, though it was not validated.
   */
  lemma {:induction false} ThrowLeavesExactly(w: World, s: seq<ChannelResponse>, i: nat)
    requires w.status == Running && FirstThrow(s, i)
    ensures var before := Validate(w, s[..i]);
      && before.world.status == Running
      && Validate(w, s) ==
         Validation(Throw(if HasSocket(s[i]) then Emplace(before.world, s[i].id) else before.world), before.result)
    decreases |s|
  {
    ValidateThrowsExactly(w, s[..i]);
    if i == |s| - 1 {
      assert Front(s) == s[..i];
    } else {
      ThrowLeavesExactly(w, Front(s), i);
      assert Front(s)[..i] == s[..i];
    }
  }

  /** The ids of the table after an exception. */
  lemma ThrowLeavesIds(w: World, s: seq<ChannelResponse>, i: nat)
    requires w.status == Running && FirstThrow(s, i)
    ensures forall id ::
              id in Validate(w, s).world.channels <==>
              || (id == s[i].id && HasSocket(s[i]))
              || LastAccepted(s[..i], id) || (id in w.channels && !Listed(s[..i], id))
  {
    ThrowLeavesExactly(w, s, i);
    hide LastAccepted;
    hide Listed;
    hide Validate;
    forall id { ValidateMembers(w, s[..i], id); }
  }

  /** A description is accepted and a later one of the same id fails: its channel is erased under the pointer to it. */
  predicate PullsAway(s: seq<ChannelResponse>) {
    exists i, j :: 0 <= i < j < |s| && s[i].id == s[j].id && Accepts(s[i]) && Fails(s[j])
  }

  predicate SomeThrow(s: seq<ChannelResponse>) {
    exists k :: 0 <= k < |s| && Throws(s[k])
  }

  /** How validating this list and then naming its channels to the server ends. */
  function Verdicts(s: seq<ChannelResponse>): Status {
    if SomeThrow(s) then Threw else if PullsAway(s) then Undefined else Running
  }

  lemma PullsAwayStep(s: seq<ChannelResponse>)
    requires s != []
    ensures PullsAway(s) <==>
              || PullsAway(Front(s))
              || (Fails(Last(s)) && exists i :: 0 <= i < |s| - 1 && s[i].id == Last(s).id && Accepts(s[i]))
  {
    var f := Front(s);
    assert forall k :: 0 <= k < |f| ==> f[k] == s[k];
    if PullsAway(s) {
      var i, j :| 0 <= i < j < |s| && s[i].id == s[j].id && Accepts(s[i]) && Fails(s[j]);
      if j < |s| - 1 { assert f[i].id == f[j].id && Accepts(f[i]) && Fails(f[j]); }
    }
    if PullsAway(f) {
      var i, j :| 0 <= i < j < |f| && f[i].id == f[j].id && Accepts(f[i]) && Fails(f[j]);
      assert s[i].id == s[j].id && Accepts(s[i]) && Fails(s[j]);
    }
  }

  lemma {:induction false} AcceptedListed(s: seq<ChannelResponse>, id: int)
    ensures id in AcceptedIds(s) <==> exists i :: 0 <= i < |s| && s[i].id == id && Accepts(s[i])
  {
    if s != [] {
      AcceptedListed(Front(s), id);
      assert forall k :: 0 <= k < |Front(s)| ==> Front(s)[k] == s[k];
      if exists i :: 0 <= i < |s| && s[i].id == id && Accepts(s[i]) {
        var i :| 0 <= i < |s| && s[i].id == id && Accepts(s[i]);
        assert i < |s| - 1 ==> Front(s)[i].id == id && Accepts(Front(s)[i]);
      }
    }
  }

  /** Every pointer in the result refers to a channel of the table exactly when no description pulls one away. */
  lemma {:induction false} PointersLiveExactly(w: World, s: seq<ChannelResponse>)
    requires w.status == Running && Validate(w, s).world.status == Running
    requires forall id :: id in w.channels ==> w.channels[id].incarnation < w.made
    ensures var v := Validate(w, s);
      && (AllAlive(v.world, v.result) <==> !PullsAway(s))
      && (forall id :: id in v.world.channels ==> v.world.channels[id].incarnation < v.world.made)
      && (forall i :: 0 <= i < |v.result| ==> v.result[i].incarnation < v.world.made)
  {
    if s != [] {
      PointersLiveExactly(w, Front(s));
      PullsAwayStep(s);
      ValidateResult(w, Front(s));
      AcceptedListed(Front(s), Last(s).id);
      PointersLiveStep(Validate(w, Front(s)), Last(s));
      assert forall k :: 0 <= k < |Front(s)| ==> Front(s)[k] == s[k];
    }
  }

  lemma PointersLiveStep(v: Validation, c: ChannelResponse)
    requires v.world.status == Running && ValidateOne(v, c).world.status == Running
    requires forall id :: id in v.world.channels ==> v.world.channels[id].incarnation < v.world.made
    requires forall i :: 0 <= i < |v.result| ==> v.result[i].incarnation < v.world.made
    ensures var u := ValidateOne(v, c);
      && (AllAlive(u.world, u.result) <==> AllAlive(v.world, v.result) && (Accepts(c) || c.id !in RefIds(v.result)))
      && (forall id :: id in u.world.channels ==> u.world.channels[id].incarnation < u.world.made)
      && (forall i :: 0 <= i < |u.result| ==> u.result[i].incarnation < u.world.made)
  {
    var u := ValidateOne(v, c);
    if Accepts(c) {
      assert forall i :: 0 <= i < |v.result| ==>
        u.result[i] == v.result[i] && (Alive(u.world, u.result[i]) <==> Alive(v.world, v.result[i]));
    } else {
      assert u.result == v.result;
      assert forall i :: 0 <= i < |v.result| ==>
        (Alive(u.world, u.result[i]) <==> Alive(v.world, v.result[i]) && v.result[i].id != c.id);
      if c.id in RefIds(v.result) {
        var i :| 0 <= i < |v.result| && RefIds(v.result)[i] == c.id;
        assert !Alive(u.world, u.result[i]);
      }
    }
  }

  // ---------------------------------------------------------------- closing

  /** Closing takes out exactly the named channels; ids that are missing or repeated make no difference. */
  lemma {:induction false} CloseMembers(w: World, ids: seq<int>)
    ensures var after := Close(w, ids);
      && after.channels == (map id | id in w.channels && id !in ids :: w.channels[id])
      && after.made == w.made && after.status == w.status
  {
    if ids != [] {
      CloseMembers(w, Front(ids));
      assert ids == Front(ids) + [Last(ids)];
    }
  }

  lemma CloseEverything(w: World, order: seq<int>)
    requires Lists(order, w.channels.Keys)
    ensures Close(w, order) == World(w.status, map[], w.made, Close(w, order).trace)
  {
    CloseMembers(w, order);
    assert forall id :: id in w.channels ==> id in w.channels.Keys && id in order;
    assert Close(w, order).channels == map[];
  }

  // ---------------------------------------------------------------- ownership

  /**
   Marking is defined exactly when every named id is in the table; then the named channels and no
   others are owned.
   */
  lemma {:induction false} SetOwnedMeaning(w: World, ids: seq<int>)
    requires w.status == Running
    ensures var after := SetOwned(w, ids);
      && after.status == (if AllPresent(w, ids) then Running else Undefined)
      && after.channels.Keys == w.channels.Keys
      && after.made == w.made && after.trace == w.trace
      && (forall id :: id in w.channels ==> after.channels[id].incarnation == w.channels[id].incarnation)
      && (AllPresent(w, ids) ==> forall id :: id in w.channels ==>
          after.channels[id] == Entry(w.channels[id].incarnation, w.channels[id].owned || id in ids))
  {
    if ids != [] {
      SetOwnedMeaning(w, Front(ids));
      assert ids == Front(ids) + [Last(ids)];
      assert forall i :: 0 <= i < |Front(ids)| ==> Front(ids)[i] == ids[i];
      assert AllPresent(w, ids) <==> AllPresent(w, Front(ids)) && Last(ids) in w.channels;
    }
  }

  // ---------------------------------------------------------------- the books

  /** How often `a` occurs in the trace. */
  ghost function Times(w: World, a: Action): nat {
    multiset(w.trace)[a]
  }

  /** The incarnation of the channel made last under this id. */
  function Newest(t: seq<Action>, id: int): Option<nat> {
    if t == [] then None
    else if Last(t).Made? && Last(t).ref.id == id then Some(Last(t).ref.incarnation)
    else Newest(Front(t), id)
  }

  /** A live channel is the newest of its id. */
  ghost predicate NewestAreLive(w: World) {
    forall id :: id in w.channels ==> Newest(w.trace, id) == Some(w.channels[id].incarnation)
  }

  /** Every insertion is made up for by a live channel or by one removal, and no channel is inserted twice. */
  ghost predicate Counted(w: World) {
    forall r: Ref ::
      && Times(w, Made(r)) == (if Alive(w, r) then 1 else 0) + Times(w, Dropped(r)) + Times(w, Closed(r))
      && Times(w, Made(r)) <= if r.incarnation < w.made then 1 else 0
  }

  /**
   Every channel that was ever inserted was inserted once, and is now in exactly one place: in the
   table, or erased without being closed, or closed; and it got there once. A live one is the newest of its id.
   */
  ghost predicate Balanced(w: World) {
    Counted(w) && NewestAreLive(w)
  }

  lemma NewestNote(w: World, a: Action, id: int)
    ensures Newest(Note(w, a).trace, id) ==
            if a.Made? && a.ref.id == id then Some(a.ref.incarnation) else Newest(w.trace, id)
  {
    assert Front(w.trace + [a]) == w.trace;
  }

  lemma TimesNote(w: World, a: Action, b: Action)
    ensures Times(Note(w, a), b) == Times(w, b) + if a == b then 1 else 0
  {
  }

  lemma NoteKeepsBalance(w: World, a: Action)
    requires Balanced(w) && !a.Made? && !a.Dropped? && !a.Closed?
    ensures Balanced(Note(w, a))
  {
    hide Newest;
    forall b { TimesNote(w, a, b); }
    assert forall r :: Alive(Note(w, a), r) == Alive(w, r);
    forall id { NewestNote(w, a, id); }
  }

  lemma EmplaceKeepsBalance(w: World, id: int)
    requires Balanced(w)
    ensures Balanced(Emplace(w, id))
  {
    hide Newest;
    var w' := Emplace(w, id);
    if id !in w.channels {
      var added := Ref(id, w.made);
      forall r: Ref
        ensures Times(w', Made(r)) == Times(w, Made(r)) + if r == added then 1 else 0
        ensures Times(w', Dropped(r)) == Times(w, Dropped(r)) && Times(w', Closed(r)) == Times(w, Closed(r))
        ensures Alive(w', r) <==> Alive(w, r) || r == added
      {
        assert Times(w, Made(r)) <= if r.incarnation < w.made then 1 else 0;
      }
      var wider := w.(channels := w.channels[id := Entry(w.made, false)], made := w.made + 1);
      forall k { NewestNote(wider, Made(added), k); }
    }
  }

  lemma TakeOutKeepsBalance(w: World, id: int, a: Action)
    requires Balanced(w) && id in w.channels
    requires a == Dropped(RefOf(w, id)) || a == Closed(RefOf(w, id))
    ensures Balanced(Note(w.(channels := w.channels - {id}), a))
  {
    hide Newest;
    var gone := RefOf(w, id);
    var rest := w.(channels := w.channels - {id});
    var w' := Note(rest, a);
    forall r: Ref
      ensures Times(w', Made(r)) == Times(w, Made(r))
      ensures Times(w', Dropped(r)) + Times(w', Closed(r)) ==
              Times(w, Dropped(r)) + Times(w, Closed(r)) + if r == gone then 1 else 0
      ensures Alive(w', r) <==> Alive(w, r) && r != gone
    {
    }
    forall k { NewestNote(rest, a, k); }
  }

  lemma StatusKeepsBalance(w: World, status: Status)
    requires Balanced(w)
    ensures Balanced(w.(status := status))
  {
    hide Newest;
    var w' := w.(status := status);
    forall r: Ref
      ensures Alive(w', r) == Alive(w, r)
      ensures Times(w', Made(r)) == Times(w, Made(r))
      ensures Times(w', Dropped(r)) == Times(w, Dropped(r)) && Times(w', Closed(r)) == Times(w, Closed(r))
    {
    }
  }

  lemma ValidateOneKeepsBalance(v: Validation, c: ChannelResponse)
    requires Balanced(v.world)
    ensures Balanced(ValidateOne(v, c).world)
  {
    hide Balanced;
    var inserted := Emplace(v.world, c.id);
    EmplaceKeepsBalance(v.world, c.id);
    TakeOutKeepsBalance(inserted, c.id, Dropped(RefOf(inserted, c.id)));
    StatusKeepsBalance(v.world, Threw);
    StatusKeepsBalance(inserted, Threw);
  }

  lemma {:induction false} ValidateKeepsBalance(w: World, s: seq<ChannelResponse>)
    requires Balanced(w)
    ensures Balanced(Validate(w, s).world)
  {
    if s != [] {
      hide Balanced;
      ValidateKeepsBalance(w, Front(s));
      ValidateOneKeepsBalance(Validate(w, Front(s)), Last(s));
    }
  }

  lemma {:induction false} CloseKeepsBalance(w: World, ids: seq<int>)
    requires Balanced(w)
    ensures Balanced(Close(w, ids))
  {
    if ids != [] {
      CloseKeepsBalance(w, Front(ids));
      var before := Close(w, Front(ids));
      if Last(ids) in before.channels {
        TakeOutKeepsBalance(before, Last(ids), Closed(RefOf(before, Last(ids))));
      }
    }
  }

  lemma SetOwnedKeepsBalance(w: World, ids: seq<int>)
    requires Balanced(w) && w.status == Running
    ensures Balanced(SetOwned(w, ids))
  {
    hide Newest;
    SetOwnedMeaning(w, ids);
    var w' := SetOwned(w, ids);
    forall r: Ref
      ensures Alive(w', r) == Alive(w, r)
      ensures Times(w', Made(r)) == Times(w, Made(r))
      ensures Times(w', Dropped(r)) == Times(w, Dropped(r)) && Times(w', Closed(r)) == Times(w, Closed(r))
    {
    }
  }

  lemma SetOwnedOneKeepsBalance(w: World, id: int, owned: bool)
    requires Balanced(w) && id in w.channels
    ensures Balanced(SetOwnedOne(w, id, owned))
    ensures forall r :: Alive(SetOwnedOne(w, id, owned), r) == Alive(w, r)
  {
    hide Newest;
    var w' := SetOwnedOne(w, id, owned);
    forall r: Ref
      ensures Alive(w', r) == Alive(w, r)
      ensures Times(w', Made(r)) == Times(w, Made(r))
      ensures Times(w', Dropped(r)) == Times(w, Dropped(r)) && Times(w', Closed(r)) == Times(w, Closed(r))
    {
    }
  }
}
