/** Draining the queue of room events into the notifier. */
module Delivery {
  import opened Matrix
  import opened StreamTokens
  import opened PendingQueue
  import H = Hub
  import W = WakeUps

  /** The user a member event lets into its room. */
  function JoinOf(e: Entry): Option<UserId> {
    if e.etype == Member && e.membership == Some(Join) && e.stateKey.Some? && e.stateKey.value != "" then e.stateKey
    else None
  }

  function ApplyJoin<S, L>(h: H.Hub<S, L>, e: Entry): H.Hub<S, L> {
    if JoinOf(e).Some? then H.JoinRoom(h, JoinOf(e).value, e.room) else h
  }

  function ApplyJoins<S, L>(h: H.Hub<S, L>, due: seq<Entry>): H.Hub<S, L> {
    if due == [] then h else ApplyJoin(ApplyJoins(h, due[..|due| - 1]), due[|due| - 1])
  }

  function ExtraUsers(due: seq<Entry>): set<UserId> {
    if due == [] then {} else ExtraUsers(due[..|due| - 1]) + due[|due| - 1].extraUsers
  }

  function RoomsOf(due: seq<Entry>): set<RoomId> {
    if due == [] then {} else RoomsOf(due[..|due| - 1]) + {due[|due| - 1].room}
  }

  /** What a drain does once it knows which entries are due. */
  function Deliver<S, L>(h: H.Hub<S, L>, due: seq<Entry>, token: StreamToken, now: int): H.Hub<S, L> {
    if due == [] then h else H.Notify(ApplyJoins(h, due), ExtraUsers(due), RoomsOf(due), token, now)
  }

  lemma NextDue<S, L>(h: H.Hub<S, L>, due: seq<Entry>, e: Entry)
    ensures ApplyJoins(h, due + [e]) == ApplyJoin(ApplyJoins(h, due), e)
    ensures ExtraUsers(due + [e]) == ExtraUsers(due) + e.extraUsers && RoomsOf(due + [e]) == RoomsOf(due) + {e.room}
  {
    assert (due + [e])[..|due|] == due;
  }

  // ---- A delivery is a run ----

  function JoinOps<S, L>(due: seq<Entry>): seq<H.Op<S, L>> {
    if due == [] then []
    else
      var e := due[|due| - 1];
      JoinOps(due[..|due| - 1]) + if JoinOf(e).Some? then [H.DoJoin(JoinOf(e).value, e.room)] else []
  }

  function DeliveryOps<S, L>(due: seq<Entry>, token: StreamToken, now: int): seq<H.Op<S, L>> {
    if due == [] then [] else JoinOps(due) + [H.DoNotify(ExtraUsers(due), RoomsOf(due), token, now)]
  }

  lemma {:induction false} JoinsAreRun<S, L>(h: H.Hub<S, L>, due: seq<Entry>)
    ensures ApplyJoins(h, due) == H.Run(h, JoinOps(due))
  {
    if due != [] {
      var init, e := due[..|due| - 1], due[|due| - 1];
      JoinsAreRun(h, init);
      var ops: seq<H.Op<S, L>> := JoinOps(init);
      if JoinOf(e).Some? {
        var op: H.Op<S, L> := H.DoJoin(JoinOf(e).value, e.room);
        H.RunNext(h, ops, op);
        assert JoinOps(due) == ops + [op];
      } else {
        assert JoinOps(due) == ops + [] == ops;
      }
    }
  }

  /** Delivering what is due is a run of joins and one notification, so that everything
      proved of runs holds with drains among their steps. */
  lemma DeliveryIsRun<S, L>(h: H.Hub<S, L>, due: seq<Entry>, token: StreamToken, now: int)
    ensures Deliver(h, due, token, now) == H.Run(h, DeliveryOps(due, token, now))
  {
    if due != [] {
      var joins: seq<H.Op<S, L>>, op: H.Op<S, L> := JoinOps(due), H.DoNotify(ExtraUsers(due), RoomsOf(due), token, now);
      JoinsAreRun(h, due);
      H.RunNext(h, joins, op);
      assert DeliveryOps<S, L>(due, token, now) == joins + [op];
      assert H.Step(ApplyJoins(h, due), op) == Deliver(h, due, token, now);
    }
  }

  lemma DeliveryKeepsSound<S, L>(h: H.Hub<S, L>, due: seq<Entry>, token: StreamToken, now: int)
    requires H.Sound(h)
    ensures H.Sound(Deliver(h, due, token, now))
  {
    DeliveryIsRun(h, due, token, now);
    H.RunIsSound(h, DeliveryOps(due, token, now));
  }

  lemma {:induction false} JoinsKeepAttended<S, L>(h: H.Hub<S, L>, due: seq<Entry>)
    requires H.Sound(h) && W.Attended(h)
    ensures H.Sound(ApplyJoins(h, due)) && W.Attended(ApplyJoins(h, due))
  {
    if due != [] {
      var before, e := ApplyJoins(h, due[..|due| - 1]), due[|due| - 1];
      JoinsKeepAttended(h, due[..|due| - 1]);
      if JoinOf(e).Some? {
        var op: H.Op<S, L> := H.DoJoin(JoinOf(e).value, e.room);
        H.StepKeepsSound(before, op);
        W.StepKeepsAttendedIff(before, op);
      }
    }
  }

  /** A drain never makes a wake-up get lost. */
  lemma DeliveryLosesNothing<S, L>(h: H.Hub<S, L>, due: seq<Entry>, token: StreamToken, now: int)
    requires H.Sound(h) && W.NothingLost(h)
    ensures W.NothingLost(Deliver(h, due, token, now))
  {
    if due != [] {
      W.NothingLostIff(h);
      JoinsKeepAttended(h, due);
      var op: H.Op<S, L> := H.DoNotify(ExtraUsers(due), RoomsOf(due), token, now);
      H.StepKeepsSound(ApplyJoins(h, due), op);
      W.StepKeepsAttendedIff(ApplyJoins(h, due), op);
      W.NothingLostIff(Deliver(h, due, token, now));
    }
  }

  // ---- Who joins ----

  /** The entry is the join of `u`. */
  predicate LetsIn(e: Entry, u: UserId) {
    e.etype == Member && e.membership == Some(Join) && e.stateKey == Some(u) && u != ""
  }

  lemma JoinOfIff(e: Entry, u: UserId)
    ensures JoinOf(e) == Some(u) <==> LetsIn(e, u)
  {
  }

  /** Some due entry is the join of `u` into `r`. */
  ghost predicate LetsInTo(due: seq<Entry>, u: UserId, r: RoomId) {
    exists i :: 0 <= i < |due| && LetsIn(due[i], u) && due[i].room == r
  }

  lemma LetsInToNext(due: seq<Entry>, u: UserId, r: RoomId)
    requires due != []
    ensures LetsInTo(due, u, r) <==>
            LetsInTo(due[..|due| - 1], u, r) || (LetsIn(due[|due| - 1], u) && due[|due| - 1].room == r)
  {
    var init := due[..|due| - 1];
    if LetsInTo(init, u, r) {
      var i :| 0 <= i < |init| && LetsIn(init[i], u) && init[i].room == r;
      assert due[i] == init[i];
    }
    if LetsInTo(due, u, r) {
      var i :| 0 <= i < |due| && LetsIn(due[i], u) && due[i].room == r;
      assert i < |init| ==> init[i] == due[i];
    }
  }

  lemma JoinedRooms<S, L>(h: H.Hub<S, L>, e: Entry, s: S, r: RoomId)
    requires H.Sound(h) && s in h.streams
    ensures s in ApplyJoin(h, e).streams && ApplyJoin(h, e).streams[s].user == h.streams[s].user
    ensures H.Registered(ApplyJoin(h, e), s) <==> H.Registered(h, s)
    ensures r in ApplyJoin(h, e).streams[s].rooms <==>
            r in h.streams[s].rooms || (H.Registered(h, s) && LetsIn(e, h.streams[s].user) && e.room == r)
  {
    if JoinOf(e).Some? {
      JoinOfIff(e, JoinOf(e).value);
    }
    JoinOfIff(e, h.streams[s].user);
  }

  lemma {:induction false} RoomsAfterJoins<S, L>(h: H.Hub<S, L>, due: seq<Entry>, s: S, r: RoomId)
    requires H.Sound(h) && s in h.streams
    ensures s in ApplyJoins(h, due).streams && ApplyJoins(h, due).streams[s].user == h.streams[s].user
    ensures H.Registered(ApplyJoins(h, due), s) <==> H.Registered(h, s)
    ensures r in ApplyJoins(h, due).streams[s].rooms <==>
            r in h.streams[s].rooms || (H.Registered(h, s) && LetsInTo(due, h.streams[s].user, r))
  {
    if due != [] {
      var init, e := due[..|due| - 1], due[|due| - 1];
      RoomsAfterJoins(h, init, s, r);
      JoinsKeepSound(h, init);
      JoinedRooms(ApplyJoins(h, init), e, s, r);
      LetsInToNext(due, h.streams[s].user, r);
    }
  }

  /** After a drain a stream has its old rooms and, if it is the registered one of its user,
      the rooms of the due entries that are joins of that user; and no others. */
  lemma RoomsAfterDrain<S, L>(h: H.Hub<S, L>, due: seq<Entry>, token: StreamToken, now: int, s: S, r: RoomId)
    requires H.Sound(h) && s in h.streams
    ensures s in Deliver(h, due, token, now).streams
    ensures r in Deliver(h, due, token, now).streams[s].rooms <==>
            r in h.streams[s].rooms || (H.Registered(h, s) && LetsInTo(due, h.streams[s].user, r))
  {
    RoomsAfterJoins(h, due, s, r);
  }

  // ---- Who is woken ----

  lemma {:induction false} JoinsKeepSound<S, L>(h: H.Hub<S, L>, due: seq<Entry>)
    requires H.Sound(h)
    ensures H.Sound(ApplyJoins(h, due)) && ApplyJoins(h, due).users == h.users
    ensures ApplyJoins(h, due).streams.Keys == h.streams.Keys && ApplyJoins(h, due).outcome == h.outcome
    ensures forall s | s in h.streams :: h.streams[s].rooms <= ApplyJoins(h, due).streams[s].rooms
  {
    if due != [] {
      var e := due[|due| - 1];
      JoinsKeepSound(h, due[..|due| - 1]);
      if JoinOf(e).Some? {
        H.JoinRoomKeepsSound(ApplyJoins(h, due[..|due| - 1]), JoinOf(e).value, e.room);
      }
    }
  }

  lemma {:induction false} DueRoomIsNotified(due: seq<Entry>, i: nat)
    requires i < |due|
    ensures due[i].room in RoomsOf(due) && due[i].extraUsers <= ExtraUsers(due)
  {
    var init := due[..|due| - 1];
    if i < |init| {
      DueRoomIsNotified(init, i);
    }
  }

  /** A stream among the targets is at the new token, and everyone who waited on it is woken. */
  lemma TargetIsWoken<S, L>(h: H.Hub<S, L>, due: seq<Entry>, token: StreamToken, now: int, s: S, id: L)
    requires H.Sound(h) && due != [] && s in h.streams
    requires s in H.Targets(ApplyJoins(h, due), ExtraUsers(due), RoomsOf(due))
    ensures var k := Deliver(h, due, token, now);
            && s in k.streams && k.streams[s].token == token && k.streams[s].listeners == {}
            && (id in h.streams[s].listeners ==> id in k.outcome && k.outcome[id] == H.Woken(token))
  {
    JoinsKeepSound(h, due);
    assert id in h.streams[s].listeners ==> h.outcome[id] == H.Waiting(s, h.streams[s].token);
    var k := ApplyJoins(h, due);
    H.TargetsAdvance(k, H.Targets(k, ExtraUsers(due), RoomsOf(due)), token, now, s, id);
  }

  /** A user whose join is among the entries of a drained batch is woken by that very batch:
      their stream has the room and is at the new token, and nobody is left waiting on it. */
  lemma JoinerIsWoken<S, L>(h: H.Hub<S, L>, due: seq<Entry>, token: StreamToken, now: int, i: nat, u: UserId, id: L)
    requires H.Sound(h) && i < |due| && u in h.users && u != ""
    requires due[i].etype == Member && due[i].membership == Some(Join) && due[i].stateKey == Some(u)
    ensures var s, k := h.users[u], Deliver(h, due, token, now);
            && s in k.streams && due[i].room in k.streams[s].rooms
            && k.streams[s].token == token && k.streams[s].listeners == {}
            && (id in h.streams[s].listeners ==> id in k.outcome && k.outcome[id] == H.Woken(token))
  {
    var s, k := h.users[u], ApplyJoins(h, due);
    JoinsKeepSound(h, due);
    assert LetsIn(due[i], u);
    RoomsAfterJoins(h, due, s, due[i].room);
    DueRoomIsNotified(due, i);
    assert k.users[u] in H.StreamsIn(k.index, due[i].room);
    TargetIsWoken(h, due, token, now, s, id);
  }

  /** So is a user whose stream has the room of a due event, or whom it names. */
  lemma MemberIsWoken<S, L>(h: H.Hub<S, L>, due: seq<Entry>, token: StreamToken, now: int, i: nat, u: UserId, id: L)
    requires H.Sound(h) && i < |due| && u in h.users
    requires due[i].room in h.streams[h.users[u]].rooms || u in due[i].extraUsers
    ensures var s, k := h.users[u], Deliver(h, due, token, now);
            && s in k.streams && k.streams[s].token == token && k.streams[s].listeners == {}
            && (id in h.streams[s].listeners ==> id in k.outcome && k.outcome[id] == H.Woken(token))
  {
    var s, k := h.users[u], ApplyJoins(h, due);
    JoinsKeepSound(h, due);
    DueRoomIsNotified(due, i);
    if due[i].room in h.streams[s].rooms {
      assert k.users[u] in H.StreamsIn(k.index, due[i].room);
    }
    TargetIsWoken(h, due, token, now, s, id);
  }
}
