/** The notifier itself: objects updated in place, each method proved against the
    transition of the value-level state machine it stands for. */
module Notifier {
  import opened Matrix
  import opened StreamTokens
  import opened PendingQueue
  import opened Delivery
  import H = Hub
  import N = NotifierRuns
  import W = WakeUps

  class Deferred {
    var outcome: H.Outcome<UserStream>

    constructor (o: H.Outcome<UserStream>)
      ensures outcome == o
    {
      outcome := o;
    }

    /** Resolving twice is an error in the library, so only a waiting one may be resolved. */
    method Callback(token: StreamToken)
      requires outcome.Waiting?
      modifies this
      ensures outcome == H.Woken(token)
    {
      outcome := H.Woken(token);
    }
  }

  class UserStream {
    const userId: UserId
    var rooms: set<RoomId>
    var currentToken: StreamToken
    var lastNotified: int
    var listeners: set<Deferred>

    constructor (userId: UserId, rooms: set<RoomId>, token: StreamToken, now: int)
      ensures Snapshot() == H.Stream(userId, rooms, token, now, {})
    {
      this.userId := userId;
      this.rooms := rooms;
      currentToken := token;
      lastNotified := now;
      listeners := {};
    }

    ghost function Snapshot(): H.Stream<Deferred>
      reads this
    {
      H.Stream(userId, rooms, currentToken, lastNotified, listeners)
    }

    method UpdateAndFetchDeferreds(token: StreamToken, now: int) returns (toWake: set<Deferred>)
      modifies this
      ensures toWake == old(listeners)
      ensures Snapshot() == old(Snapshot()).(token := token, lastNotified := now, listeners := {})
    {
      currentToken := token;
      lastNotified := now;
      toWake := listeners;
      listeners := {};
    }

    method NewListener(token: StreamToken) returns (d: Deferred)
      modifies this
      ensures fresh(d)
      ensures token != old(currentToken) ==> d.outcome == H.Woken(currentToken) && Snapshot() == old(Snapshot())
      ensures token == old(currentToken) ==>
                d.outcome == H.Waiting(this, token) && Snapshot() == old(Snapshot()).(listeners := old(listeners) + {d})
    {
      if token != currentToken {
        d := new Deferred(H.Woken(currentToken));
        return;
      }
      d := new Deferred(H.Waiting(this, token));
      listeners := listeners + {d};
    }

    /** What the canceller of a deferred does when it times out. */
    method CancelListener(d: Deferred)
      modifies this, d
      ensures d.outcome == H.Cancelled
      ensures Snapshot() == old(Snapshot()).(listeners := old(listeners) - {d})
    {
      listeners := listeners - {d};
      d.outcome := H.Cancelled;
    }
  }

  type RoomIndex = map<RoomId, set<UserStream>>

  ghost predicate WaitsOn(d: Deferred, targets: set<UserStream>)
    reads d
  {
    d.outcome.Waiting? && d.outcome.on in targets
  }

  // ---- Edits of the room index ----

  /** `after` lists `s` under each of `rooms` and is otherwise `before`. */
  ghost predicate Added(before: RoomIndex, after: RoomIndex, rooms: set<RoomId>, s: UserStream) {
    && after.Keys == before.Keys + rooms
    && (forall r | r in rooms :: after[r] == H.StreamsIn(before, r) + {s})
    && (forall r | r in before && r !in rooms :: after[r] == before[r])
  }

  lemma AddedIsAddToIndex(before: RoomIndex, after: RoomIndex, rooms: set<RoomId>, s: UserStream)
    requires Added(before, after, rooms, s)
    ensures after == H.AddToIndex(before, rooms, s)
  {
    forall r | r in after ensures after[r] == H.AddToIndex(before, rooms, s)[r] {
      assert H.StreamsIn(before, r) + {} == H.StreamsIn(before, r);
    }
  }

  /** `after` no longer lists `s` under `rooms`, drops rooms left without anybody, and is
      otherwise `before`. */
  ghost predicate Removed(before: RoomIndex, after: RoomIndex, rooms: set<RoomId>, s: UserStream) {
    && (forall r | r in before && r !in rooms :: r in after && after[r] == before[r])
    && (forall r | r in before && r in rooms && before[r] - {s} != {} :: r in after && after[r] == before[r] - {s})
    && (forall r | r in after :: r in before && (r in rooms ==> before[r] - {s} != {}))
  }

  function DropFrom(m: RoomIndex, r: RoomId, s: UserStream): RoomIndex {
    if H.StreamsIn(m, r) - {s} == {} then m - {r} else m[r := H.StreamsIn(m, r) - {s}]
  }

  lemma RemovedFromOneMore(before: RoomIndex, m: RoomIndex, rooms: set<RoomId>, r: RoomId, s: UserStream)
    requires Removed(before, m, rooms, s) && r !in rooms
    ensures Removed(before, DropFrom(m, r, s), rooms + {r}, s)
  {
  }

  /** A stream is listed under its own rooms only, so taking it off those takes it off the
      index. */
  lemma RemovedIsRemoveStreams(h: H.Hub<UserStream, Deferred>, after: RoomIndex, s: UserStream)
    requires H.IndexAgrees(h) && s in h.streams && Removed(h.index, after, h.streams[s].rooms, s)
    ensures after == H.RemoveStreams(h, {s}).index
  {
    var index := H.RemoveStreams(h, {s}).index;
    forall r | r in h.index
      ensures r in after <==> r in index
      ensures r in after ==> after[r] == index[r]
    {
      if r !in h.streams[s].rooms {
        assert h.index[r] - {s} == h.index[r];
      }
    }
    assert after.Keys == index.Keys;
  }

  class Notifier {
    var userStreams: map<UserId, UserStream>
    var roomStreams: RoomIndex
    var pending: seq<Entry>
    /** Every stream and every deferred made so far, whoever holds them. */
    ghost var known: set<UserStream>
    ghost var made: set<Deferred>

    constructor ()
      ensures State() == N.State(H.Empty(), [])
    {
      userStreams, roomStreams, pending, known, made := map[], map[], [], {}, {};
    }

    ghost function Streams(): map<UserStream, H.Stream<Deferred>>
      reads `known, known
    {
      map s | s in known :: s.Snapshot()
    }

    ghost function Outcomes(): map<Deferred, H.Outcome<UserStream>>
      reads `made, made
    {
      map d | d in made :: d.outcome
    }

    /** The streams of the notifier as a value. */
    ghost function View(): H.Hub<UserStream, Deferred>
      reads `userStreams, `roomStreams, `known, `made, known, made
    {
      H.Hub(Streams(), userStreams, roomStreams, Outcomes())
    }

    ghost function State(): N.State<UserStream, Deferred>
      reads `userStreams, `roomStreams, `pending, `known, `made, known, made
    {
      N.State(View(), pending)
    }

    twostate lemma OneStreamChanged(s: UserStream)
      requires old(allocated(known)) && known == old(known) && s in known
      requires forall t | t in known && t != s :: t.Snapshot() == old(t.Snapshot())
      ensures Streams() == old(Streams())[s := s.Snapshot()]
    {
    }

    // ---- Registering and joining ----

    /** Lists `s` under each of `rooms`, creating entries as needed. */
    method AddToRooms(s: UserStream, rooms: set<RoomId>)
      modifies `roomStreams
      ensures roomStreams == H.AddToIndex(old(roomStreams), rooms, s)
    {
      var left := rooms;
      while left != {}
        invariant left <= rooms
        invariant Added(old(roomStreams), roomStreams, rooms - left, s)
        decreases |left|
      {
        var r :| r in left;
        roomStreams := roomStreams[r := H.StreamsIn(roomStreams, r) + {s}];
        left := left - {r};
      }
      assert rooms - left == rooms;
      AddedIsAddToIndex(old(roomStreams), roomStreams, rooms, s);
    }

    method EnterKeys(s: UserStream)
      requires s !in known && s.listeners == {}
      modifies `userStreams, `roomStreams, `known
      ensures known == old(known) + {s} && made == old(made)
      ensures View() == H.Register(old(View()), s, s.userId, s.rooms, s.currentToken, s.lastNotified)
    {
      ghost var before := Streams();
      userStreams := userStreams[s.userId := s];
      AddToRooms(s, s.rooms);
      known := known + {s};
      assert Streams() == before[s := s.Snapshot()];
    }

    /** Registers a stream that was just made, in place of any other of its user; wake-ups are
        lost exactly when somebody listens on that one. */
    method RegisterWithKeys(s: UserStream)
      requires s !in known && s.listeners == {}
      modifies `userStreams, `roomStreams, `known
      ensures known == old(known) + {s} && made == old(made)
      ensures View() == H.Register(old(View()), s, s.userId, s.rooms, s.currentToken, s.lastNotified)
      ensures old(H.Sound(View()) && W.NothingLost(View())) ==>
                (W.NothingLost(View()) <==> old(s.userId in userStreams ==> userStreams[s.userId].listeners == {}))
    {
      ghost var h := View();
      EnterKeys(s);
      if H.Sound(h) && W.NothingLost(h) {
        W.RegisterLosesNothingIff(h, s, s.userId, s.rooms, s.currentToken, s.lastNotified);
        assert s.userId in h.users ==> h.streams[h.users[s.userId]] == old(userStreams[s.userId].Snapshot());
      }
    }

    method UserJoinedRoom(u: UserId, r: RoomId)
      requires H.IndexAgrees(View())
      modifies `roomStreams, known
      ensures View() == H.JoinRoom(old(View()), u, r)
    {
      ghost var before := View();
      if u in userStreams {
        var s := userStreams[u];
        assert before.streams[s] == s.Snapshot();
        AddToRooms(s, {r});
        s.rooms := s.rooms + {r};
        OneStreamChanged(s);
      }
    }

    // ---- Removing and expiring ----

    method RemoveFromRooms(s: UserStream, rooms: set<RoomId>)
      modifies `roomStreams
      ensures Removed(old(roomStreams), roomStreams, rooms, s)
    {
      var left := rooms;
      while left != {}
        invariant left <= rooms
        invariant Removed(old(roomStreams), roomStreams, rooms - left, s)
        decreases |left|
      {
        var r :| r in left;
        RemovedFromOneMore(old(roomStreams), roomStreams, rooms - left, r, s);
        assert rooms - (left - {r}) == rooms - left + {r};
        var others := H.StreamsIn(roomStreams, r) - {s};
        if others == {} {
          roomStreams := roomStreams - {r};
        } else {
          roomStreams := roomStreams[r := others];
        }
        left := left - {r};
      }
      assert rooms - left == rooms;
    }

    method Remove(s: UserStream)
      requires H.IndexAgrees(View()) && Holds(s)
      modifies `userStreams, `roomStreams
      ensures userStreams == old(userStreams) - {s.userId}
      ensures View() == H.RemoveStreams(old(View()), {s})
    {
      ghost var before := View();
      assert before.streams[s] == s.Snapshot();
      RemoveFromRooms(s, s.rooms);
      userStreams := userStreams - {s.userId};
      RemovedIsRemoveStreams(before, roomStreams, s);
      assert userStreams == H.RemoveStreams(before, {s}).users;
    }

    method RemoveExpiredStreams(now: int)
      requires H.IndexAgrees(View())
      modifies `userStreams, `roomStreams
      ensures View() == H.Expire(old(View()), now)
    {
      ghost var before := View();
      var expired: set<UserStream> := {};
      var left := userStreams.Keys;
      while left != {}
        invariant left <= userStreams.Keys
        invariant expired == set u | u in userStreams && u !in left && H.Idle(userStreams[u].Snapshot(), now)
                               :: userStreams[u]
        decreases |left|
      {
        var u :| u in left;
        var s := userStreams[u];
        if s.listeners == {} && s.lastNotified < now - H.UNUSED_STREAM_EXPIRY {
          expired := expired + {s};
        }
        left := left - {u};
      }
      assert forall u | u in userStreams :: before.streams[userStreams[u]] == userStreams[u].Snapshot();
      assert expired == H.Expired(before, now);
      RemoveAll(expired);
    }

    ghost predicate Holds(s: UserStream)
      reads `userStreams
    {
      s.userId in userStreams && userStreams[s.userId] == s
    }

    method RemoveNext(s: UserStream, ghost before: H.Hub<UserStream, Deferred>, ghost done: set<UserStream>)
      requires H.IndexAgrees(before) && View() == H.RemoveStreams(before, done) && Holds(s)
      modifies `userStreams, `roomStreams
      ensures userStreams == old(userStreams) - {s.userId}
      ensures View() == H.RemoveStreams(before, done + {s})
    {
      H.RemoveKeepsAgreement(before, done);
      Remove(s);
      H.RemoveMore(before, done, s);
    }

    method RemoveAll(expired: set<UserStream>)
      requires H.IndexAgrees(View()) && forall s | s in expired :: Holds(s)
      modifies `userStreams, `roomStreams
      ensures View() == H.RemoveStreams(old(View()), expired)
    {
      ghost var before := View();
      var left := expired;
      assert expired - left == {};
      H.RemoveNone(before);
      while left != {}
        invariant left <= expired && forall s | s in left :: Holds(s)
        invariant View() == H.RemoveStreams(before, expired - left)
        decreases |left|
      {
        var s :| s in left;
        RemoveNext(s, before, expired - left);
        assert expired - (left - {s}) == expired - left + {s};
        left := left - {s};
      }
      assert expired - left == expired;
    }

    // ---- Listening ----

    /** A listener on a stream the caller holds; if that is no longer registered, wake-ups are
        lost exactly when the listener has to wait. */
    method Listen(s: UserStream, token: StreamToken) returns (d: Deferred)
      requires s in known
      modifies `made, s
      ensures made == old(made) + {d} && fresh(d)
      ensures View() == H.Listen(old(View()), s, d, token)
      ensures old(H.Sound(View()) && W.NothingLost(View())) ==>
                (W.NothingLost(View()) <==> old(Holds(s)) || token != old(s.currentToken))
    {
      ghost var before := View();
      assert before.streams[s] == s.Snapshot();
      d := s.NewListener(token);
      made := made + {d};
      OneStreamChanged(s);
      assert Outcomes() == before.outcome[d := d.outcome];
      assert before.streams[s := before.streams[s]] == before.streams;
      if H.Sound(before) && W.NothingLost(before) {
        W.ListenLosesNothingIff(before, s, d, token);
      }
    }

    method TimeOut(s: UserStream, d: Deferred)
      requires s in known && d in s.listeners && d in made
      modifies s, d
      ensures View() == H.Cancel(old(View()), s, d)
    {
      ghost var before := View();
      assert before.streams[s] == s.Snapshot();
      s.CancelListener(d);
      OneStreamChanged(s);
      assert Outcomes() == before.outcome[d := H.Cancelled];
    }

    // ---- Waking ----

    method StreamsOfUsers(users: set<UserId>) returns (targets: set<UserStream>)
      ensures targets == H.OfUsers(userStreams, users)
    {
      targets := {};
      var left := users;
      while left != {}
        invariant left <= users
        invariant targets == H.OfUsers(userStreams, users - left)
        decreases |left|
      {
        var u :| u in left;
        if u in userStreams {
          targets := targets + {userStreams[u]};
        }
        left := left - {u};
      }
      assert users - left == users;
    }

    method StreamsOfRooms(rooms: set<RoomId>) returns (targets: set<UserStream>)
      ensures targets == H.OfRooms(roomStreams, rooms)
    {
      targets := {};
      var left := rooms;
      while left != {}
        invariant left <= rooms
        invariant targets == H.OfRooms(roomStreams, rooms - left)
        decreases |left|
      {
        var r :| r in left;
        targets := targets + H.StreamsIn(roomStreams, r);
        left := left - {r};
      }
      assert rooms - left == rooms;
    }

    /** The streams to wake, collected from the named users and from the room index. */
    method StreamsToWake(users: set<UserId>, rooms: set<RoomId>) returns (targets: set<UserStream>)
      ensures targets == H.Targets(View(), users, rooms)
    {
      var named := StreamsOfUsers(users);
      var listed := StreamsOfRooms(rooms);
      targets := named + listed;
    }

    /** Moves each target to the new token and takes its listeners. */
    method UpdateAll(targets: set<UserStream>, token: StreamToken, now: int) returns (toWake: set<Deferred>)
      modifies targets
      ensures forall s | s in targets ::
                s.Snapshot() == old(s.Snapshot()).(token := token, lastNotified := now, listeners := {})
      ensures forall s | s in targets :: old(s.listeners) <= toWake
      ensures forall d | d in toWake :: exists s | s in targets :: d in old(s.listeners)
    {
      toWake := {};
      var left := targets;
      while left != {}
        invariant left <= targets
        invariant forall s | s in left :: s.Snapshot() == old(s.Snapshot())
        invariant forall s | s in targets - left ::
                    s.Snapshot() == old(s.Snapshot()).(token := token, lastNotified := now, listeners := {})
        invariant forall s | s in targets - left :: old(s.listeners) <= toWake
        invariant forall d | d in toWake :: exists s | s in targets :: d in old(s.listeners)
        decreases |left|
      {
        var s :| s in left;
        var woken := s.UpdateAndFetchDeferreds(token, now);
        toWake := toWake + woken;
        left := left - {s};
      }
    }

    /** Resolves the collected deferreds in one go; each of them is still waiting. */
    method CallbackAll(toWake: set<Deferred>, token: StreamToken)
      requires forall d | d in toWake :: d.outcome.Waiting?
      modifies toWake
      ensures forall d | d in toWake :: d.outcome == H.Woken(token)
    {
      var left := toWake;
      while left != {}
        invariant left <= toWake
        invariant forall d | d in left :: d.outcome == old(d.outcome)
        invariant forall d | d in toWake - left :: d.outcome == H.Woken(token)
        decreases |left|
      {
        var d :| d in left;
        d.Callback(token);
        left := left - {d};
      }
    }

    /** The listeners of some streams are the deferreds that wait on them. */
    lemma ListenersOf(targets: set<UserStream>)
      requires H.UpToDate(View()) && targets <= known
      ensures forall s, d | s in targets && d in s.listeners :: d in made && WaitsOn(d, targets)
      ensures forall d | d in made && WaitsOn(d, targets) :: d in d.outcome.on.listeners
    {
      ghost var h := View();
      forall s, d | s in targets && d in s.listeners ensures d in made && WaitsOn(d, targets) {
        assert h.streams[s] == s.Snapshot() && h.outcome[d] == d.outcome;
      }
      forall d | d in made && WaitsOn(d, targets) ensures d in d.outcome.on.listeners {
        assert h.outcome[d] == d.outcome && h.streams[d.outcome.on] == d.outcome.on.Snapshot();
      }
    }

    /** The first half of a notification: streams are moved on, and the deferreds taken
        from them are exactly those that wait on one of them. */
    method TakeListeners(targets: set<UserStream>, token: StreamToken, now: int) returns (toWake: set<Deferred>)
      requires H.UpToDate(View()) && targets <= known
      modifies targets
      ensures Streams() == H.Advanced(old(Streams()), targets, token, now)
      ensures toWake <= made && forall d | d in made :: d in toWake <==> WaitsOn(d, targets)
    {
      ghost var before := Streams();
      ListenersOf(targets);
      toWake := UpdateAll(targets, token, now);
      forall s | s in known ensures s.Snapshot() == H.Advanced(before, targets, token, now)[s] {
        assert before[s] == old(s.Snapshot());
      }
    }

    /** The second half: everyone waiting on one of the streams is woken. */
    method WakeWaiting(toWake: set<Deferred>, ghost targets: set<UserStream>, token: StreamToken)
      requires toWake <= made && forall d | d in made :: d in toWake <==> WaitsOn(d, targets)
      modifies toWake
      ensures Outcomes() == H.Awaken(old(Outcomes()), targets, token)
    {
      CallbackAll(toWake, token);
      forall d | d in made ensures d.outcome == H.Awaken(old(Outcomes()), targets, token)[d] {
        assert old(Outcomes())[d] == old(d.outcome);
      }
    }

    method WakeTargets(targets: set<UserStream>, token: StreamToken, now: int)
      requires H.UpToDate(View()) && targets <= known
      modifies targets, made
      ensures View() == H.Wake(old(View()), targets, token, now)
    {
      ghost var outcomes := Outcomes();
      var toWake := TakeListeners(targets, token, now);
      assert Outcomes() == outcomes;
      ghost var streams := Streams();
      WakeWaiting(toWake, targets, token);
      assert Streams() == streams;
    }

    /** Wakes every stream of the named users and rooms. */
    method OnNewEvent(users: set<UserId>, rooms: set<RoomId>, token: StreamToken, now: int)
      requires H.Sound(View())
      modifies known, made
      ensures View() == H.Notify(old(View()), users, rooms, token, now)
    {
      var targets := StreamsToWake(users, rooms);
      H.TargetsAreStreams(View(), users, rooms);
      WakeTargets(targets, token, now);
    }

    // ---- The queue ----

    /** Puts a room event on the queue; the drain that follows is a step of its own. */
    method Enqueue(entry: Entry)
      modifies `pending
      ensures State() == N.Step(old(State()), N.Enqueue(entry))
    {
      pending := pending + [entry];
    }

    /** One entry: put back if it is not yet due, otherwise a join takes effect. */
    method TakeEntry(entry: Entry, max: MultiToken) returns (due: bool)
      requires H.IndexAgrees(View())
      modifies `roomStreams, `pending, known
      ensures due == !PersistedAfter(entry.pos, max)
      ensures pending == if due then old(pending) else old(pending) + [entry]
      ensures View() == if due then ApplyJoin(old(View()), entry) else old(View())
    {
      due := !PersistedAfter(entry.pos, max);
      if !due {
        pending := pending + [entry];
      } else if entry.etype == Member && entry.membership == Some(Join) && entry.stateKey.Some?
                && entry.stateKey.value != "" {
        UserJoinedRoom(entry.stateKey.value, entry.room);
      }
    }

    /** The walk over the queue: what is not yet due is put back, joins take effect, and the
        users and rooms to notify are gathered. */
    method TakeDue(max: MultiToken) returns (users: set<UserId>, rooms: set<RoomId>)
      requires H.Sound(View())
      modifies `roomStreams, `pending, known
      ensures pending == Kept(old(pending), max)
      ensures View() == ApplyJoins(old(View()), Due(old(pending), max))
      ensures users == ExtraUsers(Due(old(pending), max)) && rooms == RoomsOf(Due(old(pending), max))
    {
      ghost var before := View();
      var queue := pending;
      pending := [];
      users, rooms := {}, {};
      ghost var due: seq<Entry>, joined := [], before;
      for i := 0 to |queue|
        invariant View() == joined && pending == Kept(queue[..i], max)
        invariant due == Due(queue[..i], max) && joined == ApplyJoins(before, due)
        invariant users == ExtraUsers(due) && rooms == RoomsOf(due)
      {
        JoinsKeepSound(before, due);
        var isDue := TakeEntry(queue[i], max);
        NextEntry(queue, i, max);
        if isDue {
          NextDue(before, due, queue[i]);
          due, joined := due + [queue[i]], ApplyJoin(joined, queue[i]);
          users, rooms := users + queue[i].extraUsers, rooms + {queue[i].room};
        }
      }
      assert queue[..|queue|] == queue;
    }

    /** Notifies for everything that is due. */
    method NotifyPendingNewRoomEvents(max: MultiToken, token: StreamToken, now: int)
      requires H.Sound(View())
      modifies `roomStreams, `pending, known, made
      ensures State() == N.Step(old(State()), N.Drain(max, token, now))
    {
      ghost var before := View();
      ghost var due := Due(pending, max);
      var users, rooms := TakeDue(max);
      JoinsKeepSound(before, due);
      if users != {} || rooms != {} {
        OnNewEvent(users, rooms, token, now);
      }
      assert due != [] ==> due[|due| - 1].room in RoomsOf(due);
    }
  }
}
