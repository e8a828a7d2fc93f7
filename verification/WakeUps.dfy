/** When wake-ups reach the listeners they are meant for, and the two ways they do not: a
    stream held past its expiry, and a stream replaced while somebody listens on it. */
module WakeUps {
  import opened Matrix
  import opened StreamTokens
  import opened Hub

  // ---- Wake-ups ----

  /** A notification wakes a waiting listener exactly when its stream is the registered one
      of a named user or is listed under a named room. */
  lemma NotifyWakesIff<S, L>(h: Hub<S, L>, users: set<UserId>, rooms: set<RoomId>, token: StreamToken, now: int, id: L)
    requires Sound(h) && id in h.outcome && h.outcome[id].Waiting?
    ensures var s := h.outcome[id].on;
            Notify(h, users, rooms, token, now).outcome[id].Woken? <==>
            (Registered(h, s) && h.streams[s].user in users) || exists r | r in rooms :: s in StreamsIn(h.index, r)
  {
    var s := h.outcome[id].on;
    assert s in Targets(h, users, rooms) <==>
           (exists u | u in users :: u in h.users && h.users[u] == s)
           || exists r | r in rooms :: s in StreamsIn(h.index, r);
  }

  /** Everyone who waits does so on a registered stream. */
  ghost predicate Attended<S, L>(h: Hub<S, L>) {
    forall s | s in h.streams && h.streams[s].listeners != {} :: Registered(h, s)
  }

  /** No wake-up is lost: whoever waits is woken by news for their user, and by news for any
      room of their stream. */
  ghost predicate NothingLost<S, L>(h: Hub<S, L>) {
    forall id, users, rooms, token, now | id in h.outcome && h.outcome[id].Waiting? && h.outcome[id].on in h.streams ::
      var stream := h.streams[h.outcome[id].on];
      stream.user in users || rooms * stream.rooms != {} ==> Notify(h, users, rooms, token, now).outcome[id].Woken?
  }

  /** Wake-ups are lost exactly when someone waits on a stream that is not registered. */
  lemma NothingLostIff<S, L>(h: Hub<S, L>)
    requires Sound(h)
    ensures NothingLost(h) <==> Attended(h)
  {
    if Attended(h) {
      forall id, users, rooms, token, now
        | id in h.outcome && h.outcome[id].Waiting? && h.outcome[id].on in h.streams
          && (h.streams[h.outcome[id].on].user in users || rooms * h.streams[h.outcome[id].on].rooms != {})
        ensures Notify(h, users, rooms, token, now).outcome[id].Woken?
      {
        var s := h.outcome[id].on;
        assert Registered(h, s);
        if rooms * h.streams[s].rooms != {} {
          var r :| r in rooms * h.streams[s].rooms;
          assert s in StreamsIn(h.index, r);
        }
        NotifyWakesIff(h, users, rooms, token, now, id);
      }
    }
    if NothingLost(h) {
      forall s | s in h.streams && h.streams[s].listeners != {} ensures Registered(h, s) {
        var id :| id in h.streams[s].listeners;
        var u, t := h.streams[s].user, h.streams[s].token;
        assert Notify(h, {u}, {}, t, 0).outcome[id].Woken?;
        NotifyWakesIff(h, {u}, {}, t, 0, id);
      }
    }
  }

  /** The two ways to lose wake-ups: to listen, up to date, on a stream that is not
      registered, and to replace a stream somebody listens on. */
  predicate KeepsAttended<S(==), L(==)>(h: Hub<S, L>, op: Op<S, L>) {
    Enabled(h, op) ==>
      match op
      case DoRegister(_, u, _, _, _) =>
        u in h.users && h.users[u] in h.streams ==> h.streams[h.users[u]].listeners == {}
      case DoListen(s, _, token) => Registered(h, s) || token != h.streams[s].token
      case _ => true
  }

  lemma RegisterKeepsAttendedIff<S, L>(h: Hub<S, L>, s: S, u: UserId, rooms: set<RoomId>, token: StreamToken, now: int)
    requires Sound(h) && Attended(h) && s !in h.streams
    ensures Attended(Register(h, s, u, rooms, token, now)) <==> (u in h.users ==> h.streams[h.users[u]].listeners == {})
  {
    var k := Register(h, s, u, rooms, token, now);
    forall t | t in h.streams ensures Registered(k, t) <==> Registered(h, t) && h.streams[t].user != u {}
    if u in h.users && h.streams[h.users[u]].listeners != {} {
      assert k.streams[h.users[u]].listeners != {};
    }
  }

  lemma ListenKeepsAttendedIff<S, L>(h: Hub<S, L>, s: S, id: L, token: StreamToken)
    requires Sound(h) && Attended(h) && s in h.streams && id !in h.outcome
    ensures Attended(Listen(h, s, id, token)) <==> Registered(h, s) || token != h.streams[s].token
  {
    var k := Listen(h, s, id, token);
    forall t ensures Registered(k, t) <==> Registered(h, t) {}
    if token == h.streams[s].token {
      assert id in k.streams[s].listeners;
    }
  }

  /** Expiry takes a registered stream exactly when nobody listens on it and it was last
      notified more than ten minutes ago. */
  lemma ExpiryKeepsListeners<S, L>(h: Hub<S, L>, now: int, s: S)
    requires Sound(h) && Registered(h, s)
    ensures Registered(Expire(h, now), s) <==> !Idle(h.streams[s], now)
    ensures Registered(Expire(h, now), s) <==>
            h.streams[s].listeners != {} || now - h.streams[s].lastNotified <= 10 * 60 * 1000
    ensures Expire(h, now).streams == h.streams && Expire(h, now).outcome == h.outcome
  {
  }

  lemma StepKeepsAttendedIff<S, L>(h: Hub<S, L>, op: Op<S, L>)
    requires Sound(h) && Attended(h)
    ensures Attended(Step(h, op)) <==> KeepsAttended(h, op)
  {
    if Enabled(h, op) {
      match op
      case DoRegister(s, u, rooms, token, now) => RegisterKeepsAttendedIff(h, s, u, rooms, token, now);
      case DoJoin(u, r) => forall t ensures Registered(JoinRoom(h, u, r), t) <==> Registered(h, t) {}
      case DoExpire(now) =>
        forall s | s in h.streams && h.streams[s].listeners != {} ensures Registered(Expire(h, now), s) {
          ExpiryKeepsListeners(h, now, s);
        }
      case DoListen(s, id, token) => ListenKeepsAttendedIff(h, s, id, token);
      case DoCancel(s, id) => forall t ensures Registered(Cancel(h, s, id), t) <==> Registered(h, t) {}
      case DoNotify(users, rooms, token, now) =>
        forall t ensures Registered(Notify(h, users, rooms, token, now), t) <==> Registered(h, t) {}
    }
  }

  /** Registering a stream loses no wake-up exactly when nobody listens on the one it
      replaces. */
  lemma RegisterLosesNothingIff<S, L>(h: Hub<S, L>, s: S, u: UserId, rooms: set<RoomId>, token: StreamToken, now: int)
    requires Sound(h) && NothingLost(h) && s !in h.streams
    ensures NothingLost(Register(h, s, u, rooms, token, now)) <==>
            (u in h.users ==> h.streams[h.users[u]].listeners == {})
  {
    NothingLostIff(h);
    RegisterKeepsSound(h, s, u, rooms, token, now);
    NothingLostIff(Register(h, s, u, rooms, token, now));
    RegisterKeepsAttendedIff(h, s, u, rooms, token, now);
  }

  /** Listening on a stream loses no wake-up exactly when the stream is registered or the
      token is out of date. */
  lemma ListenLosesNothingIff<S, L>(h: Hub<S, L>, s: S, id: L, token: StreamToken)
    requires Sound(h) && NothingLost(h) && s in h.streams && id !in h.outcome
    ensures NothingLost(Listen(h, s, id, token)) <==> Registered(h, s) || token != h.streams[s].token
  {
    NothingLostIff(h);
    ListenKeepsSound(h, s, id, token);
    NothingLostIff(Listen(h, s, id, token));
    ListenKeepsAttendedIff(h, s, id, token);
  }

  lemma {:induction false} SafeRunIsAttended<S, L>(h: Hub<S, L>, ops: seq<Op<S, L>>, i: nat)
    requires Sound(h) && Attended(h) && i <= |ops|
    requires forall j | 0 <= j < |ops| :: KeepsAttended(At(h, ops, j), ops[j])
    ensures Attended(At(h, ops, i))
  {
    if i > 0 {
      SafeRunIsAttended(h, ops, i - 1);
      AtIsSound(h, ops, i - 1);
      AtNext(h, ops, i - 1);
      StepKeepsAttendedIff(At(h, ops, i - 1), ops[i - 1]);
    } else {
      AtEnds(h, ops);
    }
  }

  lemma LosslessStep<S, L>(h: Hub<S, L>, ops: seq<Op<S, L>>, i: nat)
    requires Sound(h) && i < |ops| && NothingLost(At(h, ops, i)) && NothingLost(At(h, ops, i + 1))
    ensures KeepsAttended(At(h, ops, i), ops[i])
  {
    AtIsSound(h, ops, i);
    AtIsSound(h, ops, i + 1);
    AtNext(h, ops, i);
    NothingLostIff(At(h, ops, i));
    NothingLostIff(At(h, ops, i + 1));
    StepKeepsAttendedIff(At(h, ops, i), ops[i]);
  }

  /** Over every run: no wake-up is ever lost exactly when no listener was made up to date on
      a stream that is not registered, and no stream with listeners was replaced. */
  lemma NothingEverLostIff<S, L>(h: Hub<S, L>, ops: seq<Op<S, L>>)
    requires Sound(h) && NothingLost(h)
    ensures (forall i | 0 <= i <= |ops| :: NothingLost(At(h, ops, i))) <==>
            (forall i | 0 <= i < |ops| :: KeepsAttended(At(h, ops, i), ops[i]))
  {
    if forall i | 0 <= i <= |ops| :: NothingLost(At(h, ops, i)) {
      forall i | 0 <= i < |ops| ensures KeepsAttended(At(h, ops, i), ops[i]) {
        LosslessStep(h, ops, i);
      }
    }
    if forall i | 0 <= i < |ops| :: KeepsAttended(At(h, ops, i), ops[i]) {
      NothingLostIff(h);
      forall i | 0 <= i <= |ops| ensures NothingLost(At(h, ops, i)) {
        SafeRunIsAttended(h, ops, i);
        AtIsSound(h, ops, i);
        NothingLostIff(At(h, ops, i));
      }
    }
  }

  // ---- Streams that are held ----

  /** The step ends the registration of `s`: it expires, or its user gets another stream. */
  predicate Drops<S(==), L(==)>(h: Hub<S, L>, op: Op<S, L>, s: S) {
    && s in h.streams
    && (|| (op.DoExpire? && Idle(h.streams[s], op.now))
        || (op.DoRegister? && Enabled(h, op) && op.u == h.streams[s].user))
  }

  lemma {:induction false} StreamsStay<S, L>(h: Hub<S, L>, ops: seq<Op<S, L>>, s: S)
    requires s in h.streams
    ensures s in Run(h, ops).streams && Run(h, ops).streams[s].user == h.streams[s].user
  {
    if ops != [] {
      StreamsStay(h, ops[..|ops| - 1], s);
    }
  }

  lemma StepKeepsRegisteredIff<S, L>(h: Hub<S, L>, op: Op<S, L>, s: S)
    requires Sound(h) && s in h.streams
    ensures Registered(Step(h, op), s) <==> Registered(h, s) && !Drops(h, op, s)
  {
    if op.DoExpire? && Registered(h, s) {
      ExpiryKeepsListeners(h, op.now, s);
    }
  }

  predicate DropsAt<S(==), L(==)>(h: Hub<S, L>, ops: seq<Op<S, L>>, s: S, i: nat)
    requires i < |ops|
  {
    Drops(At(h, ops, i), ops[i], s)
  }

  lemma RegisteredNext<S, L>(h: Hub<S, L>, ops: seq<Op<S, L>>, s: S, i: nat)
    requires Sound(h) && s in h.streams && i < |ops|
    ensures Registered(At(h, ops, i + 1), s) <==> Registered(At(h, ops, i), s) && !DropsAt(h, ops, s, i)
  {
    StreamsStay(h, ops[..i], s);
    AtIsSound(h, ops, i);
    AtNext(h, ops, i);
    StepKeepsRegisteredIff(At(h, ops, i), ops[i], s);
  }

  /** A stream that was looked up is still registered later in a run exactly when no expiry
      in between found it idle and its user got no other stream. */
  lemma {:induction false} HeldStreamIsRegisteredIff<S, L>(h: Hub<S, L>, ops: seq<Op<S, L>>, s: S, i: nat)
    requires Sound(h) && Registered(h, s) && i <= |ops|
    ensures Registered(At(h, ops, i), s) <==> forall j | 0 <= j < i :: !DropsAt(h, ops, s, j)
  {
    if i > 0 {
      HeldStreamIsRegisteredIff(h, ops, s, i - 1);
      RegisteredNext(h, ops, s, i - 1);
    } else {
      AtEnds(h, ops);
    }
  }

  // ---- Streams that are replaced ----

  /** Every stream in the index is registered. */
  ghost predicate Tidy<S, L>(h: Hub<S, L>) {
    forall r, s | r in h.index && s in h.index[r] :: Registered(h, s)
  }

  /** The index is left untidy only by replacing a stream that has rooms. */
  predicate KeepsTidy<S(==), L(==)>(h: Hub<S, L>, op: Op<S, L>) {
    op.DoRegister? && Enabled(h, op) && op.u in h.users && h.users[op.u] in h.streams ==>
      h.streams[h.users[op.u]].rooms == {}
  }

  lemma RegisterKeepsTidyIff<S, L>(h: Hub<S, L>, s: S, u: UserId, rooms: set<RoomId>, token: StreamToken, now: int)
    requires Sound(h) && Tidy(h) && s !in h.streams
    ensures Tidy(Register(h, s, u, rooms, token, now)) <==> (u in h.users ==> h.streams[h.users[u]].rooms == {})
  {
    var k := Register(h, s, u, rooms, token, now);
    forall t | t in h.streams ensures Registered(k, t) <==> Registered(h, t) && h.streams[t].user != u {}
    if u in h.users && h.streams[h.users[u]].rooms != {} {
      var r :| r in h.streams[h.users[u]].rooms;
      assert h.users[u] in k.index[r];
    } else {
      forall r, t | r in k.index && t in k.index[r] ensures Registered(k, t) {
        if t != s {
          assert t in StreamsIn(h.index, r) && Registered(h, t) && r in h.streams[t].rooms;
        }
      }
    }
  }

  lemma StepKeepsTidyIff<S, L>(h: Hub<S, L>, op: Op<S, L>)
    requires Sound(h) && Tidy(h)
    ensures Tidy(Step(h, op)) <==> KeepsTidy(h, op)
  {
    if Enabled(h, op) {
      match op
      case DoRegister(s, u, rooms, token, now) => RegisterKeepsTidyIff(h, s, u, rooms, token, now);
      case DoExpire(now) =>
        forall s | Registered(h, s) ensures Registered(Expire(h, now), s) <==> s !in Expired(h, now) {}
      case _ => forall t ensures Registered(Step(h, op), t) <==> Registered(h, t) {}
    }
  }

  lemma {:induction false} TidyRun<S, L>(h: Hub<S, L>, ops: seq<Op<S, L>>, i: nat)
    requires Sound(h) && Tidy(h) && i <= |ops|
    requires forall j | 0 <= j < |ops| :: KeepsTidy(At(h, ops, j), ops[j])
    ensures Tidy(At(h, ops, i))
  {
    if i > 0 {
      TidyRun(h, ops, i - 1);
      AtIsSound(h, ops, i - 1);
      AtNext(h, ops, i - 1);
      StepKeepsTidyIff(At(h, ops, i - 1), ops[i - 1]);
    } else {
      AtEnds(h, ops);
    }
  }

  /** In a tidy index a stream is listed under a room exactly when it is registered and the
      room is among its rooms. */
  lemma TidyAgrees<S, L>(h: Hub<S, L>, r: RoomId, s: S)
    requires Sound(h) && Tidy(h)
    ensures s in StreamsIn(h.index, r) <==> Registered(h, s) && r in h.streams[s].rooms
  {
  }

  /** Over every run the index stays tidy exactly when no stream with rooms is replaced. */
  lemma TidyThroughoutIff<S, L>(h: Hub<S, L>, ops: seq<Op<S, L>>)
    requires Sound(h) && Tidy(h)
    ensures (forall i | 0 <= i <= |ops| :: Tidy(At(h, ops, i))) <==>
            (forall i | 0 <= i < |ops| :: KeepsTidy(At(h, ops, i), ops[i]))
  {
    if forall i | 0 <= i <= |ops| :: Tidy(At(h, ops, i)) {
      forall i | 0 <= i < |ops| ensures KeepsTidy(At(h, ops, i), ops[i]) {
        assert Tidy(At(h, ops, i)) && Tidy(At(h, ops, i + 1));
        AtIsSound(h, ops, i);
        AtNext(h, ops, i);
        StepKeepsTidyIff(At(h, ops, i), ops[i]);
      }
    }
    if forall i | 0 <= i < |ops| :: KeepsTidy(At(h, ops, i), ops[i]) {
      forall i | 0 <= i <= |ops| ensures Tidy(At(h, ops, i)) {
        TidyRun(h, ops, i);
      }
    }
  }

  // ---- How wake-ups are lost ----

  lemma RunOfThree<S, L>(h: Hub<S, L>, a: Op<S, L>, b: Op<S, L>, c: Op<S, L>)
    ensures Run(h, [a, b, c]) == Step(Step(Step(h, a), b), c)
  {
    assert [a, b, c][..2] == [a, b] && [a, b][..1] == [a] && [a][..0] == [];
    assert Run(h, [a]) == Step(Run(h, []), a);
    assert Run(h, [a, b]) == Step(Run(h, [a]), b);
  }

  lemma RunOfFour<S, L>(h: Hub<S, L>, a: Op<S, L>, b: Op<S, L>, c: Op<S, L>, d: Op<S, L>)
    ensures Run(h, [a, b, c, d]) == Step(Step(Step(Step(h, a), b), c), d)
  {
    assert [a, b, c, d] == [a, b, c] + [d];
    RunNext(h, [a, b, c], d);
    RunOfThree(h, a, b, c);
  }

  /** The only stream, number 0, as it is made and registered. */
  function Fresh(u: UserId, rooms: set<RoomId>, token: StreamToken): Hub<nat, nat> {
    Hub(map[0 := Stream(u, rooms, token, 0, {})], map[u := 0], map r | r in rooms :: {0}, map[])
  }

  lemma FirstRegistration(u: UserId, rooms: set<RoomId>, token: StreamToken)
    ensures Step(Empty<nat, nat>(), DoRegister(0, u, rooms, token, 0)) == Fresh(u, rooms, token)
  {
    forall r | r in rooms ensures StreamsIn<nat>(map[], r) + {0} == {0} {}
    assert Step(Empty<nat, nat>(), DoRegister(0, u, rooms, token, 0)).index == Fresh(u, rooms, token).index;
  }

  /** Its first listener was behind and had nothing to wait for. */
  function Answered(u: UserId, rooms: set<RoomId>, token: StreamToken): Hub<nat, nat> {
    Fresh(u, rooms, token).(outcome := map[0 := Woken(token)])
  }

  function Forgotten(u: UserId, rooms: set<RoomId>, token: StreamToken): Hub<nat, nat> {
    Answered(u, rooms, token).(users := map[], index := map[])
  }

  lemma ItExpires(u: UserId, rooms: set<RoomId>, token: StreamToken)
    ensures Step(Answered(u, rooms, token), DoExpire(UNUSED_STREAM_EXPIRY + 1)) == Forgotten(u, rooms, token)
  {
    var h := Answered(u, rooms, token);
    assert u in h.users && Idle(h.streams[h.users[u]], UNUSED_STREAM_EXPIRY + 1);
    assert Expired(h, UNUSED_STREAM_EXPIRY + 1) == {0};
    assert RemoveStreams(h, {0}).index == map[] && RemoveStreams(h, {0}).users == map[];
  }

  lemma ListenOnForgotten(u: UserId, rooms: set<RoomId>, token: StreamToken, news: StreamToken, now: int)
    ensures var h := Step(Forgotten(u, rooms, token), DoListen(0, 1, token));
            && 1 in h.outcome && h.outcome[1] == Waiting(0, token)
            && Notify(h, {u}, rooms, news, now).outcome == h.outcome
  {
    var h := Step(Forgotten(u, rooms, token), DoListen(0, 1, token));
    assert Targets(h, {u}, rooms) == {};
  }

  /** A caller whose token is out of date makes a stream and is answered at once; the stream
      expires while its callback runs, and is listened on again: news for its user and all
      its rooms does not wake the listener. */
  lemma ExpiredStreamLosesWakeUps(u: UserId, rooms: set<RoomId>, older: StreamToken, token: StreamToken,
                                  news: StreamToken, now: int) returns (ops: seq<Op<nat, nat>>)
    requires older != token
    ensures ops == [DoRegister(0, u, rooms, token, 0), DoListen(0, 0, older), DoExpire(UNUSED_STREAM_EXPIRY + 1),
                    DoListen(0, 1, token)]
    ensures var h := Run(Empty<nat, nat>(), ops);
            && Sound(h) && 1 in h.outcome && h.outcome[1] == Waiting(0, token)
            && Notify(h, {u}, rooms, news, now).outcome == h.outcome
  {
    var a, b := DoRegister(0, u, rooms, token, 0), DoListen(0, 0, older);
    var c, d := DoExpire(UNUSED_STREAM_EXPIRY + 1), DoListen(0, 1, token);
    ops := [a, b, c, d];
    RunIsSound(Empty<nat, nat>(), ops);
    RunOfFour(Empty<nat, nat>(), a, b, c, d);
    FirstRegistration(u, rooms, token);
    assert Step(Fresh(u, rooms, token), b) == Answered(u, rooms, token);
    ItExpires(u, rooms, token);
    ListenOnForgotten(u, rooms, token, news, now);
  }

  /** Two overlapping calls register one after the other while the first already listens: news
      for the user does not wake the first. */
  lemma ReplacedStreamLosesWakeUps(u: UserId, token: StreamToken, news: StreamToken, now: int)
      returns (ops: seq<Op<nat, nat>>)
    ensures |ops| == 3 && ops[0] == DoRegister(0, u, {}, token, 0) && ops[1] == DoListen(0, 0, token)
    ensures ops[2] == DoRegister(1, u, {}, token, 0)
    ensures var h := Run(Empty<nat, nat>(), ops);
            && Sound(h) && 0 in h.outcome && h.outcome[0] == Waiting(0, token)
            && Notify(h, {u}, {}, news, now).outcome == h.outcome
  {
    var a, b, c := DoRegister(0, u, {}, token, 0), DoListen(0, 0, token), DoRegister(1, u, {}, token, 0);
    ops := [a, b, c];
    RunIsSound(Empty<nat, nat>(), ops);
    RunOfThree(Empty<nat, nat>(), a, b, c);
    FirstRegistration(u, {}, token);
    ReplaceAfterListen(u, token, news, now);
  }

  lemma ReplaceAfterListen(u: UserId, token: StreamToken, news: StreamToken, now: int)
    ensures var h := Step(Step(Fresh(u, {}, token), DoListen(0, 0, token)), DoRegister(1, u, {}, token, 0));
            && 0 in h.outcome && h.outcome[0] == Waiting(0, token)
            && Notify(h, {u}, {}, news, now).outcome == h.outcome
  {
    var h := Step(Step(Fresh(u, {}, token), DoListen(0, 0, token)), DoRegister(1, u, {}, token, 0));
    assert h.users[u] == 1;
    assert Targets(h, {u}, {}) == {1};
  }

  /** The same overlap leaves a stream with rooms in the index that is not registered. */
  lemma ReplacedStreamStaysListed(u: UserId, r: RoomId, token: StreamToken) returns (ops: seq<Op<nat, nat>>)
    ensures |ops| == 2 && ops[0] == DoRegister(0, u, {r}, token, 0) && ops[1] == DoRegister(1, u, {r}, token, 0)
    ensures var h := Run(Empty<nat, nat>(), ops);
            Sound(h) && r in h.index && 0 in h.index[r] && !Registered(h, 0)
  {
    var a, b := DoRegister(0, u, {r}, token, 0), DoRegister(1, u, {r}, token, 0);
    ops := [a, b];
    RunIsSound(Empty<nat, nat>(), ops);
    AtEnds(Empty<nat, nat>(), ops);
    AtNext(Empty<nat, nat>(), ops, 0);
    AtNext(Empty<nat, nat>(), ops, 1);
    FirstRegistration(u, {r}, token);
    assert 0 in StreamsIn(At(Empty<nat, nat>(), ops, 1).index, r);
  }
}
