/** The notifier's bookkeeping as a state machine over values: every stream made so far, which
    of them are registered, the index from rooms to streams, and what became of every
    listener. Each transition is one stretch of code between two awaits; in between, a caller
    may hold on to a stream that is no longer registered. */
module Hub {
  import opened Matrix
  import opened StreamTokens

  /** What became of a listener. */
  datatype Outcome<S> = Waiting(on: S, since: StreamToken) | Woken(at: StreamToken) | Cancelled

  datatype Stream<L> = Stream(
    user: UserId,
    rooms: set<RoomId>,
    token: StreamToken,
    lastNotified: int,
    listeners: set<L>)

  datatype Hub<S, L> = Hub(
    streams: map<S, Stream<L>>, // registered or not
    users: map<UserId, S>,
    index: map<RoomId, set<S>>,
    outcome: map<L, Outcome<S>>)

  const UNUSED_STREAM_EXPIRY: int := 600_000

  function Empty<S, L>(): Hub<S, L> { Hub(map[], map[], map[], map[]) }

  // ---- Transitions ----

  function StreamsIn<S>(index: map<RoomId, set<S>>, r: RoomId): set<S> {
    if r in index then index[r] else {}
  }

  function AddToIndex<S>(index: map<RoomId, set<S>>, rooms: set<RoomId>, s: S): map<RoomId, set<S>> {
    map r | r in index.Keys + rooms :: StreamsIn(index, r) + if r in rooms then {s} else {}
  }

  /** A new stream takes the place of the one its user may have had; that one stays in the
      index. */
  function Register<S, L>(h: Hub<S, L>, s: S, u: UserId, rooms: set<RoomId>, token: StreamToken, now: int): Hub<S, L> {
    Hub(h.streams[s := Stream(u, rooms, token, now, {})], h.users[u := s], AddToIndex(h.index, rooms, s), h.outcome)
  }

  function JoinRoom<S, L>(h: Hub<S, L>, u: UserId, r: RoomId): Hub<S, L> {
    if u !in h.users || h.users[u] !in h.streams then h
    else
      var s := h.users[u];
      var stream := h.streams[s];
      Hub(h.streams[s := stream.(rooms := stream.rooms + {r})], h.users, AddToIndex(h.index, {r}, s), h.outcome)
  }

  predicate Idle<L(==)>(stream: Stream<L>, now: int) {
    stream.listeners == {} && stream.lastNotified < now - UNUSED_STREAM_EXPIRY
  }

  /** Registered streams nobody listens on and nothing has touched for the expiry period. */
  function Expired<S, L>(h: Hub<S, L>, now: int): set<S> {
    set u | u in h.users && h.users[u] in h.streams && Idle(h.streams[h.users[u]], now) :: h.users[u]
  }

  function RemoveStreams<S, L>(h: Hub<S, L>, gone: set<S>): Hub<S, L> {
    Hub(h.streams,
        map u | u in h.users && h.users[u] !in gone :: h.users[u],
        map r | r in h.index && h.index[r] - gone != {} :: h.index[r] - gone,
        h.outcome)
  }

  function Expire<S, L>(h: Hub<S, L>, now: int): Hub<S, L> {
    RemoveStreams(h, Expired(h, now))
  }

  /** A listener waits only if nothing has happened since its token; the stream is whatever
      object the caller holds. */
  function Listen<S, L>(h: Hub<S, L>, s: S, id: L, token: StreamToken): Hub<S, L>
    requires s in h.streams
  {
    var stream := h.streams[s];
    if token != stream.token then h.(outcome := h.outcome[id := Woken(stream.token)])
    else
      Hub(h.streams[s := stream.(listeners := stream.listeners + {id})], h.users, h.index,
          h.outcome[id := Waiting(s, token)])
  }

  /** A timeout cancels a listener and takes it off its stream. */
  function Cancel<S, L>(h: Hub<S, L>, s: S, id: L): Hub<S, L>
    requires s in h.streams
  {
    var stream := h.streams[s];
    Hub(h.streams[s := stream.(listeners := stream.listeners - {id})], h.users, h.index, h.outcome[id := Cancelled])
  }

  /** The streams of the named users, and all streams listed under the named rooms. */
  function Targets<S, L>(h: Hub<S, L>, users: set<UserId>, rooms: set<RoomId>): set<S> {
    OfUsers(h.users, users) + OfRooms(h.index, rooms)
  }

  function OfUsers<S>(streams: map<UserId, S>, users: set<UserId>): set<S> {
    set u | u in users && u in streams :: streams[u]
  }

  function OfRooms<S>(index: map<RoomId, set<S>>, rooms: set<RoomId>): set<S> {
    set r, s | r in rooms && s in StreamsIn(index, r) :: s
  }

  function Awaken<S, L>(outcome: map<L, Outcome<S>>, targets: set<S>, token: StreamToken): map<L, Outcome<S>> {
    map id | id in outcome :: if outcome[id].Waiting? && outcome[id].on in targets then Woken(token) else outcome[id]
  }

  /** Woken streams are at the new token, with nobody left listening. */
  function Advanced<S, L>(streams: map<S, Stream<L>>, targets: set<S>, token: StreamToken, now: int)
    : map<S, Stream<L>>
  {
    map s | s in streams ::
      if s in targets then streams[s].(token := token, lastNotified := now, listeners := {}) else streams[s]
  }

  function Wake<S, L>(h: Hub<S, L>, targets: set<S>, token: StreamToken, now: int): Hub<S, L> {
    Hub(Advanced(h.streams, targets, token, now), h.users, h.index, Awaken(h.outcome, targets, token))
  }

  function Notify<S, L>(h: Hub<S, L>, users: set<UserId>, rooms: set<RoomId>, token: StreamToken, now: int): Hub<S, L> {
    Wake(h, Targets(h, users, rooms), token, now)
  }

  // ---- What holds whatever happens ----

  predicate Registered<S(==), L>(h: Hub<S, L>, s: S) {
    s in h.streams && h.streams[s].user in h.users && h.users[h.streams[s].user] == s
  }

  /** Streams are registered under their own user, listed under their own rooms only, and a
      registered one under all of them; no room is listed with nobody under it. */
  ghost predicate IndexAgrees<S, L>(h: Hub<S, L>) {
    && (forall u | u in h.users :: h.users[u] in h.streams && h.streams[h.users[u]].user == u)
    && (forall r, s | r in h.index && s in h.index[r] :: s in h.streams && r in h.streams[s].rooms)
    && (forall u, r | u in h.users && r in h.streams[h.users[u]].rooms :: r in h.index && h.users[u] in h.index[r])
    && (forall r | r in h.index :: h.index[r] != {})
  }

  /** The listeners on a stream are exactly those that wait on it, and each of them waits
      since the token the stream still has. */
  ghost predicate UpToDate<S, L>(h: Hub<S, L>) {
    && (forall s, id | s in h.streams && id in h.streams[s].listeners ::
          id in h.outcome && h.outcome[id] == Waiting(s, h.streams[s].token))
    && (forall id | id in h.outcome && h.outcome[id].Waiting? ::
          h.outcome[id].on in h.streams && id in h.streams[h.outcome[id].on].listeners)
  }

  ghost predicate Sound<S, L>(h: Hub<S, L>) {
    IndexAgrees(h) && UpToDate(h)
  }

  lemma TargetsAreStreams<S, L>(h: Hub<S, L>, users: set<UserId>, rooms: set<RoomId>)
    requires IndexAgrees(h)
    ensures Targets(h, users, rooms) <= h.streams.Keys
  {
  }

  lemma RegisterKeepsSound<S, L>(h: Hub<S, L>, s: S, u: UserId, rooms: set<RoomId>, token: StreamToken, now: int)
    requires Sound(h) && s !in h.streams
    ensures Sound(Register(h, s, u, rooms, token, now))
  {
  }

  lemma JoinRoomKeepsAgreement<S, L>(h: Hub<S, L>, u: UserId, r: RoomId)
    requires IndexAgrees(h) && u in h.users
    ensures IndexAgrees(JoinRoom(h, u, r))
  {
    var k := JoinRoom(h, u, r);
    forall q, t | q in k.index && t in k.index[q] ensures t in k.streams && q in k.streams[t].rooms {
      assert t in StreamsIn(h.index, q) || (t == h.users[u] && q == r);
    }
    forall v, q | v in k.users && q in k.streams[k.users[v]].rooms ensures q in k.index && k.users[v] in k.index[q] {
      assert q in h.streams[h.users[v]].rooms || (v == u && q == r);
    }
  }

  lemma JoinRoomKeepsSound<S, L>(h: Hub<S, L>, u: UserId, r: RoomId)
    requires Sound(h)
    ensures Sound(JoinRoom(h, u, r))
  {
    if u in h.users {
      JoinRoomKeepsAgreement(h, u, r);
    }
  }

  lemma RemoveKeepsAgreement<S, L>(h: Hub<S, L>, gone: set<S>)
    requires IndexAgrees(h)
    ensures IndexAgrees(RemoveStreams(h, gone))
  {
    var k := RemoveStreams(h, gone);
    forall u, r | u in k.users && r in k.streams[k.users[u]].rooms ensures r in k.index && k.users[u] in k.index[r] {
      assert k.users[u] in h.index[r] - gone;
    }
  }

  lemma RemoveNone<S, L>(h: Hub<S, L>)
    requires IndexAgrees(h)
    ensures RemoveStreams(h, {}) == h
  {
    var k := RemoveStreams(h, {});
    forall r | r in h.index ensures h.index[r] - {} == h.index[r] {}
    assert k.index == h.index && k.users == h.users;
  }

  lemma RemoveMore<S, L>(h: Hub<S, L>, gone: set<S>, s: S)
    ensures RemoveStreams(RemoveStreams(h, gone), {s}) == RemoveStreams(h, gone + {s})
  {
    var k, l := RemoveStreams(RemoveStreams(h, gone), {s}), RemoveStreams(h, gone + {s});
    forall r | r in h.index ensures h.index[r] - (gone + {s}) == (h.index[r] - gone) - {s} {}
    assert k.index.Keys == l.index.Keys;
    assert k.index == l.index && k.users == l.users;
  }

  /** Only the listeners and the token of streams changed. */
  lemma AgreementIgnoresListeners<S, L>(h: Hub<S, L>, k: Hub<S, L>)
    requires IndexAgrees(h) && k.users == h.users && k.index == h.index && k.streams.Keys == h.streams.Keys
    requires forall s | s in h.streams ::
               k.streams[s].user == h.streams[s].user && k.streams[s].rooms == h.streams[s].rooms
    ensures IndexAgrees(k)
  {
  }

  lemma ListenKeepsUpToDate<S, L>(h: Hub<S, L>, s: S, id: L, token: StreamToken)
    requires UpToDate(h) && s in h.streams && id !in h.outcome
    ensures UpToDate(Listen(h, s, id, token))
  {
  }

  lemma ListenKeepsSound<S, L>(h: Hub<S, L>, s: S, id: L, token: StreamToken)
    requires Sound(h) && s in h.streams && id !in h.outcome
    ensures Sound(Listen(h, s, id, token))
  {
    AgreementIgnoresListeners(h, Listen(h, s, id, token));
    ListenKeepsUpToDate(h, s, id, token);
  }

  lemma CancelKeepsSound<S, L>(h: Hub<S, L>, s: S, id: L)
    requires Sound(h) && s in h.streams && id in h.streams[s].listeners
    ensures Sound(Cancel(h, s, id))
  {
    var k := Cancel(h, s, id);
    AgreementIgnoresListeners(h, k);
    assert h.outcome[id] == Waiting(s, h.streams[s].token);
    forall t, other | t in k.streams && other in k.streams[t].listeners
      ensures other in k.outcome && k.outcome[other] == Waiting(t, k.streams[t].token)
    {
      assert other in h.streams[t].listeners;
    }
  }

  lemma WakeKeepsSound<S, L>(h: Hub<S, L>, targets: set<S>, token: StreamToken, now: int)
    requires Sound(h)
    ensures Sound(Wake(h, targets, token, now))
  {
    AgreementIgnoresListeners(h, Wake(h, targets, token, now));
  }

  /** A target is at the new token with nobody listening, and whoever waited on it is woken. */
  lemma TargetsAdvance<S, L>(h: Hub<S, L>, targets: set<S>, token: StreamToken, now: int, s: S, id: L)
    requires s in targets && s in h.streams
    ensures var k := Wake(h, targets, token, now);
            && s in k.streams && k.streams[s].token == token && k.streams[s].listeners == {}
            && (id in h.outcome && h.outcome[id].Waiting? && h.outcome[id].on == s ==>
                  id in k.outcome && k.outcome[id] == Woken(token))
  {
  }

  // ---- Runs ----

  datatype Op<S, L> =
    | DoRegister(s: S, u: UserId, rooms: set<RoomId>, token: StreamToken, now: int)
    | DoJoin(u: UserId, r: RoomId)
    | DoExpire(now: int)
    | DoListen(s: S, id: L, token: StreamToken)
    | DoCancel(s: S, id: L)
    | DoNotify(users: set<UserId>, targetRooms: set<RoomId>, token: StreamToken, now: int)

  /** A stream is registered when it is made; a listener is made once, on a stream that was
      made before, registered or not, and cancelled only while waiting. */
  predicate Enabled<S(==), L(==)>(h: Hub<S, L>, op: Op<S, L>) {
    match op
    case DoRegister(s, _, _, _, _) => s !in h.streams
    case DoListen(s, id, _) => s in h.streams && id !in h.outcome
    case DoCancel(s, id) => s in h.streams && id in h.streams[s].listeners
    case _ => true
  }

  function Step<S(==), L(==)>(h: Hub<S, L>, op: Op<S, L>): Hub<S, L> {
    if !Enabled(h, op) then h
    else
      match op
      case DoRegister(s, u, rooms, token, now) => Register(h, s, u, rooms, token, now)
      case DoJoin(u, r) => JoinRoom(h, u, r)
      case DoExpire(now) => Expire(h, now)
      case DoListen(s, id, token) => Listen(h, s, id, token)
      case DoCancel(s, id) => Cancel(h, s, id)
      case DoNotify(users, rooms, token, now) => Notify(h, users, rooms, token, now)
  }

  function Run<S(==), L(==)>(h: Hub<S, L>, ops: seq<Op<S, L>>): Hub<S, L> {
    if ops == [] then h else Step(Run(h, ops[..|ops| - 1]), ops[|ops| - 1])
  }

  /** The state in which the `i`-th operation of a run is carried out. */
  function At<S(==), L(==)>(h: Hub<S, L>, ops: seq<Op<S, L>>, i: nat): Hub<S, L>
    requires i <= |ops|
  {
    Run(h, ops[..i])
  }

  lemma AtNext<S, L>(h: Hub<S, L>, ops: seq<Op<S, L>>, i: nat)
    requires i < |ops|
    ensures At(h, ops, i + 1) == Step(At(h, ops, i), ops[i])
  {
    assert ops[..i + 1][..i] == ops[..i];
  }

  lemma AtEnds<S, L>(h: Hub<S, L>, ops: seq<Op<S, L>>)
    ensures At(h, ops, 0) == h && At(h, ops, |ops|) == Run(h, ops)
  {
    assert ops[..|ops|] == ops;
  }

  lemma StepKeepsSound<S, L>(h: Hub<S, L>, op: Op<S, L>)
    requires Sound(h)
    ensures Sound(Step(h, op))
  {
    if Enabled(h, op) {
      match op
      case DoRegister(s, u, rooms, token, now) => RegisterKeepsSound(h, s, u, rooms, token, now);
      case DoJoin(u, r) => JoinRoomKeepsSound(h, u, r);
      case DoExpire(now) => RemoveKeepsAgreement(h, Expired(h, now));
      case DoListen(s, id, token) => ListenKeepsSound(h, s, id, token);
      case DoCancel(s, id) => CancelKeepsSound(h, s, id);
      case DoNotify(users, rooms, token, now) => WakeKeepsSound(h, Targets(h, users, rooms), token, now);
    }
  }

  /** Over every run, overlapping registrations and streams held past their expiry included,
      the indexes agree and every listener still waiting waits since its stream's token. */
  lemma {:induction false} RunIsSound<S, L>(h: Hub<S, L>, ops: seq<Op<S, L>>)
    requires Sound(h)
    ensures Sound(Run(h, ops))
  {
    if ops != [] {
      RunIsSound(h, ops[..|ops| - 1]);
      StepKeepsSound(Run(h, ops[..|ops| - 1]), ops[|ops| - 1]);
    }
  }

  lemma AtIsSound<S, L>(h: Hub<S, L>, ops: seq<Op<S, L>>, i: nat)
    requires Sound(h) && i <= |ops|
    ensures Sound(At(h, ops, i))
  {
    RunIsSound(h, ops[..i]);
  }

  lemma RunNext<S, L>(h: Hub<S, L>, ops: seq<Op<S, L>>, op: Op<S, L>)
    ensures Run(h, ops + [op]) == Step(Run(h, ops), op)
  {
    assert (ops + [op])[..|ops|] == ops;
  }

  lemma {:induction false} RunInTwo<S, L>(h: Hub<S, L>, first: seq<Op<S, L>>, second: seq<Op<S, L>>)
    ensures Run(h, first + second) == Run(Run(h, first), second)
  {
    if second == [] {
      assert first + second == first;
    } else {
      var last := |second| - 1;
      RunInTwo(h, first, second[..last]);
      assert (first + second)[..|first| + last] == first + second[..last];
    }
  }

  /** A step leaves a listener that was woken or cancelled as it is. */
  lemma StepKeepsResolved<S, L>(h: Hub<S, L>, op: Op<S, L>, id: L)
    requires Sound(h) && id in h.outcome && !h.outcome[id].Waiting?
    ensures id in Step(h, op).outcome && Step(h, op).outcome[id] == h.outcome[id]
  {
  }

  /** Over every run it stays so: a listener is resolved at most once. */
  lemma {:induction false} ResolvedOnce<S, L>(h: Hub<S, L>, ops: seq<Op<S, L>>, id: L)
    requires Sound(h) && id in h.outcome && !h.outcome[id].Waiting?
    ensures id in Run(h, ops).outcome && Run(h, ops).outcome[id] == h.outcome[id]
  {
    if ops != [] {
      ResolvedOnce(h, ops[..|ops| - 1], id);
      RunIsSound(h, ops[..|ops| - 1]);
      StepKeepsResolved(Run(h, ops[..|ops| - 1]), ops[|ops| - 1], id);
    }
  }

  lemma StepKeepsOutcome<S, L>(h: Hub<S, L>, op: Op<S, L>, id: L)
    requires id in h.outcome
    ensures id in Step(h, op).outcome
  {
  }

  /** One step leaves a listener that is still waiting exactly as it was, and was not a
      notification aimed at its stream. */
  lemma StillWaitingAfterStep<S, L>(h: Hub<S, L>, op: Op<S, L>, id: L)
    requires Sound(h) && id in h.outcome && id in Step(h, op).outcome && Step(h, op).outcome[id].Waiting?
    ensures Step(h, op).outcome[id] == h.outcome[id]
    ensures op.DoNotify? ==> h.outcome[id].on !in Targets(h, op.users, op.targetRooms)
  {
  }

  lemma {:induction false} OutcomesPersist<S, L>(h: Hub<S, L>, ops: seq<Op<S, L>>, id: L)
    requires id in h.outcome
    ensures id in Run(h, ops).outcome
  {
    if ops != [] {
      OutcomesPersist(h, ops[..|ops| - 1], id);
      StepKeepsOutcome(Run(h, ops[..|ops| - 1]), ops[|ops| - 1], id);
    }
  }

  /** Over a run: a listener that still waits at the end was waiting all along, on a stream
      whose token never moved and which no notification was aimed at. */
  lemma {:induction false} StillWaitingMeansUntouched<S, L>(h: Hub<S, L>, ops: seq<Op<S, L>>, id: L, i: nat)
    requires Sound(h) && id in h.outcome && i < |ops|
    requires id in Run(h, ops).outcome && Run(h, ops).outcome[id].Waiting?
    ensures Run(h, ops).outcome[id] == h.outcome[id]
    ensures h.outcome[id].on in Run(h, ops).streams
    ensures Run(h, ops).streams[h.outcome[id].on].token == h.outcome[id].since
    ensures ops[i].DoNotify? ==> h.outcome[id].on !in Targets(At(h, ops, i), ops[i].users, ops[i].targetRooms)
  {
    var last := |ops| - 1;
    OutcomesPersist(h, ops[..last], id);
    RunIsSound(h, ops[..last]);
    RunIsSound(h, ops);
    StillWaitingAfterStep(Run(h, ops[..last]), ops[last], id);
    if last > 0 {
      StillWaitingMeansUntouched(h, ops[..last], id, if i < last then i else 0);
      assert ops[..last][..i] == ops[..i] || i == last;
    }
  }
}
