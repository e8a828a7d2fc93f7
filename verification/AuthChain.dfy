/** The authorisation rules that do not look at room state: each event is checked against
    the auth events it cites, and events are admitted one by one. */
module AuthChain {
  import opened Matrix
  import opened AuthRules

  datatype Refusal =
    | CreateHasPrev | CreateHasPrevState | CreateHasRoomId | CreateWrongDomain | UnknownVersion | NoCreatorField
    | BadAdditionalCreator
    | BadPrevState | NoSelection
    | OtherRoom(id: EventId) | NotState(id: EventId) | Duplicate(key: StateKey) | Unexpected(key: StateKey)
    | RejectedAuthEvent(id: EventId)
    | NoCreate
    | UnknownPrevState | UnknownAuthEvent(missing: EventId)

  /** What the check can look up: persisted events, and events of the same batch with the
      rejections decided for them so far. */
  datatype Known = Known(store: map<EventId, Event>, batch: map<EventId, Event>, batchRejected: set<EventId>,
      forgive: bool)

  function Find(known: Known, id: EventId): Option<Event> {
    if id in known.batch then Some(known.batch[id]) else Get(known.store, id)
  }

  // ---- Create events ----

  function Utf8Width(c: char): nat {
    if c < '\U{80}' then 1 else if c < '\U{800}' then 2 else if c < '\U{10000}' then 3 else 4
  }

  function Utf8Length(s: string): nat {
    if s == [] then 0
    else Utf8Width(s[0]) + Utf8Length(s[1..])
  }

  predicate ValidAdditionalCreator(env: Env, id: string) {
    ValidUserId(env, id) && |id| <= 255 && Utf8Length(id) <= 255
  }

  function CheckCreate(env: Env, e: Event): Option<Refusal> {
    if e.prevEvents != [] then Some(CreateHasPrev)
    else if e.version.stateDags && e.prevStateEvents != {} then Some(CreateHasPrevState)
    else if e.version.roomIdsAsHashes && e.carriesRoomId then Some(CreateHasRoomId)
    else if !e.version.roomIdsAsHashes
        && (DomainOf(e.sender).None? || DomainOf(e.sender) != DomainOf(e.roomId)) then Some(CreateWrongDomain)
    else if !e.content.knownVersion then Some(UnknownVersion)
    else if !e.version.implicitCreator && e.content.creator.None? then Some(NoCreatorField)
    else if e.version.creatorPower && exists i | 0 <= i < |e.content.additionalCreators| ::
        !ValidAdditionalCreator(env, e.content.additionalCreators[i]) then
      Some(BadAdditionalCreator)
    else None
  }

  // ---- Cited events ----

  predicate PrevStateKnown(e: Event, known: Known) {
    forall id | id in e.prevStateEvents :: Find(known, id).Some?
  }

  predicate PrevStateOk(e: Event, known: Known)
    requires PrevStateKnown(e, known)
  {
    forall id | id in e.prevStateEvents ::
      var p := Find(known, id).value;
      p.roomId == e.roomId && p.stateKey.Some? && p.meta.rejected.None? && p.eventId !in known.batchRejected
  }

  /** A self-join may cite the same user's own join or leave that was rejected only for
      want of state. */
  predicate Forgivable(e: Event, a: Event) {
    && e.etype == Member && e.content.membership == Some(Join)
    && a.stateKey == Some(e.sender) && a.meta.rejected == Some(PartialStateAuthError)
    && a.etype == Member && a.stateKey == e.stateKey
    && (a.content.membership == Some(Join) || a.content.membership == Some(Leave))
  }

  /** The tests on one cited event, in the source's order; `seen` holds earlier keys. */
  function CheckCited(e: Event, id: EventId, cited: Option<Event>, expected: set<StateKey>, seen: set<StateKey>,
      forgive: bool): Option<Refusal> {
    match cited
    case None => Some(UnknownAuthEvent(id))
    case Some(a) =>
      if a.roomId != e.roomId then Some(OtherRoom(id))
      else if a.stateKey.None? then Some(NotState(id))
      else if (a.etype, a.stateKey.value) in seen then Some(Duplicate((a.etype, a.stateKey.value)))
      else if (a.etype, a.stateKey.value) !in expected then Some(Unexpected((a.etype, a.stateKey.value)))
      else if a.meta.rejected.Some? && !(forgive && Forgivable(e, a)) then Some(RejectedAuthEvent(id))
      else None
  }

  function KeyOf(a: Event): StateKey
    requires a.stateKey.Some?
  {
    (a.etype, a.stateKey.value)
  }

  /** The walk over the cited events from position `i`. */
  function CheckCitedFrom(e: Event, known: Known, expected: set<StateKey>, i: nat, seen: set<StateKey>): Option<Refusal>
    requires i <= |e.authEvents|
    decreases |e.authEvents| - i
  {
    if i == |e.authEvents| then (if CREATE_KEY in seen then None else Some(NoCreate))
    else
      var cited := Find(known, e.authEvents[i]);
      match CheckCited(e, e.authEvents[i], cited, expected, seen, known.forgive)
      case Some(r) => Some(r)
      case None => CheckCitedFrom(e, known, expected, i + 1, seen + {KeyOf(cited.value)})
  }

  /** `None` means the event passes. */
  function Independent(env: Env, e: Event, known: Known): Option<Refusal> {
    if e.etype == Create then CheckCreate(env, e)
    else if e.version.stateDags && !PrevStateKnown(e, known) then Some(UnknownPrevState)
    else if e.version.stateDags && !PrevStateOk(e, known) then Some(BadPrevState)
    else
      match AuthTypes(e.version, e)
      case None => Some(NoSelection)
      case Some(expected) => CheckCitedFrom(e, known, expected, 0, {})
  }

  /** The check as the source runs it: one loop that fills a dictionary of keys seen. */
  method CheckStateIndependent(env: Env, e: Event, known: Known) returns (r: Option<Refusal>)
    ensures r == Independent(env, e, known)
  {
    if e.etype == Create { return CheckCreate(env, e); }
    if e.version.stateDags {
      if !PrevStateKnown(e, known) { return Some(UnknownPrevState); }
      if !PrevStateOk(e, known) { return Some(BadPrevState); }
    }
    var selection := AuthTypes(e.version, e);
    if selection.None? { return Some(NoSelection); }
    var authDict: map<StateKey, EventId> := map[];
    assert authDict.Keys == {};
    var i := 0;
    while i < |e.authEvents|
      invariant 0 <= i <= |e.authEvents|
      invariant CheckCitedFrom(e, known, selection.value, i, authDict.Keys) == Independent(env, e, known)
    {
      var id := e.authEvents[i];
      var cited := Find(known, id);
      var refusal := CheckCited(e, id, cited, selection.value, authDict.Keys, known.forgive);
      if refusal.Some? { return refusal; }
      assert authDict[KeyOf(cited.value) := id].Keys == authDict.Keys + {KeyOf(cited.value)};
      authDict := authDict[KeyOf(cited.value) := id];
      i := i + 1;
    }
    return if CREATE_KEY in authDict then None else Some(NoCreate);
  }

  // ---- What passing means ----

  /** A cited event the check accepts on its own. */
  predicate CitedOk(e: Event, known: Known, expected: set<StateKey>, id: EventId) {
    && Find(known, id).Some?
    && var a := Find(known, id).value;
       && a.roomId == e.roomId && a.stateKey.Some? && KeyOf(a) in expected
       && (a.meta.rejected.None? || (known.forgive && Forgivable(e, a)))
  }

  ghost predicate DistinctKeys(e: Event, known: Known, start: nat) {
    forall i, j | start <= i < j < |e.authEvents| && Find(known, e.authEvents[i]).Some?
        && Find(known, e.authEvents[j]).Some? ::
      Find(known, e.authEvents[i]).value.stateKey.Some? && Find(known, e.authEvents[j]).value.stateKey.Some? ==>
        KeyOf(Find(known, e.authEvents[i]).value) != KeyOf(Find(known, e.authEvents[j]).value)
  }

  ghost predicate CitesCreate(e: Event, known: Known, start: nat) {
    exists i :: start <= i < |e.authEvents| && Find(known, e.authEvents[i]).Some?
                && Find(known, e.authEvents[i]).value.etype == Create
                && Find(known, e.authEvents[i]).value.stateKey == Some("")
  }

  ghost predicate FreshKeys(e: Event, known: Known, start: nat, seen: set<StateKey>) {
    forall i | start <= i < |e.authEvents| && Find(known, e.authEvents[i]).Some?
        && Find(known, e.authEvents[i]).value.stateKey.Some? ::
      KeyOf(Find(known, e.authEvents[i]).value) !in seen
  }

  ghost predicate CitationsOk(e: Event, known: Known, expected: set<StateKey>, start: nat, seen: set<StateKey>) {
    && (forall i | start <= i < |e.authEvents| :: CitedOk(e, known, expected, e.authEvents[i]))
    && DistinctKeys(e, known, start)
    && FreshKeys(e, known, start, seen)
    && (CREATE_KEY in seen || CitesCreate(e, known, start))
  }

  /** The walk succeeds exactly when every cited event is acceptable, no two share a key,
      and one of them is the create event. */
  lemma {:induction false} WalkMeansCitationsOk(e: Event, known: Known, expected: set<StateKey>, i: nat,
      seen: set<StateKey>)
    requires i <= |e.authEvents|
    ensures CheckCitedFrom(e, known, expected, i, seen).None? <==> CitationsOk(e, known, expected, i, seen)
    decreases |e.authEvents| - i
  {
    if i < |e.authEvents| {
      var cited := Find(known, e.authEvents[i]);
      if CheckCited(e, e.authEvents[i], cited, expected, seen, known.forgive).None? {
        WalkMeansCitationsOk(e, known, expected, i + 1, seen + {KeyOf(cited.value)});
      } else {
        assert !(CitedOk(e, known, expected, e.authEvents[i]) && KeyOf(cited.value) !in seen);
      }
    }
  }
}
