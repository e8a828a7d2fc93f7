/** The vocabulary shared by every part of the model: identifiers, room versions,
    events and room state. */
module Matrix {

  datatype Option<+T> = None | Some(value: T)

  datatype Result<+T, +E> = Success(value: T) | Failure(error: E)

  type UserId = string
  type RoomId = string
  type EventId = string

  /** Event types the rules single out; every other type string is `Other`. */
  datatype EventType =
    | Create
    | Member
    | PowerLevels
    | JoinRules
    | ThirdPartyInvite
    | Aliases
    | Redaction
    | HistoryVisibility
    | CallInvite
    | Dummy
    | Other(name: string)

  /** A value of `content.membership`; strings outside the five known ones are `Odd`. */
  datatype Membership = Join | Invite | Knock | Leave | Ban | Odd(text: string)

  datatype JoinRule = Public | KnockRule | InviteRule | Private | Restricted | KnockRestricted | OddRule(text: string)

  /** A value of `content.history_visibility`. */
  datatype Visibility = WorldReadable | Shared | Invited | Joined | OddVisibility(text: string)

  type StateKey = (EventType, string)

  /** The feature flags of a room version that the modelled code reads. */
  datatype RoomVersion = RoomVersion(
    formatV1: bool,
    specialCaseAliases: bool,
    limitNotifications: bool,
    implicitCreator: bool,
    restrictedJoin: bool,
    knockJoin: bool,
    knockRestrictedJoin: bool,
    ownedState: bool,
    creatorPower: bool,
    roomIdsAsHashes: bool,
    stateDags: bool)

  const V1 := RoomVersion(true, true, false, false, false, false, false, false, false, false, false)
  const V2 := V1
  const V3 := V2.(formatV1 := false)
  const V4 := V3
  const V5 := V4
  const V6 := V5.(specialCaseAliases := false, limitNotifications := true)
  const V7 := V6.(knockJoin := true)
  const V8 := V7.(restrictedJoin := true)
  const V9 := V8
  const V10 := V9.(knockRestrictedJoin := true)
  const MSC3757_V10 := V10.(ownedState := true)
  const V11 := V10.(implicitCreator := true)
  const MSC3757_V11 := V11.(ownedState := true)
  const V12 := V11.(creatorPower := true, roomIdsAsHashes := true)
  const MSC4242_V12 := V12.(stateDags := true)

  const KNOWN_VERSIONS := {V1, V2, V3, V4, V5, V6, V7, V8, V9, V10, MSC3757_V10, V11, MSC3757_V11, V12, MSC4242_V12}

  /** `content.third_party_invite.signed`; a missing field is `None`. */
  datatype Signed = Signed(mxid: Option<string>, token: Option<string>, hasSignatures: bool)

  /** `content.third_party_invite`; `signed` is `None` when absent or not an object. */
  datatype ThirdParty = ThirdParty(signed: Option<Signed>)

  /** The content of an `m.room.power_levels` event. An absent map is an empty one. */
  datatype Levels = Levels(
    users: map<UserId, int>,
    events: map<EventType, int>,
    notifications: map<string, int>,
    usersDefault: Option<int>,
    eventsDefault: Option<int>,
    stateDefault: Option<int>,
    ban: Option<int>,
    redact: Option<int>,
    kick: Option<int>,
    invite: Option<int>)

  const NO_LEVELS := Levels(map[], map[], map[], None, None, None, None, None, None, None)

  datatype Content = Content(
    membership: Option<Membership>,
    thirdParty: Option<ThirdParty>,
    authorisingUser: Option<UserId>,
    joinRule: Option<JoinRule>,
    federate: Option<bool>,
    creator: Option<UserId>,
    additionalCreators: seq<UserId>,
    knownVersion: bool,
    levels: Levels,
    historyVisibility: Option<Visibility>)

  const EMPTY_CONTENT := Content(None, None, None, None, None, None, [], true, NO_LEVELS, None)

  datatype Rejection = AuthError | OversizedEvent | PartialStateAuthError

  /** Facts kept beside the event itself: the previous content in `unsigned`, and the
      server's own flags. */
  datatype Metadata = Metadata(
    prevMembership: Option<Membership>,
    prevVisibility: Option<Visibility>,
    rejected: Option<Rejection>,
    outlier: bool,
    softFailed: bool,
    policySpammy: bool,
    stickyUntil: Option<int>)

  const PLAIN := Metadata(None, None, None, false, false, false, None)

  datatype Event = Event(
    eventId: EventId,
    roomId: RoomId,
    etype: EventType,
    stateKey: Option<string>,
    sender: UserId,
    originTs: int,
    redacts: Option<EventId>,
    prevEvents: seq<EventId>,
    authEvents: seq<EventId>,
    prevStateEvents: set<EventId>,
    carriesRoomId: bool,
    version: RoomVersion,
    content: Content,
    meta: Metadata)

  type State = map<StateKey, Event>

  const CREATE_KEY: StateKey := (Create, "")
  const POWER_KEY: StateKey := (PowerLevels, "")
  const JOIN_RULES_KEY: StateKey := (JoinRules, "")
  const VISIBILITY_KEY: StateKey := (HistoryVisibility, "")

  function Get<K, V>(m: map<K, V>, k: K): Option<V> {
    if k in m then Some(m[k]) else None
  }

  function GetOr<T>(o: Option<T>, fallback: T): T {
    if o.Some? then o.value else fallback
  }

  /** The first position of `c` in `s` at or after `start`, as `str.find` gives it. */
  function IndexOf(s: string, c: char, start: nat): (r: Option<nat>)
    ensures r.Some? ==> start <= r.value < |s| && s[r.value] == c && c !in s[start..r.value]
    ensures r.None? && start <= |s| ==> c !in s[start..]
    decreases |s| - start
  {
    if start >= |s| then None
    else if s[start] == c then Some(start)
    else
      var r := IndexOf(s, c, start + 1);
      assert s[start..] == [s[start]] + s[start + 1..];
      assert r.Some? ==> s[start..r.value] == [s[start]] + s[start + 1..r.value];
      r
  }

  /** The part after the first colon; `None` where the source raises on a malformed id. */
  function DomainOf(id: string): (d: Option<string>)
    ensures d.Some? <==> ':' in id
  {
    match IndexOf(id, ':', 0)
    case None => assert id[0..] == id; None
    case Some(i) => Some(id[i + 1..])
  }

  /** Whatever stands before it, as long as it holds no colon itself. */
  lemma DomainIs(local: string, domain: string)
    requires ':' !in local
    ensures DomainOf(local + ":" + domain) == Some(domain)
  {
    var id := local + ":" + domain;
    assert id[|local|] == ':' && id[0..] == id;
    assert id[|local| + 1..] == domain;
  }

  /** Whether `UserID.from_string` accepts the string. */
  predicate ParsesAsUserId(s: string) {
    |s| >= 1 && s[0] == '@' && ':' in s[1..]
  }
}
