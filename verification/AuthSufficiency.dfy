/** The auth-event selection is sufficient: the verdict on an event depends on the room
    state only through the keys selected for it. Two families of events escape; both are
    characterised exactly. */
module AuthSufficiency {
  import opened Matrix
  import opened AuthRules

  function Restrict(s: State, keys: set<StateKey>): State {
    map k | k in s && k in keys :: s[k]
  }

  ghost predicate AgreeOn(s: State, t: State, keys: set<StateKey>) {
    forall k | k in keys :: Get(s, k) == Get(t, k)
  }

  /** A version that understands `knock_restricted` also selects the authorising user. */
  predicate SelectsAuthoriser(v: RoomVersion) {
    v.knockRestrictedJoin ==> v.restrictedJoin
  }

  /** State keys under which a power-levels event is either the one in force or can never
      get as far as being compared with its predecessor. */
  predicate PowerKeyCovered(k: string) {
    k == "" || (k[0] == '@' && ':' !in k)
  }

  predicate Covered(e: Event) {
    && (e.etype == Member ==> SelectsAuthoriser(e.version))
    && (e.etype == PowerLevels && e.stateKey.Some? ==> PowerKeyCovered(e.stateKey.value))
  }

  /** On every room state the selected part of it gives the same verdict. */
  ghost predicate Sufficient(env: Env, e: Event) {
    AuthTypes(e.version, e).Some? ==>
      forall s: State :: Check(env, e, s) == Check(env, e, Restrict(s, AuthTypes(e.version, e).value))
  }

  // ---- Agreement implies the same verdict ----

  lemma LevelsAgree(s: State, t: State, u: UserId)
    requires CREATE_KEY in s && CREATE_KEY in t
    requires AgreeOn(s, t, {POWER_KEY, CREATE_KEY})
    ensures UserLevel(s, u) == UserLevel(t, u)
    ensures CurrentLevels(s) == CurrentLevels(t)
  {
  }

  lemma MembersAgree(s: State, t: State, u: UserId)
    requires Get(s, (Member, u)) == Get(t, (Member, u))
    ensures MembershipOf(s, u) == MembershipOf(t, u) && MalformedMember(s, u) == MalformedMember(t, u)
  {
  }

  lemma MembershipRulesAgree(env: Env, e: Event, target: UserId, level: int, targetLevel: int, s: State, t: State)
    requires CREATE_KEY in s && CREATE_KEY in t
    requires e.etype == Member && e.stateKey == Some(target)
    requires AuthTypes(e.version, e).Some? && AgreeOn(s, t, AuthTypes(e.version, e).value)
    requires SelectsAuthoriser(e.version)
    ensures MembershipRules(env, e, target, level, targetLevel, s) ==
        MembershipRules(env, e, target, level, targetLevel, t)
  {
    var keys := AuthTypes(e.version, e).value;
    var m := e.content.membership.value;
    assert POWER_KEY in keys && CREATE_KEY in keys && (Member, target) in keys && (Member, e.sender) in keys;
    LevelsAgree(s, t, e.sender);
    MembersAgree(s, t, e.sender);
    MembersAgree(s, t, target);
    if m == Join || m == Invite || m == Knock {
      assert JOIN_RULES_KEY in keys && Get(s, JOIN_RULES_KEY) == Get(t, JOIN_RULES_KEY);
      assert JoinRuleOf(s) == JoinRuleOf(t);
    }
    if m == Join && e.version.restrictedJoin && e.content.authorisingUser.Some? {
      assert (Member, e.content.authorisingUser.value) in keys;
      MembersAgree(s, t, e.content.authorisingUser.value);
      LevelsAgree(s, t, e.content.authorisingUser.value);
    }
    if m == Invite && e.content.thirdParty.Some? {
      var key := (ThirdPartyInvite, e.content.thirdParty.value.signed.value.token.value);
      assert key in keys && Get(s, key) == Get(t, key);
    }
  }

  lemma MembershipAgrees(env: Env, e: Event, s: State, t: State)
    requires CREATE_KEY in s && CREATE_KEY in t
    requires e.etype == Member
    requires AuthTypes(e.version, e).Some? && AgreeOn(s, t, AuthTypes(e.version, e).value)
    requires SelectsAuthoriser(e.version)
    ensures MembershipVerdict(env, e, s) == MembershipVerdict(env, e, t)
  {
    var keys := AuthTypes(e.version, e).value;
    var target := e.stateKey.value;
    assert POWER_KEY in keys && CREATE_KEY in keys && (Member, target) in keys && (Member, e.sender) in keys;
    assert Get(s, CREATE_KEY) == Get(t, CREATE_KEY);
    LevelsAgree(s, t, e.sender);
    LevelsAgree(s, t, target);
    MembersAgree(s, t, e.sender);
    MembersAgree(s, t, target);
    if UserLevel(s, e.sender).Some? && UserLevel(s, target).Some? {
      MembershipRulesAgree(env, e, target, UserLevel(s, e.sender).value, UserLevel(s, target).value, s, t);
    }
  }

  lemma SendAgrees(env: Env, e: Event, s: State, t: State)
    requires CREATE_KEY in s && CREATE_KEY in t
    requires AgreeOn(s, t, {POWER_KEY, CREATE_KEY})
    ensures SendVerdict(env, e, s) == SendVerdict(env, e, t)
  {
    LevelsAgree(s, t, e.sender);
    if e.stateKey.Some? && OwnerOf(env, e.stateKey.value).Some? {
      LevelsAgree(s, t, OwnerOf(env, e.stateKey.value).value);
    }
  }

  /** A power-levels event under `@...` without a colon never passes the sending rules. */
  lemma ColonlessKeyIsRefused(env: Env, e: Event, s: State)
    requires CREATE_KEY in s
    requires DomainOf(e.sender).Some?
    requires e.stateKey.Some? && |e.stateKey.value| > 0 && e.stateKey.value[0] == '@' && ':' !in e.stateKey.value
    ensures SendVerdict(env, e, s).Deny?
  {
  }

  lemma MessageAgrees(env: Env, e: Event, s: State, t: State)
    requires CREATE_KEY in s && CREATE_KEY in t && DomainOf(e.sender).Some?
    requires e.etype != Create && e.etype != Member
    requires AgreeOn(s, t, AuthTypes(e.version, e).value)
    requires Covered(e)
    ensures MessageVerdict(env, e, s) == MessageVerdict(env, e, t)
  {
    var keys := AuthTypes(e.version, e).value;
    assert POWER_KEY in keys && CREATE_KEY in keys && (Member, e.sender) in keys;
    assert Get(s, CREATE_KEY) == Get(t, CREATE_KEY);
    assert Get(s, POWER_KEY) == Get(t, POWER_KEY);
    MembersAgree(s, t, e.sender);
    LevelsAgree(s, t, e.sender);
    SendAgrees(env, e, s, t);
    if e.etype == PowerLevels && e.stateKey.Some? && e.stateKey.value != "" {
      ColonlessKeyIsRefused(env, e, s);
    }
  }

  /** Two states that agree on the selected keys give the same verdict, error included. */
  lemma AgreementDecides(env: Env, e: Event, s: State, t: State)
    requires AuthTypes(e.version, e).Some? && AgreeOn(s, t, AuthTypes(e.version, e).value)
    requires Covered(e)
    ensures Check(env, e, s) == Check(env, e, t)
  {
    if e.etype != Create {
      assert CREATE_KEY in AuthTypes(e.version, e).value;
      assert Get(s, CREATE_KEY) == Get(t, CREATE_KEY);
      if CREATE_KEY in s && DomainOf(e.sender).Some? {
        if e.etype == Member { MembershipAgrees(env, e, s, t); } else { MessageAgrees(env, e, s, t); }
      }
    }
  }

  lemma SelectedStateSuffices(env: Env, e: Event)
    requires Covered(e)
    ensures Sufficient(env, e)
  {
    if AuthTypes(e.version, e).Some? {
      var keys := AuthTypes(e.version, e).value;
      forall s: State ensures Check(env, e, s) == Check(env, e, Restrict(s, keys)) {
        AgreementDecides(env, e, s, Restrict(s, keys));
      }
    }
  }

  lemma KnownVersionsSelectAuthorisers(v: RoomVersion)
    requires v in KNOWN_VERSIONS
    ensures SelectsAuthoriser(v)
  {
  }

  /** The version from which on each feature is there, or no longer there. */
  lemma FeaturesSince()
    ensures V1.formatV1 && V2.formatV1 && !V3.formatV1
    ensures V1.specialCaseAliases && V5.specialCaseAliases && !V6.specialCaseAliases
    ensures !V5.limitNotifications && V6.limitNotifications
    ensures !V6.knockJoin && V7.knockJoin && !V7.restrictedJoin && V8.restrictedJoin
    ensures !V9.knockRestrictedJoin && V10.knockRestrictedJoin && !V10.implicitCreator && V11.implicitCreator
    ensures !V11.creatorPower && V12.creatorPower && !V11.roomIdsAsHashes && V12.roomIdsAsHashes
    ensures !V10.ownedState && MSC3757_V10.ownedState && !V11.ownedState && MSC3757_V11.ownedState
    ensures !V12.stateDags && MSC4242_V12.stateDags
  {
  }

  // ---- The two families that escape ----

  function BlankEvent(v: RoomVersion, t: EventType, key: string, sender: UserId, content: Content): Event {
    Event("$x", "!r:h", t, Some(key), sender, 0, None, [], [], {}, true, v, content, PLAIN)
  }

  /** A state in which `owner` created the room and is joined, with nothing else set. */
  function OwnedRoom(v: RoomVersion, owner: UserId): State {
    map[CREATE_KEY := BlankEvent(v, Create, "", owner, EMPTY_CONTENT.(creator := Some(owner))),
        (Member, owner) := BlankEvent(v, Member, owner, owner, EMPTY_CONTENT.(membership := Some(Join)))]
  }

  /** A first join under `knock_restricted`, in a room that federates and has no power
      levels, by a user the room has no member event for. */
  ghost predicate FirstRestrictedJoin(e: Event, s: State) {
    && CREATE_KEY in s && s[CREATE_KEY].content.creator.Some? && POWER_KEY !in s
    && DomainOf(s[CREATE_KEY].sender).Some? && CanFederate(s[CREATE_KEY])
    && e.etype == Member && e.stateKey == Some(e.sender) && e.content.membership == Some(Join) && e.prevEvents == []
    && DomainOf(e.sender).Some? && (Member, e.sender) !in s
    && JoinRuleOf(s) == KnockRestricted && e.version.knockRestrictedJoin
  }

  /** Such a join is decided by the authorising user alone. */
  lemma RestrictedJoinVerdict(env: Env, e: Event, s: State)
    requires FirstRestrictedJoin(e, s)
    ensures Check(env, e, s) == AuthoriserVerdict(e, s)
  {
  }

  lemma TwoUserIds() returns (a: UserId, b: UserId)
    ensures ':' in a && ':' in b && a != b
  {
    a, b := "@a:h", "@b:h";
    assert a[2] == ':' && b[2] == ':' && a[1] != b[1];
  }

  lemma RestrictedJoinExists(v: RoomVersion) returns (e: Event, s: State)
    requires v.knockRestrictedJoin
    ensures e.version == v && FirstRestrictedJoin(e, s) && e.content.authorisingUser == s[CREATE_KEY].content.creator
    ensures MembershipOf(s, s[CREATE_KEY].sender) == Some(Join) && s[CREATE_KEY].content.creator ==
        Some(s[CREATE_KEY].sender)
    ensures e.sender != s[CREATE_KEY].sender
  {
    var a, b := TwoUserIds();
    e := BlankEvent(v, Member, b, b, EMPTY_CONTENT.(membership := Some(Join), authorisingUser := Some(a)));
    s := OwnedRoom(v, a)[JOIN_RULES_KEY := BlankEvent(v, JoinRules, "", a,
        EMPTY_CONTENT.(joinRule := Some(KnockRestricted)))];
  }

  lemma UncoveredVersionFails(env: Env, v: RoomVersion) returns (e: Event, s: State)
    requires !SelectsAuthoriser(v)
    ensures e.version == v && e.etype == Member && AuthTypes(v, e).Some?
    ensures Check(env, e, s) != Check(env, e, Restrict(s, AuthTypes(v, e).value))
  {
    e, s := RestrictedJoinExists(v);
    var r := Restrict(s, AuthTypes(v, e).value);
    RestrictedJoinVerdict(env, e, s);
    RestrictedJoinVerdict(env, e, r);
    assert (Member, s[CREATE_KEY].sender) !in r;
    assert UserLevel(s, s[CREATE_KEY].sender).value >= 100;
  }

  /** The joined creator's power-levels event under `k`, in a room without power levels. */
  ghost predicate CreatorPowerEvent(e: Event, s: State, k: string) {
    && CREATE_KEY in s && s[CREATE_KEY].sender == e.sender && s[CREATE_KEY].content.creator == Some(e.sender)
    && MembershipOf(s, e.sender) == Some(Join) && POWER_KEY !in s
    && e.etype == PowerLevels && e.stateKey == Some(k) && !NamesAnotherUser(e) && DomainOf(e.sender).Some?
    && e.content.levels == NO_LEVELS
  }

  /** Such an event is decided by the comparison with its predecessor alone. */
  lemma CreatorPowerEventVerdict(env: Env, e: Event, s: State, k: string)
    requires CreatorPowerEvent(e, s, k)
    ensures Check(env, e, s) == PowerVerdict(e, s)
    ensures UserLevel(s, e.sender).Some? && UserLevel(s, e.sender).value <= CREATOR_POWER
    ensures PowerContentVerdict(e, s[CREATE_KEY]) == Allow
  {
  }

  const HIGH_BAN := NO_LEVELS.(ban := Some(CREATOR_POWER + 1))

  lemma CreatorPowerEventExists(v: RoomVersion, k: string) returns (e: Event, s: State)
    requires !PowerKeyCovered(k)
    ensures e.version == v && CreatorPowerEvent(e, s, k)
    ensures (PowerLevels, k) in s && s[(PowerLevels, k)].content.levels == HIGH_BAN
  {
    var sender := if k[0] == '@' then k else "@a:h";
    assert ':' in sender by { if k[0] != '@' { assert sender[2] == ':'; } }
    e := BlankEvent(v, PowerLevels, k, sender, EMPTY_CONTENT);
    s := OwnedRoom(v, sender)[(PowerLevels, k) := BlankEvent(v, PowerLevels, k, sender,
        EMPTY_CONTENT.(levels := HIGH_BAN))];
  }

  lemma UncoveredKeyFails(env: Env, v: RoomVersion, k: string) returns (e: Event, s: State)
    requires !PowerKeyCovered(k)
    ensures e.version == v && e.etype == PowerLevels && e.stateKey == Some(k)
    ensures Check(env, e, s) != Check(env, e, Restrict(s, AuthTypes(v, e).value))
  {
    e, s := CreatorPowerEventExists(v, k);
    var r := Restrict(s, AuthTypes(v, e).value);
    CreatorPowerEventVerdict(env, e, s, k);
    CreatorPowerEventVerdict(env, e, r, k);
    assert (PowerLevels, k) !in r;
    assert !LevelChangeOk(HIGH_BAN.ban, NO_LEVELS.ban, UserLevel(s, e.sender).value);
  }

  /** For a room version: selection suffices for all its member events exactly when
      `knock_restricted` comes with `restricted`. */
  lemma VersionsWithSufficientSelection(env: Env, v: RoomVersion)
    ensures (forall e: Event | e.version == v && e.etype == Member :: Sufficient(env, e)) <==> SelectsAuthoriser(v)
  {
    if SelectsAuthoriser(v) {
      forall e: Event | e.version == v && e.etype == Member
          ensures Sufficient(env, e) { SelectedStateSuffices(env, e); }
    } else {
      var e, s := UncoveredVersionFails(env, v);
      assert !Sufficient(env, e);
    }
  }

  /** For a state key: selection suffices for all power-levels events under it exactly when
      the key is empty, or starts with `@` and holds no colon. */
  lemma PowerKeysWithSufficientSelection(env: Env, v: RoomVersion, k: string)
    ensures (forall e: Event | e.version == v && e.etype == PowerLevels && e.stateKey == Some(k) ::
        Sufficient(env, e)) <==> PowerKeyCovered(k)
  {
    if PowerKeyCovered(k) {
      forall e: Event | e.version == v && e.etype == PowerLevels && e.stateKey == Some(k) ensures Sufficient(env, e) {
        SelectedStateSuffices(env, e);
      }
    } else {
      var e, s := UncoveredKeyFails(env, v, k);
      assert !Sufficient(env, e);
    }
  }
}
