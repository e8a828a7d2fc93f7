/** The rules as a law: when an event is accepted, said on the fields of the event and of the
    events in the room state alone. The checks in `AuthRules` are proved to decide exactly
    this. */
module RoomLaw {
  import opened Matrix
  import opened AuthRules

  // ---- What the room state says ----

  /** The member event of `u` says `m`. */
  predicate Stands(s: State, u: UserId, m: Membership) {
    (Member, u) in s && s[(Member, u)].content.membership == Some(m)
  }

  /** The member event of `u`, if there is one, says something. */
  predicate Legible(s: State, u: UserId) {
    (Member, u) in s ==> s[(Member, u)].content.membership.Some?
  }

  /** The join rule in force; `invite` where nothing is said. */
  predicate RuleIs(s: State, rule: JoinRule) {
    if JOIN_RULES_KEY in s && s[JOIN_RULES_KEY].content.joinRule.Some?
    then s[JOIN_RULES_KEY].content.joinRule == Some(rule)
    else rule == InviteRule
  }

  /** The user who founded the room: its sender, or in older versions the one it names. */
  predicate Founder(v: RoomVersion, create: Event, u: UserId) {
    if v.implicitCreator then create.sender == u else create.content.creator == Some(u)
  }

  predicate NamesFounder(v: RoomVersion, create: Event) {
    v.implicitCreator || create.content.creator.Some?
  }

  /** `n` is the level of `u`: above every other for creators where they have power, else as
      listed or by default, and 100 for the founder of a room without power levels. */
  predicate HasLevel(s: State, u: UserId, n: int)
    requires CREATE_KEY in s
  {
    var create := s[CREATE_KEY];
    if create.version.creatorPower && (u == create.sender || u in create.content.additionalCreators) then
      n == 9_007_199_254_740_992
    else if POWER_KEY !in s then
      NamesFounder(create.version, create) && n == if Founder(create.version, create, u) then 100 else 0
    else
      var levels := s[POWER_KEY].content.levels;
      if u in levels.users then levels.users[u] == n
      else levels.usersDefault == Some(n) || (levels.usersDefault.None? && n == 0)
  }

  predicate MayInvite(s: State, n: int) {
    if POWER_KEY in s && s[POWER_KEY].content.levels.invite.Some?
    then n >= s[POWER_KEY].content.levels.invite.value
    else n >= 0
  }

  predicate MayBan(s: State, n: int) {
    if POWER_KEY in s && s[POWER_KEY].content.levels.ban.Some?
    then n >= s[POWER_KEY].content.levels.ban.value
    else n >= 50
  }

  predicate MayKick(s: State, n: int) {
    if POWER_KEY in s && s[POWER_KEY].content.levels.kick.Some?
    then n >= s[POWER_KEY].content.levels.kick.value
    else n >= 50
  }

  predicate MayRedact(s: State, n: int) {
    if POWER_KEY in s && s[POWER_KEY].content.levels.redact.Some?
    then n >= s[POWER_KEY].content.levels.redact.value
    else n >= 50
  }

  /** The level listed for the type counts first, then the default for state or other events. */
  predicate MaySend(s: State, n: int, t: EventType, isState: bool) {
    if POWER_KEY in s && t in s[POWER_KEY].content.levels.events then n >= s[POWER_KEY].content.levels.events[t]
    else if isState then
      if POWER_KEY in s && s[POWER_KEY].content.levels.stateDefault.Some?
      then n >= s[POWER_KEY].content.levels.stateDefault.value
      else n >= 50
    else
      if POWER_KEY in s && s[POWER_KEY].content.levels.eventsDefault.Some?
      then n >= s[POWER_KEY].content.levels.eventsDefault.value
      else n >= 0
  }

  /** The user's server may take part in the room. */
  predicate InReach(create: Event, u: UserId) {
    && ':' in create.sender && ':' in u
    && (DomainOf(create.sender) == DomainOf(u) || create.content.federate != Some(false))
  }

  // ---- The law of memberships ----

  /** The join that takes up a room: by its founder, right on top of the create event. */
  predicate TakesUp(e: Event, create: Event) {
    && e.content.membership == Some(Join) && e.prevEvents == [create.eventId]
    && e.stateKey.Some? && Founder(e.version, create, e.stateKey.value)
  }

  /** An invite by way of a third-party identifier. */
  predicate IsThirdParty(e: Event) {
    e.content.membership == Some(Invite) && e.content.thirdParty.Some?
  }

  /** It is signed for its target and stands on an event of its own sender. */
  predicate IsBacked(env: Env, e: Event, target: UserId, s: State) {
    && e.content.thirdParty.Some? && e.content.thirdParty.value.signed.Some?
    && var signed := e.content.thirdParty.value.signed.value;
       && signed.mxid == Some(target) && signed.hasSignatures && signed.token.Some?
       && var key := (ThirdPartyInvite, signed.token.value);
          key in s && s[key].sender == e.sender && env.inviteSigned(e, s[key])
  }

  predicate RestrictedRule(v: RoomVersion, s: State) {
    (v.restrictedJoin && RuleIs(s, Restricted)) || (v.knockRestrictedJoin && RuleIs(s, KnockRestricted))
  }

  /** A standing invite or membership counts under the rule in force. */
  predicate InviteCounts(v: RoomVersion, s: State) {
    RuleIs(s, Public) || RuleIs(s, InviteRule) || (v.knockJoin && RuleIs(s, KnockRule)) || RestrictedRule(v, s)
  }

  /** A joined member with the invite level vouches for the join. */
  ghost predicate Authorised(e: Event, s: State)
    requires CREATE_KEY in s
  {
    && e.content.authorisingUser.Some?
    && var a := e.content.authorisingUser.value;
       Stands(s, a, Join) && exists n :: HasLevel(s, a, n) && MayInvite(s, n)
  }

  /** The changes users may make to their own membership. */
  ghost predicate OwnChange(e: Event, s: State)
    requires CREATE_KEY in s && e.content.membership.Some?
  {
    var u, v := e.sender, e.version;
    match e.content.membership.value
    case Join =>
      && !Stands(s, u, Ban)
      && (|| RuleIs(s, Public)
          || ((Stands(s, u, Join) || Stands(s, u, Invite)) && InviteCounts(v, s))
          || (RestrictedRule(v, s) && Authorised(e, s)))
    case Leave => Stands(s, u, Join) || Stands(s, u, Invite) || (v.knockJoin && Stands(s, u, Knock))
    case Knock =>
      && !Stands(s, u, Join) && !Stands(s, u, Invite) && !Stands(s, u, Ban)
      && v.knockJoin && (RuleIs(s, KnockRule) || (v.knockRestrictedJoin && RuleIs(s, KnockRestricted)))
    case _ => false
  }

  /** The changes a user at `level` may make to the membership of `target`, at `other`. */
  predicate ChangeOfOther(e: Event, s: State, target: UserId, level: int, other: int)
    requires e.content.membership.Some?
  {
    && Stands(s, e.sender, Join)
    && match e.content.membership.value
       case Invite => !Stands(s, target, Join) && !Stands(s, target, Ban) && MayInvite(s, level)
       case Leave => level > other && MayKick(s, level) && (Stands(s, target, Ban) ==> MayBan(s, level))
       case Ban => level > other && MayBan(s, level)
       case _ => false
  }

  /** A member event about `target` that gets past the checks made for every membership: the
      founder is known where it comes first, the servers of both users may take part, their
      member events are legible, and they have these levels. */
  predicate Ordinary(e: Event, s: State, target: UserId, level: int, other: int) {
    && CREATE_KEY in s && e.etype == Member && e.stateKey == Some(target) && e.content.membership.Some?
    && !TakesUp(e, s[CREATE_KEY])
    && (e.content.membership == Some(Join) && e.prevEvents == [s[CREATE_KEY].eventId] ==>
          NamesFounder(e.version, s[CREATE_KEY]))
    && InReach(s[CREATE_KEY], e.sender) && InReach(s[CREATE_KEY], target)
    && Legible(s, e.sender) && Legible(s, target)
    && HasLevel(s, e.sender, level) && HasLevel(s, target, other)
  }

  ghost predicate LawfulChange(env: Env, e: Event, s: State, target: UserId, level: int, other: int)
    requires CREATE_KEY in s && e.content.membership.Some?
  {
    if IsThirdParty(e) then IsBacked(env, e, target, s) && !Stands(s, target, Ban)
    else if e.sender == target then OwnChange(e, s)
    else ChangeOfOther(e, s, target, level, other)
  }

  ghost predicate LawfulMember(env: Env, e: Event, s: State) {
    && CREATE_KEY in s
    && ((TakesUp(e, s[CREATE_KEY]) && InReach(s[CREATE_KEY], e.sender)) || ChangesLawfully(env, e, s))
  }

  ghost predicate ChangesLawfully(env: Env, e: Event, s: State) {
    exists target, level, other ::
      Ordinary(e, s, target, level, other) && LawfulChange(env, e, s, target, level, other)
  }

  // ---- The law of other events ----

  /** The user id a state key starts with: up to the first underscore after its first colon. */
  predicate OwnerEnds(key: string, colon: nat, end: nat) {
    && 1 <= colon < end <= |key| && key[colon] == ':' && ':' !in key[1..colon]
    && '_' !in key[colon + 1..end] && (end < |key| ==> key[end] == '_')
  }

  /** A user id whose server name is well-formed. */
  predicate WellFormedUser(env: Env, id: string) {
    |id| > 0 && id[0] == '@' && ':' in id && env.validServerName(DomainOf(id).value)
  }

  ghost predicate OwnedBy(env: Env, key: string, owner: UserId) {
    WellFormedUser(env, owner) && exists colon: nat, end: nat :: OwnerEnds(key, colon, end) && owner == key[..end]
  }

  ghost predicate Outranks(s: State, sender: UserId, level: int, owner: UserId)
    requires CREATE_KEY in s
  {
    owner == sender || exists other :: HasLevel(s, owner, other) && other < level
  }

  ghost predicate OutranksOwner(env: Env, s: State, sender: UserId, level: int, key: string)
    requires CREATE_KEY in s
  {
    exists owner :: OwnedBy(env, key, owner) && Outranks(s, sender, level, owner)
  }

  /** A state key that names another user names, where that is possible at all, one below the
      sender, or the sender with something appended. */
  ghost predicate KeyIsFree(env: Env, e: Event, s: State, level: int)
    requires CREATE_KEY in s
  {
    e.stateKey.Some? && |e.stateKey.value| > 0 && e.stateKey.value[0] == '@' && e.stateKey.value != e.sender ==>
      e.version.ownedState && OutranksOwner(env, s, e.sender, level, e.stateKey.value)
  }

  /** The sender is in the room, at `level`, with the level for this event. */
  ghost predicate EarnedAt(env: Env, e: Event, s: State, level: int) {
    && CREATE_KEY in s && Stands(s, e.sender, Join) && HasLevel(s, e.sender, level)
    && if e.etype == ThirdPartyInvite then MayInvite(s, level)
       else MaySend(s, level, e.etype, e.stateKey.Some?) && KeyIsFree(env, e, s, level)
  }

  ghost predicate Earned(env: Env, e: Event, s: State) {
    exists level :: EarnedAt(env, e, s, level)
  }

  /** One power level may stay as it is, or move between values the sender does not exceed. */
  predicate MayMove(before: Option<int>, after: Option<int>, level: int) {
    || (before.Some? && before == after)
    || ((before.Some? ==> before.value <= level) && (after.Some? ==> after.value <= level))
  }

  /** Every level of `before` and `after` may move; that of another user at the sender's own
      level only stays. */
  ghost predicate LevelsMayMove(v: RoomVersion, before: Levels, after: Levels, sender: UserId, level: int) {
    && MayMove(before.usersDefault, after.usersDefault, level)
    && MayMove(before.eventsDefault, after.eventsDefault, level)
    && MayMove(before.stateDefault, after.stateDefault, level) && MayMove(before.ban, after.ban, level)
    && MayMove(before.redact, after.redact, level) && MayMove(before.kick, after.kick, level)
    && MayMove(before.invite, after.invite, level)
    && (forall u :: MayMove(Get(before.users, u), Get(after.users, u), level))
    && (forall u | u in before.users && u != sender && before.users[u] == level :: Get(after.users, u) == Some(level))
    && (forall t :: MayMove(Get(before.events, t), Get(after.events, t), level))
    && (v.limitNotifications ==> forall n ::
          MayMove(Get(before.notifications, n), Get(after.notifications, n), level))
  }

  ghost predicate LawfulPowerLevels(e: Event, s: State, level: int)
    requires CREATE_KEY in s
  {
    var levels, create := e.content.levels, s[CREATE_KEY];
    && (forall u | u in levels.users :: |u| > 0 && u[0] == '@' && ':' in u[1..])
    && (e.version.creatorPower ==>
          create.sender !in levels.users && forall u | u in create.content.additionalCreators :: u !in levels.users)
    && e.stateKey.Some?
    && ((PowerLevels, e.stateKey.value) in s ==>
          LevelsMayMove(e.version, s[(PowerLevels, e.stateKey.value)].content.levels, levels, e.sender, level))
  }

  /** Event ids do not show their server, the sender has the redact level, or both ids are of
      one server. */
  predicate LawfulRedaction(e: Event, s: State, level: int) {
    || !e.version.formatV1 || MayRedact(s, level)
    || (':' in e.eventId && (e.redacts.Some? ==> DomainOf(e.redacts.value) == DomainOf(e.eventId)))
  }

  ghost predicate LawfulMessage(env: Env, e: Event, s: State, level: int) {
    && EarnedAt(env, e, s, level)
    && (e.etype == PowerLevels ==> LawfulPowerLevels(e, s, level))
    && (e.etype == Redaction ==> LawfulRedaction(e, s, level))
  }

  /** An alias event is for the sender's own server. */
  predicate LawfulAlias(e: Event) {
    e.stateKey.Some? && e.stateKey.value != "" && e.stateKey == DomainOf(e.sender)
  }

  // ---- The whole law ----

  predicate OwnRules(e: Event) {
    e.etype == Create || e.etype == Member || (e.etype == Aliases && e.version.specialCaseAliases)
  }

  ghost predicate Lawful(env: Env, e: Event, s: State) {
    || e.etype == Create
    || (e.etype == Member && LawfulMember(env, e, s))
    || (&& e.etype == Aliases && e.version.specialCaseAliases
        && CREATE_KEY in s && InReach(s[CREATE_KEY], e.sender) && LawfulAlias(e))
    || (!OwnRules(e) && CREATE_KEY in s && InReach(s[CREATE_KEY], e.sender)
        && exists level :: LawfulMessage(env, e, s, level))
  }

  // ---- The checks decide it ----

  lemma LevelIff(s: State, u: UserId, n: int)
    requires CREATE_KEY in s
    ensures HasLevel(s, u, n) <==> UserLevel(s, u) == Some(n)
  {
  }

  lemma StandsIff(s: State, u: UserId, m: Membership)
    ensures Stands(s, u, m) <==> MembershipOf(s, u) == Some(m)
    ensures Legible(s, u) <==> !MalformedMember(s, u)
  {
  }

  lemma RuleIff(s: State, v: RoomVersion)
    ensures RuleIs(s, JoinRuleOf(s)) && forall rule | RuleIs(s, rule) :: rule == JoinRuleOf(s)
    ensures RestrictedRule(v, s) <==> RestrictedInForce(v, JoinRuleOf(s))
  {
  }

  lemma MayIff(s: State, n: int, t: EventType, isState: bool)
    ensures MayInvite(s, n) <==> n >= InviteLevel(s)
    ensures MayBan(s, n) <==> n >= BanLevel(s)
    ensures MayKick(s, n) <==> n >= KickLevel(s)
    ensures MayRedact(s, n) <==> n >= RedactLevel(s)
    ensures MaySend(s, n, t, isState) <==> n >= SendLevel(s, t, isState)
  {
  }

  lemma AuthorisedIff(e: Event, s: State)
    requires CREATE_KEY in s
    ensures Authorised(e, s) <==> AuthoriserVerdict(e, s) == Allow
  {
    if e.content.authorisingUser.Some? {
      var a := e.content.authorisingUser.value;
      StandsIff(s, a, Join);
      if UserLevel(s, a).Some? {
        LevelIff(s, a, UserLevel(s, a).value);
        MayIff(s, UserLevel(s, a).value, Member, true);
      }
      forall n ensures HasLevel(s, a, n) <==> UserLevel(s, a) == Some(n) { LevelIff(s, a, n); }
    }
  }

  lemma OwnChangeIff(env: Env, e: Event, level: int, s: State)
    requires CREATE_KEY in s && e.content.membership.Some? && !IsThirdParty(e)
    ensures MembershipRules(env, e, e.sender, level, level, s) == Allow <==> OwnChange(e, s)
  {
    RuleIff(s, e.version);
    AuthorisedIff(e, s);
  }

  lemma ChangeOfOtherIff(env: Env, e: Event, target: UserId, level: int, other: int, s: State)
    requires CREATE_KEY in s && e.content.membership.Some? && e.sender != target && !IsThirdParty(e)
    ensures MembershipRules(env, e, target, level, other, s) == Allow <==> ChangeOfOther(e, s, target, level, other)
  {
    MayIff(s, level, Member, true);
  }

  lemma BackedIff(env: Env, e: Event, target: UserId, s: State)
    ensures IsBacked(env, e, target, s) <==> ThirdPartyVerified(env, e, target, s)
  {
  }

  lemma ChangeIff(env: Env, e: Event, s: State, target: UserId, level: int, other: int)
    requires CREATE_KEY in s && e.content.membership.Some?
    requires e.sender == target ==> level == other
    ensures LawfulChange(env, e, s, target, level, other) <==>
            MembershipRules(env, e, target, level, other, s) == Allow
  {
    if IsThirdParty(e) {
      BackedIff(env, e, target, s);
    } else if e.sender == target {
      OwnChangeIff(env, e, level, s);
    } else {
      ChangeOfOtherIff(env, e, target, level, other, s);
    }
  }

  lemma FoundingIff(e: Event, create: Event)
    ensures TakesUp(e, create) <==> CreatorShortcut(e, create)
    ensures e.content.membership == Some(Join) && e.prevEvents == [create.eventId] <==> JoinsOnCreate(e, create)
    ensures NamesFounder(e.version, create) <==> CreatorOf(e.version, create).Some?
  {
  }

  lemma ReachIff(create: Event, u: UserId)
    ensures InReach(create, u) <==>
            && DomainOf(create.sender).Some? && DomainOf(u).Some?
            && (DomainOf(create.sender) == DomainOf(u) || CanFederate(create))
  {
  }

  lemma NoLevelNoFounder(s: State, u: UserId)
    requires CREATE_KEY in s && UserLevel(s, u).None?
    ensures !NamesFounder(s[CREATE_KEY].version, s[CREATE_KEY])
  {
  }

  lemma CommonIff(e: Event, s: State)
    requires CREATE_KEY in s
    ensures CommonChecks(e, s) == Allow <==>
            && e.stateKey.Some? && InReach(s[CREATE_KEY], e.stateKey.value)
            && Legible(s, e.sender) && Legible(s, e.stateKey.value)
            && UserLevel(s, e.sender).Some? && UserLevel(s, e.stateKey.value).Some?
  {
    if e.stateKey.Some? {
      ReachIff(s[CREATE_KEY], e.stateKey.value);
    }
  }

  /** In reach an event is judged by the rules of its type. */
  lemma VerdictInReach(env: Env, e: Event, s: State)
    requires e.etype != Create && CREATE_KEY in s && InReach(s[CREATE_KEY], e.sender)
    ensures Check(env, e, s) ==
            if e.etype == Member then MembershipVerdict(env, e, s)
            else if OwnRules(e) then AliasVerdict(e)
            else MessageVerdict(env, e, s)
  {
    ReachIff(s[CREATE_KEY], e.sender);
  }

  /** Past the checks made for every membership an event is judged by the rules proper. */
  lemma OrdinaryVerdict(env: Env, e: Event, s: State, target: UserId, level: int, other: int)
    requires Ordinary(e, s, target, level, other)
    ensures Check(env, e, s) == MembershipRules(env, e, target, level, other, s)
  {
    LevelIff(s, e.sender, level);
    LevelIff(s, target, other);
    FoundingIff(e, s[CREATE_KEY]);
    CommonIff(e, s);
    VerdictInReach(env, e, s);
  }

  lemma OrdinaryIff(env: Env, e: Event, s: State, target: UserId, level: int, other: int)
    requires Ordinary(e, s, target, level, other)
    ensures LawfulChange(env, e, s, target, level, other) <==> Check(env, e, s) == Allow
  {
    LevelIff(s, e.sender, level);
    LevelIff(s, target, other);
    OrdinaryVerdict(env, e, s, target, level, other);
    ChangeIff(env, e, s, target, level, other);
  }

  lemma TakesUpIff(env: Env, e: Event, s: State)
    requires e.etype == Member && CREATE_KEY in s
    ensures TakesUp(e, s[CREATE_KEY]) <==> CreatorShortcut(e, s[CREATE_KEY])
    ensures TakesUp(e, s[CREATE_KEY]) ==> (Check(env, e, s) == Allow <==> InReach(s[CREATE_KEY], e.sender))
  {
    FoundingIff(e, s[CREATE_KEY]);
    ReachIff(s[CREATE_KEY], e.sender);
  }

  lemma MemberIff(env: Env, e: Event, s: State)
    requires e.etype == Member
    ensures Check(env, e, s) == Allow <==> LawfulMember(env, e, s)
  {
    if CREATE_KEY in s {
      TakesUpIff(env, e, s);
      if ChangesLawfully(env, e, s) {
        var target, level, other :|
          Ordinary(e, s, target, level, other) && LawfulChange(env, e, s, target, level, other);
        OrdinaryIff(env, e, s, target, level, other);
      } else if Check(env, e, s) == Allow && !TakesUp(e, s[CREATE_KEY]) {
        AcceptedIsOrdinary(env, e, s);
        OrdinaryIff(env, e, s, e.stateKey.value, UserLevel(s, e.sender).value, UserLevel(s, e.stateKey.value).value);
      }
    }
  }

  lemma AcceptedIsOrdinary(env: Env, e: Event, s: State)
    requires e.etype == Member && Check(env, e, s) == Allow && CREATE_KEY in s && !CreatorShortcut(e, s[CREATE_KEY])
    ensures e.stateKey.Some? && UserLevel(s, e.sender).Some? && UserLevel(s, e.stateKey.value).Some?
    ensures Ordinary(e, s, e.stateKey.value, UserLevel(s, e.sender).value, UserLevel(s, e.stateKey.value).value)
  {
    ReachIff(s[CREATE_KEY], e.sender);
    FoundingIff(e, s[CREATE_KEY]);
    assert MembershipVerdict(env, e, s) == Allow && CommonChecks(e, s) == Allow;
    CommonIff(e, s);
    LevelIff(s, e.sender, UserLevel(s, e.sender).value);
    LevelIff(s, e.stateKey.value, UserLevel(s, e.stateKey.value).value);
  }

  lemma WellFormedIff(env: Env, id: string)
    ensures WellFormedUser(env, id) <==> ValidUserId(env, id)
  {
    if |id| > 0 && id[0] == '@' {
      assert id == [id[0]] + id[1..];
    }
  }

  lemma OwnerEndsOnce(key: string, colon: nat, end: nat, c: nat, e: nat)
    requires OwnerEnds(key, colon, end) && OwnerEnds(key, c, e)
    ensures colon == c && end == e
  {
  }

  lemma NoColonNoOwner(key: string, colon: nat, end: nat)
    requires IndexOf(key, ':', 1).None?
    ensures !OwnerEnds(key, colon, end)
  {
    if 1 <= colon < |key| {
      assert key[colon] == key[1..][colon - 1];
    }
  }

  lemma OwnerEndIs(key: string, colon: nat)
    requires IndexOf(key, ':', 1) == Some(colon)
    ensures OwnerEnds(key, colon, OwnerEnd(key, colon))
  {
  }

  lemma OwnedIff(env: Env, key: string, colon: nat, end: nat, owner: UserId)
    requires OwnerEnds(key, colon, end)
    ensures OwnedBy(env, key, owner) <==> WellFormedUser(env, owner) && owner == key[..end]
  {
    forall c: nat, other: nat | OwnerEnds(key, c, other) ensures other == end {
      OwnerEndsOnce(key, c, other, colon, end);
    }
  }

  lemma OwnerIff(env: Env, key: string, owner: UserId)
    ensures OwnedBy(env, key, owner) <==> OwnerOf(env, key) == Some(owner)
  {
    match IndexOf(key, ':', 1)
    case None =>
      forall c: nat, other: nat ensures !OwnerEnds(key, c, other) { NoColonNoOwner(key, c, other); }
    case Some(colon) =>
      WellFormedIff(env, owner);
      OwnerEndIs(key, colon);
      OwnedIff(env, key, colon, OwnerEnd(key, colon), owner);
  }

  lemma OutranksIff(s: State, sender: UserId, level: int, owner: UserId)
    requires CREATE_KEY in s
    ensures Outranks(s, sender, level, owner) <==>
            owner == sender || (UserLevel(s, owner).Some? && UserLevel(s, owner).value < level)
  {
    forall other ensures HasLevel(s, owner, other) <==> UserLevel(s, owner) == Some(other) {
      LevelIff(s, owner, other);
    }
  }

  lemma OutranksOwnerIff(env: Env, s: State, sender: UserId, level: int, key: string)
    requires CREATE_KEY in s
    ensures OutranksOwner(env, s, sender, level, key) <==>
            OwnerOf(env, key).Some? && Outranks(s, sender, level, OwnerOf(env, key).value)
  {
    forall owner ensures OwnedBy(env, key, owner) <==> OwnerOf(env, key) == Some(owner) {
      OwnerIff(env, key, owner);
    }
  }

  lemma KeyIff(env: Env, e: Event, s: State, level: int)
    requires CREATE_KEY in s && HasLevel(s, e.sender, level) && MaySend(s, level, e.etype, e.stateKey.Some?)
    ensures KeyIsFree(env, e, s, level) <==> SendVerdict(env, e, s) == Allow
  {
    LevelIff(s, e.sender, level);
    MayIff(s, level, e.etype, e.stateKey.Some?);
    if e.stateKey.Some? {
      OutranksOwnerIff(env, s, e.sender, level, e.stateKey.value);
      if OwnerOf(env, e.stateKey.value).Some? {
        OutranksIff(s, e.sender, level, OwnerOf(env, e.stateKey.value).value);
      }
    }
  }

  lemma MoveIff(v: RoomVersion, before: Levels, after: Levels, sender: UserId, level: int)
    ensures LevelsMayMove(v, before, after, sender, level) <==> PowerChangeOk(v, before, after, sender, level)
  {
    if LevelsMayMove(v, before, after, sender, level) {
      forall u | u in before.users.Keys + after.users.Keys
        ensures UserChangeOk(Get(before.users, u), Get(after.users, u), level, u == sender)
      { assert MayMove(Get(before.users, u), Get(after.users, u), level); }
      forall t | t in before.events.Keys + after.events.Keys
        ensures LevelChangeOk(Get(before.events, t), Get(after.events, t), level)
      { assert MayMove(Get(before.events, t), Get(after.events, t), level); }
    }
    if PowerChangeOk(v, before, after, sender, level) {
      MovesAreOk(v, before, after, sender, level);
    }
  }

  lemma MovesAreOk(v: RoomVersion, before: Levels, after: Levels, sender: UserId, level: int)
    requires PowerChangeOk(v, before, after, sender, level)
    ensures LevelsMayMove(v, before, after, sender, level)
  {
    forall u ensures MayMove(Get(before.users, u), Get(after.users, u), level) {
      if u in before.users.Keys + after.users.Keys {
        assert UserChangeOk(Get(before.users, u), Get(after.users, u), level, u == sender);
      }
    }
    forall u | u in before.users && u != sender && before.users[u] == level ensures Get(after.users, u) == Some(level) {
      assert UserChangeOk(Get(before.users, u), Get(after.users, u), level, false);
    }
    forall t ensures MayMove(Get(before.events, t), Get(after.events, t), level) {
      if t in before.events.Keys + after.events.Keys {
        assert LevelChangeOk(Get(before.events, t), Get(after.events, t), level);
      }
    }
  }

  lemma PowerLevelsIff(e: Event, s: State, level: int)
    requires CREATE_KEY in s && e.etype == PowerLevels && HasLevel(s, e.sender, level)
    ensures LawfulPowerLevels(e, s, level) <==> PowerVerdict(e, s) == Allow
  {
    LevelIff(s, e.sender, level);
    if e.stateKey.Some? && (PowerLevels, e.stateKey.value) in s {
      MoveIff(e.version, s[(PowerLevels, e.stateKey.value)].content.levels, e.content.levels, e.sender, level);
    }
  }

  lemma EarnedIff(env: Env, e: Event, s: State, level: int)
    requires CREATE_KEY in s && HasLevel(s, e.sender, level)
    ensures EarnedAt(env, e, s, level) <==>
            && SenderJoined(e, s) == Allow
            && if e.etype == ThirdPartyInvite then ThirdPartyInviteVerdict(e, s) == Allow
               else SendVerdict(env, e, s) == Allow
  {
    LevelIff(s, e.sender, level);
    MayIff(s, level, e.etype, e.stateKey.Some?);
    if MaySend(s, level, e.etype, e.stateKey.Some?) {
      KeyIff(env, e, s, level);
    }
  }

  lemma MessageIff(env: Env, e: Event, s: State, level: int)
    requires CREATE_KEY in s && HasLevel(s, e.sender, level)
    ensures LawfulMessage(env, e, s, level) <==> MessageVerdict(env, e, s) == Allow
  {
    EarnedIff(env, e, s, level);
    LevelIff(s, e.sender, level);
    MayIff(s, level, e.etype, e.stateKey.Some?);
    if e.etype == PowerLevels {
      PowerLevelsIff(e, s, level);
    }
  }

  /** The checks accept exactly the lawful events. */
  lemma AcceptedIff(env: Env, e: Event, s: State)
    ensures Check(env, e, s) == Allow <==> Lawful(env, e, s)
  {
    if e.etype == Member {
      MemberIff(env, e, s);
    } else if !OwnRules(e) && CREATE_KEY in s && InReach(s[CREATE_KEY], e.sender) {
      VerdictInReach(env, e, s);
      if MessageVerdict(env, e, s) == Allow {
        var level := UserLevel(s, e.sender).value;
        LevelIff(s, e.sender, level);
        MessageIff(env, e, s, level);
      }
      forall level | LawfulMessage(env, e, s, level) ensures MessageVerdict(env, e, s) == Allow {
        MessageIff(env, e, s, level);
      }
    }
  }
}
