/** The state-dependent authorisation rules: a decision over one event and the current
    room state. Every place where the source raises is a `Deny`. */
module AuthRules {
  import opened Matrix

  /** Code the model does not open: server-name syntax and signature verification. */
  datatype Env = Env(validServerName: string -> bool, inviteSigned: (Event, Event) -> bool)

  datatype Reason =
    | MissingCreate | InvalidId | NotFederated
    | AliasNotState | AliasEmptyKey | AliasWrongDomain
    | MissingMembership | MissingStateKey | MissingCreator
    | NotInvited | TargetBanned | AlreadyJoined | AlreadyInvited
    | SenderNotJoined | InsufficientPower
    | ForcedJoin | NoAuthoriser | AuthoriserNotJoined | AuthoriserTooWeak | JoinNotAllowed
    | CannotUnban | CannotKick | CannotBan | CannotKnock | KnockForOther | UnknownMembership
    | BadStateKey | NotOwner
    | BadUserId | CreatorListed | AdditionalCreatorListed | LevelChangeRefused
    | RedactionRefused

  datatype Verdict = Allow | Deny(reason: Reason)

  const CREATOR_POWER: int := 0x20_0000_0000_0000

  // ---- Power levels in force ----

  /** The content of the power-levels event in force; all defaults when there is none. */
  function CurrentLevels(s: State): Levels {
    if POWER_KEY in s then s[POWER_KEY].content.levels else NO_LEVELS
  }

  function CreatorOf(version: RoomVersion, create: Event): Option<UserId> {
    if version.implicitCreator then Some(create.sender) else create.content.creator
  }

  predicate IsCreator(create: Event, u: UserId) {
    create.sender == u || (create.version.creatorPower && u in create.content.additionalCreators)
  }

  function LevelIn(levels: Levels, u: UserId): int {
    if u in levels.users then levels.users[u] else GetOr(levels.usersDefault, 0)
  }

  /** `None` where the source raises because the create event names no creator. */
  function UserLevel(s: State, u: UserId): Option<int>
    requires CREATE_KEY in s
  {
    var create := s[CREATE_KEY];
    if create.version.creatorPower && IsCreator(create, u) then Some(CREATOR_POWER)
    else if POWER_KEY in s then Some(LevelIn(CurrentLevels(s), u))
    else
      match CreatorOf(create.version, create)
      case None => None
      case Some(c) => Some(if c == u then 100 else 0)
  }

  function InviteLevel(s: State): int { GetOr(CurrentLevels(s).invite, 0) }
  function BanLevel(s: State): int { GetOr(CurrentLevels(s).ban, 50) }
  function KickLevel(s: State): int { GetOr(CurrentLevels(s).kick, 50) }
  function RedactLevel(s: State): int { GetOr(CurrentLevels(s).redact, 50) }

  function SendLevel(s: State, t: EventType, isState: bool): int {
    var levels := CurrentLevels(s);
    if t in levels.events then levels.events[t]
    else if isState then GetOr(levels.stateDefault, 50)
    else GetOr(levels.eventsDefault, 0)
  }

  // ---- Membership ----

  function MembershipOf(s: State, u: UserId): Option<Membership> {
    if (Member, u) in s then s[(Member, u)].content.membership else None
  }

  /** A member event without a `membership` makes the source raise when it is read. */
  predicate MalformedMember(s: State, u: UserId) {
    (Member, u) in s && s[(Member, u)].content.membership.None?
  }

  function JoinRuleOf(s: State): JoinRule {
    if JOIN_RULES_KEY in s then GetOr(s[JOIN_RULES_KEY].content.joinRule, InviteRule) else InviteRule
  }

  predicate CanFederate(create: Event) {
    create.content.federate != Some(false)
  }

  /** The event is a join placed directly on top of the create event. */
  predicate JoinsOnCreate(e: Event, create: Event) {
    |e.prevEvents| == 1 && e.content.membership == Some(Join) && e.prevEvents[0] == create.eventId
  }

  /** The room creator's own first join, which skips every later membership rule. */
  predicate CreatorShortcut(e: Event, create: Event) {
    && JoinsOnCreate(e, create)
    && CreatorOf(e.version, create).Some?
    && e.stateKey == CreatorOf(e.version, create)
  }

  function ThirdPartyVerified(env: Env, e: Event, target: UserId, s: State): bool {
    match e.content.thirdParty
    case Some(ThirdParty(Some(Signed(Some(mxid), Some(token), true)))) =>
      var key := (ThirdPartyInvite, token);
      && key in s
      && s[key].sender == e.sender
      && mxid == target
      && env.inviteSigned(e, s[key])
    case _ => false
  }

  function InviteVerdict(target: Option<Membership>, level: int, inviteLevel: int): Verdict {
    if target == Some(Ban) then Deny(TargetBanned)
    else if target == Some(Join) then Deny(AlreadyJoined)
    else if level < inviteLevel then Deny(InsufficientPower)
    else Allow
  }

  /** Whether `restricted` or `knock_restricted` is in force and understood. */
  predicate RestrictedInForce(v: RoomVersion, rule: JoinRule) {
    (v.restrictedJoin && rule == Restricted) || (v.knockRestrictedJoin && rule == KnockRestricted)
  }

  /** The member whose server vouches for a restricted join. */
  function AuthoriserVerdict(e: Event, s: State): Verdict
    requires CREATE_KEY in s
  {
    match e.content.authorisingUser
    case None => Deny(NoAuthoriser)
    case Some(a) =>
      if MalformedMember(s, a) then Deny(MissingMembership)
      else if MembershipOf(s, a) != Some(Join) then Deny(AuthoriserNotJoined)
      else
        match UserLevel(s, a)
        case None => Deny(MissingCreator)
        case Some(level) => if level < InviteLevel(s) then Deny(AuthoriserTooWeak) else Allow
  }

  function JoinVerdict(e: Event, target: UserId, s: State): Verdict
    requires CREATE_KEY in s
  {
    var caller := MembershipOf(s, e.sender);
    var rule := JoinRuleOf(s);
    if e.sender != target then Deny(ForcedJoin)
    else if MembershipOf(s, target) == Some(Ban) then Deny(TargetBanned)
    else if rule == Public then Allow
    else if RestrictedInForce(e.version, rule) then
      if caller == Some(Join) || caller == Some(Invite) then Allow else AuthoriserVerdict(e, s)
    else if rule == InviteRule || (e.version.knockJoin && rule == KnockRule) then
      if caller == Some(Join) || caller == Some(Invite) then Allow else Deny(NotInvited)
    else Deny(JoinNotAllowed)
  }

  function LeaveVerdict(isSelf: bool, target: Option<Membership>, level: int, targetLevel: int, banLevel: int,
      kickLevel: int): Verdict {
    if target == Some(Ban) && level < banLevel then Deny(CannotUnban)
    else if !isSelf && (level < kickLevel || level <= targetLevel) then Deny(CannotKick)
    else Allow
  }

  function BanVerdict(level: int, targetLevel: int, banLevel: int): Verdict {
    if level < banLevel then Deny(InsufficientPower)
    else if level <= targetLevel then Deny(CannotBan)
    else Allow
  }

  function KnockVerdict(v: RoomVersion, isSelf: bool, rule: JoinRule, caller: Option<Membership>,
      target: Option<Membership>): Verdict {
    if rule != KnockRule && (!v.knockRestrictedJoin || rule != KnockRestricted) then Deny(CannotKnock)
    else if !isSelf then Deny(KnockForOther)
    else if target == Some(Join) then Deny(AlreadyJoined)
    else if caller == Some(Invite) then Deny(AlreadyInvited)
    else if target == Some(Ban) then Deny(TargetBanned)
    else Allow
  }

  /** A leave that an invited or knocking user sends for themselves. */
  predicate WithdrawsOwn(e: Event, target: UserId, caller: Option<Membership>) {
    && (caller == Some(Invite) || (e.version.knockJoin && caller == Some(Knock)))
    && e.content.membership == Some(Leave)
    && target == e.sender
  }

  function MembershipRules(env: Env, e: Event, target: UserId, level: int, targetLevel: int, s: State): Verdict
    requires CREATE_KEY in s
    requires e.content.membership.Some?
  {
    var m := e.content.membership.value;
    var caller := MembershipOf(s, e.sender);
    var targetNow := MembershipOf(s, target);
    if m == Invite && e.content.thirdParty.Some? then
      if !ThirdPartyVerified(env, e, target, s) then Deny(NotInvited)
      else if targetNow == Some(Ban) then Deny(TargetBanned)
      else Allow
    else if m != Join && m != Knock && WithdrawsOwn(e, target, caller) then Allow
    else if m != Join && m != Knock && caller != Some(Join) then Deny(SenderNotJoined)
    else
      match m
      case Invite => InviteVerdict(targetNow, level, InviteLevel(s))
      case Join => JoinVerdict(e, target, s)
      case Leave => LeaveVerdict(target == e.sender, targetNow, level, targetLevel, BanLevel(s), KickLevel(s))
      case Ban => BanVerdict(level, targetLevel, BanLevel(s))
      case Knock =>
        if e.version.knockJoin then KnockVerdict(e.version, target == e.sender, JoinRuleOf(s), caller, targetNow)
        else Deny(UnknownMembership)
      case Odd(_) => Deny(UnknownMembership)
  }

  /** The checks made for every membership except the creator's first join. */
  function CommonChecks(e: Event, s: State): Verdict
    requires CREATE_KEY in s
  {
    if e.stateKey.None? then Deny(MissingStateKey)
    else
      var create, target := s[CREATE_KEY], e.stateKey.value;
      var creating, targeting := DomainOf(create.sender), DomainOf(target);
      if creating.None? || targeting.None? then Deny(InvalidId)
      else if creating != targeting && !CanFederate(create) then Deny(NotFederated)
      else if MalformedMember(s, e.sender) || MalformedMember(s, target) then Deny(MissingMembership)
      else if UserLevel(s, e.sender).None? || UserLevel(s, target).None? then Deny(MissingCreator)
      else Allow
  }

  function MembershipVerdict(env: Env, e: Event, s: State): Verdict
    requires CREATE_KEY in s
  {
    var create := s[CREATE_KEY];
    if e.content.membership.None? then Deny(MissingMembership)
    else if JoinsOnCreate(e, create) && CreatorOf(e.version, create).None? then Deny(MissingCreator)
    else if CreatorShortcut(e, create) then Allow
    else
      var common := CommonChecks(e, s);
      if common.Deny? then common
      else
        var target := e.stateKey.value;
        MembershipRules(env, e, target, UserLevel(s, e.sender).value, UserLevel(s, target).value, s)
  }

  // ---- Sending other events ----

  function SenderJoined(e: Event, s: State): Verdict {
    if MalformedMember(s, e.sender) then Deny(MissingMembership)
    else if MembershipOf(s, e.sender) != Some(Join) then Deny(SenderNotJoined)
    else Allow
  }

  function ThirdPartyInviteVerdict(e: Event, s: State): Verdict
    requires CREATE_KEY in s
  {
    match UserLevel(s, e.sender)
    case None => Deny(MissingCreator)
    case Some(level) => if level < InviteLevel(s) then Deny(InsufficientPower) else Allow
  }

  predicate ValidUserId(env: Env, id: string) {
    ParsesAsUserId(id) && DomainOf(id).Some? && env.validServerName(DomainOf(id).value)
  }

  /** Where a user id in front of a state key ends: at the first `_` after its colon. */
  function OwnerEnd(key: string, colon: nat): (end: nat)
    requires colon < |key|
    ensures colon < end <= |key|
  {
    match IndexOf(key, '_', colon + 1) case Some(i) => i case None => |key|
  }

  /** The user named by a state key that is a user id, or one followed by `_suffix`. */
  function OwnerOf(env: Env, key: string): Option<UserId> {
    match IndexOf(key, ':', 1)
    case None => None
    case Some(colon) =>
      var id := key[..OwnerEnd(key, colon)];
      if ValidUserId(env, id) then Some(id) else None
  }

  predicate NamesAnotherUser(e: Event) {
    e.stateKey.Some? && |e.stateKey.value| > 0 && e.stateKey.value[0] == '@' && e.stateKey.value != e.sender
  }

  function SendVerdict(env: Env, e: Event, s: State): Verdict
    requires CREATE_KEY in s
  {
    match UserLevel(s, e.sender)
    case None => Deny(MissingCreator)
    case Some(level) =>
      if level < SendLevel(s, e.etype, e.stateKey.Some?) then Deny(InsufficientPower)
      else if !NamesAnotherUser(e) then Allow
      else if !e.version.ownedState then Deny(NotOwner)
      else
        match OwnerOf(env, e.stateKey.value)
        case None => Deny(BadStateKey)
        case Some(owner) =>
          if owner == e.sender then Allow
          else
            match UserLevel(s, owner)
            case None => Deny(MissingCreator)
            case Some(other) => if level > other then Allow else Deny(NotOwner)
  }

  function RedactionVerdict(e: Event, s: State): Verdict
    requires CREATE_KEY in s
  {
    match UserLevel(s, e.sender)
    case None => Deny(MissingCreator)
    case Some(level) =>
      if level >= RedactLevel(s) || !e.version.formatV1 then Allow
      else if DomainOf(e.eventId).None? then Deny(InvalidId)
      else if e.redacts.None? then Allow
      else if DomainOf(e.redacts.value).None? then Deny(InvalidId)
      else if DomainOf(e.eventId) == DomainOf(e.redacts.value) then Allow
      else Deny(RedactionRefused)
  }

  // ---- Changing power levels ----

  /** One level may change only between values the sender does not exceed. */
  predicate LevelChangeOk(before: Option<int>, after: Option<int>, level: int) {
    || (before.Some? && before == after)
    || ((before.Some? ==> before.value <= level) && (after.Some? ==> after.value <= level))
  }

  /** As above, and nobody may touch another user's level that equals their own. */
  predicate UserChangeOk(before: Option<int>, after: Option<int>, level: int, isSelf: bool) {
    || (before.Some? && before == after)
    || ((isSelf || before != Some(level)) && LevelChangeOk(before, after, level))
  }

  predicate NamedChangesOk(before: Levels, after: Levels, level: int) {
    && LevelChangeOk(before.usersDefault, after.usersDefault, level)
    && LevelChangeOk(before.eventsDefault, after.eventsDefault, level)
    && LevelChangeOk(before.stateDefault, after.stateDefault, level)
    && LevelChangeOk(before.ban, after.ban, level)
    && LevelChangeOk(before.redact, after.redact, level)
    && LevelChangeOk(before.kick, after.kick, level)
    && LevelChangeOk(before.invite, after.invite, level)
  }

  predicate UserChangesOk(before: Levels, after: Levels, sender: UserId, level: int) {
    forall u | u in before.users.Keys + after.users.Keys ::
      UserChangeOk(Get(before.users, u), Get(after.users, u), level, u == sender)
  }

  predicate MapChangesOk<K>(before: map<K, int>, after: map<K, int>, level: int) {
    forall k | k in before.Keys + after.Keys :: LevelChangeOk(Get(before, k), Get(after, k), level)
  }

  predicate PowerChangeOk(v: RoomVersion, before: Levels, after: Levels, sender: UserId, level: int) {
    && NamedChangesOk(before, after, level)
    && UserChangesOk(before, after, sender, level)
    && MapChangesOk(before.events, after.events, level)
    && (v.limitNotifications ==> MapChangesOk(before.notifications, after.notifications, level))
  }

  predicate AllUserIds(users: map<UserId, int>) {
    forall u | u in users.Keys :: ParsesAsUserId(u)
  }

  /** The checks on the new content alone, before it is compared with the old one. */
  function PowerContentVerdict(e: Event, create: Event): Verdict {
    var users := e.content.levels.users;
    if !AllUserIds(users) then Deny(BadUserId)
    else if e.version.creatorPower && create.sender in users then Deny(CreatorListed)
    else if e.version.creatorPower && exists u | u in users.Keys :: u in create.content.additionalCreators then
      Deny(AdditionalCreatorListed)
    else if e.stateKey.None? then Deny(MissingStateKey)
    else Allow
  }

  function PowerVerdict(e: Event, s: State): Verdict
    requires CREATE_KEY in s
  {
    var onContent := PowerContentVerdict(e, s[CREATE_KEY]);
    if onContent.Deny? then onContent
    else
      match Get(s, (e.etype, e.stateKey.value))
      case None => Allow
      case Some(current) =>
        match UserLevel(s, e.sender)
        case None => Deny(MissingCreator)
        case Some(level) =>
          if PowerChangeOk(e.version, current.content.levels, e.content.levels, e.sender, level) then Allow
          else Deny(LevelChangeRefused)
  }

  // ---- The whole check ----

  function AliasVerdict(e: Event): Verdict {
    if e.stateKey.None? then Deny(AliasNotState)
    else if e.stateKey.value == "" then Deny(AliasEmptyKey)
    else if e.stateKey != DomainOf(e.sender) then Deny(AliasWrongDomain)
    else Allow
  }

  function MessageVerdict(env: Env, e: Event, s: State): Verdict
    requires CREATE_KEY in s
  {
    var joined := SenderJoined(e, s);
    if joined.Deny? then joined
    else if e.etype == ThirdPartyInvite then ThirdPartyInviteVerdict(e, s)
    else
      var sent := SendVerdict(env, e, s);
      if sent.Deny? then sent
      else if e.etype == PowerLevels then PowerVerdict(e, s)
      else if e.etype == Redaction then RedactionVerdict(e, s)
      else Allow
  }

  /** The verdict on `e` in room state `s`. */
  function Check(env: Env, e: Event, s: State): Verdict {
    if e.etype == Create then Allow
    else if CREATE_KEY !in s then Deny(MissingCreate)
    else
      var create := s[CREATE_KEY];
      var creating, originating := DomainOf(create.sender), DomainOf(e.sender);
      if creating.None? || originating.None? then Deny(InvalidId)
      else if creating != originating && !CanFederate(create) then Deny(NotFederated)
      else if e.etype == Aliases && e.version.specialCaseAliases then AliasVerdict(e)
      else if e.etype == Member then MembershipVerdict(env, e, s)
      else MessageVerdict(env, e, s)
  }

  // ---- The state an event needs ----

  /** `None` where the source raises on a member event with no membership, no state key,
      or a third-party invite without a token. */
  function AuthTypes(v: RoomVersion, e: Event): Option<set<StateKey>> {
    if e.etype == Create then Some({})
    else
      var base: set<StateKey> := {POWER_KEY, (Member, e.sender), CREATE_KEY};
      if e.etype != Member then Some(base)
      else if e.content.membership.None? || e.stateKey.None? then None
      else
        var m := e.content.membership.value;
        var rules: set<StateKey> := if m == Join || m == Invite || m == Knock then {JOIN_RULES_KEY} else {};
        var authoriser: set<StateKey> :=
          if v.restrictedJoin && m == Join && e.content.authorisingUser.Some?
          then {(Member, e.content.authorisingUser.value)} else {};
        var core := base + rules + {(Member, e.stateKey.value)} + authoriser;
        if m == Invite && e.content.thirdParty.Some? then
          match e.content.thirdParty.value.signed
          case Some(Signed(_, Some(token), _)) => Some(core + {(ThirdPartyInvite, token)})
          case _ => None
        else Some(core)
  }
}
