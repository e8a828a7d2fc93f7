/** Every reason the checks give for a refusal is true, in the terms of the law: on the fields
    of the event and of the events in the room state, with levels and owners of state keys as
    `RoomLaw` has them. */
module RefusalReasons {
  import opened Matrix
  import opened AuthRules
  import opened RoomLaw

  // ---- What the reasons say ----

  /** One of the servers is not named, or may not take part. */
  predicate OutOfReach(create: Event, u: UserId, r: Reason) {
    || (r == InvalidId && (':' !in create.sender || ':' !in u))
    || (r == NotFederated && create.content.federate == Some(false) && DomainOf(create.sender) != DomainOf(u))
  }

  function TargetOf(e: Event): UserId { if e.stateKey.Some? then e.stateKey.value else e.sender }

  predicate Unclear(e: Event, s: State, target: UserId, r: Reason)
    requires CREATE_KEY in s
  {
    || (r == MissingMembership && (e.content.membership.None? || !Legible(s, e.sender) || !Legible(s, target)))
    || (r == MissingStateKey && e.stateKey.None?)
    || (&& r == MissingCreator
        && !(NamesFounder(e.version, s[CREATE_KEY]) && NamesFounder(s[CREATE_KEY].version, s[CREATE_KEY])))
  }

  predicate JoinRefused(e: Event, s: State, target: UserId, r: Reason)
    requires CREATE_KEY in s
  {
    || (r == ForcedJoin && e.sender != target)
    || (r == TargetBanned && Stands(s, target, Ban))
    || (r == NotInvited && !Stands(s, e.sender, Join) && !Stands(s, e.sender, Invite))
    || (r == JoinNotAllowed && !InviteCounts(e.version, s))
    || (RestrictedRule(e.version, s) && NotAuthorised(e, s, r))
  }

  predicate NotAuthorised(e: Event, s: State, r: Reason)
    requires CREATE_KEY in s
  {
    match e.content.authorisingUser
    case None => r == NoAuthoriser
    case Some(a) =>
      || (r == MissingMembership && !Legible(s, a))
      || (r == AuthoriserNotJoined && !Stands(s, a, Join))
      || (r == MissingCreator && !NamesFounder(s[CREATE_KEY].version, s[CREATE_KEY]))
      || (r == AuthoriserTooWeak && UserLevel(s, a).Some? && !MayInvite(s, UserLevel(s, a).value))
  }

  predicate KnockRefused(e: Event, s: State, target: UserId, r: Reason) {
    || (&& r == CannotKnock && !RuleIs(s, KnockRule)
        && (e.version.knockRestrictedJoin ==> !RuleIs(s, KnockRestricted)))
    || (r == KnockForOther && e.sender != target)
    || (r == AlreadyJoined && Stands(s, target, Join))
    || (r == AlreadyInvited && Stands(s, e.sender, Invite))
    || (r == TargetBanned && Stands(s, target, Ban))
  }

  predicate InviteRefused(s: State, target: UserId, level: int, r: Reason) {
    || (r == TargetBanned && Stands(s, target, Ban))
    || (r == AlreadyJoined && Stands(s, target, Join))
    || (r == InsufficientPower && !MayInvite(s, level))
  }

  predicate LeaveRefused(s: State, sender: UserId, target: UserId, level: int, other: int, r: Reason) {
    || (r == CannotUnban && Stands(s, target, Ban) && !MayBan(s, level))
    || (r == CannotKick && sender != target && (level <= other || !MayKick(s, level)))
  }

  predicate BanRefused(s: State, level: int, other: int, r: Reason) {
    (r == InsufficientPower && !MayBan(s, level)) || (r == CannotBan && level <= other)
  }

  predicate ChangeRefused(env: Env, e: Event, s: State, target: UserId, level: int, other: int, r: Reason)
    requires CREATE_KEY in s && e.content.membership.Some?
  {
    if IsThirdParty(e) then
      (r == NotInvited && !IsBacked(env, e, target, s)) || (r == TargetBanned && Stands(s, target, Ban))
    else
      match e.content.membership.value
      case Join => JoinRefused(e, s, target, r)
      case Knock => if e.version.knockJoin then KnockRefused(e, s, target, r) else r == UnknownMembership
      case m =>
        || (r == SenderNotJoined && !Stands(s, e.sender, Join))
        || (m == Invite && InviteRefused(s, target, level, r))
        || (m == Leave && LeaveRefused(s, e.sender, target, level, other, r))
        || (m == Ban && BanRefused(s, level, other, r))
        || (m.Odd? && r == UnknownMembership)
  }

  ghost predicate RulesRefuse(env: Env, e: Event, s: State, target: UserId, r: Reason)
    requires CREATE_KEY in s && e.content.membership.Some?
  {
    exists level, other :: HasLevel(s, e.sender, level) && HasLevel(s, target, other)
                           && ChangeRefused(env, e, s, target, level, other, r)
  }

  ghost predicate MemberRefused(env: Env, e: Event, s: State, target: UserId, r: Reason)
    requires CREATE_KEY in s
  {
    || OutOfReach(s[CREATE_KEY], target, r) || Unclear(e, s, target, r)
    || (e.content.membership.Some? && RulesRefuse(env, e, s, target, r))
  }

  predicate AliasRefused(e: Event, r: Reason) {
    || (r == AliasNotState && e.stateKey.None?)
    || (r == AliasEmptyKey && e.stateKey == Some(""))
    || (r == AliasWrongDomain && e.stateKey.Some? && e.stateKey != DomainOf(e.sender))
  }

  ghost predicate SendRefused(env: Env, e: Event, s: State, level: int, r: Reason)
    requires CREATE_KEY in s
  {
    || (r == InsufficientPower && !MaySend(s, level, e.etype, e.stateKey.Some?))
    || (r == NotOwner && !KeyIsFree(env, e, s, level))
    || (r == BadStateKey && e.stateKey.Some? && OwnerOf(env, e.stateKey.value).None?)
    || (r == MissingCreator && !NamesFounder(s[CREATE_KEY].version, s[CREATE_KEY]))
  }

  ghost predicate LevelsRefused(e: Event, s: State, level: int, r: Reason)
    requires CREATE_KEY in s
  {
    var create, users := s[CREATE_KEY], e.content.levels.users;
    || (r == BadUserId && exists id :: id in users && !(|id| > 0 && id[0] == '@' && ':' in id[1..]))
    || (r == CreatorListed && e.version.creatorPower && create.sender in users)
    || (&& r == AdditionalCreatorListed && e.version.creatorPower
        && exists id :: id in users && id in create.content.additionalCreators)
    || (r == MissingStateKey && e.stateKey.None?)
    || (&& r == LevelChangeRefused && e.stateKey.Some? && (PowerLevels, e.stateKey.value) in s
        && var before := s[(PowerLevels, e.stateKey.value)].content.levels;
           !LevelsMayMove(e.version, before, e.content.levels, e.sender, level))
  }

  predicate RedactionRefused(e: Event, s: State, level: int, r: Reason) {
    && e.version.formatV1 && !MayRedact(s, level)
    && (|| (r == InvalidId && (':' !in e.eventId || (e.redacts.Some? && ':' !in e.redacts.value)))
        || (&& r == Reason.RedactionRefused && ':' in e.eventId && e.redacts.Some? && ':' in e.redacts.value
            && DomainOf(e.redacts.value) != DomainOf(e.eventId)))
  }

  ghost predicate MessageRefused(env: Env, e: Event, s: State, r: Reason)
    requires CREATE_KEY in s
  {
    || (r == MissingMembership && !Legible(s, e.sender))
    || (r == SenderNotJoined && !Stands(s, e.sender, Join))
    || (r == MissingCreator && !NamesFounder(s[CREATE_KEY].version, s[CREATE_KEY]))
    || (exists level :: HasLevel(s, e.sender, level) && RefusedAt(env, e, s, level, r))
  }

  ghost predicate RefusedAt(env: Env, e: Event, s: State, level: int, r: Reason)
    requires CREATE_KEY in s
  {
    if e.etype == ThirdPartyInvite then r == InsufficientPower && !MayInvite(s, level)
    else
      || SendRefused(env, e, s, level, r)
      || (e.etype == PowerLevels && LevelsRefused(e, s, level, r))
      || (e.etype == Redaction && RedactionRefused(e, s, level, r))
  }

  /** What a reason says of the event and the state. */
  ghost predicate True(env: Env, e: Event, s: State, r: Reason) {
    if CREATE_KEY !in s then r == MissingCreate
    else
      || OutOfReach(s[CREATE_KEY], e.sender, r)
      || (if e.etype == Member then MemberRefused(env, e, s, TargetOf(e), r)
          else if OwnRules(e) then AliasRefused(e, r)
          else MessageRefused(env, e, s, r))
  }

  // ---- They are true ----

  lemma AuthoriserReason(e: Event, s: State, r: Reason)
    requires CREATE_KEY in s && AuthoriserVerdict(e, s) == Deny(r)
    ensures NotAuthorised(e, s, r)
  {
    if e.content.authorisingUser.Some? && UserLevel(s, e.content.authorisingUser.value).Some? {
      MayIff(s, UserLevel(s, e.content.authorisingUser.value).value, Member, true);
    }
  }

  lemma JoinReason(e: Event, s: State, target: UserId, r: Reason)
    requires CREATE_KEY in s && JoinVerdict(e, target, s) == Deny(r)
    ensures JoinRefused(e, s, target, r)
  {
    RuleIff(s, e.version);
    if AuthoriserVerdict(e, s) == Deny(r) {
      AuthoriserReason(e, s, r);
    }
  }

  lemma KnockReason(e: Event, s: State, target: UserId, r: Reason)
    requires KnockVerdict(e.version, target == e.sender, JoinRuleOf(s), MembershipOf(s, e.sender),
                          MembershipOf(s, target)) == Deny(r)
    ensures KnockRefused(e, s, target, r)
  {
    RuleIff(s, e.version);
  }

  lemma RuleReason(env: Env, e: Event, s: State, target: UserId, level: int, other: int, r: Reason)
    requires CREATE_KEY in s && e.content.membership.Some?
    requires MembershipRules(env, e, target, level, other, s) == Deny(r)
    ensures ChangeRefused(env, e, s, target, level, other, r)
  {
    MayIff(s, level, Member, true);
    if IsThirdParty(e) {
      BackedIff(env, e, target, s);
    } else if e.content.membership == Some(Join) {
      JoinReason(e, s, target, r);
    } else if e.content.membership == Some(Knock) && e.version.knockJoin {
      KnockReason(e, s, target, r);
    }
  }

  lemma CommonReason(e: Event, s: State, r: Reason)
    requires CREATE_KEY in s && CommonChecks(e, s) == Deny(r)
    ensures OutOfReach(s[CREATE_KEY], TargetOf(e), r) || Unclear(e, s, TargetOf(e), r)
  {
    if r == MissingCreator {
      NoLevelNoFounder(s, if UserLevel(s, e.sender).None? then e.sender else e.stateKey.value);
    } else if r == MissingMembership {
      StandsIff(s, e.sender, Join);
      StandsIff(s, e.stateKey.value, Join);
    }
  }

  lemma RulesReason(env: Env, e: Event, s: State, r: Reason)
    requires CREATE_KEY in s && e.content.membership.Some? && CommonChecks(e, s) == Allow
    requires MembershipRules(env, e, e.stateKey.value, UserLevel(s, e.sender).value,
                             UserLevel(s, e.stateKey.value).value, s) == Deny(r)
    ensures RulesRefuse(env, e, s, TargetOf(e), r)
  {
    var target := e.stateKey.value;
    var level, other := UserLevel(s, e.sender).value, UserLevel(s, target).value;
    LevelIff(s, e.sender, level);
    LevelIff(s, target, other);
    RuleReason(env, e, s, target, level, other, r);
  }

  lemma MemberReason(env: Env, e: Event, s: State, r: Reason)
    requires CREATE_KEY in s && MembershipVerdict(env, e, s) == Deny(r)
    ensures MemberRefused(env, e, s, TargetOf(e), r)
  {
    var unfounded := JoinsOnCreate(e, s[CREATE_KEY]) && CreatorOf(e.version, s[CREATE_KEY]).None?;
    if e.content.membership.Some? && !unfounded {
      if CommonChecks(e, s) == Allow {
        RulesReason(env, e, s, r);
      } else {
        CommonReason(e, s, r);
      }
    }
  }

  lemma SendReason(env: Env, e: Event, s: State, level: int, r: Reason)
    requires CREATE_KEY in s && HasLevel(s, e.sender, level) && SendVerdict(env, e, s) == Deny(r)
    ensures SendRefused(env, e, s, level, r)
  {
    LevelIff(s, e.sender, level);
    MayIff(s, level, e.etype, e.stateKey.Some?);
    if r == NotOwner {
      KeyIff(env, e, s, level);
    }
  }

  lemma LevelsReason(e: Event, s: State, level: int, r: Reason)
    requires e.etype == PowerLevels && CREATE_KEY in s && HasLevel(s, e.sender, level) && PowerVerdict(e, s) == Deny(r)
    ensures LevelsRefused(e, s, level, r)
  {
    LevelIff(s, e.sender, level);
    if r == LevelChangeRefused {
      MoveIff(e.version, s[(PowerLevels, e.stateKey.value)].content.levels, e.content.levels, e.sender, level);
    }
  }

  lemma RedactionReason(e: Event, s: State, level: int, r: Reason)
    requires CREATE_KEY in s && HasLevel(s, e.sender, level) && RedactionVerdict(e, s) == Deny(r)
    ensures RedactionRefused(e, s, level, r)
  {
    LevelIff(s, e.sender, level);
    MayIff(s, level, e.etype, e.stateKey.Some?);
  }

  lemma ReasonAt(env: Env, e: Event, s: State, level: int, r: Reason)
    requires CREATE_KEY in s && HasLevel(s, e.sender, level)
    requires SenderJoined(e, s) == Allow && MessageVerdict(env, e, s) == Deny(r)
    ensures RefusedAt(env, e, s, level, r)
  {
    LevelIff(s, e.sender, level);
    if e.etype == ThirdPartyInvite {
      MayIff(s, level, e.etype, e.stateKey.Some?);
    } else if SendVerdict(env, e, s) == Deny(r) {
      SendReason(env, e, s, level, r);
    } else if e.etype == PowerLevels {
      LevelsReason(e, s, level, r);
    } else {
      RedactionReason(e, s, level, r);
    }
  }

  lemma MessageReason(env: Env, e: Event, s: State, r: Reason)
    requires CREATE_KEY in s && MessageVerdict(env, e, s) == Deny(r)
    ensures MessageRefused(env, e, s, r)
  {
    if SenderJoined(e, s) == Allow && UserLevel(s, e.sender).Some? {
      LevelIff(s, e.sender, UserLevel(s, e.sender).value);
      ReasonAt(env, e, s, UserLevel(s, e.sender).value, r);
    }
  }

  lemma ReachReason(env: Env, e: Event, s: State, r: Reason)
    requires e.etype != Create && CREATE_KEY in s && !InReach(s[CREATE_KEY], e.sender) && Check(env, e, s) == Deny(r)
    ensures OutOfReach(s[CREATE_KEY], e.sender, r)
  {
  }

  /** Whatever is refused is refused for a reason that holds of it. */
  lemma ReasonIsTrue(env: Env, e: Event, s: State, r: Reason)
    requires Check(env, e, s) == Deny(r)
    ensures True(env, e, s, r)
  {
    if CREATE_KEY in s {
      if InReach(s[CREATE_KEY], e.sender) {
        VerdictInReach(env, e, s);
        if e.etype == Member {
          MemberReason(env, e, s, r);
        } else if !OwnRules(e) {
          MessageReason(env, e, s, r);
        }
      } else {
        ReachReason(env, e, s, r);
      }
    }
  }

  /** Only a create event that names no founder is refused for want of a creator. */
  lemma MissingCreatorMeans(env: Env, e: Event, s: State)
    requires Check(env, e, s) == Deny(MissingCreator)
    ensures CREATE_KEY in s
    ensures !NamesFounder(e.version, s[CREATE_KEY]) || !NamesFounder(s[CREATE_KEY].version, s[CREATE_KEY])
  {
    ReasonIsTrue(env, e, s, MissingCreator);
    if e.etype == Member && !Unclear(e, s, TargetOf(e), MissingCreator) {
      var level, other :| HasLevel(s, e.sender, level) && HasLevel(s, TargetOf(e), other)
                          && ChangeRefused(env, e, s, TargetOf(e), level, other, MissingCreator);
      ChangeMissesCreator(env, e, s, TargetOf(e), level, other);
    } else if e.etype != Member && !OwnRules(e) {
      MessageMissesCreator(env, e, s);
    }
  }

  lemma MessageMissesCreator(env: Env, e: Event, s: State)
    requires CREATE_KEY in s && MessageRefused(env, e, s, MissingCreator)
    ensures !NamesFounder(s[CREATE_KEY].version, s[CREATE_KEY])
  {
  }

  lemma ChangeMissesCreator(env: Env, e: Event, s: State, target: UserId, level: int, other: int)
    requires CREATE_KEY in s && e.content.membership.Some?
    requires ChangeRefused(env, e, s, target, level, other, MissingCreator)
    ensures !NamesFounder(s[CREATE_KEY].version, s[CREATE_KEY])
  {
    assert JoinRefused(e, s, target, MissingCreator);
  }
}
