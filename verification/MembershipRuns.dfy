/** What membership keeps over whole runs: a ban lasts until someone with the power to
    lift it does so, and in a room nobody can simply walk into every member is vouched for
    by a chain of invites that starts at the creator. */
module MembershipRuns {
  import opened Matrix
  import opened AuthRules
  import opened RoomRuns

  // ---- Bans ----

  /** A leave that another joined member with enough power sends for `t`. */
  predicate LiftsBan(e: Event, s: State, t: UserId)
    requires CREATE_KEY in s
  {
    && e.content.membership == Some(Leave)
    && e.sender != t
    && MembershipOf(s, e.sender) == Some(Join)
    && UserLevel(s, e.sender).Some? && UserLevel(s, t).Some?
    && UserLevel(s, e.sender).value >= BanLevel(s)
    && UserLevel(s, e.sender).value >= KickLevel(s)
    && UserLevel(s, e.sender).value > UserLevel(s, t).value
  }

  predicate ReleasesBan(e: Event, s: State, t: UserId)
    requires CREATE_KEY in s
  {
    e.etype == Member && e.stateKey == Some(t) && (CreatorShortcut(e, s[CREATE_KEY]) || LiftsBan(e, s, t))
  }

  /** The membership rules let a banned user only be banned again or be released. */
  lemma RulesOnBanned(env: Env, e: Event, s: State, t: UserId, level: int, targetLevel: int)
    requires CREATE_KEY in s && MembershipOf(s, t) == Some(Ban) && e.stateKey == Some(t) && e.content.membership.Some?
    requires UserLevel(s, e.sender) == Some(level) && UserLevel(s, t) == Some(targetLevel)
    requires MembershipRules(env, e, t, level, targetLevel, s) == Allow
    ensures e.content.membership == Some(Ban) || LiftsBan(e, s, t)
  {
  }

  /** One step releases a banned user exactly when the event is accepted and is either the
      creator's first join or a leave sent by a sufficiently powerful other member. */
  lemma StepReleasesBan(env: Env, s: State, e: Event, t: UserId)
    requires CREATE_KEY in s && MembershipOf(s, t) == Some(Ban)
    ensures MembershipOf(Step(env, s, e), t) != Some(Ban) <==> Check(env, e, s) == Allow && ReleasesBan(e, s, t)
  {
    if Check(env, e, s) == Allow && e.etype == Member && e.stateKey == Some(t) {
      AcceptedMember(env, e, s);
      assert MembershipOf(Step(env, s, e), t) == e.content.membership;
      if !CreatorShortcut(e, s[CREATE_KEY]) {
        RulesOnBanned(env, e, s, t, UserLevel(s, e.sender).value, UserLevel(s, t).value);
      }
    } else {
      assert Get(Step(env, s, e), (Member, t)) == Get(s, (Member, t));
    }
  }

  /** A user banned at the start who is not banned later was released in between. */
  lemma {:induction false} BanLastsUntilLifted(env: Env, s: State, es: seq<Event>, t: UserId, i: nat)
    requires CREATE_KEY in s && WithinRoom(es) && i <= |es| && MembershipOf(s, t) == Some(Ban)
    requires MembershipOf(At(env, s, es, i), t) != Some(Ban)
    ensures exists j :: 0 <= j < i && Accepted(env, s, es, j) && CREATE_KEY in At(env, s, es, j)
                        && MembershipOf(At(env, s, es, j), t) == Some(Ban) && ReleasesBan(es[j], At(env, s, es, j), t)
  {
    if i > 0 {
      AtNext(env, s, es, i - 1);
      CreateStays(env, s, es, i - 1);
      if MembershipOf(At(env, s, es, i - 1), t) == Some(Ban) {
        StepReleasesBan(env, At(env, s, es, i - 1), es[i - 1], t);
      } else {
        BanLastsUntilLifted(env, s, es, t, i - 1);
      }
    }
  }

  // ---- Invites ----

  function Founded(create: Event): State {
    map[CREATE_KEY := create]
  }

  /** Nobody can join under this rule without an invite. */
  predicate InviteNeeded(v: RoomVersion, rule: JoinRule) {
    rule != Public && !RestrictedInForce(v, rule)
  }

  ghost predicate InviteOnly(env: Env, s: State, es: seq<Event>) {
    forall i | 0 <= i < |es| :: InviteNeeded(es[i].version, JoinRuleOf(At(env, s, es, i)))
  }

  /** The `i`-th event is an accepted invite of `invitee` by `inviter`. */
  ghost predicate Invites(env: Env, s: State, es: seq<Event>, i: nat, inviter: UserId, invitee: UserId) {
    && i < |es| && Accepted(env, s, es, i)
    && es[i].etype == Member && es[i].content.membership == Some(Invite)
    && es[i].stateKey == Some(invitee) && es[i].sender == inviter
  }

  /** The `i`-th event is the creator `u` taking up the room. */
  ghost predicate Founds(env: Env, s: State, es: seq<Event>, i: nat, u: UserId) {
    && i < |es| && Accepted(env, s, es, i) && CREATE_KEY in s
    && es[i].etype == Member && es[i].stateKey == Some(u) && CreatorShortcut(es[i], s[CREATE_KEY])
  }

  /** A chain of vouchers: the founder, then one invited user after another, each with the
      position of the event in the run. */
  datatype Chain = Root(user: UserId, at: nat) | Invitee(inviter: Chain, user: UserId, at: nat)

  /** Every link of the chain is an accepted invite among the first `n` events, sent after
      everything its inviter stands on, and its root is the creator's first join. */
  ghost predicate Valid(env: Env, s: State, es: seq<Event>, n: nat, c: Chain) {
    && c.at < n
    && match c
       case Root(u, i) => Founds(env, s, es, i, u)
       case Invitee(inviter, u, i) => Invites(env, s, es, i, inviter.user, u) && Valid(env, s, es, i, inviter)
  }

  ghost predicate Vouched(env: Env, s: State, es: seq<Event>, n: nat, u: UserId) {
    exists c: Chain :: Valid(env, s, es, n, c) && c.user == u
  }

  lemma VouchedLater(env: Env, s: State, es: seq<Event>, n: nat, m: nat, u: UserId)
    requires Vouched(env, s, es, n, u) && n <= m
    ensures Vouched(env, s, es, m, u)
  {
    var c: Chain :| Valid(env, s, es, n, c) && c.user == u;
    assert Valid(env, s, es, m, c);
  }

  lemma VouchedByInvite(env: Env, s: State, es: seq<Event>, i: nat, inviter: UserId, invitee: UserId)
    requires Vouched(env, s, es, i, inviter) && Invites(env, s, es, i, inviter, invitee)
    ensures Vouched(env, s, es, i + 1, invitee)
  {
    var c: Chain :| Valid(env, s, es, i, c) && c.user == inviter;
    assert Valid(env, s, es, i + 1, Invitee(c, invitee, i));
  }

  lemma VouchedByFounding(env: Env, s: State, es: seq<Event>, i: nat, u: UserId)
    requires Founds(env, s, es, i, u)
    ensures Vouched(env, s, es, i + 1, u)
  {
    assert Valid(env, s, es, i + 1, Root(u, i));
  }

  /** An accepted ordinary invite comes from a joined member with the invite level. */
  lemma InviterHasPower(env: Env, e: Event, s: State)
    requires e.etype == Member && e.content.membership == Some(Invite) && Check(env, e, s) == Allow
    ensures CREATE_KEY in s && e.stateKey.Some? && MembershipOf(s, e.stateKey.value) != Some(Ban)
    ensures e.content.thirdParty.None? ==>
              MembershipOf(s, e.sender) == Some(Join) && UserLevel(s, e.sender).Some?
                  && UserLevel(s, e.sender).value >= InviteLevel(s)
  {
    AcceptedMember(env, e, s);
  }

  /** An accepted third-party invite is backed by a third-party-invite event of its own
      sender that is still in the room state. */
  lemma ThirdPartyInviteIsBacked(env: Env, e: Event, s: State) returns (token: string)
    requires e.etype == Member && e.content.membership == Some(Invite) && e.content.thirdParty.Some?
        && Check(env, e, s) == Allow
    ensures (ThirdPartyInvite, token) in s && s[(ThirdPartyInvite, token)].sender == e.sender
  {
    AcceptedMember(env, e, s);
    token := e.content.thirdParty.value.signed.value.token.value;
  }

  /** The sender of a third-party-invite event was joined, with the invite level, when it
      was accepted. */
  lemma ThirdPartySponsorHasPower(env: Env, e: Event, s: State)
    requires e.etype == ThirdPartyInvite && Check(env, e, s) == Allow
    ensures CREATE_KEY in s && MembershipOf(s, e.sender) == Some(Join)
    ensures UserLevel(s, e.sender).Some? && UserLevel(s, e.sender).value >= InviteLevel(s)
  {
  }

  /** Joining a room that needs an invite takes one, a standing membership, or founding it. */
  lemma JoinNeedsInvite(env: Env, e: Event, s: State)
    requires e.etype == Member && e.content.membership == Some(Join) && Check(env, e, s) == Allow
    requires InviteNeeded(e.version, JoinRuleOf(s))
    ensures CREATE_KEY in s && e.stateKey.Some?
    ensures CreatorShortcut(e, s[CREATE_KEY]) || MembershipOf(s, e.stateKey.value) in {Some(Join), Some(Invite)}
  {
    AcceptedMember(env, e, s);
  }

  /** In every state of an invite-only run, everyone joined or invited is vouched for. */
  lemma {:induction false} MembersAreVouchedFor(env: Env, create: Event, es: seq<Event>, n: nat, u: UserId)
    requires WithinRoom(es) && InviteOnly(env, Founded(create), es) && n <= |es|
    requires MembershipOf(At(env, Founded(create), es, n), u) in {Some(Join), Some(Invite)}
    ensures Vouched(env, Founded(create), es, n, u)
    decreases n
  {
    var s := Founded(create);
    if n > 0 {
      var e, before := es[n - 1], At(env, s, es, n - 1);
      AtNext(env, s, es, n - 1);
      if Accepted(env, s, es, n - 1) && e.etype == Member && e.stateKey == Some(u) {
        CreateStays(env, s, es, n - 1);
        if e.content.membership == Some(Join) {
          JoinIsVouchedFor(env, create, es, n, u);
        } else {
          InviterIsVouchedFor(env, create, es, n, u);
          VouchedByInvite(env, s, es, n - 1, e.sender, u);
        }
      } else {
        MembersAreVouchedFor(env, create, es, n - 1, u);
        VouchedLater(env, s, es, n - 1, n, u);
      }
    }
  }

  lemma JoinIsVouchedFor(env: Env, create: Event, es: seq<Event>, n: nat, u: UserId)
    requires WithinRoom(es) && InviteOnly(env, Founded(create), es) && 0 < n <= |es|
    requires Accepted(env, Founded(create), es, n - 1) && es[n - 1].etype == Member
    requires es[n - 1].stateKey == Some(u) && es[n - 1].content.membership == Some(Join)
    ensures Vouched(env, Founded(create), es, n, u)
    decreases n, 0
  {
    var s := Founded(create);
    var e, before := es[n - 1], At(env, s, es, n - 1);
    CreateStays(env, s, es, n - 1);
    assert InviteNeeded(e.version, JoinRuleOf(before));
    JoinNeedsInvite(env, e, before);
    if CreatorShortcut(e, create) {
      VouchedByFounding(env, s, es, n - 1, u);
    } else {
      MembersAreVouchedFor(env, create, es, n - 1, u);
      VouchedLater(env, s, es, n - 1, n, u);
    }
  }

  /** Whoever sends an accepted invite is vouched for; a third-party invite leads back to
      the earlier event of the same sender that backs it. */
  lemma InviterIsVouchedFor(env: Env, create: Event, es: seq<Event>, n: nat, u: UserId)
    requires WithinRoom(es) && InviteOnly(env, Founded(create), es) && 0 < n <= |es|
    requires Invites(env, Founded(create), es, n - 1, es[n - 1].sender, u)
    ensures Vouched(env, Founded(create), es, n - 1, es[n - 1].sender)
    decreases n, 0
  {
    var s := Founded(create);
    var e, before := es[n - 1], At(env, s, es, n - 1);
    if e.content.thirdParty.None? {
      InviterHasPower(env, e, before);
      MembersAreVouchedFor(env, create, es, n - 1, e.sender);
    } else {
      var token := ThirdPartyInviteIsBacked(env, e, before);
      StateIsAccepted(env, s, es, n - 1, (ThirdPartyInvite, token));
      var j :| 0 <= j < n - 1 && Accepted(env, s, es, j) && es[j] == before[(ThirdPartyInvite, token)]
          && es[j].etype == ThirdPartyInvite;
      ThirdPartySponsorHasPower(env, es[j], At(env, s, es, j));
      MembersAreVouchedFor(env, create, es, j, e.sender);
      VouchedLater(env, s, es, j, n - 1, e.sender);
    }
  }
}
