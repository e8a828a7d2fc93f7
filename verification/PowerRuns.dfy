/** What power levels keep over whole runs: nobody rises above the ceiling, and the user
    at the ceiling cannot be demoted, banned or kicked. */
module PowerRuns {
  import opened Matrix
  import opened AuthRules
  import opened AuthSufficiency
  import opened RoomRuns

  /** Every level a user can have under `levels` is at most `b`. */
  ghost predicate Ceiling(levels: Levels, b: int) {
    && (forall u | u in levels.users :: levels.users[u] <= b)
    && GetOr(levels.usersDefault, 0) <= b
  }

  /** A room without creator power whose power-levels event keeps everyone at or below `b`. */
  ghost predicate Capped(s: State, b: int) {
    && CREATE_KEY in s && !s[CREATE_KEY].version.creatorPower
    && POWER_KEY in s && Ceiling(s[POWER_KEY].content.levels, b)
  }

  lemma CappedBoundsEveryone(s: State, b: int, u: UserId)
    requires Capped(s, b)
    ensures UserLevel(s, u).Some? && UserLevel(s, u).value == LevelIn(s[POWER_KEY].content.levels, u) <= b
  {
  }

  lemma ChangeKeepsCeiling(v: RoomVersion, before: Levels, after: Levels, sender: UserId, b: int)
    requires Ceiling(before, b) && b >= 0
    requires PowerChangeOk(v, before, after, sender, LevelIn(before, sender))
    ensures Ceiling(after, b)
  {
    forall u | u in after.users ensures after.users[u] <= b {
      assert UserChangeOk(Get(before.users, u), Get(after.users, u), LevelIn(before, sender), u == sender);
    }
  }

  lemma StepKeepsCap(env: Env, s: State, e: Event, b: int)
    requires Capped(s, b) && b >= 0 && KeepsCreate(e)
    ensures Capped(Step(env, s, e), b)
  {
    if Check(env, e, s) == Allow && e.etype == PowerLevels && e.stateKey == Some("") {
      AcceptedPowerLevels(env, e, s);
      CappedBoundsEveryone(s, b, e.sender);
      ChangeKeepsCeiling(e.version, s[POWER_KEY].content.levels, e.content.levels, e.sender, b);
    }
  }

  /** Along every run, everyone stays at or below the ceiling. */
  lemma {:induction false} LevelsStayUnderCeiling(env: Env, s: State, es: seq<Event>, b: int, i: nat, u: UserId)
    requires Capped(s, b) && b >= 0 && WithinRoom(es) && i <= |es|
    ensures Capped(At(env, s, es, i), b)
    ensures UserLevel(At(env, s, es, i), u).Some? && UserLevel(At(env, s, es, i), u).value <= b
  {
    if i > 0 {
      LevelsStayUnderCeiling(env, s, es, b, i - 1, u);
      AtNext(env, s, es, i - 1);
      StepKeepsCap(env, At(env, s, es, i - 1), es[i - 1], b);
    }
    CappedBoundsEveryone(At(env, s, es, i), b, u);
  }

  /** Below zero the cap can be broken in one step: dropping `users_default` means 0. */
  lemma NegativeCeilingBreaks(env: Env, b: int) returns (s: State, e: Event)
    requires b < 0
    ensures Capped(s, b) && KeepsCreate(e) && !Capped(Step(env, s, e), b)
  {
    var a, _ := TwoUserIds();
    var before := NO_LEVELS.(usersDefault := Some(b), stateDefault := Some(b));
    var pl := BlankEvent(V10, PowerLevels, "", a, EMPTY_CONTENT.(levels := before));
    s := OwnedRoom(V10, a)[POWER_KEY := pl];
    e := BlankEvent(V10, PowerLevels, "", a, EMPTY_CONTENT.(levels := before.(usersDefault := None)));
    assert UserLevel(s, a) == Some(b);
    assert MembershipOf(s, a) == Some(Join);
    assert PowerContentVerdict(e, s[CREATE_KEY]) == Allow;
    assert PowerChangeOk(V10, before, e.content.levels, a, b);
    assert Check(env, e, s) == Allow;
  }

  /** The ceiling is an invariant of the room exactly when it is not negative. */
  lemma CeilingIsInvariantIffNonNegative(env: Env, b: int)
    ensures (forall s: State, e: Event :: Capped(s, b) && KeepsCreate(e) ==> Capped(Step(env, s, e), b)) <==> b >= 0
  {
    if b >= 0 {
      forall s: State, e: Event | Capped(s, b) && KeepsCreate(e)
          ensures Capped(Step(env, s, e), b) { StepKeepsCap(env, s, e, b); }
    } else {
      var s, e := NegativeCeilingBreaks(env, b);
    }
  }

  // ---- The user at the ceiling ----

  ghost predicate Top(s: State, u: UserId, b: int) {
    Capped(s, b) && u in s[POWER_KEY].content.levels.users && s[POWER_KEY].content.levels.users[u] == b
  }

  /** An event by which `u` could give up its own level. */
  predicate OwnPowerChange(e: Event, u: UserId) {
    e.etype == PowerLevels && e.stateKey == Some("") && e.sender == u
  }

  /** Nobody else's change can move the entry of a user at the ceiling. */
  lemma ChangeKeepsTop(v: RoomVersion, before: Levels, after: Levels, sender: UserId, u: UserId, b: int)
    requires Ceiling(before, b) && u in before.users && before.users[u] == b && sender != u
    requires PowerChangeOk(v, before, after, sender, LevelIn(before, sender))
    ensures u in after.users && after.users[u] == b
  {
    assert UserChangeOk(Get(before.users, u), Get(after.users, u), LevelIn(before, sender), false);
  }

  lemma StepKeepsTop(env: Env, s: State, e: Event, u: UserId, b: int)
    requires Top(s, u, b) && b >= 0 && KeepsCreate(e) && !OwnPowerChange(e, u)
    ensures Top(Step(env, s, e), u, b)
  {
    StepKeepsCap(env, s, e, b);
    if Check(env, e, s) == Allow && e.etype == PowerLevels && e.stateKey == Some("") {
      AcceptedPowerLevels(env, e, s);
      CappedBoundsEveryone(s, b, e.sender);
      ChangeKeepsTop(e.version, s[POWER_KEY].content.levels, e.content.levels, e.sender, u, b);
    } else {
      assert Get(Step(env, s, e), POWER_KEY) == Get(s, POWER_KEY);
    }
  }

  /** Nobody can ban the top user, and only they themselves can make them leave. */
  lemma TopUserIsNotRemoved(env: Env, s: State, e: Event, u: UserId, b: int)
    requires Top(s, u, b) && e.etype == Member && e.stateKey == Some(u) && Check(env, e, s) == Allow
    ensures e.content.membership != Some(Ban)
    ensures e.content.membership == Some(Leave) ==> e.sender == u
  {
    AcceptedMember(env, e, s);
    CappedBoundsEveryone(s, b, u);
    CappedBoundsEveryone(s, b, e.sender);
  }

  lemma {:induction false} TopUserStays(env: Env, s: State, es: seq<Event>, u: UserId, b: int, i: nat)
    requires Top(s, u, b) && b >= 0 && WithinRoom(es) && i <= |es|
    requires forall j | 0 <= j < |es| :: !OwnPowerChange(es[j], u)
    ensures Top(At(env, s, es, i), u, b)
  {
    if i > 0 {
      TopUserStays(env, s, es, u, b, i - 1);
      AtNext(env, s, es, i - 1);
      StepKeepsTop(env, At(env, s, es, i - 1), es[i - 1], u, b);
    }
  }

  /** Where the top user stands once not banned and joined: not banned, and gone only by
      their own hand. */
  ghost predicate Unremoved(s: State, u: UserId) {
    MembershipOf(s, u) != Some(Ban) && (MembershipOf(s, u) == Some(Leave) ==> s[(Member, u)].sender == u)
  }

  lemma StepKeepsUnremoved(env: Env, s: State, e: Event, u: UserId, b: int)
    requires Top(s, u, b) && Unremoved(s, u)
    ensures Unremoved(Step(env, s, e), u)
  {
    if Check(env, e, s) == Allow && e.etype == Member && e.stateKey == Some(u) {
      TopUserIsNotRemoved(env, s, e, u, b);
    } else {
      assert Get(Step(env, s, e), (Member, u)) == Get(s, (Member, u));
    }
  }

  /** Over any run in which `u` does not change the levels, `u` keeps its level, is never
      banned, and leaves only by its own hand. */
  lemma {:induction false} TopUserIsSafe(env: Env, s: State, es: seq<Event>, u: UserId, b: int, i: nat)
    requires Top(s, u, b) && b >= 0 && Unremoved(s, u) && WithinRoom(es) && i <= |es|
    requires forall j | 0 <= j < |es| :: !OwnPowerChange(es[j], u)
    ensures CREATE_KEY in At(env, s, es, i) && UserLevel(At(env, s, es, i), u) == Some(b)
    ensures MembershipOf(At(env, s, es, i), u) != Some(Ban)
    ensures MembershipOf(At(env, s, es, i), u) == Some(Leave) ==> At(env, s, es, i)[(Member, u)].sender == u
  {
    TopUserStays(env, s, es, u, b, i);
    CappedBoundsEveryone(At(env, s, es, i), b, u);
    if i > 0 {
      TopUserIsSafe(env, s, es, u, b, i - 1);
      TopUserStays(env, s, es, u, b, i - 1);
      AtNext(env, s, es, i - 1);
      StepKeepsUnremoved(env, At(env, s, es, i - 1), es[i - 1], u, b);
    }
  }
}
