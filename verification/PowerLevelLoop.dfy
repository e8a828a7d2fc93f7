/** The power-levels check as the loop the source runs: a list of levels to compare is
    built from unordered sets, then walked with an early exit. */
module PowerLevelLoop {
  import opened Matrix
  import opened AuthRules

  datatype NamedLevel = UsersDefault | EventsDefault | StateDefault | BanNamed | RedactNamed | KickNamed | InviteNamed

  datatype LevelRef = Named(name: NamedLevel) | OfUser(user: UserId) | OfEvent(etype: EventType)
      | OfNotification(key: string)

  function Lookup(levels: Levels, l: LevelRef): Option<int> {
    match l
    case Named(UsersDefault) => levels.usersDefault
    case Named(EventsDefault) => levels.eventsDefault
    case Named(StateDefault) => levels.stateDefault
    case Named(BanNamed) => levels.ban
    case Named(RedactNamed) => levels.redact
    case Named(KickNamed) => levels.kick
    case Named(InviteNamed) => levels.invite
    case OfUser(u) => Get(levels.users, u)
    case OfEvent(t) => Get(levels.events, t)
    case OfNotification(n) => Get(levels.notifications, n)
  }

  /** The levels a change from `before` to `after` must be judged on. */
  ghost predicate Relevant(v: RoomVersion, before: Levels, after: Levels, l: LevelRef) {
    match l
    case Named(_) => true
    case OfUser(u) => u in before.users.Keys + after.users.Keys
    case OfEvent(t) => t in before.events.Keys + after.events.Keys
    case OfNotification(n) => v.limitNotifications && n in before.notifications.Keys + after.notifications.Keys
  }

  predicate RefOk(before: Levels, after: Levels, sender: UserId, level: int, l: LevelRef) {
    if l.OfUser? then UserChangeOk(Lookup(before, l), Lookup(after, l), level, l.user == sender)
    else LevelChangeOk(Lookup(before, l), Lookup(after, l), level)
  }

  lemma ChangeOkByRefs(v: RoomVersion, before: Levels, after: Levels, sender: UserId, level: int)
    ensures PowerChangeOk(v, before, after, sender, level) <==>
            forall l: LevelRef :: Relevant(v, before, after, l) ==> RefOk(before, after, sender, level, l)
  {
    if forall l: LevelRef :: Relevant(v, before, after, l) ==> RefOk(before, after, sender, level, l) {
      assert RefOk(before, after, sender, level, Named(UsersDefault))
          && RefOk(before, after, sender, level, Named(EventsDefault))
          && RefOk(before, after, sender, level, Named(StateDefault))
              && RefOk(before, after, sender, level, Named(BanNamed))
          && RefOk(before, after, sender, level, Named(RedactNamed))
              && RefOk(before, after, sender, level, Named(KickNamed))
          && RefOk(before, after, sender, level, Named(InviteNamed));
      forall u | u in before.users.Keys + after.users.Keys
        ensures UserChangeOk(Get(before.users, u), Get(after.users, u), level, u == sender)
      { assert RefOk(before, after, sender, level, OfUser(u)); }
      forall t | t in before.events.Keys + after.events.Keys
        ensures LevelChangeOk(Get(before.events, t), Get(after.events, t), level)
      { assert RefOk(before, after, sender, level, OfEvent(t)); }
      if v.limitNotifications {
        forall n | n in before.notifications.Keys + after.notifications.Keys
          ensures LevelChangeOk(Get(before.notifications, n), Get(after.notifications, n), level)
        { assert RefOk(before, after, sender, level, OfNotification(n)); }
      }
    }
  }

  /** Appends one entry per element of an unordered set. */
  method AppendEach<K>(refs: seq<LevelRef>, keys: set<K>, make: K -> LevelRef) returns (r: seq<LevelRef>)
    ensures forall l: LevelRef :: l in r <==> l in refs || exists k :: k in keys && l == make(k)
  {
    r := refs;
    var left := keys;
    while left != {}
      invariant left <= keys
      invariant forall l: LevelRef :: l in r <==> l in refs || exists k :: k in keys && k !in left && l == make(k)
      decreases |left|
    {
      var k :| k in left;
      r, left := r + [make(k)], left - {k};
    }
  }

  const NAMED_LEVELS: seq<LevelRef> := [
    Named(UsersDefault), Named(EventsDefault), Named(StateDefault), Named(BanNamed),
    Named(RedactNamed), Named(KickNamed), Named(InviteNamed)]

  lemma NamedIsListed(n: NamedLevel)
    ensures Named(n) in NAMED_LEVELS
  {
  }

  /** The list `levels_to_check`, in whatever order the sets are iterated. */
  method LevelsToCheck(v: RoomVersion, before: Levels, after: Levels) returns (refs: seq<LevelRef>)
    ensures forall l: LevelRef :: l in refs <==> Relevant(v, before, after, l)
  {
    var user, event, notification := (u: UserId) => OfUser(u), (t: EventType) => OfEvent(t),
        (n: string) => OfNotification(n);
    var withUsers := AppendEach(NAMED_LEVELS, before.users.Keys + after.users.Keys, user);
    var withEvents := AppendEach(withUsers, before.events.Keys + after.events.Keys, event);
    var notifications := if v.limitNotifications then before.notifications.Keys + after.notifications.Keys else {};
    refs := AppendEach(withEvents, notifications, notification);
    forall l: LevelRef ensures l in refs <==> Relevant(v, before, after, l) {
      match l
      case Named(n) => NamedIsListed(n);
      case OfUser(u) => assert user(u) == l;
      case OfEvent(t) => assert event(t) == l;
      case OfNotification(n) => assert notification(n) == l;
    }
  }

  /** One pass of the comparison loop, with the source's three tests in their order. */
  method LevelAllowed(before: Levels, after: Levels, sender: UserId, level: int, l: LevelRef) returns (ok: bool)
    ensures ok == RefOk(before, after, sender, level, l)
  {
    var oldLevel, newLevel := Lookup(before, l), Lookup(after, l);
    if newLevel.Some? && oldLevel.Some? && newLevel.value == oldLevel.value { return true; }
    if l.OfUser? && l.user != sender && oldLevel == Some(level) { return false; }
    var oldTooBig := oldLevel.Some? && oldLevel.value > level;
    var newTooBig := newLevel.Some? && newLevel.value > level;
    return !(oldTooBig || newTooBig);
  }

  /** The loop reaches the declarative verdict, whatever the iteration order of the sets. */
  method CheckPowerLevels(e: Event, s: State) returns (verdict: Verdict)
    requires CREATE_KEY in s
    ensures verdict == PowerVerdict(e, s)
  {
    verdict := PowerContentVerdict(e, s[CREATE_KEY]);
    if verdict.Deny? { return; }
    var key := (e.etype, e.stateKey.value);
    if key !in s { return Allow; }
    var level := UserLevel(s, e.sender);
    if level.None? { return Deny(MissingCreator); }
    var before, after := s[key].content.levels, e.content.levels;
    var refs := LevelsToCheck(e.version, before, after);
    ChangeOkByRefs(e.version, before, after, e.sender, level.value);
    for i := 0 to |refs|
      invariant forall j | 0 <= j < i :: RefOk(before, after, e.sender, level.value, refs[j])
    {
      var ok := LevelAllowed(before, after, e.sender, level.value, refs[i]);
      if !ok {
        assert Relevant(e.version, before, after, refs[i]);
        return Deny(LevelChangeRefused);
      }
    }
    return Allow;
  }
}
