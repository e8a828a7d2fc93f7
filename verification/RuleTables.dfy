/** Parts of the law as tables, and what the rules leave behind in the room state. */
module RuleTables {
  import opened Matrix
  import opened AuthRules
  import opened RoomRuns
  import opened RoomLaw

  /** What users can do to their own membership: nobody can invite or ban themselves, and a
      banned user can do nothing. */
  lemma OwnTransitionIff(env: Env, e: Event, s: State, level: int)
    requires Ordinary(e, s, e.sender, level, level) && !IsThirdParty(e)
    ensures Check(env, e, s) == Allow <==> OwnChange(e, s)
  {
    OrdinaryVerdict(env, e, s, e.sender, level, level);
    OwnChangeIff(env, e, level, s);
  }

  /** What users can do to somebody else's membership: invite, remove or ban, each only as a
      joined member with the level for it, and the last two only to someone below. */
  lemma OthersTransitionIff(env: Env, e: Event, s: State, target: UserId, level: int, other: int)
    requires Ordinary(e, s, target, level, other) && e.sender != target && !IsThirdParty(e)
    ensures Check(env, e, s) == Allow <==> ChangeOfOther(e, s, target, level, other)
  {
    OrdinaryVerdict(env, e, s, target, level, other);
    ChangeOfOtherIff(env, e, target, level, other, s);
  }

  /** A redaction that may be sent at all is accepted exactly when it is lawful. */
  lemma RedactionIff(env: Env, e: Event, s: State, level: int)
    requires e.etype == Redaction && EarnedAt(env, e, s, level) && InReach(s[CREATE_KEY], e.sender)
    ensures Check(env, e, s) == Allow <==> LawfulRedaction(e, s, level)
  {
    MessageIff(env, e, s, level);
    assert Check(env, e, s) == MessageVerdict(env, e, s);
  }

  /** In a room with power levels where creators have no power of their own, an ordinary event
      of a joined user in reach that names no other user is accepted exactly when the sender's
      number reaches the one for its type, or the default. */
  lemma OrdinaryEventIff(env: Env, e: Event, s: State)
    requires !OwnRules(e) && e.etype !in {ThirdPartyInvite, PowerLevels, Redaction}
    requires CREATE_KEY in s && POWER_KEY in s && !s[CREATE_KEY].version.creatorPower
    requires InReach(s[CREATE_KEY], e.sender) && Stands(s, e.sender, Join)
    requires e.stateKey.Some? && |e.stateKey.value| > 0 && e.stateKey.value[0] == '@' ==> e.stateKey.value == e.sender
    ensures
      var levels := s[POWER_KEY].content.levels;
      var has := if e.sender in levels.users then levels.users[e.sender]
                 else if levels.usersDefault.Some? then levels.usersDefault.value else 0;
      var needs := if e.etype in levels.events then levels.events[e.etype]
                   else if e.stateKey.Some? then
                     if levels.stateDefault.Some? then levels.stateDefault.value else 50
                   else if levels.eventsDefault.Some? then levels.eventsDefault.value else 0;
      Check(env, e, s) == Allow <==> has >= needs
  {
    assert Check(env, e, s) == MessageVerdict(env, e, s);
  }

  // ---- What a run leaves behind ----

  lemma AcceptedIsEarned(env: Env, e: Event, s: State)
    requires !OwnRules(e) && Check(env, e, s) == Allow
    ensures Earned(env, e, s)
  {
    AcceptedIff(env, e, s);
    var level :| LawfulMessage(env, e, s, level);
  }

  /** Everything a run leaves in the room state, apart from memberships, was put there by
      someone who was in the room with the level for it at that time. */
  lemma StateWasEarned(env: Env, s: State, es: seq<Event>, i: nat, k: StateKey)
    requires i <= |es| && k in At(env, s, es, i) && k !in s && !OwnRules(At(env, s, es, i)[k])
    ensures exists j :: 0 <= j < i && es[j] == At(env, s, es, i)[k] && Earned(env, es[j], At(env, s, es, j))
  {
    StateIsAccepted(env, s, es, i, k);
    var j :| 0 <= j < i && Accepted(env, s, es, j) && es[j] == At(env, s, es, i)[k]
             && es[j].etype == k.0 && es[j].stateKey == Some(k.1);
    AcceptedIsEarned(env, es[j], At(env, s, es, j));
  }
}
