/** A room as a state machine: events arrive one after another, and an event the rules
    accept replaces the state entry it names. */
module RoomRuns {
  import opened Matrix
  import opened AuthRules
  import opened AuthSufficiency

  function Step(env: Env, s: State, e: Event): State {
    if Check(env, e, s) == Allow && e.stateKey.Some? then s[(e.etype, e.stateKey.value) := e] else s
  }

  /** The state after a whole run. */
  function Run(env: Env, s: State, es: seq<Event>): State {
    if es == [] then s else Step(env, Run(env, s, es[..|es| - 1]), es[|es| - 1])
  }

  /** The state in which the `i`-th event of a run is judged. */
  function At(env: Env, s: State, es: seq<Event>, i: nat): State
    requires i <= |es|
  {
    Run(env, s, es[..i])
  }

  predicate Accepted(env: Env, s: State, es: seq<Event>, i: nat)
    requires i < |es|
  {
    Check(env, es[i], At(env, s, es, i)) == Allow
  }

  /** Create events carry no state-dependent rules, so a run stays inside one room only
      while none of them replaces the create event. */
  predicate KeepsCreate(e: Event) {
    !(e.etype == Create && e.stateKey == Some(""))
  }

  /** The create entry survives a step exactly when the event is not another create event. */
  lemma StepKeepsCreateIff(env: Env, s: State, e: Event)
    ensures Get(Step(env, s, e), CREATE_KEY) == Get(s, CREATE_KEY) <==> KeepsCreate(e) || Get(s, CREATE_KEY) == Some(e)
  {
  }

  ghost predicate WithinRoom(es: seq<Event>) {
    forall i | 0 <= i < |es| :: KeepsCreate(es[i])
  }

  lemma AtNext(env: Env, s: State, es: seq<Event>, i: nat)
    requires i < |es|
    ensures At(env, s, es, i + 1) == Step(env, At(env, s, es, i), es[i])
  {
    assert es[..i + 1][..i] == es[..i];
  }

  lemma {:induction false} CreateStays(env: Env, s: State, es: seq<Event>, i: nat)
    requires WithinRoom(es) && i <= |es|
    ensures Get(At(env, s, es, i), CREATE_KEY) == Get(s, CREATE_KEY)
  {
    if i > 0 {
      CreateStays(env, s, es, i - 1);
      AtNext(env, s, es, i - 1);
      StepKeepsCreateIff(env, At(env, s, es, i - 1), es[i - 1]);
    }
  }

  /** Everything in the state was there at the start or is an event the run accepted. */
  lemma {:induction false} StateIsAccepted(env: Env, s: State, es: seq<Event>, i: nat, k: StateKey)
    requires i <= |es| && k in At(env, s, es, i) && k !in s
    ensures exists j :: 0 <= j < i && Accepted(env, s, es, j) && es[j] == At(env, s, es, i)[k]
                        && es[j].etype == k.0 && es[j].stateKey == Some(k.1)
  {
    if i > 0 {
      AtNext(env, s, es, i - 1);
      var e := es[i - 1];
      if Accepted(env, s, es, i - 1) && e.stateKey.Some? && k == (e.etype, e.stateKey.value) {
        assert es[i - 1] == At(env, s, es, i)[k];
      } else {
        StateIsAccepted(env, s, es, i - 1, k);
      }
    }
  }

  // ---- Judging whole runs on selected state ----

  /** A step that only ever looks at the selected part of the state. */
  function SelectedStep(env: Env, s: State, e: Event): State {
    match AuthTypes(e.version, e)
    case None => s
    case Some(keys) =>
      if Check(env, e, Restrict(s, keys)) == Allow && e.stateKey.Some? then s[(e.etype, e.stateKey.value) := e] else s
  }

  function SelectedRun(env: Env, s: State, es: seq<Event>): State {
    if es == [] then s else SelectedStep(env, SelectedRun(env, s, es[..|es| - 1]), es[|es| - 1])
  }

  /** When the selection itself raises, the full check refuses the event as well. */
  lemma UnselectableIsRefused(env: Env, e: Event, s: State)
    requires AuthTypes(e.version, e).None?
    ensures Check(env, e, s).Deny?
  {
    if CREATE_KEY in s {
      UnselectableMembership(env, e, s);
    }
  }

  lemma UnselectableMembership(env: Env, e: Event, s: State)
    requires AuthTypes(e.version, e).None? && CREATE_KEY in s
    ensures e.etype == Member && MembershipVerdict(env, e, s).Deny?
  {
    if e.content.membership.Some? && e.stateKey.Some? {
      UnbackedInvite(env, e, e.stateKey.value, s);
    }
  }

  lemma UnbackedInvite(env: Env, e: Event, target: UserId, s: State)
    requires AuthTypes(e.version, e).None? && e.content.membership.Some? && e.stateKey.Some?
    ensures e.content.membership == Some(Invite) && e.content.thirdParty.Some? && !ThirdPartyVerified(env, e, target, s)
  {
  }

  /** Judging every event on its selected state reaches the same room state as judging it on
      the full state. */
  lemma {:induction false} SelectedRunAgrees(env: Env, s: State, es: seq<Event>)
    requires forall i | 0 <= i < |es| :: Covered(es[i])
    ensures SelectedRun(env, s, es) == Run(env, s, es)
  {
    if es != [] {
      var init, e := es[..|es| - 1], es[|es| - 1];
      SelectedRunAgrees(env, s, init);
      if AuthTypes(e.version, e).Some? {
        SelectedStateSuffices(env, e);
      } else {
        UnselectableIsRefused(env, e, Run(env, s, init));
      }
    }
  }

  /** So an event of a run is accepted on its selected state exactly when it is accepted on
      the full state, whether or not it leaves a trace in the room. */
  lemma SelectedRunAccepts(env: Env, s: State, es: seq<Event>, i: nat)
    requires i < |es| && forall j | 0 <= j < |es| :: Covered(es[j])
    ensures Accepted(env, s, es, i) <==>
            && AuthTypes(es[i].version, es[i]).Some?
            && var keys := AuthTypes(es[i].version, es[i]).value;
               Check(env, es[i], Restrict(SelectedRun(env, s, es[..i]), keys)) == Allow
  {
    SelectedRunAgrees(env, s, es[..i]);
    if AuthTypes(es[i].version, es[i]).Some? {
      SelectedStateSuffices(env, es[i]);
    } else {
      UnselectableIsRefused(env, es[i], At(env, s, es, i));
    }
  }

  // ---- What an accepted event implies ----

  lemma AcceptedMember(env: Env, e: Event, s: State)
    requires e.etype == Member && Check(env, e, s) == Allow
    ensures CREATE_KEY in s && e.stateKey.Some? && e.content.membership.Some?
    ensures !CreatorShortcut(e, s[CREATE_KEY]) ==>
              && UserLevel(s, e.sender).Some? && UserLevel(s, e.stateKey.value).Some?
              && MembershipRules(env, e, e.stateKey.value, UserLevel(s, e.sender).value,
                  UserLevel(s, e.stateKey.value).value, s) == Allow
  {
  }

  lemma AcceptedPowerLevels(env: Env, e: Event, s: State)
    requires e.etype == PowerLevels && e.stateKey == Some("") && Check(env, e, s) == Allow && POWER_KEY in s
    ensures CREATE_KEY in s && UserLevel(s, e.sender).Some?
    ensures PowerChangeOk(e.version, s[POWER_KEY].content.levels, e.content.levels, e.sender,
        UserLevel(s, e.sender).value)
  {
    assert MessageVerdict(env, e, s) == Allow;
    assert PowerVerdict(e, s) == Allow;
  }
}
