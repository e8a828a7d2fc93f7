/** Who sees an event, said on the fields of the event and of the state: the two filters are
    proved to decide exactly this. */
module VisibilityLaw {
  import opened Matrix
  import opened AuthSufficiency
  import opened HistoryFilter
  import opened ClientFilter
  import L = RoomLaw

  // ---- By setting and membership ----

  /** What a content says about history visibility; anything unknown means `shared`. */
  predicate Says(content: Option<Visibility>, v: Visibility) {
    if content in {Some(WorldReadable), Some(Invited), Some(Joined)} then content == Some(v) else v == Shared
  }

  predicate SettingIs(s: State, v: Visibility) {
    if VISIBILITY_KEY in s then Says(s[VISIBILITY_KEY].content.historyVisibility, v) else v == Shared
  }

  predicate IsOwn(e: Event, u: UserId) {
    e.etype == Member && e.stateKey == Some(u)
  }

  /** `u` is `m` at the event: by the state, or before or after their own member event. */
  predicate Was(e: Event, u: UserId, s: State, m: Membership) {
    if IsOwn(e, u) then e.content.membership == Some(m) || e.meta.prevMembership == Some(m) else L.Stands(s, u, m)
  }

  /** The user's own way out of the room, or out of an invite. */
  predicate Departs(e: Event, u: UserId) {
    && IsOwn(e, u) && e.meta.prevMembership in {Some(Join), Some(Invite)}
    && e.content.membership !in {Some(Join), Some(Invite), Some(Knock), Some(Ban)}
  }

  /** Shown by the setting after the event and the user's membership. */
  predicate Entitled(u: UserId, e: Event, s: State, peeking: bool) {
    || Departs(e, u) || Was(e, u, s, Join)
    || SettingIs(s, WorldReadable)
    || (SettingIs(s, Shared) && !peeking)
    || (SettingIs(s, Invited) && Was(e, u, s, Invite))
  }

  /** Shown because it changes a setting that was open. */
  predicate ClosesHistory(e: Event, peeking: bool) {
    && e.etype == HistoryVisibility
    && (Says(e.meta.prevVisibility, WorldReadable) || (Says(e.meta.prevVisibility, Shared) && !peeking))
  }

  /** A user who was joined sees the events of an erased sender whole. */
  predicate SeesWhole(u: UserId, e: Event, s: State, erased: bool) {
    erased ==> Was(e, u, s, Join) && !Departs(e, u)
  }

  lemma SightIff(u: UserId, e: Event, s: State, peeking: bool, erased: bool)
    ensures SightIn(u, e, s, peeking, erased) ==
            if Entitled(u, e, s, peeking) then (if SeesWhole(u, e, s, erased) then Full else Pruned)
            else if ClosesHistory(e, peeking) && !erased then Full else Hidden
  {
    MembershipIff(u, e, s, Join);
    MembershipIff(u, e, s, Invite);
    SettingIff(s, e);
  }

  lemma MembershipIff(u: UserId, e: Event, s: State, m: Membership)
    ensures m == Join ==> (Was(e, u, s, m) <==> MembershipAt(e, u, s) == Some(m))
    ensures m == Invite && !Was(e, u, s, Join) ==> (Was(e, u, s, m) <==> MembershipAt(e, u, s) == Some(m))
    ensures Departs(e, u) <==> OwnDeparture(e, u)
  {
  }

  lemma SettingIff(s: State, e: Event)
    ensures forall v :: SettingIs(s, v) <==> EffectiveVisibility(s) == v
    ensures forall v :: Says(e.meta.prevVisibility, v) <==> KnownVisibility(e.meta.prevVisibility) == v
  {
  }

  // ---- On the way to clients ----

  /** Kept from a client: dummy and alias events, and events that are no state from an ignored
      sender or older than the room keeps them. */
  predicate Blocked(q: Query, e: Event, ignored: bool, lifetime: Option<int>) {
    && q.sendToClient
    && (|| e.etype in {Dummy, Aliases}
        || (e.stateKey.None? && (ignored || (lifetime.Some? && q.now - e.originTs > lifetime.value))))
  }

  predicate Sticky(q: Query, e: Event) {
    q.stickyEnabled && !q.peeking && e.meta.stickyUntil.Some? && q.now < e.meta.stickyUntil.value
  }

  lemma BlockedIff(q: Query, e: Event, ignored: bool, lifetime: Option<int>)
    ensures Blocked(q, e, ignored, lifetime) <==> q.sendToClient && Withheld(e, q.now, lifetime, ignored)
    ensures Sticky(q, e) <==> StillSticky(e, q)
  {
  }

  /** What the one-user check answers, case by case. */
  predicate Gets(q: Query, u: UserId, e: Event, state: Option<State>, ignored: bool, lifetime: Option<int>,
      erased: bool, r: Result<Sight, Raised>) {
    if Blocked(q, e, ignored, lifetime) then r == Success(Hidden)
    else if e.eventId in q.always then r == Success(Full)
    else if e.meta.outlier then r == Success(if IsOwn(e, u) then Full else Hidden)
    else
      match state
      case None => r == Failure(MissingState)
      case Some(s) =>
        if Sticky(q, e) then r == Success(Full)
        else if Entitled(u, e, s, q.peeking) then r == Success(if SeesWhole(u, e, s, erased) then Full else Pruned)
        else r == Success(if ClosesHistory(e, q.peeking) && !erased then Full else Hidden)
  }

  /** The one-user check answers by the law. */
  lemma ClientIff(q: Query, u: UserId, e: Event, state: Option<State>, ignored: bool, lifetime: Option<int>,
                  erased: bool, r: Result<Sight, Raised>)
    ensures CheckClient(q, u, e, state, ignored, lifetime, erased) == r <==>
            Gets(q, u, e, state, ignored, lifetime, erased, r)
  {
    BlockedIff(q, e, ignored, lifetime);
    if state.Some? {
      SightIff(u, e, state.value, q.peeking, erased);
    }
  }

  /** The batched filter names exactly the users of the list who see the event by the law, no
      event being exempted and no sender erased. */
  lemma BatchIff(q: Query, users: set<UserId>, e: Event, c: Context, ignoredBy: set<UserId>, lifetime: Option<int>,
                 u: UserId)
    ensures u in VisibleTo(q, users, e, c, ignoredBy, lifetime) <==>
            && u in users && !e.meta.softFailed && !Blocked(q, e, u in ignoredBy, lifetime)
            && if e.meta.outlier then IsOwn(e, u)
               else Entitled(u, e, StateAfter(c, e), q.peeking) || ClosesHistory(e, q.peeking)
  {
    if u in users {
      var s := StateAfter(c, e);
      BatchAgreesWithPointwise(q, users, e, c, ignoredBy, lifetime, u);
      BlockedIff(WithoutExemptions(q), e, u in ignoredBy, lifetime);
      SightDependsOnKeys(u, e, s, Restrict(s, UserKeys(u)), q.peeking, false);
      SightIff(u, e, s, q.peeking, false);
    }
  }

  /** What sending to clients changes in the batched filter. State events do not depend on who
      ignores the sender or on how long the room keeps events; who ignores the sender gets no
      other event, nobody gets one that is too old, and one that is just old enough is as if
      the room kept everything. */
  lemma BatchWithholds(q: Query, users: set<UserId>, e: Event, c: Context, ignoredBy: set<UserId>,
                       lifetime: Option<int>, u: UserId)
    ensures !q.sendToClient || e.stateKey.Some? ==>
              (u in VisibleTo(q, users, e, c, ignoredBy, lifetime) <==> u in VisibleTo(q, users, e, c, {}, None))
    ensures q.sendToClient && e.stateKey.None? && u in ignoredBy ==>
              u !in VisibleTo(q, users, e, c, ignoredBy, lifetime)
    ensures q.sendToClient && e.etype in {Dummy, Aliases} ==> u !in VisibleTo(q, users, e, c, ignoredBy, lifetime)
    ensures q.sendToClient && e.stateKey.None? && lifetime.Some? && e.originTs < q.now - lifetime.value ==>
              u !in VisibleTo(q, users, e, c, ignoredBy, lifetime)
    ensures lifetime.Some? && e.originTs >= q.now - lifetime.value ==>
              (u in VisibleTo(q, users, e, c, ignoredBy, lifetime) <==>
               u in VisibleTo(q, users, e, c, ignoredBy, None))
  {
    BatchIff(q, users, e, c, ignoredBy, lifetime, u);
    BatchIff(q, users, e, c, ignoredBy, None, u);
    BatchIff(q, users, e, c, {}, None, u);
  }

  // ---- The list for one client ----

  /** Soft-failed events are for administrators who ask for all of them or for spam. */
  predicate Relayed(r: Request, e: Event) {
    e.meta.softFailed ==>
      r.query.sendToClient && r.admin && (r.wantsSoftFailed || (r.wantsSpammy && e.meta.policySpammy))
  }

  predicate HasState(r: Request, e: Event) { !e.meta.outlier && e.eventId in r.states }

  /** The state after the event as far as it is there. */
  function Known(r: Request, e: Event): Option<State> {
    if HasState(r, e) then Some(r.states[e.eventId]) else None
  }

  predicate IsCall(e: Event) { e.etype == CallInvite && e.stateKey.None? }

  predicate Sees(r: Request, e: Event, sight: Result<Sight, Raised>) {
    Gets(r.query, r.user, e, Known(r, e), e.sender in r.ignored,
         if e.roomId in r.maxLifetime then Some(r.maxLifetime[e.roomId]) else None, e.sender in r.erased, sight)
  }

  /** A call into a public room whose join rules were fetched. */
  predicate RingsPublic(r: Request, joinRules: bool, e: Event) {
    && IsCall(e) && joinRules && HasState(r, e) && JOIN_RULES_KEY in r.states[e.eventId]
    && r.states[e.eventId][JOIN_RULES_KEY].content.joinRule == Some(Public)
  }

  /** The user's membership after the event; nothing said means they are not in the room. */
  predicate After(r: Request, e: Event, m: Membership) {
    if IsOwn(e, r.user) then e.content.membership == Some(m)
    else
      && HasState(r, e)
      && var s, key := r.states[e.eventId], (Member, r.user);
         if key in s && s[key].content.membership.Some? then s[key].content.membership == Some(m) else m == Leave
  }

  lemma FetchedSight(r: Request, joinRules: bool, e: Event, sight: Result<Sight, Raised>)
    ensures VisibilityVerdict(r, joinRules, e) == sight <==> Sees(r, e, sight)
  {
    var fetched := FetchedState(r, joinRules, e);
    var ignored, erased := e.sender in r.ignored, e.sender in r.erased;
    ClientIff(r.query, r.user, e, Known(r, e), ignored, Get(r.maxLifetime, e.roomId), erased, sight);
    if HasState(r, e) {
      SightDependsOnKeys(r.user, e, r.states[e.eventId], fetched.value, r.query.peeking, erased);
    }
  }

  lemma FetchedFacts(r: Request, joinRules: bool, e: Event)
    ensures FetchedState(r, joinRules, e).Some? <==> HasState(r, e)
    ensures HasState(r, e) ==>
              Get(FetchedState(r, joinRules, e).value, (Member, r.user)) == Get(r.states[e.eventId], (Member, r.user))
    ensures RingsPublic(r, joinRules, e) <==>
              IsCallInvite(e) && HasState(r, e) && InPublicRoom(FetchedState(r, joinRules, e).value)
    ensures Relayed(r, e) <==> Considered(r, e)
  {
  }

  /** The event is sent as `f`: it may be relayed, the user sees it, it rings nobody in a
      public room, and their membership after it is known. */
  predicate SentAs(r: Request, joinRules: bool, e: Event, f: FilteredEvent) {
    && Relayed(r, e) && Sees(r, e, Success(if f.pruned then Pruned else Full)) && f.event == e
    && (IsCall(e) ==> HasState(r, e) && !RingsPublic(r, joinRules, e))
    && After(r, e, f.membership)
  }

  /** The answer to the client holds an event exactly when, and as, the law sends it. */
  lemma SentIff(r: Request, joinRules: bool, e: Event, f: FilteredEvent)
    ensures Contribution(r, joinRules, e) == Success(Some(f)) <==> SentAs(r, joinRules, e, f)
  {
    FetchedFacts(r, joinRules, e);
    FetchedSight(r, joinRules, e, Success(Full));
    FetchedSight(r, joinRules, e, Success(Pruned));
    FetchedSight(r, joinRules, e, Success(Hidden));
  }

  /** Visible in whole or in part. */
  predicate Shown(r: Request, e: Event) { Sees(r, e, Success(Full)) || Sees(r, e, Success(Pruned)) }

  /** The answer is an error exactly when state is missing: that of an event no rule decides
      without it, that of a visible call, or the user's membership after a visible event. */
  lemma FailsIff(r: Request, joinRules: bool, e: Event, x: Raised)
    ensures Contribution(r, joinRules, e) == Failure(x) <==>
            && Relayed(r, e)
            && match x
               case OutlierCallInvite => Shown(r, e) && IsCall(e) && !HasState(r, e)
               case MissingOwnMembership => Shown(r, e) && IsOwn(e, r.user) && e.content.membership.None?
               case MissingState =>
                 || Sees(r, e, Failure(MissingState))
                 || (Shown(r, e) && !IsCall(e) && !IsOwn(e, r.user) && !HasState(r, e) && !e.meta.outlier)
  {
    FetchedFacts(r, joinRules, e);
    FetchedSight(r, joinRules, e, Success(Full));
    FetchedSight(r, joinRules, e, Success(Pruned));
    FetchedSight(r, joinRules, e, Success(Hidden));
    FetchedSight(r, joinRules, e, Failure(MissingState));
  }

  predicate BlockedIn(r: Request, e: Event) {
    Blocked(r.query, e, e.sender in r.ignored, Get(r.maxLifetime, e.roomId))
  }

  /** Who is ignored and how long events are kept matters only for what is blocked. */
  lemma BlockedDecides(r: Request, ignored: set<UserId>, lifetimes: map<RoomId, int>, joinRules: bool, e: Event)
    ensures var other := r.(ignored := ignored, maxLifetime := lifetimes);
            BlockedIn(r, e) == BlockedIn(other, e) ==>
              Contribution(r, joinRules, e) == Contribution(other, joinRules, e)
    ensures BlockedIn(r, e) ==> Contribution(r, joinRules, e) == Success(None)
  {
    BlockedIff(r.query, e, e.sender in r.ignored, Get(r.maxLifetime, e.roomId));
    BlockedIff(r.query, e, e.sender in ignored, Get(lifetimes, e.roomId));
  }

  /** What sending to clients changes in the list for one client, as in the batched filter. */
  lemma ListWithholds(r: Request, joinRules: bool, e: Event)
    ensures !r.query.sendToClient || e.stateKey.Some? ==>
              Contribution(r, joinRules, e) == Contribution(r.(ignored := {}, maxLifetime := map[]), joinRules, e)
    ensures r.query.sendToClient && e.stateKey.None? && e.sender in r.ignored ==>
              Contribution(r, joinRules, e) == Success(None)
    ensures r.query.sendToClient && e.etype in {Dummy, Aliases} ==> Contribution(r, joinRules, e) == Success(None)
    ensures r.query.sendToClient && e.stateKey.None? && e.roomId in r.maxLifetime
            && e.originTs < r.query.now - r.maxLifetime[e.roomId] ==>
              Contribution(r, joinRules, e) == Success(None)
    ensures e.roomId in r.maxLifetime && e.originTs >= r.query.now - r.maxLifetime[e.roomId] ==>
              Contribution(r, joinRules, e) == Contribution(r.(maxLifetime := map[]), joinRules, e)
  {
    BlockedDecides(r, {}, map[], joinRules, e);
    BlockedDecides(r, r.ignored, map[], joinRules, e);
  }
}
