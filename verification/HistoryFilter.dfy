/** Which events a user may see: the pointwise check for one user, and the batched check
    that fetches history visibility first and memberships only when it has to. */
module HistoryFilter {
  import opened Matrix
  import opened AuthSufficiency
  import opened AuthRules

  // ---- Visibility and membership in force ----

  function KnownVisibility(v: Option<Visibility>): Visibility {
    if v.None? || v.value.OddVisibility? then Shared else v.value
  }

  function EffectiveVisibility(s: State): Visibility {
    if VISIBILITY_KEY in s then KnownVisibility(s[VISIBILITY_KEY].content.historyVisibility) else Shared
  }

  /** Position in the list from the most open to the most closed visibility. */
  function Openness(v: Visibility): nat {
    match v
    case WorldReadable => 0
    case Shared => 1
    case Invited => 2
    case Joined => 3
    case OddVisibility(_) => 1
  }

  predicate LaxFor(v: Visibility, peeking: bool) {
    (v == Shared && !peeking) || v == WorldReadable
  }

  /** A visibility event is judged by the more open of the old and the new setting. */
  function JudgedVisibility(e: Event, v: Visibility): Visibility {
    var prev := KnownVisibility(e.meta.prevVisibility);
    if e.etype == HistoryVisibility && Openness(prev) < Openness(v) then prev else v
  }

  predicate LaxHistory(e: Event, v: Visibility, peeking: bool) {
    LaxFor(JudgedVisibility(e, v), peeking)
  }

  function KnownMembership(m: Option<Membership>): Membership {
    if m.None? || m.value.Odd? then Leave else m.value
  }

  /** Position in the list from the most to the least joined membership. */
  function Distance(m: Membership): nat {
    match m
    case Join => 0
    case Invite => 1
    case Knock => 2
    case Leave => 3
    case Ban => 4
    case Odd(_) => 3
  }

  predicate OwnMembership(e: Event, user: UserId) {
    e.etype == Member && e.stateKey == Some(user)
  }

  /** The membership that counts at `e`: for a user's own member event the more joined of
      the old and the new one, otherwise what the state says. */
  function MembershipAt(e: Event, user: UserId, s: State): Option<Membership> {
    if OwnMembership(e, user) then
      var now, prev := KnownMembership(e.content.membership), KnownMembership(e.meta.prevMembership);
      Some(if Distance(prev) < Distance(now) then prev else now)
    else MembershipOf(s, user)
  }

  /** Leaving, or turning down an invite, is always shown to the user who does it. */
  predicate OwnDeparture(e: Event, user: UserId) {
    && OwnMembership(e, user)
    && KnownMembership(e.content.membership) == Leave
    && KnownMembership(e.meta.prevMembership) in {Join, Invite}
  }

  datatype Standing = Standing(allowed: bool, joined: bool)

  function CheckMembership(user: UserId, e: Event, v: Visibility, s: State, peeking: bool): Standing {
    var m := MembershipAt(e, user, s);
    if OwnDeparture(e, user) then Standing(true, false)
    else if m == Some(Join) then Standing(true, true)
    else
      match v
      case Joined => Standing(false, false)
      case Invited => Standing(m == Some(Invite), false)
      case Shared => Standing(!peeking, false)
      case _ => Standing(true, false)
  }

  // ---- One user ----

  /** How much of an event a user gets. */
  datatype Sight = Hidden | Pruned | Full

  datatype Raised = MissingState | MissingOwnMembership | OutlierCallInvite

  /** Everything that does not depend on the event or the user. */
  datatype Query = Query(now: int, stickyEnabled: bool, sendToClient: bool, peeking: bool, always: set<EventId>)

  /** The checks made only for events on their way to a client. */
  predicate Withheld(e: Event, now: int, maxLifetime: Option<int>, ignored: bool) {
    || e.etype == Dummy
    || (e.stateKey.None? && ignored)
    || e.etype == Aliases
    || (e.stateKey.None? && maxLifetime.Some? && e.originTs < now - maxLifetime.value)
  }

  predicate StillSticky(e: Event, q: Query) {
    q.stickyEnabled && !q.peeking && e.meta.stickyUntil.Some? && q.now < e.meta.stickyUntil.value
  }

  function SightIn(user: UserId, e: Event, s: State, peeking: bool, erased: bool): Sight {
    var v := EffectiveVisibility(s);
    if !erased && LaxHistory(e, v, peeking) then Full
    else
      var standing := CheckMembership(user, e, v, s, peeking);
      if !standing.allowed then Hidden
      else if erased && !standing.joined then Pruned
      else Full
  }

  function CheckClient(q: Query, user: UserId, e: Event, state: Option<State>, ignored: bool,
      maxLifetime: Option<int>, erased: bool): Result<Sight, Raised> {
    if q.sendToClient && Withheld(e, q.now, maxLifetime, ignored) then Success(Hidden)
    else if e.eventId in q.always then Success(Full)
    else if e.meta.outlier then Success(if OwnMembership(e, user) then Full else Hidden)
    else if state.None? then Failure(MissingState)
    else if StillSticky(e, q) then Success(Full)
    else Success(SightIn(user, e, state.value, q.peeking, erased))
  }

  // ---- Many users ----

  /** State before the event as ids, and the events those ids can be resolved to. */
  datatype Context = Context(prevIds: map<StateKey, EventId>, store: map<EventId, Event>)

  /** The part of the state after `e` under `keys`; the event's own key is always included. */
  function StateMap(c: Context, e: Event, keys: set<StateKey>): State {
    var before := map k | k in c.prevIds && k in keys && c.prevIds[k] in c.store :: c.store[c.prevIds[k]];
    if e.stateKey.Some? then before[(e.etype, e.stateKey.value) := e] else before
  }

  /** The whole state after `e`. */
  function StateAfter(c: Context, e: Event): State {
    StateMap(c, e, c.prevIds.Keys)
  }

  /** As the source builds it: resolve the fetched ids one by one, then add the event. */
  method GetStateMap(c: Context, e: Event, keys: set<StateKey>) returns (s: State)
    ensures s == StateMap(c, e, keys)
  {
    s := map[];
    var left := set k | k in c.prevIds && k in keys;
    ghost var all := left;
    while left != {}
      invariant left <= all
      invariant forall k :: k in s <==> k in all && k !in left && c.prevIds[k] in c.store
      invariant forall k | k in s :: k in c.prevIds && c.prevIds[k] in c.store && s[k] == c.store[c.prevIds[k]]
      decreases |left|
    {
      var k :| k in left;
      if c.prevIds[k] in c.store { s := s[k := c.store[c.prevIds[k]]]; }
      left := left - {k};
    }
    if e.stateKey.Some? { s := s[(e.etype, e.stateKey.value) := e]; }
  }

  function MemberKeys(users: set<UserId>): set<StateKey> {
    set u | u in users :: (Member, u)
  }

  /** Users the event is not withheld from. */
  function Unwithheld(q: Query, users: set<UserId>, e: Event, ignoredBy: set<UserId>,
      maxLifetime: Option<int>): set<UserId> {
    set u | u in users && !(q.sendToClient && Withheld(e, q.now, maxLifetime, u in ignoredBy))
  }

  /** What the batched filter returns, in its two phases. */
  function VisibleTo(q: Query, users: set<UserId>, e: Event, c: Context, ignoredBy: set<UserId>,
      maxLifetime: Option<int>): set<UserId> {
    var allowed := Unwithheld(q, users, e, ignoredBy, maxLifetime);
    if e.meta.softFailed then {}
    else if e.meta.outlier then set u | u in allowed && OwnMembership(e, u)
    else
      var v := EffectiveVisibility(StateMap(c, e, {VISIBILITY_KEY}));
      if LaxHistory(e, v, q.peeking) then allowed
      else
        var s := StateMap(c, e, MemberKeys(allowed) + {VISIBILITY_KEY});
        set u | u in allowed && CheckMembership(u, e, v, s, q.peeking).allowed
  }

  /** The batched filter: discard users one by one, then decide the rest. */
  method FilterForClients(q: Query, userIds: seq<UserId>, e: Event, c: Context, ignoredBy: set<UserId>,
      maxLifetime: Option<int>)
    returns (visible: set<UserId>)
    ensures visible == VisibleTo(q, (set u | u in userIds), e, c, ignoredBy, maxLifetime)
  {
    if e.meta.softFailed { return {}; }
    var allowed := set u | u in userIds;
    if q.sendToClient {
      for i := 0 to |userIds|
        invariant forall u :: u in allowed <==>
                    u in userIds && !(u in userIds[..i] && Withheld(e, q.now, maxLifetime, u in ignoredBy))
      {
        if Withheld(e, q.now, maxLifetime, userIds[i] in ignoredBy) { allowed := allowed - {userIds[i]}; }
      }
    }
    assert allowed == Unwithheld(q, (set u | u in userIds), e, ignoredBy, maxLifetime);
    if e.meta.outlier {
      if e.etype == Member && e.stateKey.Some? && e.stateKey.value in allowed { return {e.stateKey.value}; }
      return {};
    }
    var visibilityState := GetStateMap(c, e, {VISIBILITY_KEY});
    var v := EffectiveVisibility(visibilityState);
    if LaxHistory(e, v, q.peeking) { return allowed; }
    var memberState := GetStateMap(c, e, MemberKeys(allowed) + {VISIBILITY_KEY});
    visible := set u | u in allowed && CheckMembership(u, e, v, memberState, q.peeking).allowed;
  }

  // ---- What the visibility settings mean ----

  /** The four settings: anyone, anyone not merely peeking, those invited or joined, those
      joined. */
  predicate CanSee(v: Visibility, m: Option<Membership>, peeking: bool) {
    v == WorldReadable || (v == Shared && !peeking) || (v == Invited && m == Some(Invite)) || m == Some(Join)
  }

  /** An event that changes neither the user's membership nor the setting is shown to those
      the setting names; that of an erased sender is shown whole only to those joined. */
  lemma SightByTable(user: UserId, e: Event, s: State, peeking: bool)
    requires !OwnMembership(e, user) && e.etype != HistoryVisibility
    ensures var m := MembershipOf(s, user);
            var visible := CanSee(EffectiveVisibility(s), m, peeking);
            && SightIn(user, e, s, peeking, false) == (if visible then Full else Hidden)
            && SightIn(user, e, s, peeking, true) ==
                (if m == Some(Join) then Full else if visible then Pruned else Hidden)
  {
  }

  /** The user's own member event is shown when the membership before or after it would do,
      and a departure in any case. */
  lemma OwnMemberEventByTable(user: UserId, e: Event, s: State, peeking: bool)
    requires OwnMembership(e, user)
    ensures var v := EffectiveVisibility(s);
            var visible := OwnDeparture(e, user)
                           || CanSee(v, Some(KnownMembership(e.content.membership)), peeking)
                           || CanSee(v, Some(KnownMembership(e.meta.prevMembership)), peeking);
            SightIn(user, e, s, peeking, false) == (if visible then Full else Hidden)
  {
  }

  /** A change of the setting is shown to those the new one names, and to everyone when the
      old one was open to everyone. */
  lemma VisibilityChangeByTable(user: UserId, e: Event, s: State, peeking: bool)
    requires e.etype == HistoryVisibility
    ensures var visible := CanSee(EffectiveVisibility(s), MembershipOf(s, user), peeking)
                           || LaxFor(KnownVisibility(e.meta.prevVisibility), peeking);
            SightIn(user, e, s, peeking, false) == (if visible then Full else Hidden)
  {
  }

  /** A more open setting shows at least as much, except in exactly one case: an invited
      user who is peeking sees less under `shared` than under `invited`. */
  lemma OpenerShowsMoreIff(user: UserId, e: Event, s: State, t: State, peeking: bool)
    requires e.etype != HistoryVisibility && Get(s, (Member, user)) == Get(t, (Member, user))
    requires Openness(EffectiveVisibility(s)) <= Openness(EffectiveVisibility(t))
    ensures SightIn(user, e, t, peeking, false) != Hidden && SightIn(user, e, s, peeking, false) == Hidden <==>
              && peeking && EffectiveVisibility(s) == Shared && EffectiveVisibility(t) == Invited
              && MembershipAt(e, user, s) == Some(Invite) && !OwnDeparture(e, user)
  {
  }

  /** The invited user who peeks, before and after the room is opened from `invited` to
      `shared`. */
  lemma OpeningHidesFromInvited(user: UserId, sender: UserId) returns (e: Event, closed: State, wider: State)
    ensures e.etype == Other("m.room.message")
    ensures EffectiveVisibility(closed) == Invited && EffectiveVisibility(wider) == Shared
    ensures MembershipOf(closed, user) == MembershipOf(wider, user) == Some(Invite)
    ensures SightIn(user, e, closed, true, false) == Full && SightIn(user, e, wider, true, false) == Hidden
  {
    e := BlankEvent(V10, Other("m.room.message"), "", sender, EMPTY_CONTENT).(stateKey := None);
    var invite := BlankEvent(V10, Member, user, sender, EMPTY_CONTENT.(membership := Some(Invite)));
    var setting := BlankEvent(V10, HistoryVisibility, "", sender, EMPTY_CONTENT);
    closed := map[(Member, user) := invite,
                  VISIBILITY_KEY := setting.(content := EMPTY_CONTENT.(historyVisibility := Some(Invited)))];
    wider := map[(Member, user) := invite,
                 VISIBILITY_KEY := setting.(content := EMPTY_CONTENT.(historyVisibility := Some(Shared)))];
  }

  // ---- They agree ----

  lemma SightDependsOnKeys(user: UserId, e: Event, s: State, t: State, peeking: bool, erased: bool)
    requires AgreeOn(s, t, {VISIBILITY_KEY, (Member, user)})
    ensures SightIn(user, e, s, peeking, erased) == SightIn(user, e, t, peeking, erased)
    ensures EffectiveVisibility(s) == EffectiveVisibility(t)
  {
  }

  lemma FetchedStateAgrees(c: Context, e: Event, keys: set<StateKey>, k: StateKey)
    requires k in keys
    ensures Get(StateMap(c, e, keys), k) == Get(StateAfter(c, e), k)
  {
  }

  /** The keys the one-user filter fetches for `user`. */
  function UserKeys(user: UserId): set<StateKey> {
    {VISIBILITY_KEY, (Member, user)}
  }

  /** For an event that is not a visibility change, erasure prunes but never hides. */
  lemma ErasureOnlyPrunes(user: UserId, e: Event, s: State, peeking: bool)
    requires e.etype != HistoryVisibility
    ensures SightIn(user, e, s, peeking, true) == Hidden <==> SightIn(user, e, s, peeking, false) == Hidden
    ensures SightIn(user, e, s, peeking, true) == Pruned ==>
        !CheckMembership(user, e, EffectiveVisibility(s), s, peeking).joined
    ensures SightIn(user, e, s, peeking, false) != Pruned
  {
  }

  /** Erasing the sender hides an event exactly when it is a visibility change that only its
      previous, more open setting made visible to a user its own setting shuts out. */
  lemma ErasureHidesExactly(user: UserId, e: Event, s: State, peeking: bool)
    ensures SightIn(user, e, s, peeking, true) == Hidden && SightIn(user, e, s, peeking, false) != Hidden <==>
              && e.etype == HistoryVisibility
              && LaxFor(KnownVisibility(e.meta.prevVisibility), peeking)
              && !CanSee(EffectiveVisibility(s), MembershipOf(s, user), peeking)
  {
  }

  /** It does so for a stranger to a room whose history is closed to non-members. */
  lemma ErasureHidesClosingOfHistory(user: UserId, sender: UserId) returns (e: Event, s: State)
    ensures e.etype == HistoryVisibility && e.sender == sender && s == map[VISIBILITY_KEY := e]
    ensures SightIn(user, e, s, false, false) == Full && SightIn(user, e, s, false, true) == Hidden
  {
    e := BlankEvent(V10, HistoryVisibility, "", sender, EMPTY_CONTENT.(historyVisibility := Some(Joined)))
      .(meta := PLAIN.(prevVisibility := Some(WorldReadable)));
    s := map[VISIBILITY_KEY := e];
  }

  /** The query without the exemptions the batched filter knows nothing of: events to
      include whatever happens, and sticky events. */
  function WithoutExemptions(q: Query): Query {
    q.(always := {}, stickyEnabled := false)
  }

  /** The batched filter returns exactly the users who, taken one by one, see the event in
      full when nothing is exempted and the sender is not erased. */
  lemma BatchAgreesWithPointwise(q: Query, users: set<UserId>, e: Event, c: Context, ignoredBy: set<UserId>,
      maxLifetime: Option<int>, u: UserId)
    requires u in users
    ensures u in VisibleTo(q, users, e, c, ignoredBy, maxLifetime) <==>
              !e.meta.softFailed
              && CheckClient(WithoutExemptions(q), u, e, Some(Restrict(StateAfter(c, e), UserKeys(u))),
                  u in ignoredBy, maxLifetime, false) == Success(Full)
  {
    var allowed := Unwithheld(q, users, e, ignoredBy, maxLifetime);
    if u in allowed && !e.meta.outlier {
      var second := StateMap(c, e, MemberKeys(allowed) + {VISIBILITY_KEY});
      var full := StateAfter(c, e);
      FetchedStateAgrees(c, e, {VISIBILITY_KEY}, VISIBILITY_KEY);
      assert (Member, u) in MemberKeys(allowed);
      FetchedStateAgrees(c, e, MemberKeys(allowed) + {VISIBILITY_KEY}, VISIBILITY_KEY);
      FetchedStateAgrees(c, e, MemberKeys(allowed) + {VISIBILITY_KEY}, (Member, u));
      SightDependsOnKeys(u, e, full, Restrict(full, UserKeys(u)), q.peeking, false);
      SightDependsOnKeys(u, e, second, full, q.peeking, false);
    }
  }

  /** Events that the one-user check shows whatever the visibility. */
  predicate Exempt(q: Query, e: Event) {
    e.eventId in q.always || (!e.meta.outlier && StillSticky(e, q))
  }

  /** The user may see the event by visibility alone, the sender not being erased. */
  predicate ShownBySetting(q: Query, u: UserId, e: Event, s: State) {
    if e.meta.outlier then OwnMembership(e, u) else SightIn(u, e, s, q.peeking, false) != Hidden
  }

  /** The batched filter and the one-user check, as they are run on events that are not
      soft-failed, disagree in exactly two cases: an exempted event that visibility alone
      would hide, and an erased user's visibility change that erasure hides. */
  lemma BatchDisagreesIff(q: Query, users: set<UserId>, e: Event, c: Context, ignoredBy: set<UserId>,
                          maxLifetime: Option<int>, u: UserId, erased: bool)
    requires u in users
    ensures var s := Restrict(StateAfter(c, e), UserKeys(u));
            var batch := u in VisibleTo(q, users, e, c, ignoredBy, maxLifetime);
            var single := CheckClient(q, u, e, Some(s), u in ignoredBy, maxLifetime, erased) != Success(Hidden);
            batch != (single && !e.meta.softFailed) <==>
            && !e.meta.softFailed && !(q.sendToClient && Withheld(e, q.now, maxLifetime, u in ignoredBy))
            && if Exempt(q, e) then !ShownBySetting(q, u, e, s)
               else
                 && erased && !e.meta.outlier && e.etype == HistoryVisibility
                 && LaxFor(KnownVisibility(e.meta.prevVisibility), q.peeking)
                 && !CanSee(EffectiveVisibility(s), MembershipOf(s, u), q.peeking)
  {
    BatchAgreesWithPointwise(q, users, e, c, ignoredBy, maxLifetime, u);
    ErasureHidesExactly(u, e, Restrict(StateAfter(c, e), UserKeys(u)), q.peeking);
    ErasureShowsNoMore(u, e, Restrict(StateAfter(c, e), UserKeys(u)), q.peeking);
  }

  lemma ErasureShowsNoMore(user: UserId, e: Event, s: State, peeking: bool)
    ensures SightIn(user, e, s, peeking, false) == Hidden ==> SightIn(user, e, s, peeking, true) == Hidden
    ensures SightIn(user, e, s, peeking, false) != Pruned
  {
  }

  /** So they agree on every event that is neither exempted nor an erased user's visibility
      change. */
  lemma BatchAgreesOnOrdinaryEvents(q: Query, users: set<UserId>, e: Event, c: Context, ignoredBy: set<UserId>,
                                    maxLifetime: Option<int>, u: UserId, erased: bool)
    requires u in users && !e.meta.softFailed && e.eventId !in q.always && !StillSticky(e, q)
    requires erased ==> e.etype != HistoryVisibility
    ensures u in VisibleTo(q, users, e, c, ignoredBy, maxLifetime) <==>
              CheckClient(q, u, e, Some(Restrict(StateAfter(c, e), UserKeys(u))), u in ignoredBy, maxLifetime,
                  erased) != Success(Hidden)
  {
    BatchDisagreesIff(q, users, e, c, ignoredBy, maxLifetime, u, erased);
  }
}
