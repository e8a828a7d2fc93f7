/** Filtering a list of events on its way to one client, as the list loop the source runs. */
module ClientFilter {
  import opened Matrix
  import opened AuthRules
  import opened AuthSufficiency
  import opened HistoryFilter

  /** An event as sent to the client: possibly pruned, with the user's membership after it. */
  datatype FilteredEvent = FilteredEvent(event: Event, pruned: bool, membership: Membership)

  /** What the server knows about the request. */
  datatype Request = Request(
    query: Query,
    user: UserId,
    admin: bool,
    wantsSoftFailed: bool,
    wantsSpammy: bool,
    ignored: set<UserId>,
    erased: set<UserId>,
    maxLifetime: map<RoomId, int>,
    states: map<EventId, State>)

  /** Soft-failed events are dropped, except for an administrator who asked for them. */
  predicate Considered(r: Request, e: Event) {
    || !e.meta.softFailed
    || (r.query.sendToClient && r.admin && (r.wantsSoftFailed || (r.wantsSpammy && e.meta.policySpammy)))
  }

  predicate IsCallInvite(e: Event) {
    e.etype == CallInvite && e.stateKey.None?
  }

  /** Join rules are fetched only when a call invite that is not soft-failed turns up. */
  predicate FetchesJoinRules(events: seq<Event>) {
    exists i | 0 <= i < |events| :: !events[i].meta.softFailed && IsCallInvite(events[i])
  }

  function FetchedKeys(user: UserId, joinRules: bool): set<StateKey> {
    UserKeys(user) + if joinRules then {JOIN_RULES_KEY} else {}
  }

  /** The fetched part of the state after an event; outliers have none. */
  function FetchedState(r: Request, joinRules: bool, e: Event): Option<State> {
    if e.meta.outlier || e.eventId !in r.states then None
    else Some(Restrict(r.states[e.eventId], FetchedKeys(r.user, joinRules)))
  }

  predicate InPublicRoom(s: State) {
    JOIN_RULES_KEY in s && s[JOIN_RULES_KEY].content.joinRule == Some(Public)
  }

  /** The user's membership after the event. */
  function MembershipAfter(user: UserId, e: Event, s: Option<State>): Result<Option<Membership>, Raised> {
    if OwnMembership(e, user) then
      (if e.content.membership.None? then Failure(MissingOwnMembership) else Success(e.content.membership))
    else if s.Some? then Success(Some(GetOr(MembershipOf(s.value, user), Leave)))
    else if e.meta.outlier then Success(None)
    else Failure(MissingState)
  }

  function Annotate(r: Request, e: Event, s: Option<State>, sight: Sight): Result<Option<FilteredEvent>, Raised> {
    if IsCallInvite(e) && s.None? then Failure(OutlierCallInvite)
    else if IsCallInvite(e) && InPublicRoom(s.value) then Success(None)
    else
      match MembershipAfter(r.user, e, s)
      case Failure(x) => Failure(x)
      case Success(None) => Success(None)
      case Success(Some(m)) => Success(Some(FilteredEvent(e, sight == Pruned, m)))
  }

  /** The decision on one event. */
  function Allowed(r: Request, joinRules: bool, e: Event): Result<Option<FilteredEvent>, Raised> {
    var s := FetchedState(r, joinRules, e);
    match CheckClient(r.query, r.user, e, s, e.sender in r.ignored, Get(r.maxLifetime, e.roomId), e.sender in r.erased)
    case Failure(x) => Failure(x)
    case Success(Hidden) => Success(None)
    case Success(sight) => Annotate(r, e, s, sight)
  }

  /** What a considered event contributes to the answer. */
  function Contribution(r: Request, joinRules: bool, e: Event): Result<Option<FilteredEvent>, Raised> {
    if Considered(r, e) then Allowed(r, joinRules, e) else Success(None)
  }

  /** The answer: the first exception in list order, or everything allowed, in order. */
  function FilterEvents(r: Request, joinRules: bool, events: seq<Event>): Result<seq<FilteredEvent>, Raised> {
    if events == [] then Success([])
    else
      var last := |events| - 1;
      match FilterEvents(r, joinRules, events[..last])
      case Failure(x) => Failure(x)
      case Success(done) =>
        match Contribution(r, joinRules, events[last])
        case Failure(x) => Failure(x)
        case Success(None) => Success(done)
        case Success(Some(f)) => Success(done + [f])
  }

  /** As the source runs it: one pass to drop soft-failed events and look for call invites,
      then one pass over what is left. */
  method FilterForClient(r: Request, events: seq<Event>) returns (answer: Result<seq<FilteredEvent>, Raised>)
    ensures answer == FilterEvents(r, FetchesJoinRules(events), events)
  {
    var joinRules := false;
    for i := 0 to |events|
      invariant joinRules <==> exists j | 0 <= j < i :: !events[j].meta.softFailed && IsCallInvite(events[j])
    {
      if !events[i].meta.softFailed && IsCallInvite(events[i]) { joinRules := true; }
    }
    var out: seq<FilteredEvent> := [];
    for i := 0 to |events|
      invariant FilterEvents(r, joinRules, events[..i]) == Success(out)
    {
      assert events[..i + 1][..i] == events[..i];
      if Considered(r, events[i]) {
        var allowed := Allowed(r, joinRules, events[i]);
        if allowed.Failure? {
          PrefixFails(r, joinRules, events, i + 1);
          return Failure(allowed.error);
        }
        if allowed.value.Some? { out := out + [allowed.value.value]; }
      }
    }
    assert events[..|events|] == events;
    answer := Success(out);
  }

  lemma {:induction false} PrefixFails(r: Request, joinRules: bool, events: seq<Event>, n: nat)
    requires n <= |events| && FilterEvents(r, joinRules, events[..n]).Failure?
    ensures FilterEvents(r, joinRules, events) == FilterEvents(r, joinRules, events[..n])
  {
    if n < |events| {
      assert events[..|events| - 1][..n] == events[..n];
      PrefixFails(r, joinRules, events[..|events| - 1], n);
    } else {
      assert events[..n] == events;
    }
  }

  // ---- What the answer is ----

  /** `picks` lists, in order, the positions whose events made it into `out`. */
  ghost predicate PickedFrom(out: seq<FilteredEvent>, events: seq<Event>, picks: seq<nat>) {
    && |picks| == |out|
    && (forall k | 0 <= k < |picks| :: picks[k] < |events| && out[k].event == events[picks[k]])
    && (forall k, l | 0 <= k < l < |picks| :: picks[k] < picks[l])
  }

  /** `picks` are exactly the positions that contribute something, and `out` is what they
      contribute. */
  ghost predicate Selects(r: Request, joinRules: bool, events: seq<Event>, picks: seq<nat>, out: seq<FilteredEvent>) {
    && PickedFrom(out, events, picks)
    && (forall k | 0 <= k < |picks| :: Contribution(r, joinRules, events[picks[k]]) == Success(Some(out[k])))
    && (forall i | 0 <= i < |events| :: Contribution(r, joinRules, events[i]).Success?)
    && (forall i | 0 <= i < |events| :: Contribution(r, joinRules, events[i]).value.Some? <==> i in picks)
  }

  lemma SelectsNext(r: Request, joinRules: bool, events: seq<Event>, picks: seq<nat>, out: seq<FilteredEvent>)
    requires events != [] && Selects(r, joinRules, events[..|events| - 1], picks, out)
    requires Contribution(r, joinRules, events[|events| - 1]).Success?
    ensures match Contribution(r, joinRules, events[|events| - 1]).value
            case None => Selects(r, joinRules, events, picks, out)
            case Some(f) => Selects(r, joinRules, events, picks + [|events| - 1], out + [f])
  {
    var last := |events| - 1;
    assert last !in picks;
    forall i | 0 <= i < last ensures events[..last][i] == events[i] {}
  }

  /** The answer is an order-preserving selection of the input: exactly the positions that
      contribute something, each with what it contributes. */
  lemma {:induction false} AnswerIsSubsequence(r: Request, joinRules: bool, events: seq<Event>)
      returns (picks: seq<nat>)
    requires FilterEvents(r, joinRules, events).Success?
    ensures Selects(r, joinRules, events, picks, FilterEvents(r, joinRules, events).value)
  {
    if events == [] {
      picks := [];
    } else {
      var last := |events| - 1;
      picks := AnswerIsSubsequence(r, joinRules, events[..last]);
      SelectsNext(r, joinRules, events, picks, FilterEvents(r, joinRules, events[..last]).value);
      if Contribution(r, joinRules, events[last]).value.Some? {
        picks := picks + [last];
      }
    }
  }

  /** Everything sent carries the user's membership after it; if it is an outlier it is the
      user's own member event; and on its way to a client it is neither a dummy nor an alias
      event nor, unless it is state, from an ignored sender or too old. */
  lemma SentEventContract(r: Request, joinRules: bool, e: Event, f: FilteredEvent)
    requires Contribution(r, joinRules, e) == Success(Some(f))
    ensures f.event == e && Considered(r, e)
    ensures e.meta.outlier ==> OwnMembership(e, r.user)
    ensures OwnMembership(e, r.user) ==> Some(f.membership) == e.content.membership
    ensures !OwnMembership(e, r.user) ==>
              e.eventId in r.states && f.membership == GetOr(MembershipOf(r.states[e.eventId], r.user), Leave)
    ensures r.query.sendToClient ==>
              && e.etype !in {Dummy, Aliases}
              && (e.stateKey.None? ==>
                    && e.sender !in r.ignored
                    && (e.roomId in r.maxLifetime ==> r.query.now - e.originTs <= r.maxLifetime[e.roomId]))
  {
  }

  /** Marking a sender as erased changes nothing about which events are sent, visibility
      changes aside, and prunes only what the user was not joined for. */
  lemma ErasureOnlyPrunesSent(r: Request, joinRules: bool, e: Event, f: FilteredEvent)
    requires e.etype != HistoryVisibility
    requires Contribution(r.(erased := r.erased - {e.sender}), joinRules, e) == Success(Some(f))
    ensures Contribution(r.(erased := r.erased + {e.sender}), joinRules, e).Success?
    ensures Contribution(r.(erased := r.erased + {e.sender}), joinRules, e).value in {Some(f), Some(f.(pruned := true))}
    ensures Contribution(r.(erased := r.erased + {e.sender}), joinRules, e).value != Some(f) ==>
              && FetchedState(r, joinRules, e).Some?
              && !CheckMembership(r.user, e, EffectiveVisibility(FetchedState(r, joinRules, e).value),
                  FetchedState(r, joinRules, e).value, r.query.peeking).joined
  {
    var s := FetchedState(r, joinRules, e);
    if s.Some? { ErasureOnlyPrunes(r.user, e, s.value, r.query.peeking); }
  }

  // ---- Call invites in public rooms ----

  /** How much of an event the visibility rules alone show the user. */
  function VisibilityVerdict(r: Request, joinRules: bool, e: Event): Result<Sight, Raised> {
    CheckClient(r.query, r.user, e, FetchedState(r, joinRules, e), e.sender in r.ignored,
        Get(r.maxLifetime, e.roomId), e.sender in r.erased)
  }

  /** A visible call invite from a public room is kept from the client unless every call
      invite in the list is soft-failed, as an administrator may ask to see them: then the
      join rules are never fetched and it is sent. */
  lemma PublicCallInviteIsSentIff(r: Request, events: seq<Event>, e: Event)
    requires e in events && IsCallInvite(e) && Considered(r, e)
    requires !e.meta.outlier && e.eventId in r.states && InPublicRoom(r.states[e.eventId])
    requires VisibilityVerdict(r, false, e) in {Success(Full), Success(Pruned)}
    ensures Contribution(r, FetchesJoinRules(events), e).Success?
    ensures Contribution(r, FetchesJoinRules(events), e).value.Some? <==> !FetchesJoinRules(events)
  {
  }

  /** An administrator who asks for soft-failed events and is shown a single one, the call
      invite of a public room. */
  lemma SoftFailedCallInviteIsSent(user: UserId, sender: UserId) returns (r: Request, e: Event)
    ensures r.query.sendToClient && r.admin && r.wantsSoftFailed && e.meta.softFailed && IsCallInvite(e)
    ensures e.eventId in r.states && InPublicRoom(r.states[e.eventId])
    ensures var answer := FilterEvents(r, FetchesJoinRules([e]), [e]);
            answer.Success? && |answer.value| == 1 && answer.value[0].event == e
  {
    e := BlankEvent(V10, CallInvite, "", sender, EMPTY_CONTENT).(stateKey := None, meta := PLAIN.(softFailed := true));
    var rules := BlankEvent(V10, JoinRules, "", sender, EMPTY_CONTENT.(joinRule := Some(Public)));
    var query := Query(0, false, true, false, {});
    r := Request(query, user, true, true, false, {}, {}, map[], map[e.eventId := map[JOIN_RULES_KEY := rules]]);
    assert !FetchesJoinRules([e]);
    assert VisibilityVerdict(r, false, e) == Success(Full);
    PublicCallInviteIsSentIff(r, [e], e);
    assert [e][..0] == [];
  }
}
