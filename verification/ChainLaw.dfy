/** The state-independent check as a law, said on the fields of the event and of the events it
    cites; and what it guarantees of the create events that rooms are founded on. */
module ChainLaw {
  import opened Matrix
  import opened AuthRules
  import opened AuthSufficiency
  import opened AuthChain
  import opened AuthAdmission
  import opened RoomRuns
  import opened RoomLaw
  import M = MembershipRuns
  import R = RefusalReasons

  // ---- The law ----

  /** How many characters of `s` are `c` or after it. */
  function From(s: string, c: char): nat {
    if s == [] then 0 else From(s[1..], c) + if s[0] >= c then 1 else 0
  }

  /** The bytes of a text: one per character, and one more from each of three borders on. */
  function Bytes(s: string): nat {
    |s| + From(s, 128 as char) + From(s, 2048 as char) + From(s, 65536 as char)
  }

  predicate CreatorsFit(env: Env, ids: seq<UserId>) {
    forall i | 0 <= i < |ids| :: WellFormedUser(env, ids[i]) && Bytes(ids[i]) <= 255
  }

  predicate LawfulCreate(env: Env, e: Event) {
    && e.prevEvents == [] && (e.version.stateDags ==> e.prevStateEvents == {})
    && (if e.version.roomIdsAsHashes then !e.carriesRoomId
        else ':' in e.sender && DomainOf(e.roomId) == DomainOf(e.sender))
    && e.content.knownVersion && NamesFounder(e.version, e)
    && (e.version.creatorPower ==> CreatorsFit(env, e.content.additionalCreators))
  }

  /** `a` is the event with this id: from the batch if it is there, otherwise from the store. */
  predicate Refers(known: Known, id: EventId, a: Event) {
    if id in known.batch then known.batch[id] == a else id in known.store && known.store[id] == a
  }

  /** Member events say whose membership becomes what, and on which token they stand. */
  predicate Selectable(e: Event) {
    e.etype == Member ==>
      && e.content.membership.Some? && e.stateKey.Some?
      && (IsThirdParty(e) ==>
            e.content.thirdParty.value.signed.Some? && e.content.thirdParty.value.signed.value.token.Some?)
  }

  /** The state an event may cite: the create event, the power levels, its sender's
      membership; and for a membership the target's, the join rules, the authorising user's
      and the third-party invite. */
  predicate MayCite(e: Event, k: StateKey)
    requires Selectable(e)
  {
    || k in {CREATE_KEY, POWER_KEY, (Member, e.sender)}
    || (&& e.etype == Member
        && (|| k == (Member, e.stateKey.value)
            || (k == JOIN_RULES_KEY && e.content.membership.value in {Join, Invite, Knock})
            || (&& e.version.restrictedJoin && e.content.membership == Some(Join)
                && e.content.authorisingUser.Some? && k == (Member, e.content.authorisingUser.value))
            || (IsThirdParty(e) && k == (ThirdPartyInvite, e.content.thirdParty.value.signed.value.token.value))))
  }

  /** The sender's own earlier join or leave, cited by a join of theirs and rejected only for
      want of state. */
  predicate OwnPast(e: Event, a: Event) {
    && e.etype == a.etype == Member && e.stateKey == a.stateKey == Some(e.sender)
    && e.content.membership == Some(Join) && a.content.membership in {Some(Join), Some(Leave)}
    && a.meta.rejected == Some(PartialStateAuthError)
  }

  predicate LawfulCitation(e: Event, known: Known, a: Event)
    requires Selectable(e)
  {
    && a.roomId == e.roomId && a.stateKey.Some? && MayCite(e, (a.etype, a.stateKey.value))
    && (a.meta.rejected.None? || (known.forgive && OwnPast(e, a)))
  }

  ghost predicate LawfullyCited(e: Event, known: Known, id: EventId)
    requires Selectable(e)
  {
    exists a :: Refers(known, id, a) && LawfulCitation(e, known, a)
  }

  ghost predicate AllLawful(e: Event, known: Known)
    requires Selectable(e)
  {
    forall i | 0 <= i < |e.authEvents| :: LawfullyCited(e, known, e.authEvents[i])
  }

  ghost predicate NoneTwice(e: Event, known: Known) {
    forall i, j, a, b | 0 <= i < j < |e.authEvents| && Refers(known, e.authEvents[i], a)
        && Refers(known, e.authEvents[j], b) ::
      a.etype == b.etype ==> a.stateKey != b.stateKey || a.stateKey.None?
  }

  ghost predicate OneIsCreate(e: Event, known: Known) {
    exists i, a :: 0 <= i < |e.authEvents| && Refers(known, e.authEvents[i], a) && IsCreateEvent(a)
  }

  /** Where state events form a graph of their own, those before this one are known state of
      the room that nobody rejected. */
  ghost predicate LawfulPrevState(e: Event, known: Known) {
    forall id | id in e.prevStateEvents :: LawfullyBefore(e, known, id)
  }

  ghost predicate LawfullyBefore(e: Event, known: Known, id: EventId) {
    exists p :: && Refers(known, id, p) && p.roomId == e.roomId && p.stateKey.Some?
                && p.meta.rejected.None? && p.eventId !in known.batchRejected
  }

  ghost predicate Passes(env: Env, e: Event, known: Known) {
    if e.etype == Create then LawfulCreate(env, e)
    else
      && (e.version.stateDags ==> LawfulPrevState(e, known))
      && Selectable(e) && AllLawful(e, known) && NoneTwice(e, known) && OneIsCreate(e, known)
  }

  // ---- The check decides it ----

  lemma {:induction false} BytesIff(s: string)
    ensures Utf8Length(s) == Bytes(s)
  {
    if s != [] {
      BytesIff(s[1..]);
    }
  }

  lemma {:induction false} BytesAtLeast(s: string)
    ensures Utf8Length(s) >= |s|
  {
    if s != [] {
      BytesAtLeast(s[1..]);
    }
  }

  lemma CreatorsIff(env: Env, ids: seq<UserId>)
    ensures CreatorsFit(env, ids) <==> forall i | 0 <= i < |ids| :: ValidAdditionalCreator(env, ids[i])
  {
    forall i | 0 <= i < |ids|
      ensures ValidAdditionalCreator(env, ids[i]) <==> WellFormedUser(env, ids[i]) && Bytes(ids[i]) <= 255
    {
      WellFormedIff(env, ids[i]);
      BytesIff(ids[i]);
      BytesAtLeast(ids[i]);
    }
  }

  lemma CreateIff(env: Env, e: Event)
    ensures LawfulCreate(env, e) <==> CheckCreate(env, e).None?
  {
    CreatorsIff(env, e.content.additionalCreators);
  }

  lemma RefersIff(known: Known, id: EventId, a: Event)
    ensures Refers(known, id, a) <==> Find(known, id) == Some(a)
  {
  }

  lemma SelectionIff(e: Event)
    requires e.etype != Create
    ensures AuthTypes(e.version, e).Some? <==> Selectable(e)
    ensures Selectable(e) ==> forall k :: k in AuthTypes(e.version, e).value <==> MayCite(e, k)
  {
  }

  lemma CitationIff(e: Event, known: Known, id: EventId)
    requires e.etype != Create && Selectable(e)
    ensures AuthTypes(e.version, e).Some?
    ensures CitedOk(e, known, AuthTypes(e.version, e).value, id) <==> LawfullyCited(e, known, id)
  {
    SelectionIff(e);
    if Find(known, id).Some? {
      RefersIff(known, id, Find(known, id).value);
    }
    forall a ensures Refers(known, id, a) <==> Find(known, id) == Some(a) { RefersIff(known, id, a); }
  }

  lemma AllLawfulIff(e: Event, known: Known)
    requires e.etype != Create && Selectable(e)
    ensures AuthTypes(e.version, e).Some?
    ensures AllLawful(e, known) <==>
            forall i | 0 <= i < |e.authEvents| :: CitedOk(e, known, AuthTypes(e.version, e).value, e.authEvents[i])
  {
    SelectionIff(e);
    forall i | 0 <= i < |e.authEvents|
      ensures CitedOk(e, known, AuthTypes(e.version, e).value, e.authEvents[i]) <==>
              LawfullyCited(e, known, e.authEvents[i])
    {
      CitationIff(e, known, e.authEvents[i]);
    }
  }

  lemma NoneTwiceIff(e: Event, known: Known)
    requires forall i | 0 <= i < |e.authEvents| ::
               Find(known, e.authEvents[i]).Some? && Find(known, e.authEvents[i]).value.stateKey.Some?
    ensures NoneTwice(e, known) <==> DistinctKeys(e, known, 0)
  {
    if NoneTwice(e, known) {
      forall i, j | 0 <= i < j < |e.authEvents|
        ensures KeyOf(Find(known, e.authEvents[i]).value) != KeyOf(Find(known, e.authEvents[j]).value)
      {
        var a, b := Find(known, e.authEvents[i]).value, Find(known, e.authEvents[j]).value;
        assert Refers(known, e.authEvents[i], a) && Refers(known, e.authEvents[j], b);
      }
    }
    if DistinctKeys(e, known, 0) {
      forall i, j, a, b | 0 <= i < j < |e.authEvents| && Refers(known, e.authEvents[i], a)
          && Refers(known, e.authEvents[j], b) && a.etype == b.etype
        ensures a.stateKey != b.stateKey
      {
        RefersIff(known, e.authEvents[i], a);
        RefersIff(known, e.authEvents[j], b);
      }
    }
  }

  lemma OneIsCreateIff(e: Event, known: Known)
    ensures OneIsCreate(e, known) <==> CitesCreate(e, known, 0)
  {
    if CitesCreate(e, known, 0) {
      var i :| 0 <= i < |e.authEvents| && Find(known, e.authEvents[i]).Some?
               && Find(known, e.authEvents[i]).value.etype == Create
               && Find(known, e.authEvents[i]).value.stateKey == Some("");
      var a := Find(known, e.authEvents[i]).value;
      assert Refers(known, e.authEvents[i], a) && IsCreateEvent(a);
    }
    if OneIsCreate(e, known) {
      var i, a :| 0 <= i < |e.authEvents| && Refers(known, e.authEvents[i], a) && IsCreateEvent(a);
      RefersIff(known, e.authEvents[i], a);
    }
  }

  lemma PrevStateIff(e: Event, known: Known)
    ensures LawfulPrevState(e, known) <==> PrevStateKnown(e, known) && PrevStateOk(e, known)
  {
    forall id | id in e.prevStateEvents
      ensures LawfullyBefore(e, known, id) <==>
              Find(known, id).Some? && Find(known, id).value.roomId == e.roomId
              && Find(known, id).value.stateKey.Some? && Find(known, id).value.meta.rejected.None?
              && Find(known, id).value.eventId !in known.batchRejected
    {
      BeforeIff(e, known, id);
    }
  }

  lemma BeforeIff(e: Event, known: Known, id: EventId)
    ensures LawfullyBefore(e, known, id) <==>
            Find(known, id).Some? && Find(known, id).value.roomId == e.roomId
            && Find(known, id).value.stateKey.Some? && Find(known, id).value.meta.rejected.None?
            && Find(known, id).value.eventId !in known.batchRejected
  {
    forall p ensures Refers(known, id, p) <==> Find(known, id) == Some(p) { RefersIff(known, id, p); }
  }

  lemma CitationsIff(e: Event, known: Known)
    requires e.etype != Create && Selectable(e)
    ensures AuthTypes(e.version, e).Some?
    ensures CitationsOk(e, known, AuthTypes(e.version, e).value, 0, {}) <==>
            AllLawful(e, known) && NoneTwice(e, known) && OneIsCreate(e, known)
  {
    AllLawfulIff(e, known);
    OneIsCreateIff(e, known);
    if AllLawful(e, known) {
      NoneTwiceIff(e, known);
    }
  }

  /** The state-independent check lets exactly the lawful events pass. */
  lemma PassesIff(env: Env, e: Event, known: Known)
    ensures Independent(env, e, known).None? <==> Passes(env, e, known)
  {
    CreateIff(env, e);
    PrevStateIff(e, known);
    if e.etype != Create {
      SelectionIff(e);
      if Selectable(e) {
        CitationsIff(e, known);
        WalkMeansCitationsOk(e, known, AuthTypes(e.version, e).value, 0, {});
      }
    }
  }

  // ---- Reasons ----

  ghost predicate Unknown(known: Known, id: EventId) { forall a :: !Refers(known, id, a) }

  /** What a refusal says of the event and of what it cites. */
  ghost predicate True(env: Env, e: Event, known: Known, r: Refusal) {
    match r
    case CreateHasPrev => e.prevEvents != []
    case CreateHasPrevState => e.version.stateDags && e.prevStateEvents != {}
    case CreateHasRoomId => e.version.roomIdsAsHashes && e.carriesRoomId
    case CreateWrongDomain =>
      !e.version.roomIdsAsHashes && (':' !in e.sender || DomainOf(e.roomId) != DomainOf(e.sender))
    case UnknownVersion => !e.content.knownVersion
    case NoCreatorField => !NamesFounder(e.version, e)
    case BadAdditionalCreator => e.version.creatorPower && !CreatorsFit(env, e.content.additionalCreators)
    case UnknownPrevState => e.version.stateDags && exists id :: id in e.prevStateEvents && Unknown(known, id)
    case BadPrevState => e.version.stateDags && exists id :: id in e.prevStateEvents && !LawfullyBefore(e, known, id)
    case NoSelection => !Selectable(e)
    case UnknownAuthEvent(id) => id in e.authEvents && Unknown(known, id)
    case OtherRoom(id) => id in e.authEvents && exists a :: Refers(known, id, a) && a.roomId != e.roomId
    case NotState(id) => id in e.authEvents && exists a :: Refers(known, id, a) && a.stateKey.None?
    case RejectedAuthEvent(id) =>
      && id in e.authEvents
      && exists a :: Refers(known, id, a) && a.meta.rejected.Some? && !(known.forgive && OwnPast(e, a))
    case Unexpected(k) => Selectable(e) && !MayCite(e, k) && CitesKey(e, known, k)
    case Duplicate(k) => !NoneTwice(e, known) && CitesKey(e, known, k)
    case NoCreate => !OneIsCreate(e, known)
  }

  ghost predicate CitesKey(e: Event, known: Known, k: StateKey) {
    exists i, a :: 0 <= i < |e.authEvents| && Refers(known, e.authEvents[i], a)
                   && a.etype == k.0 && a.stateKey == Some(k.1)
  }

  /** All keys seen belong to events cited before position `i`. */
  ghost predicate SeenBefore(e: Event, known: Known, seen: set<StateKey>, i: nat) {
    forall k | k in seen :: SeenAt(e, known, k, i)
  }

  ghost predicate SeenAt(e: Event, known: Known, k: StateKey, i: nat) {
    exists j, a :: 0 <= j < i && j < |e.authEvents| && Refers(known, e.authEvents[j], a)
                   && a.etype == k.0 && a.stateKey == Some(k.1)
  }

  lemma CitedReason(env: Env, e: Event, known: Known, i: nat, seen: set<StateKey>, r: Refusal)
    requires e.etype != Create && Selectable(e) && i < |e.authEvents| && SeenBefore(e, known, seen, i)
    requires AuthTypes(e.version, e).Some?
    requires CheckCited(e, e.authEvents[i], Find(known, e.authEvents[i]), AuthTypes(e.version, e).value, seen,
                        known.forgive) == Some(r)
    ensures True(env, e, known, r)
  {
    SelectionIff(e);
    var id := e.authEvents[i];
    if Find(known, id).Some? {
      var a := Find(known, id).value;
      RefersIff(known, id, a);
      if r.Duplicate? {
        assert SeenAt(e, known, r.key, i);
        var j, b :| 0 <= j < i && j < |e.authEvents| && Refers(known, e.authEvents[j], b)
                    && b.etype == r.key.0 && b.stateKey == Some(r.key.1);
        assert Refers(known, e.authEvents[i], a) && a.etype == b.etype && a.stateKey == b.stateKey;
      }
    } else {
      forall a ensures !Refers(known, id, a) { RefersIff(known, id, a); }
    }
  }

  /** Every event cited before position `i` has its key among those seen. */
  ghost predicate AllSeen(e: Event, known: Known, seen: set<StateKey>, i: nat) {
    forall j, a | 0 <= j < i && j < |e.authEvents| && Refers(known, e.authEvents[j], a) ::
      a.stateKey.Some? && KeyOf(a) in seen
  }

  lemma EndReason(e: Event, known: Known, seen: set<StateKey>)
    requires AllSeen(e, known, seen, |e.authEvents|) && CREATE_KEY !in seen
    ensures !OneIsCreate(e, known)
  {
  }

  lemma SeenNext(e: Event, known: Known, seen: set<StateKey>, i: nat, a: Event)
    requires i < |e.authEvents| && SeenBefore(e, known, seen, i) && AllSeen(e, known, seen, i)
    requires Find(known, e.authEvents[i]) == Some(a) && a.stateKey.Some?
    ensures SeenBefore(e, known, seen + {KeyOf(a)}, i + 1) && AllSeen(e, known, seen + {KeyOf(a)}, i + 1)
  {
    RefersIff(known, e.authEvents[i], a);
    assert SeenAt(e, known, KeyOf(a), i + 1);
    forall key | key in seen ensures SeenAt(e, known, key, i + 1) { assert SeenAt(e, known, key, i); }
  }

  lemma {:induction false} WalkReason(env: Env, e: Event, known: Known, i: nat, seen: set<StateKey>, r: Refusal)
    requires e.etype != Create && Selectable(e) && i <= |e.authEvents| && SeenBefore(e, known, seen, i)
    requires AuthTypes(e.version, e).Some?
    requires AllSeen(e, known, seen, i)
    requires CheckCitedFrom(e, known, AuthTypes(e.version, e).value, i, seen) == Some(r)
    ensures True(env, e, known, r)
    decreases |e.authEvents| - i
  {
    if i < |e.authEvents| {
      var cited := Find(known, e.authEvents[i]);
      var refusal := CheckCited(e, e.authEvents[i], cited, AuthTypes(e.version, e).value, seen, known.forgive);
      if refusal.Some? {
        CitedReason(env, e, known, i, seen, r);
      } else {
        SeenNext(e, known, seen, i, cited.value);
        WalkReason(env, e, known, i + 1, seen + {KeyOf(cited.value)}, r);
      }
    } else {
      EndReason(e, known, seen);
    }
  }

  /** Whatever is refused is refused for a reason that holds of it. */
  lemma RefusalIsTrue(env: Env, e: Event, known: Known, r: Refusal)
    requires Independent(env, e, known) == Some(r)
    ensures True(env, e, known, r)
  {
    if e.etype == Create {
      CreatorsIff(env, e.content.additionalCreators);
    } else if e.version.stateDags && !PrevStateKnown(e, known) {
      var id :| id in e.prevStateEvents && Find(known, id).None?;
      forall a ensures !Refers(known, id, a) { RefersIff(known, id, a); }
    } else if e.version.stateDags && !PrevStateOk(e, known) {
      PrevStateIff(e, known);
    } else {
      SelectionIff(e);
      if Selectable(e) {
        WalkReason(env, e, known, 0, {}, r);
      }
    }
  }

  // ---- Admission ----

  lemma StoredIff(log: Log, id: EventId)
    requires UniqueIds(log)
    ensures id in StoreOf(log) <==> exists n :: 0 <= n < |log| && log[n].eventId == id
  {
    if id in StoreOf(log) {
      var n := StoredIsLogged(log, id);
    }
    if n :| 0 <= n < |log| && log[n].eventId == id {
      LogIsStored(log, n);
    }
  }

  /** The server cannot judge the event: something it cites is unknown or no state event, or
      it does not say what it is about. */
  ghost predicate Unjudgeable(e: Event, known: Known) {
    || !Selectable(e)
    || (exists id :: (id in e.authEvents || id in e.prevStateEvents) && Unknown(known, id))
    || (exists id, a :: id in e.authEvents && Refers(known, id, a) && a.stateKey.None?)
  }

  /** An event that comes in is left out if its id is taken or it cannot be judged; otherwise
      it is entered, as accepted exactly when it is lawful. */
  lemma AdmitIff(env: Env, log: Log, e: Event)
    requires UniqueIds(log)
    ensures var clean, next := e.(meta := e.meta.(rejected := None)), Admit(env, log, e);
            && (next == log + [clean] <==>
                  (forall n | 0 <= n < |log| :: log[n].eventId != e.eventId) && Passes(env, clean, Persisted(log)))
            && next in {log, log + [clean], log + [e.(meta := e.meta.(rejected := Some(AuthError)))]}
            && (next == log ==>
                  (exists n :: 0 <= n < |log| && log[n].eventId == e.eventId) || Unjudgeable(clean, Persisted(log)))
  {
    var clean := Rejected(e, None);
    StoredIff(log, e.eventId);
    PassesIff(env, clean, Persisted(log));
    var r := Independent(env, clean, Persisted(log));
    if r.Some? {
      RefusalIsTrue(env, clean, Persisted(log), r.value);
    }
    assert |log + [clean]| != |log|;
    assert (log + [clean])[|log|] != (log + [Rejected(e, Some(AuthError))])[|log|];
  }

  // ---- Create events ----

  /** An accepted create event of an admitted log names the founder, comes first, and where
      room ids show a server shows the sender's. */
  lemma AcceptedCreate(env: Env, es: seq<Event>, n: nat)
    requires n < |AdmitAll(env, es)| && AdmitAll(env, es)[n].etype == Create && IsAccepted(AdmitAll(env, es)[n])
    ensures var create := AdmitAll(env, es)[n];
            && CreatorOf(create.version, create).Some? && create.prevEvents == [] && create.content.knownVersion
            && (!create.version.roomIdsAsHashes ==>
                  ':' in create.sender && DomainOf(create.roomId) == DomainOf(create.sender))
  {
    var log := AdmitAll(env, es);
    AdmittedLogIsSound(env, es);
    PassesIff(env, log[n], Persisted(log[..n]));
  }

  /** So in a run of a room founded on it no event is refused for want of a creator. */
  lemma CreatorIsNeverMissing(env: Env, es: seq<Event>, n: nat, run: seq<Event>, i: nat)
    requires n < |AdmitAll(env, es)| && AdmitAll(env, es)[n].etype == Create && IsAccepted(AdmitAll(env, es)[n])
    requires WithinRoom(run) && i < |run| && run[i].version == AdmitAll(env, es)[n].version
    ensures Check(env, run[i], At(env, M.Founded(AdmitAll(env, es)[n]), run, i)) != Deny(MissingCreator)
  {
    var create := AdmitAll(env, es)[n];
    var s := At(env, M.Founded(create), run, i);
    AcceptedCreate(env, es, n);
    CreateStays(env, M.Founded(create), run, i);
    if Check(env, run[i], s) == Deny(MissingCreator) {
      R.MissingCreatorMeans(env, run[i], s);
    }
  }

  /** The first event of a room as servers make it: in older versions it names its sender as
      the creator and carries a room id of the sender's server. */
  function FirstEvent(v: RoomVersion, sender: UserId, room: RoomId, others: seq<UserId>): Event {
    BlankEvent(v, Create, "", sender,
        EMPTY_CONTENT.(creator := if v.implicitCreator then None else Some(sender), additionalCreators := others))
      .(roomId := room, carriesRoomId := !v.roomIdsAsHashes)
  }

  /** In every known version it is accepted. */
  lemma FirstEventIsAccepted(env: Env, v: RoomVersion, sender: UserId, room: RoomId, others: seq<UserId>, known: Known)
    requires ':' in sender && (v.roomIdsAsHashes || DomainOf(room) == DomainOf(sender))
    requires v.creatorPower ==> CreatorsFit(env, others)
    ensures Independent(env, FirstEvent(v, sender, room, others), known).None?
  {
    PassesIff(env, FirstEvent(v, sender, room, others), known);
  }
}
