/** Events admitted one by one through the state-independent check: every accepted event
    stands on a chain of accepted events of its own room that ends in a create event. */
module AuthAdmission {
  import opened Matrix
  import opened AuthRules
  import opened AuthChain

  /** All events persisted so far, rejected ones included, in the order they came in. */
  type Log = seq<Event>

  function StoreOf(log: Log): map<EventId, Event> {
    if log == [] then map[] else StoreOf(log[..|log| - 1])[log[|log| - 1].eventId := log[|log| - 1]]
  }

  function Rejected(e: Event, why: Option<Rejection>): Event {
    e.(meta := e.meta.(rejected := why))
  }

  /** What the check can look up when no batch is given and nothing is forgiven. */
  function Persisted(log: Log): Known {
    Known(StoreOf(log), map[], {}, false)
  }

  /** Refusals that are failures of the server rather than verdicts; nothing is persisted. */
  predicate Aborts(r: Refusal) {
    r.UnknownPrevState? || r.UnknownAuthEvent? || r.NoSelection? || r.NotState?
  }

  function Admit(env: Env, log: Log, e: Event): Log {
    var clean := Rejected(e, None);
    if e.eventId in StoreOf(log) then log
    else
      match Independent(env, clean, Persisted(log))
      case None => log + [clean]
      case Some(r) => if Aborts(r) then log else log + [Rejected(e, Some(AuthError))]
  }

  function AdmitAll(env: Env, es: seq<Event>): Log {
    if es == [] then [] else Admit(env, AdmitAll(env, es[..|es| - 1]), es[|es| - 1])
  }

  predicate IsAccepted(e: Event) { e.meta.rejected.None? }

  // ---- The log is sound ----

  ghost predicate UniqueIds(log: Log) {
    forall n, m | 0 <= n < m < |log| :: log[n].eventId != log[m].eventId
  }

  ghost predicate CheckedInOrder(env: Env, log: Log) {
    forall n | 0 <= n < |log| && IsAccepted(log[n]) :: Independent(env, log[n], Persisted(log[..n])).None?
  }

  lemma {:induction false} LogIsStored(log: Log, n: nat)
    requires UniqueIds(log) && n < |log|
    ensures log[n].eventId in StoreOf(log) && StoreOf(log)[log[n].eventId] == log[n]
  {
    var last := |log| - 1;
    if n < last {
      LogIsStored(log[..last], n);
      assert log[n].eventId != log[last].eventId;
    }
  }

  lemma {:induction false} StoredIsLogged(log: Log, id: EventId) returns (n: nat)
    requires id in StoreOf(log)
    ensures n < |log| && log[n] == StoreOf(log)[id] && log[n].eventId == id
  {
    var last := |log| - 1;
    if id == log[last].eventId { n := last; } else { n := StoredIsLogged(log[..last], id); }
  }

  lemma AdmitKeepsLogSound(env: Env, log: Log, e: Event)
    requires UniqueIds(log) && CheckedInOrder(env, log)
    ensures UniqueIds(Admit(env, log, e)) && CheckedInOrder(env, Admit(env, log, e))
  {
    var next := Admit(env, log, e);
    forall n | 0 <= n < |log| ensures log[n].eventId in StoreOf(log) { LogIsStored(log, n); }
    forall n | 0 <= n < |next| && IsAccepted(next[n]) ensures Independent(env, next[n], Persisted(next[..n])).None? {
      if n < |log| { assert next[..n] == log[..n]; } else { assert next[..n] == log; }
    }
  }

  lemma {:induction false} AdmittedLogIsSound(env: Env, es: seq<Event>)
    ensures UniqueIds(AdmitAll(env, es)) && CheckedInOrder(env, AdmitAll(env, es))
  {
    if es != [] {
      AdmittedLogIsSound(env, es[..|es| - 1]);
      AdmitKeepsLogSound(env, AdmitAll(env, es[..|es| - 1]), es[|es| - 1]);
    }
  }

  // ---- One hop ----

  /** Entry `n` cites entry `m`. The citations of create events are never examined. */
  ghost predicate Cites(log: Log, n: nat, m: nat) {
    n < |log| && m < |log| && log[n].etype != Create && log[m].eventId in log[n].authEvents
  }

  ghost predicate IsCreateEvent(e: Event) { e.etype == Create && e.stateKey == Some("") }

  lemma AcceptedCitations(env: Env, log: Log, n: nat)
    requires CheckedInOrder(env, log) && n < |log| && IsAccepted(log[n]) && log[n].etype != Create
    ensures AuthTypes(log[n].version, log[n]).Some?
    ensures CitationsOk(log[n], Persisted(log[..n]), AuthTypes(log[n].version, log[n]).value, 0, {})
  {
    assert Independent(env, log[n], Persisted(log[..n])).None?;
    WalkMeansCitationsOk(log[n], Persisted(log[..n]), AuthTypes(log[n].version, log[n]).value, 0, {});
  }

  /** The entry a citation resolves to is the one the check looked up. */
  lemma CitedEntry(env: Env, log: Log, n: nat, m: nat)
    requires UniqueIds(log) && CheckedInOrder(env, log) && Cites(log, n, m) && IsAccepted(log[n])
    ensures m < n && Find(Persisted(log[..n]), log[m].eventId) == Some(log[m])
  {
    AcceptedCitations(env, log, n);
    var i :| 0 <= i < |log[n].authEvents| && log[n].authEvents[i] == log[m].eventId;
    assert CitedOk(log[n], Persisted(log[..n]), AuthTypes(log[n].version, log[n]).value, log[n].authEvents[i]);
    var k := StoredIsLogged(log[..n], log[m].eventId);
    assert log[k].eventId == log[m].eventId;
  }

  /** Everything an accepted event cites came in before it, was accepted, lies in the same
      room and has one of the selected keys. */
  lemma CitedIsAccepted(env: Env, log: Log, n: nat, m: nat)
    requires UniqueIds(log) && CheckedInOrder(env, log) && Cites(log, n, m) && IsAccepted(log[n])
    ensures m < n && IsAccepted(log[m]) && log[m].roomId == log[n].roomId
    ensures log[m].stateKey.Some? && AuthTypes(log[n].version, log[n]).Some?
        && KeyOf(log[m]) in AuthTypes(log[n].version, log[n]).value
  {
    CitedEntry(env, log, n, m);
    AcceptedCitations(env, log, n);
    var i :| 0 <= i < |log[n].authEvents| && log[n].authEvents[i] == log[m].eventId;
    assert CitedOk(log[n], Persisted(log[..n]), AuthTypes(log[n].version, log[n]).value, log[n].authEvents[i]);
  }

  /** An accepted event cites at most one event per type and state key. */
  lemma CitedKeysAreDistinct(env: Env, log: Log, n: nat, m: nat, k: nat)
    requires UniqueIds(log) && CheckedInOrder(env, log) && n < |log| && IsAccepted(log[n])
    requires Cites(log, n, m) && Cites(log, n, k) && m != k
    ensures log[m].stateKey.Some? && log[k].stateKey.Some? && KeyOf(log[m]) != KeyOf(log[k])
  {
    CitedEntry(env, log, n, m);
    CitedEntry(env, log, n, k);
    CitedIsAccepted(env, log, n, m);
    CitedIsAccepted(env, log, n, k);
    AcceptedCitations(env, log, n);
    var i :| 0 <= i < |log[n].authEvents| && log[n].authEvents[i] == log[m].eventId;
    var j :| 0 <= j < |log[n].authEvents| && log[n].authEvents[j] == log[k].eventId;
    assert i != j by { assert log[m].eventId != log[k].eventId; }
    assert DistinctKeys(log[n], Persisted(log[..n]), 0);
  }

  lemma CreateIsCited(env: Env, log: Log, n: nat) returns (m: nat)
    requires UniqueIds(log) && CheckedInOrder(env, log) && n < |log| && IsAccepted(log[n]) && log[n].etype != Create
    ensures Cites(log, n, m) && IsCreateEvent(log[m])
  {
    AcceptedCitations(env, log, n);
    var known := Persisted(log[..n]);
    assert CitesCreate(log[n], known, 0);
    var i :| 0 <= i < |log[n].authEvents| && Find(known, log[n].authEvents[i]).Some?
             && Find(known, log[n].authEvents[i]).value.etype == Create
                 && Find(known, log[n].authEvents[i]).value.stateKey == Some("");
    var id := log[n].authEvents[i];
    m := StoredIsLogged(log[..n], id);
  }

  // ---- Whole chains ----

  /** A descent along citations, from where it starts to where it has got. */
  datatype Trail = Start(at: nat) | Hop(from: Trail, at: nat) {
    function Origin(): nat { match this case Start(n) => n case Hop(t, _) => t.Origin() }
    function Length(): nat { match this case Start(_) => 0 case Hop(t, _) => t.Length() + 1 }
  }

  ghost predicate Descends(log: Log, t: Trail) {
    match t
    case Start(n) => n < |log|
    case Hop(u, n) => Descends(log, u) && Cites(log, u.at, n)
  }

  /** A descent from an accepted event arrives at an accepted event of the same room, and
      every hop goes to something strictly older. */
  lemma {:induction false} DescentIsSound(env: Env, log: Log, t: Trail)
    requires UniqueIds(log) && CheckedInOrder(env, log) && Descends(log, t) && t.Origin() < |log|
        && IsAccepted(log[t.Origin()])
    ensures t.at < |log| && IsAccepted(log[t.at]) && log[t.at].roomId == log[t.Origin()].roomId
    ensures t.at + t.Length() <= t.Origin()
  {
    if t.Hop? {
      DescentIsSound(env, log, t.from);
      CitedIsAccepted(env, log, t.from.at, t.at);
    }
  }

  /** Chain integrity of an admitted log: a descent from an accepted event stays among
      accepted events of the room and is no longer than the log; it ends at a create event,
      or can be continued to one in a single hop. */
  lemma AuthChainIntegrity(env: Env, es: seq<Event>, t: Trail)
    requires Descends(AdmitAll(env, es), t) && t.Origin() < |AdmitAll(env, es)|
        && IsAccepted(AdmitAll(env, es)[t.Origin()])
    ensures t.Length() <= t.Origin() && t.at < |AdmitAll(env, es)|
    ensures var end := AdmitAll(env, es)[t.at];
            && IsAccepted(end) && end.roomId == AdmitAll(env, es)[t.Origin()].roomId
            && (end.etype != Create ==>
                  exists m: nat :: Cites(AdmitAll(env, es), t.at, m) && IsCreateEvent(AdmitAll(env, es)[m]))
  {
    var log := AdmitAll(env, es);
    AdmittedLogIsSound(env, es);
    DescentIsSound(env, log, t);
    if log[t.at].etype != Create {
      var m := CreateIsCited(env, log, t.at);
    }
  }
}
