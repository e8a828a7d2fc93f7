/** The queue of room events that wait for earlier ones to be persisted. */
module PendingQueue {
  import opened Matrix
  import opened StreamTokens

  datatype Entry = Entry(pos: Position, extraUsers: set<UserId>, room: RoomId, etype: EventType,
      stateKey: Option<string>, membership: Option<Membership>)

  /** The entries a drain at `t` puts back, in order. */
  function Kept(pending: seq<Entry>, t: MultiToken): seq<Entry> {
    if pending == [] then []
    else
      var last := |pending| - 1;
      Kept(pending[..last], t) + if PersistedAfter(pending[last].pos, t) then [pending[last]] else []
  }

  /** The entries a drain at `t` notifies, in order. */
  function Due(pending: seq<Entry>, t: MultiToken): seq<Entry> {
    if pending == [] then []
    else
      var last := |pending| - 1;
      Due(pending[..last], t) + if PersistedAfter(pending[last].pos, t) then [] else [pending[last]]
  }

  lemma NextEntry(queue: seq<Entry>, i: nat, t: MultiToken)
    requires i < |queue|
    ensures PersistedAfter(queue[i].pos, t) ==>
              Kept(queue[..i + 1], t) == Kept(queue[..i], t) + [queue[i]] && Due(queue[..i + 1], t) ==
                  Due(queue[..i], t)
    ensures !PersistedAfter(queue[i].pos, t) ==>
              Kept(queue[..i + 1], t) == Kept(queue[..i], t) && Due(queue[..i + 1], t) == Due(queue[..i], t) +
                  [queue[i]]
  {
    assert queue[..i + 1][..i] == queue[..i];
  }

  /** The writer of the position has not come that far in the token. */
  predicate Ahead(p: Position, t: MultiToken) {
    if p.writer in t.ahead then p.stream > t.ahead[p.writer] else p.stream > t.stream
  }

  lemma {:induction false} KeptIff(pending: seq<Entry>, t: MultiToken, e: Entry)
    ensures e in Kept(pending, t) <==> e in pending && Ahead(e.pos, t)
  {
    if pending != [] {
      var last := |pending| - 1;
      KeptIff(pending[..last], t, e);
      assert pending == pending[..last] + [pending[last]];
    }
  }

  lemma {:induction false} DueIff(pending: seq<Entry>, t: MultiToken, e: Entry)
    ensures e in Due(pending, t) <==> e in pending && !Ahead(e.pos, t)
  {
    if pending != [] {
      var last := |pending| - 1;
      DueIff(pending[..last], t, e);
      assert pending == pending[..last] + [pending[last]];
    }
  }

  lemma {:induction false} DrainCounts(pending: seq<Entry>, t: MultiToken)
    ensures |Kept(pending, t)| + |Due(pending, t)| == |pending|
  {
    if pending != [] {
      DrainCounts(pending[..|pending| - 1], t);
    }
  }

  /** A drain puts back exactly the entries whose writers have not come that far, and notifies
      the others. */
  lemma DrainIff(pending: seq<Entry>, t: MultiToken, e: Entry)
    ensures e in Kept(pending, t) <==> e in pending && Ahead(e.pos, t)
    ensures e in Due(pending, t) <==> e in pending && !Ahead(e.pos, t)
    ensures |Kept(pending, t)| + |Due(pending, t)| == |pending|
  {
    KeptIff(pending, t, e);
    DueIff(pending, t, e);
    DrainCounts(pending, t);
  }

  // ---- Runs of the queue ----

  datatype Op = Enqueue(entry: Entry) | Drain(token: MultiToken)

  /** The queue with its history. Entries are named by their position in `sent`, so equal
      entries stay apart. */
  datatype Queue = Queue(sent: seq<Entry>, pending: seq<nat>, notified: seq<(nat, MultiToken)>)

  const EMPTY := Queue([], [], [])

  function KeptIds(sent: seq<Entry>, pending: seq<nat>, t: MultiToken): seq<nat> {
    if pending == [] then []
    else
      var last := |pending| - 1;
      var n := pending[last];
      KeptIds(sent, pending[..last], t) + if n < |sent| && PersistedAfter(sent[n].pos, t) then [n] else []
  }

  function DueIds(sent: seq<Entry>, pending: seq<nat>, t: MultiToken): seq<(nat, MultiToken)> {
    if pending == [] then []
    else
      var last := |pending| - 1;
      var n := pending[last];
      DueIds(sent, pending[..last], t) + if n < |sent| && PersistedAfter(sent[n].pos, t) then [] else [(n, t)]
  }

  function Step(q: Queue, op: Op): Queue {
    match op
    case Enqueue(e) => Queue(q.sent + [e], q.pending + [|q.sent|], q.notified)
    case Drain(t) => Queue(q.sent, KeptIds(q.sent, q.pending, t), q.notified + DueIds(q.sent, q.pending, t))
  }

  function Run(ops: seq<Op>): Queue {
    if ops == [] then EMPTY else Step(Run(ops[..|ops| - 1]), ops[|ops| - 1])
  }

  /** The pending entries themselves. */
  function Entries(sent: seq<Entry>, ids: seq<nat>): seq<Entry>
    requires forall i | 0 <= i < |ids| :: ids[i] < |sent|
  {
    seq(|ids|, i requires 0 <= i < |ids| => sent[ids[i]])
  }

  ghost predicate IsNotified(ds: seq<(nat, MultiToken)>, n: nat) { exists i :: 0 <= i < |ds| && ds[i].0 == n }

  /** In the order they were sent, without repetition. */
  ghost predicate Increasing(ids: seq<nat>, bound: nat) {
    && (forall i | 0 <= i < |ids| :: ids[i] < bound)
    && (forall i, j | 0 <= i < j < |ids| :: ids[i] < ids[j])
  }

  /** Nothing is notified twice, or while it lies after the token. */
  ghost predicate OnceAndDue(sent: seq<Entry>, ds: seq<(nat, MultiToken)>) {
    && (forall i | 0 <= i < |ds| :: ds[i].0 < |sent| && !PersistedAfter(sent[ds[i].0].pos, ds[i].1))
    && (forall i, j | 0 <= i < j < |ds| :: ds[i].0 != ds[j].0)
  }

  /** Conservation: every entry sent is pending or notified, never both, and notified at
      most once; pending entries keep the order they were sent in. */
  ghost predicate Conserved(q: Queue) {
    && Increasing(q.pending, |q.sent|)
    && OnceAndDue(q.sent, q.notified)
    && (forall n: nat | n < |q.sent| :: n in q.pending <==> !IsNotified(q.notified, n))
  }

  lemma {:induction false} KeptIdsAre(sent: seq<Entry>, pending: seq<nat>, t: MultiToken)
    requires Increasing(pending, |sent|)
    ensures forall n :: n in KeptIds(sent, pending, t) <==> n in pending && n < |sent| && PersistedAfter(sent[n].pos, t)
  {
    if pending != [] {
      var last := |pending| - 1;
      KeptIdsAre(sent, pending[..last], t);
      assert pending == pending[..last] + [pending[last]];
    }
  }

  lemma {:induction false} KeptIdsIncrease(sent: seq<Entry>, pending: seq<nat>, t: MultiToken)
    requires Increasing(pending, |sent|)
    ensures Increasing(KeptIds(sent, pending, t), |sent|)
  {
    if pending != [] {
      var last := |pending| - 1;
      KeptIdsIncrease(sent, pending[..last], t);
      KeptIdsAre(sent, pending[..last], t);
      var kept := KeptIds(sent, pending[..last], t);
      forall i | 0 <= i < |kept| ensures kept[i] < pending[last] { assert kept[i] in kept
          && kept[i] in pending[..last]; }
    }
  }

  lemma NotifiedOneMore(ds: seq<(nat, MultiToken)>, m: nat, t: MultiToken, n: nat)
    ensures IsNotified(ds + [(m, t)], n) <==> IsNotified(ds, n) || n == m
  {
    var more := ds + [(m, t)];
    assert more[|ds|].0 == m;
    if IsNotified(ds, n) {
      var i :| 0 <= i < |ds| && ds[i].0 == n;
      assert more[i].0 == n;
    }
  }

  lemma {:induction false} DueIdIs(sent: seq<Entry>, pending: seq<nat>, t: MultiToken, n: nat)
    requires Increasing(pending, |sent|)
    ensures IsNotified(DueIds(sent, pending, t), n) <==> n in pending && !PersistedAfter(sent[n].pos, t)
  {
    if pending != [] {
      var last := |pending| - 1;
      DueIdIs(sent, pending[..last], t, n);
      assert pending == pending[..last] + [pending[last]];
      NotifiedOneMore(DueIds(sent, pending[..last], t), pending[last], t, n);
      if PersistedAfter(sent[pending[last]].pos, t) {
        assert DueIds(sent, pending, t) == DueIds(sent, pending[..last], t);
      }
    }
  }

  lemma {:induction false} DueIdsOnce(sent: seq<Entry>, pending: seq<nat>, t: MultiToken)
    requires Increasing(pending, |sent|)
    ensures OnceAndDue(sent, DueIds(sent, pending, t))
  {
    if pending != [] {
      var last := |pending| - 1;
      var before := DueIds(sent, pending[..last], t);
      DueIdsOnce(sent, pending[..last], t);
      forall i | 0 <= i < |before| ensures before[i].0 != pending[last] {
        assert IsNotified(before, before[i].0);
        DueIdIs(sent, pending[..last], t, before[i].0);
      }
      if PersistedAfter(sent[pending[last]].pos, t) {
        assert DueIds(sent, pending, t) == before;
      }
    }
  }

  lemma DueIdsAre(sent: seq<Entry>, pending: seq<nat>, t: MultiToken)
    requires Increasing(pending, |sent|)
    ensures OnceAndDue(sent, DueIds(sent, pending, t))
    ensures forall n: nat :: IsNotified(DueIds(sent, pending, t), n) <==>
              n in pending && !PersistedAfter(sent[n].pos, t)
  {
    DueIdsOnce(sent, pending, t);
    forall n: nat
      ensures IsNotified(DueIds(sent, pending, t), n) <==> n in pending && !PersistedAfter(sent[n].pos, t)
    {
      DueIdIs(sent, pending, t, n);
    }
  }

  lemma NotifiedOfSum(a: seq<(nat, MultiToken)>, b: seq<(nat, MultiToken)>)
    ensures forall n: nat :: IsNotified(a + b, n) <==> IsNotified(a, n) || IsNotified(b, n)
  {
    forall n: nat ensures IsNotified(a + b, n) <==> IsNotified(a, n) || IsNotified(b, n) {
      if IsNotified(a, n) { var i :| 0 <= i < |a| && a[i].0 == n; assert (a + b)[i].0 == n; }
      if IsNotified(b, n) { var i :| 0 <= i < |b| && b[i].0 == n; assert (a + b)[|a| + i].0 == n; }
    }
  }

  lemma DrainConserves(q: Queue, t: MultiToken)
    requires Conserved(q)
    ensures Conserved(Step(q, Drain(t)))
  {
    var due := DueIds(q.sent, q.pending, t);
    KeptIdsAre(q.sent, q.pending, t);
    KeptIdsIncrease(q.sent, q.pending, t);
    DueIdsAre(q.sent, q.pending, t);
    NotifiedOfSum(q.notified, due);
    forall i, j | 0 <= i < |q.notified| && 0 <= j < |due| ensures q.notified[i].0 != due[j].0 {
      assert IsNotified(q.notified, q.notified[i].0) && IsNotified(due, due[j].0);
    }
  }

  lemma EnqueueConserves(q: Queue, e: Entry)
    requires Conserved(q)
    ensures Conserved(Step(q, Enqueue(e)))
  {
  }

  /** Over every interleaving of enqueues and drains the queue conserves its entries. */
  lemma {:induction false} QueueConserves(ops: seq<Op>)
    ensures Conserved(Run(ops))
  {
    if ops != [] {
      QueueConserves(ops[..|ops| - 1]);
      match ops[|ops| - 1]
      case Enqueue(e) => EnqueueConserves(Run(ops[..|ops| - 1]), e);
      case Drain(t) => DrainConserves(Run(ops[..|ops| - 1]), t);
    }
  }

  // ---- Monotone tokens ----

  ghost predicate Monotone(ops: seq<Op>) {
    forall i, j | 0 <= i < j < |ops| && ops[i].Drain? && ops[j].Drain? :: BeforeOrEq(ops[i].token, ops[j].token)
  }

  /** With tokens that only move forward, what is pending after a drain lies after every
      token drained so far: nothing that was ever due is left behind. */
  lemma NothingDueIsLeft(ops: seq<Op>, n: nat, i: nat)
    requires ops != [] && ops[|ops| - 1].Drain? && Monotone(ops)
    requires n in Run(ops).pending && i < |ops| && ops[i].Drain?
    ensures n < |Run(ops).sent| && PersistedAfter(Run(ops).sent[n].pos, ops[i].token)
  {
    var last := |ops| - 1;
    var q := Run(ops[..last]);
    QueueConserves(ops[..last]);
    KeptIdsAre(q.sent, q.pending, ops[last].token);
    if i < last { AfterIsDownwardClosed(q.sent[n].pos, ops[i].token, ops[last].token); }
  }

  // ---- The history forgotten ----

  /** The list the notifier holds is the history with the names left out. */
  lemma {:induction false} KeptForgetsNames(sent: seq<Entry>, ids: seq<nat>, t: MultiToken)
    requires Increasing(ids, |sent|)
    ensures Increasing(KeptIds(sent, ids, t), |sent|)
    ensures Entries(sent, KeptIds(sent, ids, t)) == Kept(Entries(sent, ids), t)
  {
    KeptIdsIncrease(sent, ids, t);
    if ids != [] {
      var last := |ids| - 1;
      KeptForgetsNames(sent, ids[..last], t);
      assert Entries(sent, ids)[..last] == Entries(sent, ids[..last]);
    }
  }

  /** The entries of notifications. */
  function EntriesOf(sent: seq<Entry>, ds: seq<(nat, MultiToken)>): seq<Entry>
    requires forall i | 0 <= i < |ds| :: ds[i].0 < |sent|
  {
    seq(|ds|, i requires 0 <= i < |ds| => sent[ds[i].0])
  }

  lemma EntriesOfSum(sent: seq<Entry>, ds: seq<(nat, MultiToken)>, es: seq<(nat, MultiToken)>)
    requires forall i | 0 <= i < |ds| :: ds[i].0 < |sent|
    requires forall i | 0 <= i < |es| :: es[i].0 < |sent|
    ensures EntriesOf(sent, ds + es) == EntriesOf(sent, ds) + EntriesOf(sent, es)
  {
  }

  /** What a drain notifies, by name, is what the list without names gives as due. */
  lemma {:induction false} DueForgetsNames(sent: seq<Entry>, ids: seq<nat>, t: MultiToken)
    requires Increasing(ids, |sent|)
    ensures OnceAndDue(sent, DueIds(sent, ids, t))
    ensures EntriesOf(sent, DueIds(sent, ids, t)) == Due(Entries(sent, ids), t)
  {
    DueIdsAre(sent, ids, t);
    if ids != [] {
      var last := |ids| - 1;
      var before := DueIds(sent, ids[..last], t);
      DueForgetsNames(sent, ids[..last], t);
      assert Entries(sent, ids)[..last] == Entries(sent, ids[..last]);
      if PersistedAfter(sent[ids[last]].pos, t) {
        assert DueIds(sent, ids, t) == before;
      } else {
        EntriesOfSum(sent, before, [(ids[last], t)]);
        assert EntriesOf(sent, [(ids[last], t)]) == [sent[ids[last]]];
      }
    }
  }

  /** A list of waiting entries and the entries delivered so far, as the history has them. */
  ghost predicate Tracks(q: Queue, pending: seq<Entry>, delivered: seq<Entry>) {
    && Conserved(q)
    && pending == Entries(q.sent, q.pending)
    && delivered == EntriesOf(q.sent, q.notified)
  }

  lemma EnqueueTracks(q: Queue, pending: seq<Entry>, delivered: seq<Entry>, e: Entry)
    requires Tracks(q, pending, delivered)
    ensures Tracks(Step(q, Enqueue(e)), pending + [e], delivered)
  {
    EnqueueConserves(q, e);
    var r := Step(q, Enqueue(e));
    assert Entries(r.sent, r.pending) == pending + [e];
    assert EntriesOf(r.sent, r.notified) == delivered;
  }

  lemma DrainTracks(q: Queue, pending: seq<Entry>, delivered: seq<Entry>, t: MultiToken)
    requires Tracks(q, pending, delivered)
    ensures Tracks(Step(q, Drain(t)), Kept(pending, t), delivered + Due(pending, t))
  {
    DrainConserves(q, t);
    KeptForgetsNames(q.sent, q.pending, t);
    DueForgetsNames(q.sent, q.pending, t);
    EntriesOfSum(q.sent, q.notified, DueIds(q.sent, q.pending, t));
  }
}
