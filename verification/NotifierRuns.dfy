/** The notifier as a whole: streams and queue together, over runs that mix everything. */
module NotifierRuns {
  import opened Matrix
  import opened StreamTokens
  import Q = PendingQueue
  import D = Delivery
  import H = Hub
  import W = WakeUps

  /** The state of the notifier: its streams, and the room events that wait. */
  datatype State<S, L> = State(hub: H.Hub<S, L>, pending: seq<Q.Entry>)

  datatype Op<S, L> =
    | OnStreams(op: H.Op<S, L>)
    | Enqueue(entry: Q.Entry)
    | Drain(max: MultiToken, token: StreamToken, now: int)

  function Step<S(==), L(==)>(st: State<S, L>, op: Op<S, L>): State<S, L> {
    match op
    case OnStreams(o) => State(H.Step(st.hub, o), st.pending)
    case Enqueue(e) => State(st.hub, st.pending + [e])
    case Drain(max, token, now) =>
      State(D.Deliver(st.hub, Q.Due(st.pending, max), token, now), Q.Kept(st.pending, max))
  }

  function Run<S(==), L(==)>(st: State<S, L>, ops: seq<Op<S, L>>): State<S, L> {
    if ops == [] then st else Step(Run(st, ops[..|ops| - 1]), ops[|ops| - 1])
  }

  // ---- The streams ----

  /** The steps the streams go through, with every drain taken apart. */
  function StreamOps<S(==), L(==)>(st: State<S, L>, ops: seq<Op<S, L>>): seq<H.Op<S, L>> {
    if ops == [] then []
    else
      var init := ops[..|ops| - 1];
      StreamOps(st, init) + StepOps(Run(st, init), ops[|ops| - 1])
  }

  function StepOps<S(==), L(==)>(st: State<S, L>, op: Op<S, L>): seq<H.Op<S, L>> {
    match op
    case OnStreams(o) => [o]
    case Enqueue(_) => []
    case Drain(max, token, now) => D.DeliveryOps(Q.Due(st.pending, max), token, now)
  }

  lemma StepIsRun<S, L>(st: State<S, L>, op: Op<S, L>)
    ensures Step(st, op).hub == H.Run(st.hub, StepOps(st, op))
  {
    match op
    case OnStreams(o) => assert [o][..0] == [];
    case Enqueue(_) =>
    case Drain(max, token, now) => D.DeliveryIsRun(st.hub, Q.Due(st.pending, max), token, now);
  }

  /** What the streams go through is a run of theirs, with drains among the steps. */
  lemma {:induction false} StreamsRun<S, L>(st: State<S, L>, ops: seq<Op<S, L>>)
    ensures Run(st, ops).hub == H.Run(st.hub, StreamOps(st, ops))
  {
    if ops != [] {
      var init := ops[..|ops| - 1];
      StreamsRun(st, init);
      StepIsRun(Run(st, init), ops[|ops| - 1]);
      H.RunInTwo(st.hub, StreamOps(st, init), StepOps(Run(st, init), ops[|ops| - 1]));
    }
  }

  lemma StreamsAreSound<S, L>(st: State<S, L>, ops: seq<Op<S, L>>)
    requires H.Sound(st.hub)
    ensures H.Sound(Run(st, ops).hub)
  {
    StreamsRun(st, ops);
    H.RunIsSound(st.hub, StreamOps(st, ops));
  }

  /** A listener woken or cancelled is so ever after, through drains as well. */
  lemma ResolvedForGood<S, L>(st: State<S, L>, ops: seq<Op<S, L>>, id: L)
    requires H.Sound(st.hub) && id in st.hub.outcome && !st.hub.outcome[id].Waiting?
    ensures id in Run(st, ops).hub.outcome && Run(st, ops).hub.outcome[id] == st.hub.outcome[id]
  {
    StreamsRun(st, ops);
    H.ResolvedOnce(st.hub, StreamOps(st, ops), id);
  }

  /** A listener that still waits at the end of a run was not meant by any notification in
      it, and the token of its stream never moved. */
  lemma StillWaitingForGood<S, L>(st: State<S, L>, ops: seq<Op<S, L>>, id: L, i: nat)
    requires H.Sound(st.hub) && id in st.hub.outcome
    requires id in Run(st, ops).hub.outcome && Run(st, ops).hub.outcome[id].Waiting?
    ensures Run(st, ops).hub.outcome[id] == st.hub.outcome[id]
    ensures st.hub.outcome[id].on in Run(st, ops).hub.streams
    ensures Run(st, ops).hub.streams[st.hub.outcome[id].on].token == st.hub.outcome[id].since
    ensures i < |StreamOps(st, ops)| && StreamOps(st, ops)[i].DoNotify? ==>
              var op := StreamOps(st, ops)[i];
              st.hub.outcome[id].on !in H.Targets(H.At(st.hub, StreamOps(st, ops), i), op.users, op.targetRooms)
  {
    StreamsRun(st, ops);
    var all := StreamOps(st, ops);
    if all != [] {
      H.StillWaitingMeansUntouched(st.hub, all, id, if i < |all| then i else 0);
    }
  }

  // ---- Wake-ups ----

  function At<S(==), L(==)>(st: State<S, L>, ops: seq<Op<S, L>>, i: nat): State<S, L>
    requires i <= |ops|
  {
    Run(st, ops[..i])
  }

  lemma AtNext<S, L>(st: State<S, L>, ops: seq<Op<S, L>>, i: nat)
    requires i < |ops|
    ensures At(st, ops, i + 1) == Step(At(st, ops, i), ops[i])
  {
    assert ops[..i + 1][..i] == ops[..i];
  }

  /** Enqueuing and draining are always safe; a step of the streams where it is. */
  predicate Safe<S(==), L(==)>(st: State<S, L>, op: Op<S, L>) {
    op.OnStreams? ==> W.KeepsAttended(st.hub, op.op)
  }

  lemma StepLosesNothingIff<S, L>(st: State<S, L>, op: Op<S, L>)
    requires H.Sound(st.hub) && W.NothingLost(st.hub)
    ensures W.NothingLost(Step(st, op).hub) <==> Safe(st, op)
  {
    match op
    case OnStreams(o) =>
      W.NothingLostIff(st.hub);
      H.StepKeepsSound(st.hub, o);
      W.NothingLostIff(H.Step(st.hub, o));
      W.StepKeepsAttendedIff(st.hub, o);
    case Enqueue(_) =>
    case Drain(max, token, now) => D.DeliveryLosesNothing(st.hub, Q.Due(st.pending, max), token, now);
  }

  lemma {:induction false} SafeRunLosesNothing<S, L>(st: State<S, L>, ops: seq<Op<S, L>>, i: nat)
    requires H.Sound(st.hub) && W.NothingLost(st.hub) && i <= |ops|
    requires forall j | 0 <= j < |ops| :: Safe(At(st, ops, j), ops[j])
    ensures W.NothingLost(At(st, ops, i).hub)
  {
    if i > 0 {
      SafeRunLosesNothing(st, ops, i - 1);
      StreamsAreSound(st, ops[..i - 1]);
      AtNext(st, ops, i - 1);
      StepLosesNothingIff(At(st, ops, i - 1), ops[i - 1]);
    }
  }

  /** Over every run of the whole notifier, drains included: no wake-up is ever lost exactly
      when no listener was made up to date on a stream that is not registered, and no stream
      with listeners was replaced. */
  lemma NothingEverLostIff<S, L>(st: State<S, L>, ops: seq<Op<S, L>>)
    requires H.Sound(st.hub) && W.NothingLost(st.hub)
    ensures (forall i | 0 <= i <= |ops| :: W.NothingLost(At(st, ops, i).hub)) <==>
            (forall i | 0 <= i < |ops| :: Safe(At(st, ops, i), ops[i]))
  {
    if forall i | 0 <= i <= |ops| :: W.NothingLost(At(st, ops, i).hub) {
      forall i | 0 <= i < |ops| ensures Safe(At(st, ops, i), ops[i]) {
        assert W.NothingLost(At(st, ops, i).hub) && W.NothingLost(At(st, ops, i + 1).hub);
        StreamsAreSound(st, ops[..i]);
        AtNext(st, ops, i);
        StepLosesNothingIff(At(st, ops, i), ops[i]);
      }
    }
    if forall i | 0 <= i < |ops| :: Safe(At(st, ops, i), ops[i]) {
      forall i | 0 <= i <= |ops| ensures W.NothingLost(At(st, ops, i).hub) {
        SafeRunLosesNothing(st, ops, i);
      }
    }
  }

  // ---- The queue ----

  function QueueOps<S, L>(ops: seq<Op<S, L>>): seq<Q.Op> {
    if ops == [] then []
    else
      QueueOps(ops[..|ops| - 1]) +
      match ops[|ops| - 1]
      case OnStreams(_) => []
      case Enqueue(e) => [Q.Enqueue(e)]
      case Drain(max, _, _) => [Q.Drain(max)]
  }

  /** Everything delivered in a run, in order. */
  function Delivered<S(==), L(==)>(st: State<S, L>, ops: seq<Op<S, L>>): seq<Q.Entry> {
    if ops == [] then []
    else
      var init := ops[..|ops| - 1];
      if ops[|ops| - 1].Drain? then Delivered(st, init) + Q.Due(Run(st, init).pending, ops[|ops| - 1].max)
      else Delivered(st, init)
  }

  lemma QueueOpsStep<S, L>(ops: seq<Op<S, L>>)
    requires ops != []
    ensures var q := Q.Run(QueueOps(ops[..|ops| - 1]));
            Q.Run(QueueOps(ops)) ==
            match ops[|ops| - 1]
            case OnStreams(_) => q
            case Enqueue(e) => Q.Step(q, Q.Enqueue(e))
            case Drain(max, _, _) => Q.Step(q, Q.Drain(max))
  {
    var before := QueueOps(ops[..|ops| - 1]);
    match ops[|ops| - 1]
    case OnStreams(_) => assert before + [] == before;
    case Enqueue(e) => assert (before + [Q.Enqueue(e)])[..|before|] == before;
    case Drain(max, _, _) => assert (before + [Q.Drain(max)])[..|before|] == before;
  }

  /** Over every run the list the notifier holds, and what it delivers, are those of the queue
      with its history, whose entries are each pending or notified once. */
  lemma {:induction false} QueueRuns<S, L>(st: State<S, L>, ops: seq<Op<S, L>>)
    requires st.pending == []
    ensures Q.Tracks(Q.Run(QueueOps(ops)), Run(st, ops).pending, Delivered(st, ops))
  {
    if ops != [] {
      var init := ops[..|ops| - 1];
      var q, pending, delivered := Q.Run(QueueOps(init)), Run(st, init).pending, Delivered(st, init);
      QueueRuns(st, init);
      QueueOpsStep(ops);
      match ops[|ops| - 1]
      case OnStreams(_) =>
      case Enqueue(e) => Q.EnqueueTracks(q, pending, delivered, e);
      case Drain(max, _, _) => Q.DrainTracks(q, pending, delivered, max);
    }
  }
}
