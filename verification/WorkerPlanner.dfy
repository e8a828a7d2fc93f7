/** The loop that turns requested worker types into workers, with its counters and its
    dictionary of workers by name. */
module WorkerPlanner {
  import opened Matrix
  import opened Decimal
  import opened WorkerNames

  /** Looks at the types of one worker in turn and counts them. */
  method CheckTypes(types: set<string>, shards: map<string, nat>) returns (ok: bool, counted: map<string, nat>)
    ensures ok <==> types <= KNOWN_TYPES && forall t | t in types && t in shards :: ShardingAllowed(t)
    ensures ok ==> counted.Keys == shards.Keys + types
    ensures ok ==> forall t | t in counted :: counted[t] == CountOf(shards, t) + if t in types then 1 else 0
  {
    counted := shards;
    var left := types;
    while left != {}
      invariant left <= types && counted.Keys == shards.Keys + (types - left)
      invariant forall t | t in types - left :: t in KNOWN_TYPES && (t in shards ==> ShardingAllowed(t))
      invariant forall t | t in counted :: counted[t] == CountOf(shards, t) + if t in types - left then 1 else 0
      decreases left
    {
      var t :| t in left;
      if t !in KNOWN_TYPES || (t in counted && !ShardingAllowed(t)) {
        return false, counted;
      }
      counted := counted[t := CountOf(counted, t) + 1];
      left := left - {t};
    }
    ok := true;
  }

  /** A counter that starts at zero. */
  function CountOf(counter: map<string, nat>, key: string): nat {
    if key in counter then counter[key] else 0
  }

  // ---- What the loop keeps ----

  ghost predicate CounterAgrees(plans: seq<Plan>, counter: map<string, nat>) {
    forall base: string :: CountOf(counter, base) == Count(plans, base, |plans|)
  }

  ghost predicate ShardsAgree(plans: seq<Plan>, shards: map<string, nat>) {
    forall t: string :: t in shards <==> exists i | 0 <= i < |plans| :: t in plans[i].types
  }

  ghost predicate DictAgrees(plans: seq<Plan>, dict: map<string, Worker>, order: seq<string>) {
    && |order| == |plans|
    && (forall i | 0 <= i < |plans| :: order[i] == WorkerAt(plans, i).name)
    && (forall i | 0 <= i < |plans| :: order[i] in dict && dict[order[i]] == WorkerAt(plans, i))
    && (forall name | name in dict :: name in order)
  }

  lemma CounterStep(plans: seq<Plan>, p: Plan, counter: map<string, nat>)
    requires CounterAgrees(plans, counter)
    ensures CounterAgrees(plans + [p], counter[p.base := CountOf(counter, p.base) + 1])
    ensures WorkerAt(plans + [p], |plans|).index == CountOf(counter, p.base) + 1
  {
    var more := plans + [p];
    var next := counter[p.base := CountOf(counter, p.base) + 1];
    forall base: string ensures CountOf(next, base) == Count(more, base, |more|) {
      CountPrefix(plans, more, base, |plans|);
      assert CountOf(counter, base) == Count(plans, base, |plans|);
    }
  }

  lemma ShardsStep(plans: seq<Plan>, p: Plan, shards: map<string, nat>, counted: map<string, nat>)
    requires ShardsAgree(plans, shards) && counted.Keys == shards.Keys + p.types
    ensures ShardsAgree(plans + [p], counted)
  {
    var more := plans + [p];
    forall t: string ensures t in counted <==> exists i | 0 <= i < |more| :: t in more[i].types {
      if t in shards {
        var i :| 0 <= i < |plans| && t in plans[i].types;
        assert t in more[i].types;
      }
      if t in p.types {
        assert t in more[|plans|].types;
      }
      if i :| 0 <= i < |more| && t in more[i].types {
        assert i < |plans| ==> t in plans[i].types;
      }
    }
  }

  lemma WorkersStay(plans: seq<Plan>, p: Plan, i: nat)
    requires i < |plans|
    ensures WorkerAt(plans + [p], i) == WorkerAt(plans, i)
  {
    CountPrefix(plans, plans + [p], plans[i].base, i + 1);
  }

  /** The name of the next worker is not taken, so no entry is overwritten. */
  lemma DictStep(plans: seq<Plan>, p: Plan, dict: map<string, Worker>, order: seq<string>)
    requires DictAgrees(plans, dict, order) && NumberableBases(plans + [p])
    ensures var w := WorkerAt(plans + [p], |plans|);
            w.name !in dict && DictAgrees(plans + [p], dict[w.name := w], order + [w.name])
  {
    var more := plans + [p];
    var w := WorkerAt(more, |plans|);
    forall i | 0 <= i < |plans| ensures order[i] != w.name && WorkerAt(more, i) == WorkerAt(plans, i) {
      WorkersStay(plans, p, i);
      NamesAreDistinct(more, i, |plans|);
    }
  }

  lemma FirstOf(plans: seq<Plan>, dict: map<string, Worker>, order: seq<string>, base: string) returns (i: nat)
    requires DictAgrees(plans, dict, order) && Count(plans, base, |plans|) > 0
    ensures i < |plans| && plans[i].base == base
    ensures base + "1" in dict && dict[base + "1"].types == plans[i].types
  {
    i := NumbersAreTaken(plans, base, |plans|, 1);
    assert PrintNat(1) == "1";
    assert order[i] == base + "1";
  }

  /** The checks made for one worker, each against what came before it as a whole. */
  lemma ConsistentStep(plans: seq<Plan>, p: Plan, shards: map<string, nat>)
    requires Consistent(plans) && ShardsAgree(plans, shards) && p.types <= KNOWN_TYPES
    requires forall t | t in p.types && t in shards :: ShardingAllowed(t)
    requires forall i | 0 <= i < |plans| && plans[i].base == p.base :: plans[i].types == p.types
    ensures Consistent(plans + [p])
  {
  }

  lemma SameTypesAsFirst(plans: seq<Plan>, p: Plan, first: nat)
    requires Consistent(plans) && first < |plans| && plans[first].base == p.base && plans[first].types == p.types
    ensures forall i | 0 <= i < |plans| && plans[i].base == p.base :: plans[i].types == p.types
  {
  }

  ghost predicate ReadSoFar(list: seq<string>, plans: seq<Plan>) {
    |plans| <= |list| && forall i | 0 <= i < |plans| :: Parsed(list[i]) == Some(plans[i])
  }

  lemma PlannableAt(list: seq<string>, i: nat, j: nat)
    requires Plannable(list) && i < |list| && j < |list|
    ensures Parsed(list[i]).value.types <= KNOWN_TYPES
    ensures i < j ==> Compatible(Parsed(list[i]).value, Parsed(list[j]).value)
  {
    assert Plans(list)[i] == Parsed(list[i]).value && Plans(list)[j] == Parsed(list[j]).value;
  }

  lemma BadTypes(list: seq<string>, plans: seq<Plan>, p: Plan, shards: map<string, nat>)
    requires ReadSoFar(list, plans) && |plans| < |list| && Parsed(list[|plans|]) == Some(p)
    requires ShardsAgree(plans, shards)
    requires !(p.types <= KNOWN_TYPES && forall t | t in p.types && t in shards :: ShardingAllowed(t))
    ensures !Plannable(list)
  {
    if Plannable(list) {
      forall t | t in p.types && t in shards ensures ShardingAllowed(t) {
        var i :| 0 <= i < |plans| && t in plans[i].types;
        PlannableAt(list, i, |plans|);
      }
      PlannableAt(list, |plans|, |plans|);
    }
  }

  lemma MixedTypes(list: seq<string>, plans: seq<Plan>, p: Plan, first: nat)
    requires ReadSoFar(list, plans) && |plans| < |list| && Parsed(list[|plans|]) == Some(p)
    requires first < |plans| && plans[first].base == p.base && plans[first].types != p.types
    ensures !Plannable(list)
  {
    if Plannable(list) {
      PlannableAt(list, first, |plans|);
    }
  }

  lemma AllRead(list: seq<string>, plans: seq<Plan>)
    requires ReadSoFar(list, plans) && |plans| == |list| && Consistent(plans)
    ensures Plannable(list) && plans == Plans(list)
  {
  }

  // ---- The loop ----

  /** The counters and the dictionary after the workers planned so far. */
  datatype Ledger = Ledger(
    counter: map<string, nat>,
    shards: map<string, nat>,
    dict: map<string, Worker>,
    order: seq<string>) // the keys of the dictionary as they came

  ghost predicate Agrees(plans: seq<Plan>, l: Ledger) {
    && Consistent(plans) && NumberableBases(plans)
    && CounterAgrees(plans, l.counter) && ShardsAgree(plans, l.shards) && DictAgrees(plans, l.dict, l.order)
  }

  /** One round: the checks, and the next worker. */
  method AddWorker(p: Plan, l: Ledger, ghost list: seq<string>, ghost plans: seq<Plan>)
    returns (next: Option<Ledger>)
    requires Agrees(plans, l) && ReadSoFar(list, plans)
    requires |plans| < |list| && Parsed(list[|plans|]) == Some(p)
    ensures next.Some? ==> Agrees(plans + [p], next.value)
    ensures next.None? ==> !Plannable(list)
  {
    var ok, counted := CheckTypes(p.types, l.shards);
    if !ok {
      BadTypes(list, plans, p, l.shards);
      return None;
    }
    BaseNameEnds(list[|plans|]);
    var number := CountOf(l.counter, p.base) + 1;
    if number > 1 {
      ghost var first := FirstOf(plans, l.dict, l.order, p.base);
      if l.dict[p.base + "1"].types != p.types {
        MixedTypes(list, plans, p, first);
        return None;
      }
      SameTypesAsFirst(plans, p, first);
    } else {
      NoneYet(plans, p.base);
    }
    var w := Worker(p.base + PrintNat(number), p.base, number, p.types);
    LedgerStep(plans, p, l, counted, w);
    var order := if w.name in l.dict then l.order else l.order + [w.name];
    return Some(Ledger(l.counter[p.base := number], counted, l.dict[w.name := w], order));
  }

  lemma BasesStep(plans: seq<Plan>, p: Plan)
    requires NumberableBases(plans) && EndsInNonDigit(p.base)
    ensures NumberableBases(plans + [p])
  {
  }

  lemma LedgerStep(plans: seq<Plan>, p: Plan, l: Ledger, counted: map<string, nat>, w: Worker)
    requires Agrees(plans, l) && counted.Keys == l.shards.Keys + p.types
    requires p.types <= KNOWN_TYPES && EndsInNonDigit(p.base)
    requires forall t | t in p.types && t in l.shards :: ShardingAllowed(t)
    requires forall i | 0 <= i < |plans| && plans[i].base == p.base :: plans[i].types == p.types
    requires w.base == p.base && w.types == p.types && w.index == CountOf(l.counter, p.base) + 1
    requires w.name == w.base + PrintNat(w.index)
    ensures w.name !in l.dict
    ensures Agrees(plans + [p], Ledger(l.counter[p.base := w.index], counted, l.dict[w.name := w], l.order + [w.name]))
  {
    ConsistentStep(plans, p, l.shards);
    BasesStep(plans, p);
    CounterStep(plans, p, l.counter);
    ShardsStep(plans, p, l.shards, counted);
    assert w == WorkerAt(plans + [p], |plans|);
    DictStep(plans, p, l.dict, l.order);
  }

  lemma NothingPlanned()
    ensures Agrees([], Ledger(map[], map[], map[], []))
  {
  }

  /** The dictionary, read in the order its keys came, lists the workers planned. */
  lemma LedgerIs(plans: seq<Plan>, l: Ledger)
    requires DictAgrees(plans, l.dict, l.order)
    ensures forall k | 0 <= k < |l.order| :: l.order[k] in l.dict
    ensures seq(|l.order|, k requires 0 <= k < |l.order| => l.dict[l.order[k]]) == WorkersOf(plans)
  {
  }

  lemma Unread(list: seq<string>, i: nat)
    requires i < |list| && Parsed(list[i]).None?
    ensures !Plannable(list)
  {
  }

  lemma ReadOneMore(list: seq<string>, plans: seq<Plan>, p: Plan)
    requires ReadSoFar(list, plans) && |plans| < |list| && Parsed(list[|plans|]) == Some(p)
    ensures ReadSoFar(list, plans + [p])
  {
  }

  method PlanWorkers(list: seq<string>) returns (r: Option<seq<Worker>>)
    ensures r.Some? <==> Plannable(list)
    ensures r.Some? ==> r.value == WorkersOf(Plans(list))
  {
    var l := Ledger(map[], map[], map[], []);
    ghost var plans: seq<Plan> := [];
    NothingPlanned();
    var i := 0;
    while i < |list|
      invariant 0 <= i <= |list| && |plans| == i
      invariant ReadSoFar(list, plans) && Agrees(plans, l)
    {
      var parsed := Parsed(list[i]);
      if parsed.None? {
        Unread(list, i);
        return None;
      }
      var next := AddWorker(parsed.value, l, list, plans);
      if next.None? {
        return None;
      }
      ReadOneMore(list, plans, parsed.value);
      l := next.value;
      plans := plans + [parsed.value];
      i := i + 1;
    }
    AllRead(list, plans);
    LedgerIs(plans, l);
    return Some(seq(|l.order|, k requires 0 <= k < |l.order| => l.dict[l.order[k]]));
  }

  lemma {:induction false} NoneYet(plans: seq<Plan>, base: string)
    requires Count(plans, base, |plans|) == 0
    ensures forall i | 0 <= i < |plans| :: plans[i].base != base
  {
    forall i | 0 <= i < |plans| ensures plans[i].base != base {
      CountGrows(plans, base, i + 1, |plans|);
    }
  }

  /** The list of workers, or nothing where the source stops with an error. */
  method ParseWorkerTypes(requests: seq<string>, readInt: IntReader) returns (r: Option<seq<Worker>>)
    ensures r.Some? <==> Expanded(requests, readInt).Some? && Plannable(Expanded(requests, readInt).value)
    ensures r.Some? ==> r.value == WorkersOf(Plans(Expanded(requests, readInt).value))
    ensures r.Some? ==> Expanded(requests, readInt).Some?
                        && (forall i | 0 <= i < |requests| :: Multiplier(requests[i], readInt).Some?)
                        && |r.value| == Total(requests, readInt)
  {
    var list := ApplyMultipliers(requests, readInt);
    if list.None? {
      return None;
    }
    ExpandedLength(requests, readInt);
    r := PlanWorkers(list.value);
  }
}
