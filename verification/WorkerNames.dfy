/** From the requested worker types to the list of workers: multipliers, names, numbers and
    the checks that stop a bad request. */
module WorkerNames {
  import opened Matrix
  import opened Decimal
  import opened SortedEntries

  const KNOWN_TYPES: set<string> := {
    "pusher", "user_dir", "media_repository", "appservice", "federation_sender", "synchrotron", "client_reader",
    "federation_reader", "federation_inbound", "event_persister", "background_worker", "event_creator",
    "account_data", "presence", "receipts", "to_device", "device_lists", "typing", "push_rules",
    "thread_subscriptions"
  }

  const SINGLE_TYPES: set<string> :=
    {"background_worker", "account_data", "presence", "receipts", "typing", "to_device"}

  predicate ShardingAllowed(t: string) { t !in SINGLE_TYPES }

  // ---- Strings ----

  predicate IsSpace(c: char) { c == ' ' || '\t' <= c <= '\r' || '\U{1C}' <= c <= '\U{1F}' }

  function TrimLeft(s: string): string {
    if s != [] && IsSpace(s[0]) then TrimLeft(s[1..]) else s
  }

  function TrimRight(s: string): string {
    if s != [] && IsSpace(s[|s| - 1]) then TrimRight(s[..|s| - 1]) else s
  }

  function Strip(s: string): string { TrimRight(TrimLeft(s)) }

  function SplitAndStrip(s: string, c: char): (parts: seq<string>)
    ensures |parts| > 0
    decreases |s|
  {
    match IndexOf(s, c, 0)
    case None => [Strip(s)]
    case Some(i) => [Strip(s[..i])] + SplitAndStrip(s[i + 1..], c)
  }

  // ---- Multipliers ----

  /** How a count is read; `None` where it is not an integer. */
  type IntReader = string -> Option<int>

  /** The name and the count of a request; the count of one without a colon is 1. */
  function Multiplier(request: string, readInt: IntReader): Option<(string, int)> {
    match IndexOf(request, ':', 0)
    case None => Some((request, 1))
    case Some(i) =>
      match readInt(Strip(request[i + 1..]))
      case None => None
      case Some(n) => Some((Strip(request[..i]), n))
  }

  function Times(n: int): nat { if n < 0 then 0 else n }

  function Copies(name: string, n: int): seq<string> { seq(Times(n), _ => name) }

  /** The list with every request repeated; `None` where some count is not an integer. */
  function Expanded(requests: seq<string>, readInt: IntReader): Option<seq<string>> {
    if requests == [] then Some([])
    else
      var n := |requests| - 1;
      match (Expanded(requests[..n], readInt), Multiplier(requests[n], readInt))
      case (Some(list), Some((name, count))) => Some(list + Copies(name, count))
      case _ => None
  }

  method AppendCopies(list: seq<string>, name: string, n: int) returns (r: seq<string>)
    ensures r == list + Copies(name, n)
  {
    r := list;
    var k := 0;
    while k < n
      invariant 0 <= k <= Times(n)
      invariant r == list + Copies(name, k)
    {
      assert Copies(name, k + 1) == Copies(name, k) + [name];
      r := r + [name];
      k := k + 1;
    }
    assert Copies(name, k) == Copies(name, n);
  }

  method ApplyMultipliers(requests: seq<string>, readInt: IntReader) returns (r: Option<seq<string>>)
    ensures r == Expanded(requests, readInt)
  {
    var list := [];
    var i := 0;
    while i < |requests|
      invariant 0 <= i <= |requests|
      invariant Expanded(requests[..i], readInt) == Some(list)
    {
      assert requests[..i + 1][..i] == requests[..i];
      var m := Multiplier(requests[i], readInt);
      if m.None? {
        ExpandedPrefix(requests, readInt, i + 1);
        return None;
      }
      list := AppendCopies(list, m.value.0, m.value.1);
      i := i + 1;
    }
    assert requests[..i] == requests;
    return Some(list);
  }

  lemma {:induction false} ExpandedPrefix(requests: seq<string>, readInt: IntReader, i: nat)
    requires i <= |requests| && Expanded(requests[..i], readInt).None?
    ensures Expanded(requests, readInt).None?
  {
    if i == |requests| {
      assert requests[..i] == requests;
    } else {
      var n := |requests| - 1;
      assert requests[..n][..i] == requests[..i];
      ExpandedPrefix(requests[..n], readInt, i);
    }
  }

  /** Only a count that is no integer is an error: a negative one is not, although the
      comment on the function says so; it counts as zero. */
  lemma {:induction false} MultiplierErrorIff(requests: seq<string>, readInt: IntReader)
    ensures Expanded(requests, readInt).None? <==>
            exists i | 0 <= i < |requests| :: Multiplier(requests[i], readInt).None?
  {
    if requests != [] {
      var n := |requests| - 1;
      MultiplierErrorIff(requests[..n], readInt);
      assert forall i | 0 <= i < n :: requests[..n][i] == requests[i];
    }
  }

  /** Such a request is dropped without a word. */
  lemma NegativeCountIsDropped(readInt: IntReader)
    requires readInt("-1") == Some(-1)
    ensures Expanded(["pusher:-1"], readInt) == Some([])
  {
    var request := "pusher:-1";
    assert request[0..] == request && request[6] == ':';
    assert forall j | 0 <= j < |request| :: request[j] == ':' ==> j == 6;
    assert IndexOf(request, ':', 0) == Some(6);
    assert request[7..] == "-1";
    StripNothing("-1");
    assert Multiplier(request, readInt) == Some((Strip(request[..6]), -1));
    assert [request][..0] == [] && Expanded([], readInt) == Some([]);
    assert [] + Copies(Strip(request[..6]), -1) == [];
  }

  lemma StripNothing(s: string)
    requires s != [] && !IsSpace(s[0]) && !IsSpace(s[|s| - 1])
    ensures Strip(s) == s
  {
  }

  function Total(requests: seq<string>, readInt: IntReader): nat
    requires forall i | 0 <= i < |requests| :: Multiplier(requests[i], readInt).Some?
  {
    if requests == [] then 0
    else
      var n := |requests| - 1;
      Total(requests[..n], readInt) + Times(Multiplier(requests[n], readInt).value.1)
  }

  /** As many entries as the multipliers that are not negative add up to. */
  lemma {:induction false} ExpandedLength(requests: seq<string>, readInt: IntReader)
    requires Expanded(requests, readInt).Some?
    ensures forall i | 0 <= i < |requests| :: Multiplier(requests[i], readInt).Some?
    ensures |Expanded(requests, readInt).value| == Total(requests, readInt)
  {
    MultiplierErrorIff(requests, readInt);
    if requests != [] {
      ExpandedLength(requests[..|requests| - 1], readInt);
    }
  }

  // ---- One worker ----

  /** The name, still without number, and the types of one requested worker. */
  datatype Plan = Plan(base: string, types: set<string>)

  predicate NameChar(c: char) {
    'a' <= c <= 'z' || 'A' <= c <= 'Z' || IsDigit(c) || c == '_' || c == '+' || c == '-'
  }

  predicate ValidName(name: string) {
    (forall c | c in name :: NameChar(c)) && EndsInNonDigit(name)
  }

  function SortedTypes(parts: seq<string>): seq<Binding<()>> {
    if parts == [] then [] else Insert(SortedTypes(parts[..|parts| - 1]), parts[|parts| - 1], ())
  }

  function Joined(types: seq<Binding<()>>): string
    requires types != []
  {
    if |types| == 1 then types[0].key else types[0].key + "+" + Joined(types[1..])
  }

  lemma {:induction false} SortedTypesAre(parts: seq<string>, t: string)
    ensures Sorted(SortedTypes(parts)) && (Binding(t, ()) in SortedTypes(parts) <==> t in parts)
  {
    if parts != [] {
      var n := |parts| - 1;
      SortedTypesAre(parts[..n], t);
      InsertKeepsSorted(SortedTypes(parts[..n]), parts[n], ());
      InsertMembers(SortedTypes(parts[..n]), parts[n], (), Binding(t, ()));
      assert parts == parts[..n] + [parts[n]];
    }
  }

  lemma UnitBinding(b: Binding<()>)
    ensures b == Binding(b.key, ())
  {
    match b.value
    case () =>
  }

  /** The generated base name of a set of types, given by the parts it was read from. */
  function GeneratedName(parts: seq<string>): string
    requires parts != []
  {
    SortedTypesAre(parts, parts[0]);
    Joined(SortedTypes(parts))
  }

  /** The generated name depends on the set of types only, not on order or repetition. */
  lemma GeneratedNameIsOfSet(parts: seq<string>, other: seq<string>)
    requires parts != [] && other != [] && forall t :: t in parts <==> t in other
    ensures GeneratedName(parts) == GeneratedName(other)
  {
    SortedTypesAre(parts, parts[0]);
    SortedTypesAre(other, other[0]);
    forall b: Binding<()> ensures b in SortedTypes(parts) <==> b in SortedTypes(other) {
      UnitBinding(b);
      SortedTypesAre(parts, b.key);
      SortedTypesAre(other, b.key);
    }
    SameMembersSameList(SortedTypes(parts), SortedTypes(other));
  }

  function Parsed(s: string): Option<Plan> {
    var sides := SplitAndStrip(s, '=');
    if |sides| > 2 || (|sides| == 2 && !ValidName(sides[0])) then None
    else
      var parts := SplitAndStrip(if |sides| == 2 then sides[1] else s, '+');
      var types := set t | t in parts;
      Some(Plan(if |sides| == 2 then sides[0] else GeneratedName(parts), types))
  }

  lemma KnownTypesEndInLetters(t: string)
    requires t in KNOWN_TYPES
    ensures EndsInNonDigit(t)
  {
  }

  lemma {:induction false} JoinedEnds(types: seq<Binding<()>>)
    requires types != [] && EndsInNonDigit(types[|types| - 1].key)
    ensures EndsInNonDigit(Joined(types))
  {
    if |types| > 1 {
      JoinedEnds(types[1..]);
    }
  }

  /** No base name ends in a digit, so a number can be put after it. */
  lemma BaseNameEnds(s: string)
    requires Parsed(s).Some? && Parsed(s).value.types <= KNOWN_TYPES
    ensures EndsInNonDigit(Parsed(s).value.base)
  {
    var sides := SplitAndStrip(s, '=');
    if |sides| == 1 {
      var parts := SplitAndStrip(s, '+');
      SortedTypesAre(parts, parts[0]);
      var sorted := SortedTypes(parts);
      var last := sorted[|sorted| - 1];
      UnitBinding(last);
      SortedTypesAre(parts, last.key);
      KnownTypesEndInLetters(last.key);
      JoinedEnds(sorted);
    }
  }

  // ---- All workers ----

  datatype Worker = Worker(name: string, base: string, index: nat, types: set<string>)

  /** How many of the first `n` have this base name. */
  function Count(plans: seq<Plan>, base: string, n: nat): nat
    requires n <= |plans|
  {
    if n == 0 then 0 else Count(plans, base, n - 1) + if plans[n - 1].base == base then 1 else 0
  }

  function WorkerAt(plans: seq<Plan>, i: nat): Worker
    requires i < |plans|
  {
    var index := Count(plans, plans[i].base, i + 1);
    Worker(plans[i].base + PrintNat(index), plans[i].base, index, plans[i].types)
  }

  /** Two workers that can stand in one configuration. */
  predicate Compatible(p: Plan, q: Plan) {
    && (forall t | t in p.types && t in q.types :: ShardingAllowed(t))
    && (p.base == q.base ==> p.types == q.types)
  }

  predicate Readable(list: seq<string>) {
    forall i | 0 <= i < |list| :: Parsed(list[i]).Some?
  }

  function Plans(list: seq<string>): seq<Plan>
    requires Readable(list)
  {
    seq(|list|, i requires 0 <= i < |list| => Parsed(list[i]).value)
  }

  predicate Consistent(plans: seq<Plan>) {
    && (forall i | 0 <= i < |plans| :: plans[i].types <= KNOWN_TYPES)
    && (forall i, j | 0 <= i < j < |plans| :: Compatible(plans[i], plans[j]))
  }

  predicate Plannable(list: seq<string>) { Readable(list) && Consistent(Plans(list)) }

  function WorkersOf(plans: seq<Plan>): seq<Worker> {
    seq(|plans|, i requires 0 <= i < |plans| => WorkerAt(plans, i))
  }

  lemma {:induction false} CountPrefix(plans: seq<Plan>, more: seq<Plan>, base: string, n: nat)
    requires n <= |plans| <= |more| && forall i | 0 <= i < n :: plans[i] == more[i]
    ensures Count(plans, base, n) == Count(more, base, n)
  {
    if n > 0 {
      CountPrefix(plans, more, base, n - 1);
    }
  }

  lemma {:induction false} CountGrows(plans: seq<Plan>, base: string, m: nat, n: nat)
    requires m <= n <= |plans|
    ensures Count(plans, base, m) <= Count(plans, base, n)
  {
    if m < n {
      CountGrows(plans, base, m, n - 1);
    }
  }

  /** Each number up to the count is taken by one worker of that base name. */
  lemma {:induction false} NumbersAreTaken(plans: seq<Plan>, base: string, n: nat, k: nat) returns (i: nat)
    requires n <= |plans| && 1 <= k <= Count(plans, base, n)
    ensures i < n && plans[i].base == base && WorkerAt(plans, i).index == k
  {
    if plans[n - 1].base == base && k == Count(plans, base, n) {
      i := n - 1;
    } else {
      i := NumbersAreTaken(plans, base, n - 1, k);
    }
  }

  ghost predicate NumberableBases(plans: seq<Plan>) {
    forall i | 0 <= i < |plans| :: EndsInNonDigit(plans[i].base)
  }

  /** Workers have different names, whatever base names were chosen. */
  lemma NamesAreDistinct(plans: seq<Plan>, i: nat, j: nat)
    requires NumberableBases(plans) && i < j < |plans|
    ensures WorkerAt(plans, i).name != WorkerAt(plans, j).name
  {
    var v, w := WorkerAt(plans, i), WorkerAt(plans, j);
    if v.name == w.name {
      NumberedNameInjective(v.base, v.index, w.base, w.index);
      CountGrows(plans, v.base, i + 1, j);
    }
  }

  lemma PlannedBases(list: seq<string>)
    requires Plannable(list)
    ensures NumberableBases(Plans(list))
  {
    forall i | 0 <= i < |list| ensures EndsInNonDigit(Plans(list)[i].base) {
      assert Plans(list)[i] == Parsed(list[i]).value;
      BaseNameEnds(list[i]);
    }
  }

  /** How two workers of one configuration go together. */
  predicate Apart(v: Worker, w: Worker) {
    && v.name != w.name
    && (v.base == w.base ==> v.types == w.types && 1 <= v.index < w.index)
    && (forall t | t in v.types && t in w.types :: ShardingAllowed(t))
  }

  lemma ConsistentWorkers(plans: seq<Plan>, i: nat, j: nat)
    requires NumberableBases(plans) && i < j < |plans| && Compatible(plans[i], plans[j])
    ensures Apart(WorkerAt(plans, i), WorkerAt(plans, j))
  {
    NamesAreDistinct(plans, i, j);
    CountGrows(plans, plans[i].base, i + 1, j);
  }

  /** What a successful parse promises of its workers: different names; among the workers
      of a base name equal types and the numbers 1 to their count in order; and each type
      that cannot be sharded at most once. */
  lemma PlannedWorkers(list: seq<string>, i: nat, j: nat)
    requires Plannable(list) && i < j < |list|
    ensures Apart(WorkersOf(Plans(list))[i], WorkersOf(Plans(list))[j])
  {
    PlannedBases(list);
    ConsistentWorkers(Plans(list), i, j);
  }

  lemma PlannedNumbers(list: seq<string>, base: string, k: nat) returns (i: nat)
    requires Plannable(list) && 1 <= k <= Count(Plans(list), base, |list|)
    ensures i < |list|
    ensures WorkersOf(Plans(list))[i].base == base && WorkersOf(Plans(list))[i].index == k
  {
    i := NumbersAreTaken(Plans(list), base, |list|, k);
  }
}
