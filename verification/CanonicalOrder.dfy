/** The order in which entries came leaves no trace in the text, at any depth the canonical
    serialiser reaches: what values mean, said of the values alone, decides their text. */
module CanonicalOrder {
  import opened Matrix
  import opened SortedEntries
  import opened JsonText
  import opened CanonicalJson
  import opened CanonicalLaws

  // ---- What a value means ----

  /** The tree lists the last-written entries of an object in order, and nothing else. */
  ghost predicate Means(v: Value, j: Json)
    decreases v, 0
  {
    if v.Object? then
      j.JObject? && Sorted(j.members) && AllListed(v.entries, j.members) && AllMeant(v.entries, j.members)
    else Plain(v) == j
  }

  ghost predicate MeansMember(x: Entry, b: Binding<Json>)
    decreases x, 1
  {
    KeyText(x.key) == b.key && Means(x.value, b.value)
  }

  ghost predicate MeansSome(x: Entry, members: seq<Binding<Json>>)
    decreases x, 2
  {
    exists k | 0 <= k < |members| :: MeansMember(x, members[k])
  }

  ghost predicate MeantBySome(e: seq<Entry>, b: Binding<Json>)
    decreases e, 3
  {
    exists i | 0 <= i < |e| :: IsLast(e, i) && MeansMember(e[i], b)
  }

  ghost predicate AllListed(e: seq<Entry>, members: seq<Binding<Json>>)
    decreases e, 4
  {
    forall i | 0 <= i < |e| && IsLast(e, i) :: MeansSome(e[i], members)
  }

  ghost predicate AllMeant(e: seq<Entry>, members: seq<Binding<Json>>)
    decreases e, 4
  {
    forall k | 0 <= k < |members| :: MeantBySome(e, members[k])
  }

  /** Two values that mean the same: objects whose last-written entries match, key by key,
      and otherwise values with the same plain tree. */
  ghost predicate Same(v: Value, w: Value)
    decreases v, 0
  {
    if v.Object? && w.Object? then AllFound(v.entries, w.entries) && AllCovered(v.entries, w.entries)
    else if v.Object? then Means(v, Plain(w))
    else if w.Object? then Means(w, Plain(v))
    else Plain(v) == Plain(w)
  }

  ghost predicate SameEntry(x: Entry, y: Entry)
    decreases x, 1
  {
    KeyText(x.key) == KeyText(y.key) && Same(x.value, y.value)
  }

  ghost predicate SameAsSome(x: Entry, f: seq<Entry>)
    decreases x, 2
  {
    exists j | 0 <= j < |f| :: IsLast(f, j) && SameEntry(x, f[j])
  }

  ghost predicate SomeSameAs(e: seq<Entry>, y: Entry)
    decreases e, 3
  {
    exists i | 0 <= i < |e| :: IsLast(e, i) && SameEntry(e[i], y)
  }

  ghost predicate AllFound(e: seq<Entry>, f: seq<Entry>)
    decreases e, 4
  {
    forall i | 0 <= i < |e| && IsLast(e, i) :: SameAsSome(e[i], f)
  }

  ghost predicate AllCovered(e: seq<Entry>, f: seq<Entry>)
    decreases e, 4
  {
    forall j | 0 <= j < |f| && IsLast(f, j) :: SomeSameAs(e, f[j])
  }

  // ---- It is what the canonical tree says ----

  lemma SurvivorsDecide(entries: seq<Entry>, members: seq<Binding<Json>>)
    requires Sorted(members)
    ensures CanonEntries(entries) == members <==> forall b :: Survives(entries, b) <==> b in members
  {
    CanonIsSorted(entries);
    forall b ensures b in CanonEntries(entries) <==> Survives(entries, b) {
      CanonHoldsLastWrites(entries, b);
    }
    if forall b :: Survives(entries, b) <==> b in members {
      SameMembersSameList(CanonEntries(entries), members);
    }
  }

  /** What survives of the entries is among the members. */
  ghost predicate Listed(entries: seq<Entry>, members: seq<Binding<Json>>) {
    forall i | 0 <= i < |entries| && IsLast(entries, i) :: CanonEntry(entries[i]) in members
  }

  ghost predicate Backed(entries: seq<Entry>, members: seq<Binding<Json>>) {
    forall k | 0 <= k < |members| :: Survives(entries, members[k])
  }

  lemma ListedIff(entries: seq<Entry>, members: seq<Binding<Json>>)
    requires Sorted(members)
    ensures CanonEntries(entries) == members <==> Listed(entries, members) && Backed(entries, members)
  {
    SurvivorsDecide(entries, members);
    if CanonEntries(entries) == members {
      forall i | 0 <= i < |entries| && IsLast(entries, i) ensures CanonEntry(entries[i]) in members {
        assert Survives(entries, CanonEntry(entries[i]));
      }
    }
  }

  lemma {:induction false} MeansIff(v: Value, j: Json)
    ensures Means(v, j) <==> Canon(v) == j
    decreases v, 0
  {
    if v.Object? {
      CanonIsSorted(v.entries);
      if j.JObject? && Sorted(j.members) {
        AllListedIff(v.entries, j.members);
        AllMeantIff(v.entries, j.members);
        ListedIff(v.entries, j.members);
      }
    }
  }

  lemma {:induction false} AllListedIff(e: seq<Entry>, members: seq<Binding<Json>>)
    ensures AllListed(e, members) <==> Listed(e, members)
    decreases e, 4
  {
    forall i | 0 <= i < |e| ensures MeansSome(e[i], members) <==> CanonEntry(e[i]) in members {
      MeansSomeIff(e[i], members);
    }
  }

  lemma {:induction false} AllMeantIff(e: seq<Entry>, members: seq<Binding<Json>>)
    ensures AllMeant(e, members) <==> Backed(e, members)
    decreases e, 4
  {
    forall k | 0 <= k < |members| ensures MeantBySome(e, members[k]) <==> Survives(e, members[k]) {
      MeantBySomeIff(e, members[k]);
    }
  }

  lemma {:induction false} MeansMemberIff(x: Entry, b: Binding<Json>)
    ensures MeansMember(x, b) <==> CanonEntry(x) == b
    decreases x, 1
  {
    MeansIff(x.value, b.value);
  }

  lemma {:induction false} MeansSomeIff(x: Entry, members: seq<Binding<Json>>)
    ensures MeansSome(x, members) <==> CanonEntry(x) in members
    decreases x, 2
  {
    forall k | 0 <= k < |members| ensures MeansMember(x, members[k]) <==> CanonEntry(x) == members[k] {
      MeansMemberIff(x, members[k]);
    }
  }

  lemma {:induction false} MeantBySomeIff(e: seq<Entry>, b: Binding<Json>)
    ensures MeantBySome(e, b) <==> Survives(e, b)
    decreases e, 3
  {
    forall i | 0 <= i < |e| ensures MeansMember(e[i], b) <==> CanonEntry(e[i]) == b {
      MeansMemberIff(e[i], b);
    }
  }

  /** What survives in `e` survives in `f`. */
  ghost predicate Kept(e: seq<Entry>, f: seq<Entry>) {
    forall i | 0 <= i < |e| && IsLast(e, i) :: Survives(f, CanonEntry(e[i]))
  }

  lemma KeptMeans(e: seq<Entry>, f: seq<Entry>, b: Binding<Json>)
    requires Kept(e, f) && Survives(e, b)
    ensures Survives(f, b)
  {
  }

  lemma KeptIff(e: seq<Entry>, f: seq<Entry>)
    ensures Kept(e, f) <==> forall b | Survives(e, b) :: Survives(f, b)
  {
    if Kept(e, f) {
      forall b | Survives(e, b) ensures Survives(f, b) {
        KeptMeans(e, f, b);
      }
    }
    if forall b | Survives(e, b) :: Survives(f, b) {
      forall i | 0 <= i < |e| && IsLast(e, i) ensures Survives(f, CanonEntry(e[i])) {
        assert Survives(e, CanonEntry(e[i]));
      }
    }
  }

  lemma MutualSurvivalIff(e: seq<Entry>, f: seq<Entry>)
    ensures CanonEntries(e) == CanonEntries(f) <==> Kept(e, f) && Kept(f, e)
  {
    CanonIsSorted(f);
    SurvivorsDecide(e, CanonEntries(f));
    SurvivorsDecide(f, CanonEntries(f));
    KeptIff(e, f);
    KeptIff(f, e);
  }

  /** Two values have the same canonical tree exactly when they mean the same. */
  lemma {:induction false} SameIff(v: Value, w: Value)
    ensures Same(v, w) <==> Canon(v) == Canon(w)
    decreases v, 0
  {
    if v.Object? && w.Object? {
      AllFoundIff(v.entries, w.entries);
      AllCoveredIff(v.entries, w.entries);
      MutualSurvivalIff(v.entries, w.entries);
    } else if v.Object? {
      MeansIff(v, Plain(w));
    } else if w.Object? {
      MeansIff(w, Plain(v));
    }
  }

  lemma {:induction false} AllFoundIff(e: seq<Entry>, f: seq<Entry>)
    ensures AllFound(e, f) <==> Kept(e, f)
    decreases e, 4
  {
    forall i | 0 <= i < |e| ensures SameAsSome(e[i], f) <==> Survives(f, CanonEntry(e[i])) {
      SameAsSomeIff(e[i], f);
    }
  }

  lemma {:induction false} AllCoveredIff(e: seq<Entry>, f: seq<Entry>)
    ensures AllCovered(e, f) <==> Kept(f, e)
    decreases e, 4
  {
    forall j | 0 <= j < |f| ensures SomeSameAs(e, f[j]) <==> Survives(e, CanonEntry(f[j])) {
      SomeSameAsIff(e, f[j]);
    }
  }

  lemma {:induction false} SameEntryIff(x: Entry, y: Entry)
    ensures SameEntry(x, y) <==> CanonEntry(x) == CanonEntry(y)
    decreases x, 1
  {
    SameIff(x.value, y.value);
  }

  lemma {:induction false} SameAsSomeIff(x: Entry, f: seq<Entry>)
    ensures SameAsSome(x, f) <==> Survives(f, CanonEntry(x))
    decreases x, 2
  {
    forall j | 0 <= j < |f| ensures SameEntry(x, f[j]) <==> CanonEntry(f[j]) == CanonEntry(x) {
      SameEntryIff(x, f[j]);
    }
  }

  lemma {:induction false} SomeSameAsIff(e: seq<Entry>, y: Entry)
    ensures SomeSameAs(e, y) <==> Survives(e, CanonEntry(y))
    decreases e, 3
  {
    forall i | 0 <= i < |e| ensures SameEntry(e[i], y) <==> CanonEntry(e[i]) == CanonEntry(y) {
      SameEntryIff(e[i], y);
    }
  }

  // ---- So it decides the text ----

  /** Accepted values that mean the same are written alike; and readable ones are written
      alike only if they mean the same. */
  lemma SameTextIff(v: Value, w: Value, strict: bool)
    requires Serialized(v, strict).Success? && Serialized(w, strict).Success?
    ensures Same(v, w) ==> Serialized(v, strict) == Serialized(w, strict)
    ensures Readable(v) && Readable(w) ==> (Serialized(v, strict) == Serialized(w, strict) <==> Same(v, w))
  {
    SameIff(v, w);
    TextIsCanon(v, strict);
    TextIsCanon(w, strict);
    if Readable(v) && Readable(w) {
      CanonicalTextParses(v, strict);
      CanonicalTextParses(w, strict);
    }
  }

  // ---- Reordering ----

  predicate DistinctKeys(entries: seq<Entry>) {
    forall i, j | 0 <= i < j < |entries| :: KeyText(entries[i].key) != KeyText(entries[j].key)
  }

  /** `w` is `v` with the entries of objects in another order, here and below. */
  ghost predicate Reordered(v: Value, w: Value)
    decreases v, 0
  {
    if v.Object? && w.Object? then
      && DistinctKeys(v.entries) && DistinctKeys(w.entries)
      && (forall i | 0 <= i < |v.entries| :: MovedTo(v.entries[i], w.entries))
      && (forall j | 0 <= j < |w.entries| :: MovedFrom(v.entries, w.entries[j]))
    else v == w
  }

  ghost predicate ReorderedEntry(x: Entry, y: Entry)
    decreases x, 1
  {
    x.key == y.key && Reordered(x.value, y.value)
  }

  ghost predicate MovedTo(x: Entry, f: seq<Entry>)
    decreases x, 2
  {
    exists j | 0 <= j < |f| :: ReorderedEntry(x, f[j])
  }

  ghost predicate MovedFrom(e: seq<Entry>, y: Entry)
    decreases e, 3
  {
    exists i | 0 <= i < |e| :: ReorderedEntry(e[i], y)
  }

  lemma {:induction false} ReorderedMeansSame(v: Value, w: Value)
    requires Reordered(v, w)
    ensures Same(v, w)
    decreases v, 0
  {
    if v.Object? && w.Object? {
      forall i | 0 <= i < |v.entries| ensures SameAsSome(v.entries[i], w.entries) {
        MovedToIsSame(v.entries[i], w.entries);
      }
      forall j | 0 <= j < |w.entries| ensures SomeSameAs(v.entries, w.entries[j]) {
        MovedFromIsSame(v.entries, w.entries[j]);
      }
    }
  }

  lemma {:induction false} ReorderedEntryIsSame(x: Entry, y: Entry)
    requires ReorderedEntry(x, y)
    ensures SameEntry(x, y)
    decreases x, 1
  {
    ReorderedMeansSame(x.value, y.value);
  }

  lemma {:induction false} MovedToIsSame(x: Entry, f: seq<Entry>)
    requires MovedTo(x, f) && DistinctKeys(f)
    ensures SameAsSome(x, f)
    decreases x, 2
  {
    var j :| 0 <= j < |f| && ReorderedEntry(x, f[j]);
    ReorderedEntryIsSame(x, f[j]);
    assert IsLast(f, j);
  }

  lemma {:induction false} MovedFromIsSame(e: seq<Entry>, y: Entry)
    requires MovedFrom(e, y) && DistinctKeys(e)
    ensures SomeSameAs(e, y)
    decreases e, 3
  {
    var i :| 0 <= i < |e| && ReorderedEntry(e[i], y);
    ReorderedEntryIsSame(e[i], y);
    assert IsLast(e, i);
  }

  /** The order in which the entries of an object, and of the objects in it, came does not
      show in the text. */
  lemma ReorderedSameText(v: Value, w: Value, strict: bool)
    requires Serialized(v, strict).Success? && Serialized(w, strict).Success? && Reordered(v, w)
    ensures Serialized(v, strict) == Serialized(w, strict)
  {
    ReorderedMeansSame(v, w);
    SameTextIff(v, w, strict);
  }
}
