/** What canonical texts are for: a text determines the value, and the order in which an
    object's entries came leaves no trace in it; and how far that reaches. */
module CanonicalLaws {
  import opened Matrix
  import opened Decimal
  import opened SortedEntries
  import opened JsonText
  import opened CanonicalJson
  import S = ShortestText

  // ---- The entries of a canonical object ----

  /** No later entry has the key of entry `i`. */
  predicate IsLast(entries: seq<Entry>, i: nat)
    requires i < |entries|
  {
    forall j | i < j < |entries| :: KeyText(entries[j].key) != KeyText(entries[i].key)
  }

  ghost predicate Survives(entries: seq<Entry>, b: Binding<Json>) {
    exists i | 0 <= i < |entries| :: IsLast(entries, i) && CanonEntry(entries[i]) == b
  }

  /** The keys of a canonical object are in lexicographic order: of any two, they agree up to
      where the earlier one ends or has the smaller character. */
  lemma {:induction false} CanonIsSorted(entries: seq<Entry>)
    ensures Sorted(CanonEntries(entries))
    ensures forall i, j | 0 <= i < j < |CanonEntries(entries)| ::
              Before(CanonEntries(entries)[i].key, CanonEntries(entries)[j].key)
  {
    SortedIff(CanonEntries(entries));
    if entries != [] {
      var n := |entries| - 1;
      CanonIsSorted(entries[..n]);
      var b := CanonEntry(entries[n]);
      InsertKeepsSorted(CanonEntries(entries[..n]), b.key, b.value);
    }
  }

  /** A canonical object holds, of each key, the entry written last, and nothing else. */
  lemma {:induction false} CanonHoldsLastWrites(entries: seq<Entry>, b: Binding<Json>)
    ensures b in CanonEntries(entries) <==> Survives(entries, b)
  {
    if entries != [] {
      var n := |entries| - 1;
      var last := CanonEntry(entries[n]);
      CanonHoldsLastWrites(entries[..n], b);
      CanonIsSorted(entries[..n]);
      InsertMembers(CanonEntries(entries[..n]), last.key, last.value, b);
      SurvivalStep(entries, b);
    }
  }

  lemma SurvivalStep(entries: seq<Entry>, b: Binding<Json>)
    requires entries != []
    ensures
      var n := |entries| - 1;
      Survives(entries, b) <==>
      b == CanonEntry(entries[n]) || (Survives(entries[..n], b) && b.key != KeyText(entries[n].key))
  {
    var n := |entries| - 1;
    if Survives(entries[..n], b) && b.key != KeyText(entries[n].key) {
      StillSurvives(entries, b);
    }
    if b == CanonEntry(entries[n]) {
      assert IsLast(entries, n);
    }
    if Survives(entries, b) && b != CanonEntry(entries[n]) {
      SurvivedBefore(entries, b);
    }
  }

  lemma StillSurvives(entries: seq<Entry>, b: Binding<Json>)
    requires entries != [] && b.key != KeyText(entries[|entries| - 1].key)
    requires Survives(entries[..|entries| - 1], b)
    ensures Survives(entries, b)
  {
    var init := entries[..|entries| - 1];
    var i :| 0 <= i < |init| && IsLast(init, i) && CanonEntry(init[i]) == b;
    assert entries[i] == init[i];
    forall j | i < j < |entries| ensures KeyText(entries[j].key) != b.key {
      assert j < |init| ==> init[j] == entries[j];
    }
    assert IsLast(entries, i);
  }

  lemma SurvivedBefore(entries: seq<Entry>, b: Binding<Json>)
    requires entries != [] && b != CanonEntry(entries[|entries| - 1]) && Survives(entries, b)
    ensures Survives(entries[..|entries| - 1], b) && b.key != KeyText(entries[|entries| - 1].key)
  {
  }

  // ---- Round trip ----

  /** Nothing that is copied into the text unread: no float, no number token that is not a
      plainly written integer, no raw text. */
  predicate Readable(v: Value) {
    match v
    case Number(negative, magnitude) => !(negative && magnitude == 0)
    case Fraction(_) => false
    case Float(_) => false
    case Raw(_) => false
    case Sequence(items) => forall i | 0 <= i < |items| :: Readable(items[i])
    case Object(_, entries) => forall i | 0 <= i < |entries| :: ReadableEntry(entries[i])
    case Wrapped(inner) => Readable(inner)
    case Variant(_, inner) => Readable(inner)
    case _ => true
  }

  predicate ReadableEntry(entry: Entry) { Readable(entry.value) }

  lemma {:induction false} ReadableIsExact(v: Value)
    requires Readable(v)
    ensures Exact(Plain(v)) && Exact(Canon(v))
    decreases v, 0
  {
    match v
    case Sequence(items) =>
      forall i | 0 <= i < |items| ensures Exact(Plain(items[i])) {
        ReadableIsExact(items[i]);
      }
    case Object(_, entries) =>
      forall i | 0 <= i < |entries| ensures Exact(PlainEntry(entries[i]).value) && Exact(CanonEntry(entries[i]).value) {
        assert ReadableEntry(entries[i]);
        ReadableEntryIsExact(entries[i]);
      }
      forall k | 0 <= k < |CanonEntries(entries)| ensures Exact(CanonEntries(entries)[k].value) {
        CanonHoldsLastWrites(entries, CanonEntries(entries)[k]);
      }
    case Wrapped(inner) => ReadableIsExact(inner);
    case Variant(_, inner) => ReadableIsExact(inner);
    case _ =>
  }

  lemma {:induction false} ReadableEntryIsExact(entry: Entry)
    requires ReadableEntry(entry)
    ensures Exact(PlainEntry(entry).value) && Exact(CanonEntry(entry).value)
    decreases entry, 1
  {
    ReadableIsExact(entry.value);
  }

  /** A reader of Canonical JSON gets back the tree the text was written for. */
  lemma CanonicalTextParses(v: Value, strict: bool)
    requires Serialized(v, strict).Success? && Readable(v)
    ensures Parse(Serialized(v, strict).value) == Some(Canon(v))
  {
    TextIsCanon(v, strict);
    ReadableIsExact(v);
    PrintParses(Canon(v));
  }

  /** No text that reads as the canonical tree of an accepted value is shorter than the one
      written. */
  lemma CanonicalTextIsShortest(v: Value, strict: bool, t: string)
    requires Serialized(v, strict).Success? && Parse(t) == Some(Canon(v))
    ensures |Serialized(v, strict).value| <= |t|
  {
    TextIsCanon(v, strict);
    S.ValueIsShortest(t, Canon(v), []);
  }

  /** A number token gets the one text of its integer exactly when it is not a negative
      zero, which keeps its sign. */
  lemma NumberTokenTextIff(negative: bool, magnitude: nat)
    ensures Serialized(Number(negative, magnitude), false) == Success(PrintInt(TokenValue(negative, magnitude)))
            <==> !(negative && magnitude == 0)
  {
  }

  lemma ZeroHasTwoTexts()
    ensures Serialized(Number(true, 0), true) == Success("-0") && Serialized(Number(false, 0), true) == Success("0")
  {
    PrintNatDigits(0);
  }

  // ---- How far the order reaches ----

  predicate AllSorted(j: Json) {
    match j
    case JArray(items) => forall i | 0 <= i < |items| :: AllSorted(items[i])
    case JObject(members) => Sorted(members) && forall i | 0 <= i < |members| :: AllSorted(members[i].value)
    case _ => true
  }

  /** Everything that reaches the plain serialiser, and is not replaced, is in order already. */
  predicate OrderedInside(v: Value) {
    if v.Object? then
      forall i | 0 <= i < |v.entries| :: IsLast(v.entries, i) ==> OrderedInsideEntry(v.entries[i])
    else AllSorted(Plain(v))
  }

  predicate OrderedInsideEntry(entry: Entry) { OrderedInside(entry.value) }

  /** All objects of the text, at every depth, have their keys in order exactly when the
      ones under sequences, options and newtypes were given in order. */
  lemma {:induction false} SortedEverywhereIff(v: Value)
    ensures AllSorted(Canon(v)) <==> OrderedInside(v)
    decreases v, 0
  {
    if v.Object? {
      var entries := v.entries;
      var members := CanonEntries(entries);
      CanonIsSorted(entries);
      forall i | 0 <= i < |entries| ensures AllSorted(CanonEntry(entries[i]).value) <==>
          OrderedInsideEntry(entries[i]) {
        SortedEntryIff(entries[i]);
      }
      if AllSorted(Canon(v)) {
        forall i | 0 <= i < |entries| && IsLast(entries, i) ensures OrderedInsideEntry(entries[i]) {
          CanonHoldsLastWrites(entries, CanonEntry(entries[i]));
        }
      }
      if OrderedInside(v) {
        forall k | 0 <= k < |members| ensures AllSorted(members[k].value) {
          CanonHoldsLastWrites(entries, members[k]);
        }
      }
    }
  }

  lemma {:induction false} SortedEntryIff(entry: Entry)
    ensures AllSorted(CanonEntry(entry).value) <==> OrderedInsideEntry(entry)
    decreases entry, 1
  {
    SortedEverywhereIff(entry.value);
  }

  /** Under a sequence two orders of the same entries get two texts. */
  lemma OrderShowsUnderSequence()
    ensures
      var a, b := Entry(TextKey("a"), Null), Entry(TextKey("b"), Null);
      var v, w := Sequence([Object(false, [a, b])]), Sequence([Object(false, [b, a])]);
      Serialized(v, true).Success? && Serialized(w, true).Success? && Serialized(v, true) != Serialized(w, true)
  {
    var a, b := Entry(TextKey("a"), Null), Entry(TextKey("b"), Null);
    var v, w := Sequence([Object(false, [a, b])]), Sequence([Object(false, [b, a])]);
    PlainPair(a, b);
    PlainPair(b, a);
    var x, y := PlainEntry(a), PlainEntry(b);
    assert x.key[0] != y.key[0] && [x, y][0] != [y, x][0];
    if Print(Plain(v)) == Print(Plain(w)) {
      PrintIsInjective(Plain(v), Plain(w));
    }
  }

  lemma PlainPair(a: Entry, b: Entry)
    ensures Plain(Sequence([Object(false, [a, b])])) == JArray([JObject([PlainEntry(a), PlainEntry(b)])])
  {
    var both := Object(false, [a, b]);
    assert Plain(both).members == [PlainEntry(a), PlainEntry(b)];
    assert Plain(Sequence([both])).items == [Plain(both)];
  }

  // ---- How far the range check reaches ----

  predicate Fits(kind: Kind, n: int) {
    match kind
    case I8 => -0x80 <= n < 0x80
    case I16 => -0x8000 <= n < 0x8000
    case I32 => -0x8000_0000 <= n < 0x8000_0000
    case I64 => -0x8000_0000_0000_0000 <= n < 0x8000_0000_0000_0000
    case I128 => -0x8000_0000_0000_0000_0000_0000_0000_0000 <= n < 0x8000_0000_0000_0000_0000_0000_0000_0000
    case U8 => 0 <= n < 0x100
    case U16 => 0 <= n < 0x1_0000
    case U32 => 0 <= n < 0x1_0000_0000
    case U64 => 0 <= n < 0x1_0000_0000_0000_0000
    case U128 => 0 <= n < 0x1_0000_0000_0000_0000_0000_0000_0000_0000
  }

  /** An integer of its type is refused exactly when the options are strict and it is beyond
      the largest integer that every reader represents exactly. */
  lemma IntegerIff(kind: Kind, n: int, strict: bool)
    requires Fits(kind, n)
    ensures Serialized(Integer(kind, n), strict) ==
            if strict && (n > 9_007_199_254_740_991 || n < -9_007_199_254_740_991) then Failure(OutOfRange)
            else Success(PrintInt(n))
  {
  }

  /** So is a number token; a fraction under strict options, and a float or raw text under all. */
  lemma TokenIff(magnitude: nat, text: string, strict: bool)
    ensures Serialized(Number(false, magnitude), strict) ==
            if strict && magnitude > 9_007_199_254_740_991 then Failure(OutOfRange) else Success(PrintNat(magnitude))
    ensures Serialized(Number(true, magnitude), strict) ==
            if strict && magnitude > 9_007_199_254_740_991 then Failure(OutOfRange)
            else Success("-" + PrintNat(magnitude))
    ensures Serialized(Fraction(text), strict) == if strict then Failure(OutOfRange) else Success(text)
    ensures Serialized(Float(text), strict) == Failure(NotInteger)
    ensures Serialized(Raw(text), strict) == Failure(RawNotSupported)
  {
    PlainTextIs(Number(false, magnitude));
    PlainTextIs(Number(true, magnitude));
  }

  /** Every integer outside sequences, options and newtypes is one of its type. */
  predicate Typed(v: Value) {
    match v
    case Integer(kind, n) => Fits(kind, n)
    case Object(_, entries) => forall i | 0 <= i < |entries| :: TypedEntry(entries[i])
    case _ => true
  }

  predicate TypedEntry(entry: Entry) { Typed(entry.value) }

  /** Every number of the value is an integer of the permitted range. */
  predicate AllInRange(v: Value) {
    match v
    case Integer(_, n) => InRange(n)
    case Number(negative, magnitude) => InRange(TokenValue(negative, magnitude))
    case Fraction(_) => false
    case Float(_) => false
    case Raw(_) => false
    case Sequence(items) => forall i | 0 <= i < |items| :: AllInRange(items[i])
    case Object(_, entries) => forall i | 0 <= i < |entries| :: AllInRangeEntry(entries[i])
    case Wrapped(inner) => AllInRange(inner)
    case Variant(_, inner) => AllInRange(inner)
    case _ => true
  }

  predicate AllInRangeEntry(entry: Entry) { AllInRange(entry.value) }

  /** The same of what the plain serialiser gets. */
  predicate InRangeInside(v: Value) {
    match v
    case Object(_, entries) => forall i | 0 <= i < |entries| :: InRangeInsideEntry(entries[i])
    case Sequence(_) => AllInRange(v)
    case Wrapped(_) => AllInRange(v)
    case Variant(_, _) => AllInRange(v)
    case _ => true
  }

  predicate InRangeInsideEntry(entry: Entry) { InRangeInside(entry.value) }

  /** Strict success means that every number is a permitted integer exactly when that holds
      under sequences, options and newtypes, where nothing is looked at. */
  lemma {:induction false} StrictRangeIff(v: Value)
    requires Typed(v) && Accepts(v, true)
    ensures AllInRange(v) <==> InRangeInside(v)
    decreases v, 0
  {
    if v.Object? {
      forall i | 0 <= i < |v.entries| ensures AllInRangeEntry(v.entries[i]) <==> InRangeInsideEntry(v.entries[i]) {
        assert TypedEntry(v.entries[i]) && AcceptsEntry(v.entries[i], true);
        StrictRangeEntryIff(v.entries[i]);
      }
    }
  }

  lemma {:induction false} StrictRangeEntryIff(entry: Entry)
    requires TypedEntry(entry) && AcceptsEntry(entry, true)
    ensures AllInRangeEntry(entry) <==> InRangeInsideEntry(entry)
    decreases entry, 1
  {
    StrictRangeIff(entry.value);
  }

  /** Under a sequence the strict options let every integer through. */
  lemma RangeIgnoredUnderSequence(kind: Kind, n: int)
    ensures Serialized(Sequence([Integer(kind, n)]), true) == Success("[" + PrintInt(n) + "]")
  {
    var v := Sequence([Integer(kind, n)]);
    assert Plain(v).items == [JNumber(n)];
    assert PrintItems([JNumber(n)]) == Print(JNumber(n)) + [']'];
    assert ['['] + (PrintInt(n) + [']']) == "[" + PrintInt(n) + "]";
  }
}
