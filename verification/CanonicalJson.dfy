/** The canonical serialiser as functions: which values it accepts, the text it writes and
    what that text means. */
module CanonicalJson {
  import opened Matrix
  import opened Decimal
  import opened SortedEntries
  import opened JsonText

  const MAX_VALID_INTEGER: int := 0x1F_FFFF_FFFF_FFFF
  const MIN_VALID_INTEGER: int := -0x1F_FFFF_FFFF_FFFF

  predicate InRange(n: int) { MIN_VALID_INTEGER <= n <= MAX_VALID_INTEGER }

  datatype Kind = I8 | I16 | I32 | I64 | I128 | U8 | U16 | U32 | U64 | U128

  /** A map key as it serialises. */
  datatype Key = TextKey(s: string) | IntKey(n: int)

  datatype Entry = Entry(key: Key, value: Value)

  /** A value as its `Serialize` implementation presents it. */
  datatype Value =
    | Null
    | Boolean(b: bool)
    | Integer(kind: Kind, n: int)
    | Number(negative: bool, magnitude: nat) // an integer number token
    | Fraction(text: string)                 // any other number token
    | Float(text: string)                    // f32 or f64
    | Text(s: string)
    | Raw(text: string)
    | Sequence(items: seq<Value>)
    | Object(declared: bool, entries: seq<Entry>) // a map, or the declared fields of a struct
    | Wrapped(inner: Value)                  // an option that is there, or a newtype
    | Variant(name: string, inner: Value)

  datatype Failure = OutOfRange | NotInteger | KeyNotString | RawNotSupported | KeyTwice

  function KeyText(key: Key): string {
    match key
    case TextKey(s) => s
    case IntKey(n) => PrintInt(n)
  }

  function TokenValue(negative: bool, magnitude: nat): int {
    if negative then 0 - magnitude else magnitude
  }

  // ---- The plain serialiser, which everything under a sequence, option or newtype gets ----

  function Plain(v: Value): Json {
    match v
    case Null => JNull
    case Boolean(b) => JBool(b)
    case Integer(_, n) => JNumber(n)
    case Number(negative, magnitude) =>
      if negative && magnitude == 0 then JToken("-0") else JNumber(TokenValue(negative, magnitude))
    case Fraction(text) => JToken(text)
    case Float(text) => JToken(text)
    case Text(s) => JString(s)
    case Raw(text) => JToken(text)
    case Sequence(items) => JArray(seq(|items|, i requires 0 <= i < |items| => Plain(items[i])))
    case Object(_, entries) => JObject(seq(|entries|, i requires 0 <= i < |entries| => PlainEntry(entries[i])))
    case Wrapped(inner) => Plain(inner)
    case Variant(name, inner) => JObject([Binding(name, Plain(inner))])
  }

  function PlainEntry(entry: Entry): Binding<Json> {
    Binding(KeyText(entry.key), Plain(entry.value))
  }

  /** Its text, piece by piece as it is written. */
  function PlainText(v: Value): string
    decreases v, 0
  {
    match v
    case Null => "null"
    case Boolean(b) => if b then "true" else "false"
    case Integer(_, n) => PrintInt(n)
    case Number(negative, magnitude) => if negative then "-" + PrintNat(magnitude) else PrintNat(magnitude)
    case Fraction(text) => text
    case Float(text) => text
    case Text(s) => Quoted(s)
    case Raw(text) => text
    case Sequence(items) => ['['] + if items == [] then [']'] else ItemTexts(items)
    case Object(_, entries) => ['{'] + if entries == [] then ['}'] else EntryTexts(entries)
    case Wrapped(inner) => PlainText(inner)
    case Variant(name, inner) => ['{'] + (Quoted(name) + [':'] + PlainText(inner) + ['}'])
  }

  function ItemTexts(items: seq<Value>): string
    requires items != []
    decreases items, 1
  {
    PlainText(items[0]) + if |items| == 1 then [']'] else [','] + ItemTexts(items[1..])
  }

  function EntryTexts(entries: seq<Entry>): string
    requires entries != []
    decreases entries, 1
  {
    EntryText(entries[0]) + if |entries| == 1 then ['}'] else [','] + EntryTexts(entries[1..])
  }

  function EntryText(entry: Entry): string
    decreases entry, 1
  {
    Quoted(match entry.key case TextKey(s) => s case IntKey(n) => PrintInt(n)) + [':'] + PlainText(entry.value)
  }

  /** What is written for a value is the text of its tree. */
  lemma {:induction false} PlainTextIs(v: Value)
    ensures PlainText(v) == Print(Plain(v))
    decreases v, 0
  {
    match v
    case Sequence(items) =>
      if items != [] {
        ItemTextsAre(items);
        assert Plain(v).items == PlainItems(items);
      }
    case Object(_, entries) =>
      if entries != [] {
        EntryTextsAre(entries);
        assert Plain(v).members == PlainEntries(entries);
      }
    case Wrapped(inner) => PlainTextIs(inner);
    case Variant(name, inner) => PlainTextIs(inner);
    case _ =>
  }

  function PlainItems(items: seq<Value>): seq<Json> {
    seq(|items|, i requires 0 <= i < |items| => Plain(items[i]))
  }

  function PlainEntries(entries: seq<Entry>): seq<Binding<Json>> {
    seq(|entries|, i requires 0 <= i < |entries| => PlainEntry(entries[i]))
  }

  lemma {:induction false} ItemTextsAre(items: seq<Value>)
    requires items != []
    ensures ItemTexts(items) == PrintItems(PlainItems(items))
    decreases items, 1
  {
    PlainTextIs(items[0]);
    if |items| > 1 {
      ItemTextsAre(items[1..]);
      assert PlainItems(items)[1..] == PlainItems(items[1..]);
    }
  }

  lemma {:induction false} EntryTextsAre(entries: seq<Entry>)
    requires entries != []
    ensures EntryTexts(entries) == PrintMembers(PlainEntries(entries))
    decreases entries, 1
  {
    EntryTextIs(entries[0]);
    if |entries| > 1 {
      EntryTextsAre(entries[1..]);
      assert PlainEntries(entries)[1..] == PlainEntries(entries[1..]);
    }
  }

  lemma {:induction false} EntryTextIs(entry: Entry)
    ensures EntryText(entry) == PrintMember(PlainEntry(entry).key, Print(PlainEntry(entry).value))
    decreases entry, 1
  {
    PlainTextIs(entry.value);
  }

  // ---- The canonical serialiser ----

  /** Whether the range of an integer of this type is looked at. */
  predicate Checked(kind: Kind, strict: bool) {
    match kind
    case U16 => false
    case I64 => strict
    case I128 => strict
    case U64 => strict
    case U128 => strict
    case _ => true
  }

  function Serialized(v: Value, strict: bool): Result<string, Failure>
    decreases v, 0
  {
    match v
    case Integer(kind, n) =>
      if Checked(kind, strict) && !InRange(n) then Failure(OutOfRange) else Success(Print(Plain(v)))
    case Number(negative, magnitude) =>
      if strict && !InRange(TokenValue(negative, magnitude)) then Failure(OutOfRange) else Success(Print(Plain(v)))
    case Fraction(_) => if strict then Failure(OutOfRange) else Success(Print(Plain(v)))
    case Float(_) => Failure(NotInteger)
    case Raw(_) => Failure(RawNotSupported)
    case Object(_, entries) =>
      (match Buffered(entries, strict)
       case Success(buffer) => Success(PrintBuffer(buffer))
       case Failure(e) => Failure(e))
    case _ => Success(Print(Plain(v)))
  }

  /** The ordered buffer after some entries; the first failure ends the serialisation. */
  function Buffered(entries: seq<Entry>, strict: bool): Result<seq<Binding<string>>, Failure>
    decreases entries, 1
  {
    if entries == [] then Success([])
    else
      var n := |entries| - 1;
      match Buffered(entries[..n], strict)
      case Failure(e) => Failure(e)
      case Success(buffer) =>
        match SerializedEntry(entries[n], strict)
        case Failure(e) => Failure(e)
        case Success(b) => Success(Insert(buffer, b.key, b.value))
  }

  /** A key is looked at before its value. */
  function SerializedEntry(entry: Entry, strict: bool): Result<Binding<string>, Failure>
    decreases entry, 1
  {
    if entry.key.IntKey? then Failure(KeyNotString)
    else
      match Serialized(entry.value, strict)
      case Failure(e) => Failure(e)
      case Success(text) => Success(Binding(entry.key.s, text))
  }

  function PrintBuffer(buffer: seq<Binding<string>>): string {
    ['{'] + if buffer == [] then ['}'] else PrintPairs(buffer)
  }

  function PrintPairs(buffer: seq<Binding<string>>): string
    requires buffer != []
  {
    PrintMember(buffer[0].key, buffer[0].value) + if |buffer| == 1 then ['}'] else [','] + PrintPairs(buffer[1..])
  }

  // ---- What the text means ----

  /** The tree whose text the canonical serialiser writes. */
  function Canon(v: Value): Json
    decreases v, 0
  {
    if v.Object? then JObject(CanonEntries(v.entries)) else Plain(v)
  }

  function CanonEntries(entries: seq<Entry>): seq<Binding<Json>>
    decreases entries, 1
  {
    if entries == [] then []
    else
      var n := |entries| - 1;
      var b := CanonEntry(entries[n]);
      Insert(CanonEntries(entries[..n]), b.key, b.value)
  }

  function CanonEntry(entry: Entry): Binding<Json>
    decreases entry, 1
  {
    Binding(KeyText(entry.key), Canon(entry.value))
  }

  function Texts(members: seq<Binding<Json>>): seq<Binding<string>> {
    seq(|members|, i requires 0 <= i < |members| => Binding(members[i].key, Print(members[i].value)))
  }

  lemma {:induction false} TextsOfInsert(members: seq<Binding<Json>>, key: string, j: Json)
    ensures Texts(Insert(members, key, j)) == Insert(Texts(members), key, Print(j))
  {
    if !(members == [] || Less(key, members[0].key) || members[0].key == key) {
      TextsOfInsert(members[1..], key, j);
      assert Texts(members)[1..] == Texts(members[1..]);
      var rest := Insert(members[1..], key, j);
      assert Texts([members[0]] + rest) == [Texts(members)[0]] + Texts(rest);
    } else if members == [] || Less(key, members[0].key) {
      assert Texts([Binding(key, j)] + members) == [Binding(key, Print(j))] + Texts(members);
    } else {
      assert Texts([Binding(key, j)] + members[1..]) == [Binding(key, Print(j))] + Texts(members)[1..];
    }
  }

  lemma {:induction false} PairsAreMembers(members: seq<Binding<Json>>)
    requires members != []
    ensures PrintPairs(Texts(members)) == PrintMembers(members)
  {
    if |members| > 1 {
      PairsAreMembers(members[1..]);
      assert Texts(members)[1..] == Texts(members[1..]);
    }
  }

  lemma {:induction false} BufferIsCanon(entries: seq<Entry>, strict: bool)
    requires Buffered(entries, strict).Success?
    ensures Buffered(entries, strict).value == Texts(CanonEntries(entries))
    decreases entries, 1
  {
    if entries != [] {
      var n := |entries| - 1;
      BufferIsCanon(entries[..n], strict);
      EntryIsCanon(entries[n], strict);
      var b := CanonEntry(entries[n]);
      TextsOfInsert(CanonEntries(entries[..n]), b.key, b.value);
    }
  }

  lemma {:induction false} EntryIsCanon(entry: Entry, strict: bool)
    requires SerializedEntry(entry, strict).Success?
    ensures SerializedEntry(entry, strict).value == Binding(KeyText(entry.key), Print(Canon(entry.value)))
    decreases entry, 1
  {
    TextIsCanon(entry.value, strict);
  }

  /** The text written for an accepted value is the text of its canonical tree. */
  lemma {:induction false} TextIsCanon(v: Value, strict: bool)
    requires Serialized(v, strict).Success?
    ensures Serialized(v, strict).value == Print(Canon(v))
    decreases v, 0
  {
    if v.Object? {
      BufferIsCanon(v.entries, strict);
      var members := CanonEntries(v.entries);
      if members != [] {
        PairsAreMembers(members);
      }
    }
  }

  // ---- What is accepted ----

  predicate Accepts(v: Value, strict: bool) {
    match v
    case Integer(kind, n) => Checked(kind, strict) ==> InRange(n)
    case Number(negative, magnitude) => strict ==> InRange(TokenValue(negative, magnitude))
    case Fraction(_) => !strict
    case Float(_) => false
    case Raw(_) => false
    case Object(_, entries) => forall i | 0 <= i < |entries| :: AcceptsEntry(entries[i], strict)
    case _ => true
  }

  predicate AcceptsEntry(entry: Entry, strict: bool) {
    entry.key.TextKey? && Accepts(entry.value, strict)
  }

  lemma {:induction false} BufferedIff(entries: seq<Entry>, strict: bool)
    ensures Buffered(entries, strict).Success? <==> forall i | 0 <= i < |entries| :: AcceptsEntry(entries[i], strict)
    decreases entries, 1
  {
    if entries != [] {
      var n := |entries| - 1;
      BufferedIff(entries[..n], strict);
      EntryIff(entries[n], strict);
      assert entries == entries[..n] + [entries[n]];
    }
  }

  lemma {:induction false} EntryIff(entry: Entry, strict: bool)
    ensures SerializedEntry(entry, strict).Success? <==> AcceptsEntry(entry, strict)
    decreases entry, 1
  {
    SerializedIff(entry.value, strict);
  }

  /** Serialisation succeeds exactly when no map outside sequences, options and newtypes
      holds a key that is no string, or a number the options forbid. An entry that a later
      one replaces counts too. */
  lemma {:induction false} SerializedIff(v: Value, strict: bool)
    ensures Serialized(v, strict).Success? <==> Accepts(v, strict)
    decreases v, 0
  {
    if v.Object? {
      BufferedIff(v.entries, strict);
    }
  }

  /** What the strict options accept, the relaxed ones write in the same way. */
  lemma StrictTextIsRelaxedText(v: Value)
    requires Serialized(v, true).Success?
    ensures Serialized(v, false) == Serialized(v, true)
  {
    SerializedIff(v, true);
    StrictAcceptsLess(v);
    SerializedIff(v, false);
    TextIsCanon(v, true);
    TextIsCanon(v, false);
  }

  lemma {:induction false} StrictAcceptsLess(v: Value)
    requires Accepts(v, true)
    ensures Accepts(v, false)
    decreases v, 0
  {
    if v.Object? {
      forall i | 0 <= i < |v.entries| ensures AcceptsEntry(v.entries[i], false) {
        assert AcceptsEntry(v.entries[i], true);
        StrictAcceptsEntry(v.entries[i]);
      }
    }
  }

  lemma {:induction false} StrictAcceptsEntry(entry: Entry)
    requires AcceptsEntry(entry, true)
    ensures AcceptsEntry(entry, false)
    decreases entry, 1
  {
    StrictAcceptsLess(entry.value);
  }
}
