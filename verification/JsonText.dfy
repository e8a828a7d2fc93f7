/** JSON trees, their text without white space, and a reference parser for the Canonical
    JSON grammar of the Matrix specification. */
module JsonText {
  import opened Matrix
  import opened Decimal
  import opened SortedEntries

  /** A tree; the members of an object keep their order, so that text and tree correspond. */
  datatype Json =
    | JNull
    | JBool(b: bool)
    | JNumber(n: int)
    | JString(s: string)
    | JArray(items: seq<Json>)
    | JObject(members: seq<Binding<Json>>)
    | JToken(text: string) // copied into the text as it stands

  /** Nothing in the tree was copied into the text unread. */
  predicate Exact(j: Json) {
    match j
    case JArray(items) => forall i | 0 <= i < |items| :: Exact(items[i])
    case JObject(members) => forall i | 0 <= i < |members| :: Exact(members[i].value)
    case JToken(_) => false
    case _ => true
  }

  // ---- Strings ----

  function HexChar(d: nat): char
    requires d < 16
  {
    if d < 10 then DigitChar(d) else ('a' as int + (d - 10)) as char
  }

  /** The escapes of section 7 of RFC 8259 that canonical text uses. */
  function Escape(c: char): string {
    if c == '"' then ['\\', '"']
    else if c == '\\' then ['\\', '\\']
    else if c == '\U{08}' then ['\\', 'b']
    else if c == '\U{09}' then ['\\', 't']
    else if c == '\U{0A}' then ['\\', 'n']
    else if c == '\U{0C}' then ['\\', 'f']
    else if c == '\U{0D}' then ['\\', 'r']
    else if c < '\U{20}' then ['\\', 'u', '0', '0', HexChar(c as int / 16), HexChar(c as int % 16)]
    else [c]
  }

  function Escaped(s: string): string {
    if s == [] then [] else Escape(s[0]) + Escaped(s[1..])
  }

  function Quoted(s: string): string {
    ['"'] + Escaped(s) + ['"']
  }

  // ---- Text ----

  function Print(j: Json): string
    decreases j, 0
  {
    match j
    case JNull => "null"
    case JBool(b) => if b then "true" else "false"
    case JNumber(n) => PrintInt(n)
    case JString(s) => Quoted(s)
    case JArray(items) => ['['] + if items == [] then [']'] else PrintItems(items)
    case JObject(members) => ['{'] + if members == [] then ['}'] else PrintMembers(members)
    case JToken(text) => text
  }

  /** The items with the separators between them and the closing bracket. */
  function PrintItems(items: seq<Json>): string
    requires items != []
    decreases items, 1
  {
    Print(items[0]) + if |items| == 1 then [']'] else [','] + PrintItems(items[1..])
  }

  function PrintMembers(members: seq<Binding<Json>>): string
    requires members != []
    decreases members, 1
  {
    PrintMember(members[0].key, Print(members[0].value)) +
    if |members| == 1 then ['}'] else [','] + PrintMembers(members[1..])
  }

  function PrintMember(key: string, text: string): string {
    Quoted(key) + [':'] + text
  }

  // ---- The reference parser ----

  type Parsed<T> = Option<(T, string)>

  function HexValue(c: char): Option<nat> {
    if '0' <= c <= '9' then Some(c as int - '0' as int)
    else if 'a' <= c <= 'f' then Some(c as int - 'a' as int + 10)
    else if 'A' <= c <= 'F' then Some(c as int - 'A' as int + 10)
    else None
  }

  function ParseHex4(s: string): Option<nat>
    requires |s| >= 4
  {
    var a, b, c, d := HexValue(s[0]), HexValue(s[1]), HexValue(s[2]), HexValue(s[3]);
    if a.Some? && b.Some? && c.Some? && d.Some? then
      Some(a.value * 4096 + b.value * 256 + c.value * 16 + d.value)
    else
      None
  }

  /** What a backslash and one more character stand for. */
  function ShortEscape(c: char): Option<char> {
    if c == '"' || c == '\\' || c == '/' then Some(c)
    else if c == 'b' then Some('\U{08}')
    else if c == 't' then Some('\U{09}')
    else if c == 'n' then Some('\U{0A}')
    else if c == 'f' then Some('\U{0C}')
    else if c == 'r' then Some('\U{0D}')
    else None
  }

  /** One character of a string, escaped or not, and what follows it. */
  function ParseChar(s: string): (r: Parsed<char>)
    ensures r.Some? ==> |r.value.1| < |s|
  {
    if s == [] || s[0] == '"' || s[0] < ' ' then None
    else if s[0] != '\\' then Some((s[0], s[1..]))
    else if |s| == 1 then None
    else if s[1] == 'u' then
      if |s| < 6 then None
      else
        match ParseHex4(s[2..])
        case Some(n) => if n < 0xD800 || 0xE000 <= n < 0x10000 then Some((n as char, s[6..])) else None
        case None => None
    else
      match ShortEscape(s[1])
      case Some(c) => Some((c, s[2..]))
      case None => None
  }

  /** The rest of a string after its opening quote. */
  function ParseChars(s: string): (r: Parsed<string>)
    ensures r.Some? ==> |r.value.1| < |s|
    decreases |s|
  {
    if s != [] && s[0] == '"' then Some(([], s[1..]))
    else
      match ParseChar(s)
      case None => None
      case Some((c, rest)) =>
        match ParseChars(rest)
        case None => None
        case Some((cs, end)) => Some(([c] + cs, end))
  }

  function ParseString(s: string): (r: Parsed<string>)
    ensures r.Some? ==> |r.value.1| < |s|
  {
    if s == [] || s[0] != '"' then None else ParseChars(s[1..])
  }

  lemma {:induction false} DigitRunDigits(s: string)
    ensures AllDigits(s[..DigitRun(s)])
  {
    if s != [] && IsDigit(s[0]) {
      DigitRunDigits(s[1..]);
      assert s[..DigitRun(s)] == [s[0]] + s[1..][..DigitRun(s[1..])];
    }
  }

  /** An integer without sign and without leading zeros. */
  function ParseNat(s: string): (r: Parsed<nat>)
    ensures r.Some? ==> |r.value.1| < |s|
  {
    var k := DigitRun(s);
    DigitRunDigits(s);
    if k == 0 || (k > 1 && s[0] == '0') then None else Some((Value(s[..k]), s[k..]))
  }

  function ParseNumber(s: string): (r: Parsed<Json>)
    ensures r.Some? ==> |r.value.1| < |s|
  {
    var negative := s != [] && s[0] == '-';
    var r := ParseNat(if negative then s[1..] else s);
    if r.None? then None else Some((JNumber(if negative then 0 - r.value.0 else r.value.0), r.value.1))
  }

  function ParseLiteral(s: string): (r: Parsed<Json>)
    ensures r.Some? ==> |r.value.1| < |s|
  {
    if "null" <= s then Some((JNull, s[4..]))
    else if "true" <= s then Some((JBool(true), s[4..]))
    else if "false" <= s then Some((JBool(false), s[5..]))
    else None
  }

  function ParseValue(s: string): (r: Parsed<Json>)
    ensures r.Some? ==> |r.value.1| < |s|
    decreases |s|, 0
  {
    if s == [] then None
    else if s[0] == '"' then
      match ParseString(s)
      case Some((t, rest)) => Some((JString(t), rest))
      case None => None
    else if s[0] == '[' then
      if |s| > 1 && s[1] == ']' then Some((JArray([]), s[2..]))
      else
        match ParseItems(s[1..])
        case Some((items, rest)) => Some((JArray(items), rest))
        case None => None
    else if s[0] == '{' then
      if |s| > 1 && s[1] == '}' then Some((JObject([]), s[2..]))
      else
        match ParseMembers(s[1..])
        case Some((members, rest)) => Some((JObject(members), rest))
        case None => None
    else if s[0] == '-' || IsDigit(s[0]) then ParseNumber(s)
    else ParseLiteral(s)
  }

  function ParseItems(s: string): (r: Parsed<seq<Json>>)
    ensures r.Some? ==> |r.value.1| < |s|
    decreases |s|, 1
  {
    match ParseValue(s)
    case None => None
    case Some((j, rest)) =>
      if rest != [] && rest[0] == ']' then Some(([j], rest[1..]))
      else if rest != [] && rest[0] == ',' then
        match ParseItems(rest[1..])
        case Some((js, end)) => Some(([j] + js, end))
        case None => None
      else None
  }

  function ParseMember(s: string): (r: Parsed<Binding<Json>>)
    ensures r.Some? ==> |r.value.1| < |s|
    decreases |s|, 1
  {
    match ParseString(s)
    case None => None
    case Some((key, rest)) =>
      if rest == [] || rest[0] != ':' then None
      else
        match ParseValue(rest[1..])
        case Some((j, end)) => Some((Binding(key, j), end))
        case None => None
  }

  function ParseMembers(s: string): (r: Parsed<seq<Binding<Json>>>)
    ensures r.Some? ==> |r.value.1| < |s|
    decreases |s|, 2
  {
    match ParseMember(s)
    case None => None
    case Some((m, rest)) =>
      if rest != [] && rest[0] == '}' then Some(([m], rest[1..]))
      else if rest != [] && rest[0] == ',' then
        match ParseMembers(rest[1..])
        case Some((ms, end)) => Some(([m] + ms, end))
        case None => None
      else None
  }

  /** A whole text: one value and nothing after it. */
  function Parse(s: string): Option<Json> {
    match ParseValue(s)
    case Some((j, rest)) => if rest == [] then Some(j) else None
    case None => None
  }

  // ---- Round trip ----

  lemma EscapeReadsBack(c: char, rest: string)
    ensures ParseChar(Escape(c) + rest) == Some((c, rest)) && Escape(c) != [] && Escape(c)[0] != '"'
  {
  }

  lemma CharsGrow(first: string, body: string, rest: string)
    ensures (first + body) + ['"'] + rest == first + (body + ['"'] + rest)
  {
  }

  lemma {:induction false} CharsReadBack(s: string, rest: string)
    ensures ParseChars(Escaped(s) + ['"'] + rest) == Some((s, rest))
  {
    var text := Escaped(s) + ['"'] + rest;
    if s == [] {
      assert text[1..] == rest;
    } else {
      var tail := Escaped(s[1..]) + ['"'] + rest;
      CharsGrow(Escape(s[0]), Escaped(s[1..]), rest);
      EscapeReadsBack(s[0], tail);
      CharsReadBack(s[1..], rest);
      assert s == [s[0]] + s[1..];
    }
  }

  lemma StringReadsBack(s: string, rest: string)
    ensures ParseString(Quoted(s) + rest) == Some((s, rest))
  {
    CharsReadBack(s, rest);
    assert (Quoted(s) + rest)[1..] == Escaped(s) + ['"'] + rest;
  }

  predicate NoDigitFirst(rest: string) { rest == [] || !IsDigit(rest[0]) }

  lemma NatReadsBack(n: nat, rest: string)
    requires NoDigitFirst(rest)
    ensures ParseNat(PrintNat(n) + rest) == Some((n, rest))
    ensures PrintNat(n) != [] && IsDigit(PrintNat(n)[0])
  {
    PrintNatDigits(n);
    DigitRunIs(PrintNat(n), rest);
    var s := PrintNat(n) + rest;
    assert s[..|PrintNat(n)|] == PrintNat(n) && s[|PrintNat(n)|..] == rest;
  }

  lemma SignReadsBack(digits: string, n: nat, rest: string)
    requires digits != [] && IsDigit(digits[0]) && ParseNat(digits + rest) == Some((n, rest))
    ensures ParseNumber(digits + rest) == Some((JNumber(n), rest))
    ensures ParseNumber("-" + digits + rest) == Some((JNumber(0 - n), rest))
  {
    assert ("-" + digits + rest)[1..] == digits + rest;
  }

  lemma NumberReadsBack(n: int, rest: string)
    requires NoDigitFirst(rest)
    ensures ParseNumber(PrintInt(n) + rest) == Some((JNumber(n), rest))
    ensures PrintInt(n) != [] && (PrintInt(n)[0] == '-' || IsDigit(PrintInt(n)[0]))
  {
    var magnitude := if n < 0 then -n else n;
    var digits := PrintNat(magnitude);
    NatReadsBack(magnitude, rest);
    SignReadsBack(digits, magnitude, rest);
  }

  lemma LiteralsReadBack(rest: string)
    ensures ParseValue("null" + rest) == Some((JNull, rest))
    ensures ParseValue("true" + rest) == Some((JBool(true), rest))
    ensures ParseValue("false" + rest) == Some((JBool(false), rest))
  {
  }

  lemma ArrayReadsBack(items: seq<Json>, rest: string)
    requires items != [] ==> ParseItems(PrintItems(items) + rest) == Some((items, rest)) && PrintItems(items)[0] != ']'
    requires items != [] ==> PrintItems(items) != []
    ensures ParseValue(Print(JArray(items)) + rest) == Some((JArray(items), rest))
  {
    var s := Print(JArray(items)) + rest;
    if items == [] {
      assert s[2..] == rest;
    } else {
      assert s[1..] == PrintItems(items) + rest;
      assert s[1] == PrintItems(items)[0];
    }
  }

  lemma ObjectReadsBack(members: seq<Binding<Json>>, rest: string)
    requires members != [] ==> ParseMembers(PrintMembers(members) + rest) == Some((members, rest))
    requires members != [] ==> PrintMembers(members) != [] && PrintMembers(members)[0] != '}'
    ensures ParseValue(Print(JObject(members)) + rest) == Some((JObject(members), rest))
  {
    if members == [] {
      assert (Print(JObject(members)) + rest)[2..] == rest;
    } else {
      BracedReadsBack(PrintMembers(members), members, rest);
    }
  }

  lemma BracedReadsBack(body: string, members: seq<Binding<Json>>, rest: string)
    requires ParseMembers(body + rest) == Some((members, rest)) && body != [] && body[0] != '}'
    ensures ParseValue(['{'] + body + rest) == Some((JObject(members), rest))
  {
    var s := ['{'] + body + rest;
    assert s[1..] == body + rest && s[1] == body[0];
    ObjectStep(s, members, rest);
  }

  lemma ObjectStep(s: string, members: seq<Binding<Json>>, rest: string)
    requires |s| > 1 && s[0] == '{' && s[1] != '}' && ParseMembers(s[1..]) == Some((members, rest))
    ensures ParseValue(s) == Some((JObject(members), rest))
  {
  }

  /** The text of a tree, whatever follows it, reads back as that tree. */
  lemma {:induction false} ValueReadsBack(j: Json, rest: string)
    requires Exact(j) && NoDigitFirst(rest)
    ensures ParseValue(Print(j) + rest) == Some((j, rest))
    decreases j, 0
  {
    match j
    case JNull => LiteralsReadBack(rest);
    case JBool(_) => LiteralsReadBack(rest);
    case JNumber(n) => NumberReadsBack(n, rest);
    case JString(t) => StringReadsBack(t, rest);
    case JArray(items) =>
      if items != [] {
        ItemsReadBack(items, rest);
      }
      ArrayReadsBack(items, rest);
    case JObject(members) =>
      if members != [] {
        MembersReadBack(members, rest);
      }
      ObjectReadsBack(members, rest);
  }

  /** The first character of a value closes no array. */
  lemma OpensNoBracket(j: Json)
    requires !j.JToken?
    ensures Print(j) != [] && Print(j)[0] != ']'
  {
    if j.JNumber? {
      NumberReadsBack(j.n, []);
    }
  }

  lemma ItemsStep(s: string, j: Json, tail: string, js: seq<Json>, rest: string)
    requires ParseValue(s) == Some((j, [','] + tail)) && ParseItems(tail) == Some((js, rest))
    ensures ParseItems(s) == Some(([j] + js, rest))
  {
  }

  lemma ItemsEnd(s: string, j: Json, rest: string)
    requires ParseValue(s) == Some((j, [']'] + rest))
    ensures ParseItems(s) == Some(([j], rest))
  {
  }

  lemma Regroup(a: string, b: string, c: string, d: string)
    ensures (a + (b + c)) + d == a + (b + (c + d)) && (a + b) + d == a + (b + d)
  {
  }

  lemma {:induction false} ItemsReadBack(items: seq<Json>, rest: string)
    requires items != [] && forall i | 0 <= i < |items| :: Exact(items[i])
    ensures ParseItems(PrintItems(items) + rest) == Some((items, rest))
    ensures PrintItems(items) != [] && PrintItems(items)[0] != ']'
    decreases items, 1
  {
    var first := Print(items[0]);
    OpensNoBracket(items[0]);
    if |items| == 1 {
      Regroup(first, [']'], [], rest);
      ValueReadsBack(items[0], [']'] + rest);
      ItemsEnd(PrintItems(items) + rest, items[0], rest);
      assert items == [items[0]];
    } else {
      var body := PrintItems(items[1..]);
      Regroup(first, [','], body, rest);
      ValueReadsBack(items[0], [','] + (body + rest));
      ItemsReadBack(items[1..], rest);
      ItemsStep(PrintItems(items) + rest, items[0], body + rest, items[1..], rest);
      assert items == [items[0]] + items[1..];
    }
  }

  lemma {:induction false} MemberReadsBack(m: Binding<Json>, rest: string)
    requires Exact(m.value) && NoDigitFirst(rest)
    ensures ParseMember(PrintMember(m.key, Print(m.value)) + rest) == Some((m, rest))
    decreases m, 1
  {
    var tail := Print(m.value) + rest;
    assert PrintMember(m.key, Print(m.value)) + rest == Quoted(m.key) + ([':'] + tail);
    StringReadsBack(m.key, [':'] + tail);
    ValueReadsBack(m.value, rest);
    MemberStep(PrintMember(m.key, Print(m.value)) + rest, m, tail, rest);
  }

  lemma MemberStep(s: string, m: Binding<Json>, tail: string, rest: string)
    requires ParseString(s) == Some((m.key, [':'] + tail)) && ParseValue(tail) == Some((m.value, rest))
    ensures ParseMember(s) == Some((m, rest))
  {
  }

  lemma MembersStep(s: string, m: Binding<Json>, tail: string, ms: seq<Binding<Json>>, rest: string)
    requires ParseMember(s) == Some((m, [','] + tail)) && ParseMembers(tail) == Some((ms, rest))
    ensures ParseMembers(s) == Some(([m] + ms, rest))
  {
  }

  lemma MembersEnd(s: string, m: Binding<Json>, rest: string)
    requires ParseMember(s) == Some((m, ['}'] + rest))
    ensures ParseMembers(s) == Some(([m], rest))
  {
  }

  /** One more member in front of members that read back. */
  lemma MembersGrow(first: string, m: Binding<Json>, body: string, ms: seq<Binding<Json>>, rest: string)
    requires ParseMember(first + ([','] + (body + rest))) == Some((m, [','] + (body + rest)))
    requires ParseMembers(body + rest) == Some((ms, rest))
    ensures ParseMembers(first + ([','] + body) + rest) == Some(([m] + ms, rest))
  {
    Regroup(first, [','], body, rest);
    MembersStep(first + ([','] + (body + rest)), m, body + rest, ms, rest);
  }

  lemma MembersOpen(members: seq<Binding<Json>>)
    requires members != []
    ensures PrintMembers(members) != [] && PrintMembers(members)[0] == '"'
  {
    assert Quoted(members[0].key)[0] == '"';
  }

  lemma {:induction false} LastMemberReadsBack(m: Binding<Json>, rest: string)
    requires Exact(m.value)
    ensures ParseMembers(PrintMember(m.key, Print(m.value)) + ['}'] + rest) == Some(([m], rest))
    decreases m, 2
  {
    var first := PrintMember(m.key, Print(m.value));
    MemberReadsBack(m, ['}'] + rest);
    Regroup(first, ['}'], [], rest);
    MembersEnd(first + (['}'] + rest), m, rest);
  }

  lemma PrintMembersCons(m: Binding<Json>, ms: seq<Binding<Json>>)
    requires ms != []
    ensures PrintMembers([m] + ms) == PrintMember(m.key, Print(m.value)) + ([','] + PrintMembers(ms))
  {
    assert ([m] + ms)[1..] == ms;
  }

  lemma {:induction false} MemberInFront(m: Binding<Json>, ms: seq<Binding<Json>>, rest: string)
    requires Exact(m.value) && ms != [] && ParseMembers(PrintMembers(ms) + rest) == Some((ms, rest))
    ensures ParseMembers(PrintMembers([m] + ms) + rest) == Some(([m] + ms, rest))
    decreases m, 2
  {
    var first, body := PrintMember(m.key, Print(m.value)), PrintMembers(ms);
    PrintMembersCons(m, ms);
    MemberReadsBack(m, [','] + (body + rest));
    MembersGrow(first, m, body, ms, rest);
  }

  lemma {:induction false} MembersReadBack(members: seq<Binding<Json>>, rest: string)
    requires members != [] && forall i | 0 <= i < |members| :: Exact(members[i].value)
    ensures ParseMembers(PrintMembers(members) + rest) == Some((members, rest))
    ensures PrintMembers(members) != [] && PrintMembers(members)[0] != '}'
    decreases members, 3
  {
    MembersOpen(members);
    if |members| == 1 {
      LastMemberReadsBack(members[0], rest);
      assert members == [members[0]];
    } else {
      MembersReadBack(members[1..], rest);
      MemberInFront(members[0], members[1..], rest);
      assert members == [members[0]] + members[1..];
    }
  }

  /** Reading inverts printing, so different trees have different texts. */
  lemma PrintParses(j: Json)
    requires Exact(j)
    ensures Parse(Print(j)) == Some(j)
  {
    ValueReadsBack(j, []);
    assert Print(j) + [] == Print(j);
  }

  lemma PrintIsInjective(j: Json, k: Json)
    requires Exact(j) && Exact(k) && Print(j) == Print(k)
    ensures j == k
  {
    PrintParses(j);
    PrintParses(k);
  }
}
