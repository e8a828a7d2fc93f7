/** How requests are read: put together from its parts, a request reads as those parts. */
module WorkerRequests {
  import opened Matrix
  import opened Decimal
  import opened SortedEntries
  import opened WorkerNames

  // ---- White space ----

  /** The ASCII characters that count as white space, by number. */
  predicate White(c: char) { c as int in {9, 10, 11, 12, 13, 28, 29, 30, 31, 32} }

  predicate Blank(s: string) { forall i | 0 <= i < |s| :: White(s[i]) }

  predicate Trimmed(s: string) { s != [] ==> !White(s[0]) && !White(s[|s| - 1]) }

  lemma {:induction false} TrimLeftIs(a: string, t: string)
    requires Blank(a) && (t != [] ==> !White(t[0]))
    ensures TrimLeft(a + t) == t
  {
    if a == [] {
      assert a + t == t;
    } else {
      assert (a + t)[1..] == a[1..] + t;
      TrimLeftIs(a[1..], t);
    }
  }

  lemma {:induction false} TrimRightIs(t: string, b: string)
    requires Blank(b) && (t != [] ==> !White(t[|t| - 1]))
    ensures TrimRight(t + b) == t
  {
    if b == [] {
      assert t + b == t;
    } else {
      assert (t + b)[..|t + b| - 1] == t + b[..|b| - 1];
      TrimRightIs(t, b[..|b| - 1]);
    }
  }

  /** Stripping takes away white space on both sides and nothing else. */
  lemma StripIs(a: string, t: string, b: string)
    requires Blank(a) && Blank(b) && Trimmed(t)
    ensures Strip(a + t + b) == t
  {
    if t == [] {
      assert a + t + b == (a + b) + [];
      TrimLeftIs(a + b, []);
    } else {
      assert a + t + b == a + (t + b);
      TrimLeftIs(a, t + b);
      TrimRightIs(t, b);
    }
  }

  lemma {:induction false} TrimLeftSplits(s: string) returns (a: string)
    ensures s == a + TrimLeft(s) && Blank(a) && (TrimLeft(s) != [] ==> !White(TrimLeft(s)[0]))
  {
    if s != [] && IsSpace(s[0]) {
      var rest := TrimLeftSplits(s[1..]);
      a := [s[0]] + rest;
    } else {
      a := [];
    }
  }

  lemma {:induction false} TrimRightSplits(s: string) returns (b: string)
    ensures s == TrimRight(s) + b && Blank(b) && (TrimRight(s) != [] ==> !White(TrimRight(s)[|TrimRight(s)| - 1]))
  {
    if s != [] && IsSpace(s[|s| - 1]) {
      var rest := TrimRightSplits(s[..|s| - 1]);
      b := rest + [s[|s| - 1]];
    } else {
      b := [];
    }
  }

  lemma StripSplits(s: string) returns (a: string, b: string)
    ensures s == a + Strip(s) + b && Blank(a) && Blank(b) && Trimmed(Strip(s))
  {
    a := TrimLeftSplits(s);
    b := TrimRightSplits(TrimLeft(s));
    assert Strip(s) != [] ==> Strip(s)[0] == TrimLeft(s)[0];
  }

  lemma StripIgnoresOuter(a: string, t: string, b: string)
    requires Blank(a) && Blank(b)
    ensures Strip(a + t + b) == Strip(t)
  {
    var c, d := StripSplits(t);
    assert a + t + b == (a + c) + Strip(t) + (d + b);
    StripIs(a + c, Strip(t), d + b);
  }

  // ---- Separators ----

  /** Parts with a separator between them. */
  function Join(parts: seq<string>, c: char): string
    requires parts != []
  {
    if |parts| == 1 then parts[0] else parts[0] + [c] + Join(parts[1..], c)
  }

  function StripAll(parts: seq<string>): seq<string> {
    seq(|parts|, i requires 0 <= i < |parts| => Strip(parts[i]))
  }

  predicate NoneHolds(parts: seq<string>, c: char) { forall i | 0 <= i < |parts| :: c !in parts[i] }

  lemma IndexOfFirst(head: string, c: char, tail: string)
    requires c !in head
    ensures IndexOf(head + [c] + tail, c, 0) == Some(|head|)
    ensures IndexOf(head, c, 0) == None
  {
    var s := head + [c] + tail;
    assert s[|head|] == c && s[0..] == s && head[0..] == head;
  }

  lemma SplitNowhere(s: string, c: char)
    requires c !in s
    ensures SplitAndStrip(s, c) == [Strip(s)]
  {
    IndexOfFirst(s, c, []);
  }

  lemma SplitOnce(head: string, c: char, tail: string)
    requires c !in head
    ensures SplitAndStrip(head + [c] + tail, c) == [Strip(head)] + SplitAndStrip(tail, c)
  {
    var s := head + [c] + tail;
    IndexOfFirst(head, c, tail);
    assert s[..|head|] == head && s[|head| + 1..] == tail;
  }

  /** A text put together with a separator comes apart into its parts, each stripped. */
  lemma {:induction false} SplitIs(parts: seq<string>, c: char)
    requires parts != [] && NoneHolds(parts, c)
    ensures SplitAndStrip(Join(parts, c), c) == StripAll(parts)
  {
    if |parts| == 1 {
      SplitNowhere(parts[0], c);
    } else {
      SplitOnce(parts[0], c, Join(parts[1..], c));
      SplitIs(parts[1..], c);
    }
  }

  /** White space around the whole makes no difference. */
  lemma {:induction false} SplitIgnoresOuter(a: string, t: string, b: string, c: char)
    requires Blank(a) && Blank(b) && !White(c)
    ensures SplitAndStrip(a + t + b, c) == SplitAndStrip(t, c)
    decreases |t|
  {
    match IndexOf(t, c, 0)
    case None =>
      assert t[0..] == t;
      SplitNowhere(t, c);
      OuterNowhere(a, t, b, c);
    case Some(i) =>
      var head, tail := t[..i], t[i + 1..];
      assert t[0..i] == head && t == head + [c] + tail;
      SplitOnce(head, c, tail);
      OuterSplit(a, head, tail, b, c);
      SplitIgnoresOuter([], tail, b, c);
      assert [] + tail + b == tail + b;
  }

  lemma OuterNowhere(a: string, t: string, b: string, c: char)
    requires Blank(a) && Blank(b) && !White(c) && c !in t
    ensures SplitAndStrip(a + t + b, c) == [Strip(t)]
  {
    assert c !in a && c !in b;
    SplitNowhere(a + t + b, c);
    StripIgnoresOuter(a, t, b);
  }

  lemma OuterSplit(a: string, head: string, tail: string, b: string, c: char)
    requires Blank(a) && !White(c) && c !in head
    ensures SplitAndStrip(a + (head + [c] + tail) + b, c) == [Strip(head)] + SplitAndStrip(tail + b, c)
  {
    assert a + (head + [c] + tail) + b == (a + head) + [c] + (tail + b);
    SplitOnce(a + head, c, tail + b);
    StripIgnoresOuter(a, head, []);
    assert a + head + [] == a + head;
  }

  // ---- One request ----

  /** Letters, digits, underscores, plus and minus signs, and no digit at the end. */
  predicate NameFits(name: string) {
    && name != [] && (forall i | 0 <= i < |name| ::
                        'a' <= name[i] <= 'z' || 'A' <= name[i] <= 'Z' || '0' <= name[i] <= '9' || name[i] in "_+-")
    && !('0' <= name[|name| - 1] <= '9')
  }

  lemma NameFitsIff(name: string)
    ensures NameFits(name) <==> ValidName(name)
  {
    if ValidName(name) {
      forall i | 0 <= i < |name| ensures NameChar(name[i]) { assert name[i] in name; }
    }
  }

  function SetOf(parts: seq<string>): set<string> { set t | t in parts }

  lemma SidesOf(name: string, types: string)
    requires '=' !in name && '=' !in types
    ensures SplitAndStrip(name + ['='] + types, '=') == [Strip(name), Strip(types)]
  {
    var sides := [name, types];
    assert Join(sides, '=') == name + ['='] + types;
    SplitIs(sides, '=');
  }

  lemma TypesOf(parts: seq<string>)
    requires parts != [] && NoneHolds(parts, '+')
    ensures SplitAndStrip(Join(parts, '+'), '+') == SplitAndStrip(Strip(Join(parts, '+')), '+') == StripAll(parts)
  {
    var s := Join(parts, '+');
    var a, b := StripSplits(s);
    SplitIgnoresOuter(a, Strip(s), b, '+');
    SplitIs(parts, '+');
  }

  lemma {:induction false} JoinHolds(parts: seq<string>, c: char, d: char)
    requires parts != [] && NoneHolds(parts, d) && c != d
    ensures d !in Join(parts, c)
  {
    if |parts| > 1 {
      JoinHolds(parts[1..], c, d);
    }
  }

  /** A request with a name gets that name, if it is one that fits, and the types listed. */
  lemma NamedRequestIs(name: string, parts: seq<string>)
    requires '=' !in name && parts != [] && NoneHolds(parts, '+') && NoneHolds(parts, '=')
    ensures Parsed(name + ['='] + Join(parts, '+')) ==
            if NameFits(Strip(name)) then Some(Plan(Strip(name), SetOf(StripAll(parts)))) else None
  {
    JoinHolds(parts, '+', '=');
    SidesOf(name, Join(parts, '+'));
    TypesOf(parts);
    NameFitsIff(Strip(name));
  }

  /** A request without one gets a generated name. */
  lemma UnnamedRequestIs(parts: seq<string>)
    requires parts != [] && NoneHolds(parts, '+') && NoneHolds(parts, '=')
    ensures Parsed(Join(parts, '+')) == Some(Plan(GeneratedName(StripAll(parts)), SetOf(StripAll(parts))))
  {
    JoinHolds(parts, '+', '=');
    SplitIs([Join(parts, '+')], '=');
    TypesOf(parts);
  }

  /** A request with two equals signs is refused. */
  lemma TwoNamesAreRefused(sides: seq<string>)
    requires |sides| > 2 && NoneHolds(sides, '=')
    ensures Parsed(Join(sides, '=')) == None
  {
    SplitIs(sides, '=');
  }

  function Keys(types: seq<Binding<()>>): seq<string> {
    seq(|types|, i requires 0 <= i < |types| => types[i].key)
  }

  lemma {:induction false} JoinedIs(types: seq<Binding<()>>)
    requires types != []
    ensures WorkerNames.Joined(types) == Join(Keys(types), '+')
  {
    if |types| > 1 {
      JoinedIs(types[1..]);
      assert Keys(types)[1..] == Keys(types[1..]);
    }
  }

  /** The generated name lists the types, each once and in lexicographic order, with plus
      signs between them. */
  lemma GeneratedNameIs(parts: seq<string>) returns (sorted: seq<string>)
    requires parts != []
    ensures sorted != [] && GeneratedName(parts) == Join(sorted, '+')
    ensures forall t :: t in sorted <==> t in parts
    ensures forall i, j | 0 <= i < j < |sorted| :: Before(sorted[i], sorted[j])
  {
    var types := SortedTypes(parts);
    SortedTypesAre(parts, parts[0]);
    SortedIff(types);
    sorted := Keys(types);
    JoinedIs(types);
    forall t ensures t in sorted <==> t in parts {
      SortedTypesAre(parts, t);
      if t in sorted {
        var i :| 0 <= i < |types| && types[i].key == t;
        UnitBinding(types[i]);
      }
      if t in parts {
        var i :| 0 <= i < |types| && types[i] == Binding(t, ());
        assert sorted[i] == t;
      }
    }
  }

  /** So it reads back as a request for the same types. */
  lemma GeneratedNameReadsBack(parts: seq<string>)
    requires parts != [] && NoneHolds(parts, '+') && NoneHolds(parts, '=')
    requires forall i | 0 <= i < |parts| :: Trimmed(parts[i])
    ensures Parsed(GeneratedName(parts)) == Some(Plan(GeneratedName(parts), SetOf(parts)))
  {
    var sorted := GeneratedNameIs(parts);
    forall i | 0 <= i < |sorted| ensures sorted[i] in parts && Strip(sorted[i]) == sorted[i] {
      assert sorted[i] in sorted;
      StripIs([], sorted[i], []);
      assert [] + sorted[i] + [] == sorted[i];
    }
    assert StripAll(sorted) == sorted && SetOf(sorted) == SetOf(parts);
    UnnamedRequestIs(sorted);
    GeneratedNameIsOfSet(parts, sorted);
  }

  // ---- Multipliers ----

  /** The count of a request stands after its first colon; without a colon it is 1. */
  lemma MultiplierIs(name: string, count: string, readInt: IntReader)
    requires ':' !in name
    ensures Multiplier(name, readInt) == Some((name, 1))
    ensures Multiplier(name + [':'] + count, readInt) ==
            match readInt(Strip(count)) case None => None case Some(n) => Some((Strip(name), n))
  {
    IndexOfFirst(name, ':', count);
    var s := name + [':'] + count;
    assert s[..|name|] == name && s[|name| + 1..] == count;
  }

  /** A plain type asked for `n` times is listed `n` times. */
  lemma RepeatedRequestIs(name: string, count: string, readInt: IntReader, n: nat)
    requires ':' !in name && Trimmed(name) && readInt(Strip(count)) == Some(n)
    ensures Expanded([name + [':'] + count], readInt) == Some(seq(n, _ => name))
    ensures Expanded([name], readInt) == Some([name])
  {
    MultiplierIs(name, count, readInt);
    StripIs([], name, []);
    assert [] + name + [] == name;
    var a, b := [name + [':'] + count], [name];
    assert a[..0] == [] && b[..0] == [];
    assert [] + Copies(name, n) == seq(n, _ => name) && [] + Copies(name, 1) == [name];
  }

  // ---- Known types ----

  lemma PlainTypeIs(t: string)
    requires '=' !in t && '+' !in t && Trimmed(t)
    ensures Parsed(t) == Some(Plan(t, {t}))
  {
    var sorted := GeneratedNameIs([t]);
    assert sorted == [t] by {
      assert t in sorted && sorted[0] in [t];
      if |sorted| > 1 {
        assert sorted[1] in [t] && Before(sorted[0], sorted[1]);
        LessIff(t, t);
        LessIsIrreflexive(t);
      }
    }
    GeneratedNameReadsBack([t]);
    assert SetOf([t]) == {t};
  }

  lemma ConsistentIff(p: Plan)
    ensures Consistent([p]) <==> p.types <= KNOWN_TYPES
    ensures Consistent([p, p]) <==> p.types <= KNOWN_TYPES && forall t | t in p.types :: ShardingAllowed(t)
  {
    assert [p, p][0] == p && [p, p][1] == p;
  }

  lemma PlansIs(t: string, p: Plan)
    requires Parsed(t) == Some(p)
    ensures Readable([t]) && Plans([t]) == [p] && Readable([t, t]) && Plans([t, t]) == [p, p]
  {
  }

  lemma PlannableOnce(t: string)
    requires Parsed(t) == Some(Plan(t, {t}))
    ensures Plannable([t]) <==> t in KNOWN_TYPES
    ensures Plannable([t, t]) <==> t in KNOWN_TYPES && ShardingAllowed(t)
  {
    PlansIs(t, Plan(t, {t}));
    ConsistentIff(Plan(t, {t}));
  }

  /** Which types there are, and which of them may not run on more than one worker. */
  lemma KnownTypesAre(t: string)
    requires '=' !in t && '+' !in t && Trimmed(t)
    ensures Plannable([t]) <==>
            t in {"pusher", "user_dir", "media_repository", "appservice", "federation_sender", "synchrotron",
                  "client_reader", "federation_reader", "federation_inbound", "event_persister", "background_worker",
                  "event_creator", "account_data", "presence", "receipts", "to_device", "device_lists", "typing",
                  "push_rules", "thread_subscriptions"}
    ensures Plannable([t, t]) <==>
            && Plannable([t])
            && t !in {"background_worker", "account_data", "presence", "receipts", "to_device", "typing"}
  {
    PlainTypeIs(t);
    PlannableOnce(t);
  }
}
