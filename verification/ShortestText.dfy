/** The printed text of a tree is the shortest there is: every text that the reference parser
    takes for the same tree is at least as long. */
module ShortestText {
  import opened Matrix
  import opened Decimal
  import opened SortedEntries
  import opened JsonText

  // ---- Strings ----

  lemma CharIsShortest(t: string, c: char, rest: string)
    requires ParseChar(t) == Some((c, rest))
    ensures |Escape(c)| + |rest| <= |t|
  {
  }

  lemma HexIsOne(c: char, d: nat)
    requires HexValue(c) == Some(d) && !('A' <= c <= 'F')
    ensures d < 16 && HexChar(d) == c
  {
  }

  lemma FourDigits(s: string, n: nat)
    requires |s| == 4 && ParseHex4(s) == Some(n) && n < 32 && forall i | 0 <= i < 4 :: !('A' <= s[i] <= 'F')
    ensures s == ['0', '0', HexChar(n / 16), HexChar(n % 16)]
  {
    var a, b, c, d := HexValue(s[0]).value, HexValue(s[1]).value, HexValue(s[2]).value, HexValue(s[3]).value;
    HexIsOne(s[0], a);
    HexIsOne(s[1], b);
    HexIsOne(s[2], c);
    HexIsOne(s[3], d);
    assert a == 0 && b == 0 && c == n / 16 && d == n % 16;
  }

  /** Of the shortest ways to write a character, canonical text has the one without capital
      letters in an escape. */
  lemma EscapeIsOnly(t: string, c: char)
    requires ParseChar(t) == Some((c, [])) && |t| <= |Escape(c)|
    requires |t| > 1 ==> forall i | 0 <= i < |t| :: !('A' <= t[i] <= 'F')
    ensures t == Escape(c)
  {
    if |t| == 6 {
      var n := c as int;
      assert forall i | 0 <= i < 4 :: t[2..][i] == t[i + 2];
      FourDigits(t[2..], n);
      assert t == ['\\', 'u'] + t[2..];
    }
  }

  lemma {:induction false} CharsAreShortest(t: string, s: string, rest: string)
    requires ParseChars(t) == Some((s, rest))
    ensures |Escaped(s)| + 1 + |rest| <= |t|
    decreases |t|
  {
    if t[0] != '"' {
      var c, more := ParseChar(t).value.0, ParseChar(t).value.1;
      CharIsShortest(t, c, more);
      CharsAreShortest(more, ParseChars(more).value.0, rest);
      assert s[1..] == ParseChars(more).value.0;
    }
  }

  lemma StringIsShortest(t: string, s: string, rest: string)
    requires ParseString(t) == Some((s, rest))
    ensures |Quoted(s)| + |rest| <= |t|
  {
    CharsAreShortest(t[1..], s, rest);
  }

  // ---- Numbers ----

  lemma AppendDigit(n: nat, c: char)
    requires n > 0 && IsDigit(c)
    ensures PrintNat(n * 10 + DigitValue(c)) == PrintNat(n) + [c]
  {
    var m := n * 10 + DigitValue(c);
    assert m >= 10 && m / 10 == n && m % 10 == DigitValue(c);
  }

  /** Digits without a leading zero are the one text of their number. */
  lemma {:induction false} DigitsArePrinted(s: string)
    requires AllDigits(s) && s != [] && (|s| > 1 ==> s[0] != '0')
    ensures PrintNat(Value(s)) == s
  {
    var init, last := s[..|s| - 1], s[|s| - 1];
    assert s == init + [last];
    if |s| == 1 {
      assert Value(init) == 0;
    } else {
      DigitsArePrinted(init);
      ValueIsPositive(init);
      AppendDigit(Value(init), last);
    }
  }

  lemma {:induction false} ValueIsPositive(s: string)
    requires AllDigits(s) && s != [] && s[0] != '0'
    ensures Value(s) > 0
  {
    if |s| > 1 {
      ValueIsPositive(s[..|s| - 1]);
    } else {
      assert s[..0] == [];
    }
  }

  lemma NatIsShortest(t: string, n: nat, rest: string)
    requires ParseNat(t) == Some((n, rest))
    ensures t == PrintNat(n) + rest
  {
    var k := DigitRun(t);
    DigitRunDigits(t);
    assert t == t[..k] + t[k..];
    DigitsArePrinted(t[..k]);
  }

  lemma NumberIsShortest(t: string, j: Json, rest: string)
    requires ParseNumber(t) == Some((j, rest))
    ensures |Print(j)| + |rest| <= |t|
  {
    var negative := t != [] && t[0] == '-';
    var digits := if negative then t[1..] else t;
    NatIsShortest(digits, ParseNat(digits).value.0, rest);
  }

  // ---- Values ----

  lemma {:induction false} ValueIsShortest(t: string, j: Json, rest: string)
    requires ParseValue(t) == Some((j, rest))
    ensures |Print(j)| + |rest| <= |t|
    decreases |t|, 0
  {
    if t[0] == '"' {
      StringIsShortest(t, ParseString(t).value.0, rest);
    } else if t[0] == '[' {
      if !(|t| > 1 && t[1] == ']') {
        ItemsAreShortest(t[1..], ParseItems(t[1..]).value.0, rest);
      }
    } else if t[0] == '{' {
      if !(|t| > 1 && t[1] == '}') {
        MembersAreShortest(t[1..], ParseMembers(t[1..]).value.0, rest);
      }
    } else if t[0] == '-' || IsDigit(t[0]) {
      NumberIsShortest(t, j, rest);
    }
  }

  lemma {:induction false} ItemsAreShortest(t: string, items: seq<Json>, rest: string)
    requires ParseItems(t) == Some((items, rest))
    ensures items != [] && |PrintItems(items)| + |rest| <= |t|
    decreases |t|, 1
  {
    var first, more := ParseValue(t).value.0, ParseValue(t).value.1;
    ValueIsShortest(t, first, more);
    if more[0] == ',' {
      ItemsAreShortest(more[1..], ParseItems(more[1..]).value.0, rest);
      assert items[1..] == ParseItems(more[1..]).value.0;
    }
  }

  lemma {:induction false} MemberIsShortest(t: string, m: Binding<Json>, rest: string)
    requires ParseMember(t) == Some((m, rest))
    ensures |PrintMember(m.key, Print(m.value))| + |rest| <= |t|
    decreases |t|, 1
  {
    var more := ParseString(t).value.1;
    StringIsShortest(t, m.key, more);
    ValueIsShortest(more[1..], m.value, rest);
  }

  lemma {:induction false} MembersAreShortest(t: string, members: seq<Binding<Json>>, rest: string)
    requires ParseMembers(t) == Some((members, rest))
    ensures members != [] && |PrintMembers(members)| + |rest| <= |t|
    decreases |t|, 2
  {
    var first, more := ParseMember(t).value.0, ParseMember(t).value.1;
    MemberIsShortest(t, first, more);
    if more[0] == ',' {
      MembersAreShortest(more[1..], ParseMembers(more[1..]).value.0, rest);
      assert members[1..] == ParseMembers(more[1..]).value.0;
    }
  }
}
