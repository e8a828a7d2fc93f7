/** The canonical serialiser as it runs: a writer that grows, and for each object a buffer
    that is filled entry by entry and written out, in order, at the end. */
module CanonicalSerializer {
  import opened Matrix
  import opened SortedEntries
  import opened JsonText
  import opened CanonicalJson

  class Writer {
    var out: string

    constructor ()
      ensures out == []
    {
      out := [];
    }

    method Write(s: string)
      modifies this
      ensures out == old(out) + s
    {
      out := out + s;
    }

    method WriteEscaped(s: string)
      modifies this
      ensures out == old(out) + Escaped(s)
    {
      var i := 0;
      while i < |s|
        invariant 0 <= i <= |s|
        invariant out == old(out) + Escaped(s[..i])
      {
        Write(Escape(s[i]));
        assert s[..i + 1] == s[..i] + [s[i]];
        EscapedAppend(s[..i], s[i]);
        i := i + 1;
      }
      assert s[..|s|] == s;
    }

    method WriteQuoted(s: string)
      modifies this
      ensures out == old(out) + Quoted(s)
    {
      Write(['"']);
      WriteEscaped(s);
      Write(['"']);
    }

    method WritePair(first: bool, key: string, text: string)
      modifies this
      ensures out == old(out) + (Separator(first) + PrintMember(key, text))
    {
      Write(Separator(first));
      WriteQuoted(key);
      Write([':']);
      Write(text);
    }

    /** Entries with the separators between them and the closing brace. */
    method WritePairs(buffer: seq<Binding<string>>)
      requires buffer != []
      modifies this
      ensures out == old(out) + PrintPairs(buffer)
    {
      var i := 0;
      ghost var start := out;
      while i < |buffer|
        invariant 0 <= i <= |buffer|
        invariant out == start + Written(buffer, i)
      {
        WritePair(i == 0, buffer[i].key, buffer[i].value);
        Associates(start, Written(buffer, i), PairText(buffer, i));
        i := i + 1;
      }
      Write(['}']);
      WrittenAndRemaining(buffer, i);
      Associates(start, Written(buffer, i), ['}']);
    }
  }

  function Separator(first: bool): string { if first then [] else [','] }

  lemma Associates(a: string, b: string, c: string)
    ensures a + b + c == a + (b + c)
  {
  }

  lemma {:induction false} EscapedAppend(s: string, c: char)
    ensures Escaped(s + [c]) == Escaped(s) + Escape(c)
  {
    var text := s + [c];
    if s == [] {
      assert text == [c] && text[1..] == [];
    } else {
      EscapedAppend(s[1..], c);
      assert text[1..] == s[1..] + [c] && text[0] == s[0];
      Associates(Escape(s[0]), Escaped(s[1..]), Escape(c));
    }
  }

  /** What is still to be written when `i` entries are. */
  function Remaining(buffer: seq<Binding<string>>, i: nat): string
    requires i <= |buffer| && buffer != []
  {
    if i == 0 then PrintPairs(buffer)
    else if i == |buffer| then ['}']
    else [','] + PrintPairs(buffer[i..])
  }

  function PairText(buffer: seq<Binding<string>>, i: nat): string
    requires i < |buffer|
  {
    Separator(i == 0) + PrintMember(buffer[i].key, buffer[i].value)
  }

  /** What is written when `i` entries are. */
  function Written(buffer: seq<Binding<string>>, i: nat): string
    requires i <= |buffer|
  {
    if i == 0 then [] else Written(buffer, i - 1) + PairText(buffer, i - 1)
  }

  lemma RemainingStep(buffer: seq<Binding<string>>, i: nat)
    requires i < |buffer|
    ensures Remaining(buffer, i) == PairText(buffer, i) + Remaining(buffer, i + 1)
  {
    var rest := buffer[i..];
    assert rest[1..] == buffer[i + 1..];
    assert i == 0 ==> rest == buffer;
    var pair := PrintMember(buffer[i].key, buffer[i].value);
    assert PrintPairs(rest) == pair + Remaining(buffer, i + 1);
    Associates(Separator(i == 0), pair, Remaining(buffer, i + 1));
  }

  lemma {:induction false} WrittenAndRemaining(buffer: seq<Binding<string>>, i: nat)
    requires i <= |buffer| && buffer != []
    ensures Written(buffer, i) + Remaining(buffer, i) == PrintPairs(buffer)
  {
    if i > 0 {
      WrittenAndRemaining(buffer, i - 1);
      RemainingStep(buffer, i - 1);
      Associates(Written(buffer, i - 1), PairText(buffer, i - 1), Remaining(buffer, i));
    }
  }

  /** The serialiser of a map: nothing reaches the writer before `End`. */
  class CanonicalMap {
    var buffer: seq<Binding<string>>
    var lastKey: Option<string> // a key still waiting for its value
    const strict: bool

    constructor (strict: bool)
      ensures buffer == [] && lastKey == None && this.strict == strict
    {
      buffer := [];
      lastKey := None;
      this.strict := strict;
    }

    method SerializeKey(key: Key) returns (r: Result<(), Failure>)
      modifies this`lastKey
      ensures r.Success? <==> old(lastKey).None? && key.TextKey?
      ensures r.Failure? ==> r.error == if old(lastKey).Some? then KeyTwice else KeyNotString
      ensures lastKey == if r.Success? then Some(key.s) else old(lastKey)
    {
      if lastKey.Some? {
        return Failure(KeyTwice);
      }
      match key
      case IntKey(_) => return Failure(KeyNotString);
      case TextKey(s) =>
        lastKey := Some(s);
        return Success(());
    }

    /** The value of the key given last; one of an equal key before it is replaced. */
    method SerializeValue(value: Value) returns (r: Result<(), Failure>)
      requires lastKey.Some?
      modifies this
      ensures lastKey == None
      ensures match Serialized(value, strict)
              case Success(text) => r == Success(()) && buffer == Insert(old(buffer), old(lastKey).value, text)
              case Failure(e) => r == Failure(e) && buffer == old(buffer)
      decreases value, 2
    {
      var key := lastKey.value;
      lastKey := None;
      var text := ToStringCanonical(value, strict);
      if text.Failure? {
        return Failure(text.error);
      }
      buffer := Insert(buffer, key, text.value);
      return Success(());
    }

    method End(w: Writer)
      modifies w
      ensures w.out == old(w.out) + PrintBuffer(buffer)
    {
      w.Write(['{']);
      if buffer == [] {
        w.Write(['}']);
      } else {
        w.WritePairs(buffer);
      }
    }
  }

  /** The serialiser of a struct: the opening brace, and for a struct without fields the
      closing one too, is written at once. */
  class CanonicalStruct {
    var buffer: seq<Binding<string>>
    const open: bool
    const strict: bool

    constructor (w: Writer, fields: nat, strict: bool)
      modifies w
      ensures buffer == [] && open == (fields > 0) && this.strict == strict
      ensures w.out == old(w.out) + if fields > 0 then ['{'] else ['{', '}']
    {
      buffer := [];
      this.open := fields > 0;
      this.strict := strict;
      new;
      w.Write(if fields > 0 then ['{'] else ['{', '}']);
    }

    method SerializeField(key: string, value: Value) returns (r: Result<(), Failure>)
      modifies this
      ensures match Serialized(value, strict)
              case Success(text) => r == Success(()) && buffer == Insert(old(buffer), key, text)
              case Failure(e) => r == Failure(e) && buffer == old(buffer)
      decreases value, 2
    {
      var text := ToStringCanonical(value, strict);
      if text.Failure? {
        return Failure(text.error);
      }
      buffer := Insert(buffer, key, text.value);
      return Success(());
    }

    method End(w: Writer)
      requires open <==> buffer != []
      modifies w
      ensures w.out == old(w.out) + if open then PrintPairs(buffer) else []
    {
      if open {
        w.WritePairs(buffer);
      }
    }
  }

  /** Writes the canonical text of a value, or stops at the first thing that has none. */
  method Serialize(v: Value, w: Writer, strict: bool) returns (r: Result<(), Failure>)
    modifies w
    ensures match Serialized(v, strict)
            case Success(text) => r == Success(()) && w.out == old(w.out) + text
            case Failure(e) => r == Failure(e)
    decreases v, 0
  {
    match v {
      case Integer(kind, n) =>
        if Checked(kind, strict) && !InRange(n) {
          return Failure(OutOfRange);
        }
      case Number(negative, magnitude) =>
        if strict && !InRange(TokenValue(negative, magnitude)) {
          return Failure(OutOfRange);
        }
      case Fraction(_) =>
        if strict {
          return Failure(OutOfRange);
        }
      case Float(_) => return Failure(NotInteger);
      case Raw(_) => return Failure(RawNotSupported);
      case Object(declared, entries) =>
        if declared {
          r := SerializeStruct(entries, w, strict);
        } else {
          r := SerializeMap(entries, w, strict);
        }
        return;
      case _ =>
    }
    PlainTextIs(v);
    w.Write(PlainText(v));
    return Success(());
  }

  method SerializeMap(entries: seq<Entry>, w: Writer, strict: bool) returns (r: Result<(), Failure>)
    modifies w
    ensures match Buffered(entries, strict)
            case Success(buffer) => r == Success(()) && w.out == old(w.out) + PrintBuffer(buffer)
            case Failure(e) => r == Failure(e)
    decreases entries, 2
  {
    var m := new CanonicalMap(strict);
    var i := 0;
    while i < |entries|
      invariant 0 <= i <= |entries|
      invariant Buffered(entries[..i], strict) == Success(m.buffer) && m.lastKey == None && m.strict == strict
      invariant w.out == old(w.out)
    {
      BufferedStep(entries, strict, i);
      r := m.SerializeKey(entries[i].key);
      if r.Failure? {
        return;
      }
      r := SerializeEntryValue(m, entries[i]);
      if r.Failure? {
        return;
      }
      i := i + 1;
    }
    assert entries[..i] == entries;
    m.End(w);
    return Success(());
  }

  method SerializeEntryValue(m: CanonicalMap, entry: Entry) returns (r: Result<(), Failure>)
    requires m.lastKey.Some?
    modifies m
    ensures m.lastKey == None
    ensures match Serialized(entry.value, m.strict)
            case Success(text) => r == Success(()) && m.buffer == Insert(old(m.buffer), old(m.lastKey).value, text)
            case Failure(e) => r == Failure(e) && m.buffer == old(m.buffer)
    decreases entry, 2
  {
    r := m.SerializeValue(entry.value);
  }

  method SerializeStruct(entries: seq<Entry>, w: Writer, strict: bool) returns (r: Result<(), Failure>)
    modifies w
    ensures match Buffered(entries, strict)
            case Success(buffer) => r == Success(()) && w.out == old(w.out) + PrintBuffer(buffer)
            case Failure(e) => r == Failure(e)
    decreases entries, 3
  {
    var s := new CanonicalStruct(w, |entries|, strict);
    r := SerializeFields(s, entries);
    if r.Success? {
      StructText(old(w.out), s.buffer);
      s.End(w);
    }
  }

  lemma StructText(start: string, buffer: seq<Binding<string>>)
    ensures buffer == [] ==> start + ['{', '}'] + [] == start + PrintBuffer(buffer)
    ensures buffer != [] ==> start + ['{'] + PrintPairs(buffer) == start + PrintBuffer(buffer)
  {
  }

  method SerializeFields(s: CanonicalStruct, entries: seq<Entry>) returns (r: Result<(), Failure>)
    requires s.buffer == []
    modifies s
    ensures match Buffered(entries, s.strict)
            case Success(buffer) => r == Success(()) && s.buffer == buffer && (buffer == [] <==> entries == [])
            case Failure(e) => r == Failure(e)
    decreases entries, 2
  {
    var i := 0;
    while i < |entries|
      invariant 0 <= i <= |entries|
      invariant Buffered(entries[..i], s.strict) == Success(s.buffer)
      invariant s.buffer == [] <==> i == 0
    {
      BufferedStep(entries, s.strict, i);
      match entries[i].key {
        case IntKey(_) => return Failure(KeyNotString); // the name of a field is a string
        case TextKey(_) =>
      }
      r := SerializeFieldOf(s, entries[i]);
      if r.Failure? {
        return;
      }
      i := i + 1;
    }
    assert entries[..i] == entries;
    return Success(());
  }

  method SerializeFieldOf(s: CanonicalStruct, entry: Entry) returns (r: Result<(), Failure>)
    requires entry.key.TextKey?
    modifies s
    ensures match Serialized(entry.value, s.strict)
            case Success(text) => r == Success(()) && s.buffer == Insert(old(s.buffer), entry.key.s, text)
            case Failure(e) => r == Failure(e) && s.buffer == old(s.buffer)
    decreases entry, 2
  {
    r := s.SerializeField(entry.key.s, entry.value);
  }

  /** One more entry, and the end of it all when that entry fails. */
  lemma BufferedStep(entries: seq<Entry>, strict: bool, i: nat)
    requires i < |entries| && Buffered(entries[..i], strict).Success?
    ensures SerializedEntry(entries[i], strict).Failure? ==>
              Buffered(entries, strict) == Failure(SerializedEntry(entries[i], strict).error)
    ensures SerializedEntry(entries[i], strict).Success? ==>
              var b := SerializedEntry(entries[i], strict).value;
              var before := Buffered(entries[..i], strict).value;
              Buffered(entries[..i + 1], strict) == Success(Insert(before, b.key, b.value))
              && Insert(before, b.key, b.value) != []
  {
    assert entries[..i + 1][..i] == entries[..i];
    if SerializedEntry(entries[i], strict).Failure? {
      FirstFailureWins(entries, strict, i);
    }
  }

  lemma {:induction false} FirstFailureWins(entries: seq<Entry>, strict: bool, i: nat)
    requires i < |entries| && Buffered(entries[..i + 1], strict).Failure?
    ensures Buffered(entries, strict) == Buffered(entries[..i + 1], strict)
    decreases |entries|
  {
    if i + 1 == |entries| {
      assert entries[..i + 1] == entries;
    } else {
      var n := |entries| - 1;
      assert entries[..n][..i + 1] == entries[..i + 1];
      FirstFailureWins(entries[..n], strict, i);
    }
  }

  method ToStringCanonical(v: Value, strict: bool) returns (r: Result<string, Failure>)
    ensures r == Serialized(v, strict)
    decreases v, 1
  {
    var w := new Writer();
    var done := Serialize(v, w, strict);
    if done.Failure? {
      return Failure(done.error);
    }
    ghost var text := Serialized(v, strict).value;
    assert w.out == [] + text == text;
    return Success(w.out);
  }
}
