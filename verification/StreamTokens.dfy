/** Positions in streams with several writers, as vector clocks. */
module StreamTokens {
  import opened Matrix

  /** Every writer is at `stream`, except those listed, which are ahead of it. */
  datatype MultiToken = MultiToken(stream: int, ahead: map<string, int>)

  /** The constructor's own check. */
  predicate Valid(t: MultiToken) {
    forall i | i in t.ahead :: t.ahead[i] > t.stream
  }

  function PositionOf(t: MultiToken, writer: string): int {
    if writer in t.ahead then t.ahead[writer] else t.stream
  }

  datatype Position = Position(writer: string, stream: int)

  predicate PersistedAfter(p: Position, t: MultiToken) {
    PositionOf(t, p.writer) < p.stream
  }

  predicate BeforeOrEq(a: MultiToken, b: MultiToken) {
    && a.stream <= b.stream
    && forall i | i in a.ahead.Keys + b.ahead.Keys :: PositionOf(a, i) <= PositionOf(b, i)
  }

  function Max(x: int, y: int): int { if x >= y then x else y }

  /** The token after both; redundant entries are dropped. */
  function Advance(a: MultiToken, b: MultiToken): MultiToken {
    var stream := Max(a.stream, b.stream);
    MultiToken(stream,
               map i | i in a.ahead.Keys + b.ahead.Keys && Max(PositionOf(a, i), PositionOf(b, i)) > stream
                   :: Max(PositionOf(a, i), PositionOf(b, i)))
  }

  /** A whole stream token: the room position and one number per other stream. */
  datatype StreamToken = StreamToken(room: MultiToken, others: map<string, int>)

  // ---- The order is the vector-clock order ----

  lemma {:induction false} LongerThanAll(names: set<string>) returns (n: nat)
    ensures forall s | s in names :: |s| < n
  {
    if names == {} {
      n := 0;
    } else {
      var s :| s in names;
      var m := LongerThanAll(names - {s});
      n := if m > |s| then m else |s| + 1;
      forall t | t in names ensures |t| < n { if t != s { assert t in names - {s}; } }
    }
  }

  lemma UnusedName(names: set<string>) returns (s: string)
    ensures s !in names
  {
    var n := LongerThanAll(names);
    s := seq(n, _ => 'x');
  }

  /** `is_before_or_eq` looks at finitely many writers, yet decides the comparison for all. */
  lemma BeforeOrEqIsPointwise(a: MultiToken, b: MultiToken)
    ensures BeforeOrEq(a, b) <==> forall i: string :: PositionOf(a, i) <= PositionOf(b, i)
  {
    if forall i: string :: PositionOf(a, i) <= PositionOf(b, i) {
      var i := UnusedName(a.ahead.Keys + b.ahead.Keys);
      assert PositionOf(a, i) <= PositionOf(b, i);
    }
  }

  /** Two valid tokens that are each before or equal to the other are the same token. */
  lemma BeforeOrEqIsAntisymmetric(a: MultiToken, b: MultiToken)
    requires Valid(a) && Valid(b) && BeforeOrEq(a, b) && BeforeOrEq(b, a)
    ensures a == b
  {
    assert a.stream == b.stream;
    forall i | i in a.ahead.Keys + b.ahead.Keys ensures i in a.ahead && i in b.ahead && a.ahead[i] == b.ahead[i] {
      assert PositionOf(a, i) == PositionOf(b, i);
    }
    assert a.ahead == b.ahead;
  }

  /** What lies after a later token lies after an earlier one. */
  lemma AfterIsDownwardClosed(p: Position, a: MultiToken, b: MultiToken)
    requires BeforeOrEq(a, b) && PersistedAfter(p, b)
    ensures PersistedAfter(p, a)
  {
  }

  lemma AdvancePositions(a: MultiToken, b: MultiToken, i: string)
    requires Valid(a) && Valid(b)
    ensures PositionOf(Advance(a, b), i) == Max(PositionOf(a, i), PositionOf(b, i))
  {
  }

  /** Advancing gives the least token after both, and an event is after it exactly when it
      is after both. */
  lemma AdvanceIsLeastUpperBound(a: MultiToken, b: MultiToken, c: MultiToken, p: Position)
    requires Valid(a) && Valid(b)
    ensures Valid(Advance(a, b)) && BeforeOrEq(a, Advance(a, b)) && BeforeOrEq(b, Advance(a, b))
    ensures BeforeOrEq(a, c) && BeforeOrEq(b, c) ==> BeforeOrEq(Advance(a, b), c)
    ensures PersistedAfter(p, Advance(a, b)) <==> PersistedAfter(p, a) && PersistedAfter(p, b)
  {
    var d := Advance(a, b);
    forall i: string ensures PositionOf(d, i) == Max(PositionOf(a, i), PositionOf(b, i)) { AdvancePositions(a, b, i); }
    BeforeOrEqIsPointwise(a, d);
    BeforeOrEqIsPointwise(b, d);
    BeforeOrEqIsPointwise(a, c);
    BeforeOrEqIsPointwise(b, c);
    BeforeOrEqIsPointwise(d, c);
  }
}
