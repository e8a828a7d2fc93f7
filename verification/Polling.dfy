/** The wait loop of `wait_for_events`: one listener after another, each wake-up followed by
    a callback over the range of tokens it has not seen yet. */
module Polling {
  import opened StreamTokens

  /** What the callback gives back: nothing at all, an empty result, a result, or one of the
      two errors the loop catches. */
  datatype Answer = Nothing | Empty | Full | Raises

  datatype Wait = WokenUp | TimedOut | Cancelled

  /** One turn of the loop as the outside world decides it: whether the deadline has passed,
      how the wait ends, the stream's token by then, and what the callback answers. */
  datatype Round = Round(expired: bool, wait: Wait, token: StreamToken, answer: Answer)

  type Call = (StreamToken, StreamToken)

  datatype Trace = Trace(calls: seq<Call>, prev: StreamToken, result: Answer, raised: bool)

  /** What the loop does on the rest of a script, after the given calls. */
  function Loop(script: seq<Round>, prev: StreamToken, result: Answer, calls: seq<Call>): Trace {
    if script == [] || script[0].expired || script[0].wait != WokenUp then Trace(calls, prev, result, false)
    else
      var more := calls + [(prev, script[0].token)];
      match script[0].answer
      case Full => Trace(more, prev, Full, false)
      case Raises => Trace(more, prev, result, true)
      case answer => Loop(script[1..], script[0].token, answer, more)
  }

  function Waited(wait: bool, script: seq<Round>, from: StreamToken): Trace {
    if wait then Loop(script, from, Nothing, []) else Trace([], from, Nothing, false)
  }

  /** All calls of the callback, with the one made after the loop when there is no result. */
  function Poll(wait: bool, script: seq<Round>, from: StreamToken, last: StreamToken): seq<Call> {
    var t := Waited(wait, script, from);
    if t.result == Nothing then t.calls + [(t.prev, last)] else t.calls
  }

  /** The loop as written: a result variable, a token variable, and breaks. */
  method WaitForEvents(wait: bool, script: seq<Round>, from: StreamToken, last: StreamToken) returns (calls: seq<Call>)
    ensures calls == Poll(wait, script, from, last)
  {
    calls := [];
    var result := Nothing;
    var prev := from;
    if wait {
      var i := 0;
      assert script[0..] == script;
      while i < |script|
        invariant 0 <= i <= |script|
        invariant Loop(script, from, Nothing, []) == Loop(script[i..], prev, result, calls)
      {
        var round := script[i];
        assert script[i..][0] == round && script[i..][1..] == script[i + 1..];
        if round.expired || round.wait != WokenUp { break; }
        calls := calls + [(prev, round.token)];
        if round.answer == Full { result := Full; break; }
        if round.answer == Raises { break; }
        result, prev := round.answer, round.token;
        i := i + 1;
      }
    }
    if result == Nothing { calls := calls + [(prev, last)]; }
  }

  // ---- Which calls it makes ----

  predicate Wakes(round: Round) { !round.expired && round.wait == WokenUp }

  predicate Empties(round: Round) { round.answer == Nothing || round.answer == Empty }

  /** The callback is called in the first `n` rounds and no more: each of them wakes the
      caller, all but the last come back empty, and the script ends there, or the next round
      does not wake the caller, or the last one brought a result or an error. */
  predicate CalledIn(script: seq<Round>, n: nat) {
    && n <= |script|
    && (forall i | 0 <= i < n :: Wakes(script[i]))
    && (forall i | 0 <= i < n - 1 :: Empties(script[i]))
    && (n == |script| || !Wakes(script[n]) || (n > 0 && !Empties(script[n - 1])))
  }

  /** Where the `i`-th range starts: at the token of the round before. */
  function StartOf(script: seq<Round>, from: StreamToken, i: nat): StreamToken
    requires i <= |script|
  {
    if i == 0 then from else script[i - 1].token
  }

  function CallsOf(script: seq<Round>, from: StreamToken, n: nat): seq<Call>
    requires n <= |script|
  {
    seq(n, i requires 0 <= i < n => (StartOf(script, from, i), script[i].token))
  }

  /** How many rounds got an answer: one less than were called if the last one failed. */
  function Answered(script: seq<Round>, n: nat): nat
    requires n <= |script|
  {
    if n > 0 && script[n - 1].answer == Raises then n - 1 else n
  }

  /** Nothing was answered last, so that there is one more call. */
  predicate Unanswered(script: seq<Round>, n: nat)
    requires n <= |script|
  {
    Answered(script, n) == 0 || script[Answered(script, n) - 1].answer == Nothing
  }

  lemma CalledInNext(script: seq<Round>, n: nat)
    requires n > 1 && CalledIn(script, n)
    ensures CalledIn(script[1..], n - 1)
  {
    var rest := script[1..];
    assert forall i | 0 <= i < |rest| :: rest[i] == script[i + 1];
  }

  lemma CallsOfNext(script: seq<Round>, from: StreamToken, calls: seq<Call>, n: nat)
    requires 0 < n <= |script|
    ensures calls + CallsOf(script, from, n) ==
            (calls + [(from, script[0].token)]) + CallsOf(script[1..], script[0].token, n - 1)
  {
    var rest := script[1..];
    assert forall i | 0 <= i < |rest| :: rest[i] == script[i + 1];
    assert CallsOf(script, from, n) == [(from, script[0].token)] + CallsOf(rest, script[0].token, n - 1);
  }

  lemma {:induction false} LoopMakes(script: seq<Round>, prev: StreamToken, result: Answer, calls: seq<Call>, n: nat)
    requires CalledIn(script, n)
    ensures var t, k := Loop(script, prev, result, calls), Answered(script, n);
            && t.calls == calls + CallsOf(script, prev, n)
            && t.result == (if k == 0 then result else script[k - 1].answer)
            && (t.result != Full || k == 0 ==> t.prev == StartOf(script, prev, k))
  {
    if n == 0 {
      assert calls + CallsOf(script, prev, 0) == calls;
    } else {
      CallsOfNext(script, prev, calls, n);
      var more, rest := calls + [(prev, script[0].token)], script[1..];
      if n > 1 {
        CalledInNext(script, n);
        LoopMakes(rest, script[0].token, script[0].answer, more, n - 1);
      } else {
        assert more + CallsOf(rest, script[0].token, 0) == more;
        if Empties(script[0]) {
          assert CalledIn(rest, 0);
          LoopMakes(rest, script[0].token, script[0].answer, more, 0);
        }
      }
    }
  }

  /** There always is such a number of rounds. */
  lemma CalledInSome(script: seq<Round>) returns (n: nat)
    ensures CalledIn(script, n)
  {
    n := 0;
    while n < |script| && Wakes(script[n]) && (n > 0 ==> Empties(script[n - 1]))
      invariant n <= |script|
      invariant forall i | 0 <= i < n :: Wakes(script[i])
      invariant forall i | 0 <= i < n - 1 :: Empties(script[i])
    {
      n := n + 1;
    }
  }

  /** The calls are one per round the callback is called in, each over the range since the
      round before; and one more, from the last token that was answered for, exactly when the
      last answer was nothing at all. An empty answer is an answer. */
  lemma PollMakes(script: seq<Round>, from: StreamToken, last: StreamToken, n: nat)
    requires CalledIn(script, n)
    ensures Poll(false, script, from, last) == [(from, last)]
    ensures Poll(true, script, from, last) ==
            CallsOf(script, from, n) +
            if Unanswered(script, n) then [(StartOf(script, from, Answered(script, n)), last)] else []
  {
    LoopMakes(script, from, Nothing, [], n);
    assert [] + CallsOf(script, from, n) == CallsOf(script, from, n);
  }

  // ---- The calls tile the range ----

  /** Each range starts where the one before it ended, the first one at `from`. */
  ghost predicate Tiles(calls: seq<Call>, from: StreamToken) {
    && (calls != [] ==> calls[0].0 == from)
    && forall i, j | 0 <= i && j == i + 1 < |calls| :: calls[j].0 == calls[i].1
  }

  function End(calls: seq<Call>, from: StreamToken): StreamToken {
    if calls == [] then from else calls[|calls| - 1].1
  }

  lemma TilesExtend(calls: seq<Call>, from: StreamToken, a: StreamToken, b: StreamToken)
    requires Tiles(calls, from)
    ensures Tiles(calls + [(a, b)], from) <==> a == End(calls, from)
  {
    var more := calls + [(a, b)];
    assert more[|calls|] == (a, b);
    if |calls| > 0 { assert more[|calls| - 1] == calls[|calls| - 1] && more[0] == calls[0]; }
    if a == End(calls, from) {
      forall i, j | 0 <= i && j == i + 1 < |more| ensures more[j].0 == more[i].1 {
        if j < |calls| { assert calls[j].0 == calls[i].1; }
      }
    }
  }

  /** The calls made in the loop tile; and unless it was left with a result or an error, the
      next range would start where they end. */
  lemma {:induction false} LoopTiles(script: seq<Round>, prev: StreamToken, result: Answer, calls: seq<Call>,
      from: StreamToken)
    requires Tiles(calls, from) && prev == End(calls, from) && (result == Nothing || calls != [])
    ensures var t := Loop(script, prev, result, calls);
            && Tiles(t.calls, from)
            && (t.result == Nothing || t.calls != [])
            && (!t.raised && t.result != Full ==> result == Full || t.prev == End(t.calls, from))
  {
    if !(script == [] || script[0].expired || script[0].wait != WokenUp) {
      TilesExtend(calls, from, prev, script[0].token);
      if script[0].answer in {Nothing, Empty} {
        LoopTiles(script[1..], script[0].token, script[0].answer, calls + [(prev, script[0].token)], from);
      }
    }
  }

  // ---- The one way they do not ----

  /** The `k`-th round wakes the caller to a new token, and the callback fails there, with
      nothing found in the rounds before it. */
  predicate FailsAt(script: seq<Round>, prev: StreamToken, result: Answer, k: nat) {
    && k < |script|
    && (forall i | 0 <= i <= k :: !script[i].expired && script[i].wait == WokenUp)
    && (forall i | 0 <= i < k :: script[i].answer in {Nothing, Empty})
    && script[k].answer == Raises
    && (if k == 0 then result else script[k - 1].answer) == Nothing
    && script[k].token != if k == 0 then prev else script[k - 1].token
  }

  lemma FailsLater(script: seq<Round>, prev: StreamToken, result: Answer, k: nat)
    requires script != [] && !script[0].expired && script[0].wait == WokenUp && script[0].answer in {Nothing, Empty}
    ensures FailsAt(script[1..], script[0].token, script[0].answer, k) <==> FailsAt(script, prev, result, k + 1)
  {
    var rest := script[1..];
    assert |rest| == |script| - 1 && forall i | 0 <= i < |rest| :: rest[i] == script[i + 1];
    if FailsAt(rest, script[0].token, script[0].answer, k) {
      forall i | 0 <= i <= k + 1 ensures !script[i].expired && script[i].wait == WokenUp {
        assert i > 0 ==> script[i] == rest[i - 1];
      }
      forall i | 0 <= i < k + 1 ensures script[i].answer in {Nothing, Empty} {
        assert i > 0 ==> script[i] == rest[i - 1];
      }
    }
  }

  /** The loop was left by an error with nothing found, short of the last token it passed on. */
  predicate LeftBehind(t: Trace, from: StreamToken) {
    t.raised && t.result == Nothing && t.prev != End(t.calls, from)
  }

  lemma {:induction false} LoopFailsIff(script: seq<Round>, prev: StreamToken, result: Answer, calls: seq<Call>,
                                        from: StreamToken)
    ensures LeftBehind(Loop(script, prev, result, calls), from) <==> exists k: nat :: FailsAt(script, prev, result, k)
  {
    if script != [] && !script[0].expired && script[0].wait == WokenUp {
      var more := calls + [(prev, script[0].token)];
      if script[0].answer in {Nothing, Empty} {
        var rest, token, answer := script[1..], script[0].token, script[0].answer;
        LoopFailsIff(rest, token, answer, more, from);
        if k: nat :| FailsAt(rest, token, answer, k) {
          FailsLater(script, prev, result, k);
        }
        if k: nat :| FailsAt(script, prev, result, k) {
          FailsLater(script, prev, result, k - 1);
        }
      } else {
        assert FailsAt(script, prev, result, 0) <==> LeftBehind(Loop(script, prev, result, calls), from);
        assert forall k: nat | FailsAt(script, prev, result, k) :: k == 0;
      }
    } else {
      assert forall k: nat :: !FailsAt(script, prev, result, k);
    }
  }

  /** For every interleaving of wake-ups, timeouts and cancellations the calls tile the range
      from `from`, unless in some round the callback fails with a caught error over a range
      that is not empty, with nothing found in the rounds before: then, and only then, the
      last call covers that range a second time. */
  lemma PollTilesIff(wait: bool, script: seq<Round>, from: StreamToken, last: StreamToken)
    ensures Poll(wait, script, from, last) != []
    ensures Tiles(Poll(wait, script, from, last), from) <==>
            !(wait && exists k: nat :: FailsAt(script, from, Nothing, k))
  {
    var t := Waited(wait, script, from);
    if wait {
      LoopTiles(script, from, Nothing, [], from);
      LoopFailsIff(script, from, Nothing, [], from);
    }
    TilesExtend(t.calls, from, t.prev, last);
  }

  /** One failing round is enough: the range from `from` to `news` is covered twice. */
  lemma FailedCallbackIsRepeated(from: StreamToken, news: StreamToken, last: StreamToken) returns (script: seq<Round>)
    requires from != news
    ensures script == [Round(false, WokenUp, news, Raises)]
    ensures Poll(true, script, from, last) == [(from, news), (from, last)]
    ensures !Tiles(Poll(true, script, from, last), from)
  {
    script := [Round(false, WokenUp, news, Raises)];
    assert FailsAt(script, from, Nothing, 0);
    PollTilesIff(true, script, from, last);
  }

  /** With a callback that never fails the calls always tile. */
  lemma NoErrorNoRepeat(wait: bool, script: seq<Round>, from: StreamToken, last: StreamToken)
    requires forall i | 0 <= i < |script| :: script[i].answer != Raises
    ensures Tiles(Poll(wait, script, from, last), from)
  {
    PollTilesIff(wait, script, from, last);
  }
}
