/**
 One answer of the assistant: as much of the history as fits, then rounds of asking the provider and
 calling tools, with every token counted against the run's reservation.
 */
module Analyst {
  import opened Common

  const RESERVATION: nat := 160000
  const ROUNDS: nat := 4
  const HISTORY_CHARS: nat := 12000
  const MOST_CALLS: nat := 8
  const MAX_REQUEST_BYTES: nat := 34000
  const MAX_OUTPUT_TOKENS: nat := 6000

  // ---------------------------------------------------------------- fitHistory

  datatype Speaker = User | Assistant

  datatype Line = Line(speaker: Speaker, text: string)

  /** Where the kept history may start: at the beginning, at a question, or at the last line. */
  predicate MayStart(history: seq<Line>, k: nat) {
    k <= |history| && (k == 0 || (k < |history| && (history[k].speaker == User || k == |history| - 1)))
  }

  /** The history fits from here, and from no earlier place where it may start. */
  ghost predicate FitsFirst(history: seq<Line>, k: nat, size: seq<Line> -> nat) {
    && MayStart(history, k) && size(history[k..]) <= 12000
    && forall j: nat | j < k && MayStart(history, j) :: size(history[j..]) > 12000
  }

  /**
   The newest lines that fit, whatever the length of lines written out is (`size`): the history from the
   first place where it may start and fits. `None` exactly when it fits from none of them.
   */
  method FitHistory(history: seq<Line>, size: seq<Line> -> nat) returns (kept: Option<seq<Line>>)
    ensures kept.Some? ==> exists k: nat :: FitsFirst(history, k, size) && kept.value == history[k..]
    ensures kept == None ==> forall j: nat | MayStart(history, j) :: size(history[j..]) > 12000
  {
    var k := 0;
    assert history[0..] == history;
    while |history| - k > 1 && size(history[k..]) > HISTORY_CHARS
      invariant k <= |history| && MayStart(history, k) && (k > 0 ==> k < |history|)
      invariant forall j: nat | j < k && MayStart(history, j) :: size(history[j..]) > HISTORY_CHARS
      decreases |history| - k
    {
      ghost var before := k;
      k := k + 1;
      while |history| - k > 1 && history[k].speaker != User
        invariant before < k < |history|
        invariant forall j | before < j < k :: history[j].speaker != User
        decreases |history| - k
      {
        k := k + 1;
      }
    }
    kept := if size(history[k..]) > HISTORY_CHARS then None else Some(history[k..]);
  }

  /** What is kept starts with a question whenever the history does, unless it is the last line alone; and the question asked is always kept. */
  lemma KeptStartsWithQuestion(history: seq<Line>, k: nat)
    requires MayStart(history, k) && history != [] && history[0].speaker == User
    ensures history[k..] != [] && (history[k..][0].speaker == User || |history[k..]| == 1)
    ensures history[k..][|history[k..]| - 1] == history[|history| - 1]
  {
  }

  // ---------------------------------------------------------------- analyze

  datatype StopReason = Finished | OutOfLength | Refusal

  /** What the provider answers in one round; `calls` name the tools it asks for. */
  datatype Turn = Turn(text: string, calls: seq<string>, stop: StopReason, input: nat, output: nat)

  datatype Result =
    | Answer(text: string, evidence: seq<string>, input: nat, output: nat)
    | Failed

  function Input(turns: seq<Turn>): nat {
    if turns == [] then 0 else Input(turns[..|turns| - 1]) + turns[|turns| - 1].input
  }

  function Output(turns: seq<Turn>): nat {
    if turns == [] then 0 else Output(turns[..|turns| - 1]) + turns[|turns| - 1].output
  }

  /** The tool results that were no errors, in the order of the calls; `succeeds(r, c)`: call c of round r did. */
  function EvidenceOf(calls: seq<string>, round: nat, succeeds: (nat, nat) -> bool): (found: seq<string>)
    ensures |found| <= |calls| && forall tool | tool in found :: tool in calls
  {
    if calls == [] then []
    else
      EvidenceOf(calls[..|calls| - 1], round, succeeds)
      + if succeeds(round, |calls| - 1) then [calls[|calls| - 1]] else []
  }

  /** What was found is the calls at these places, in order: those that succeeded, and no other. */
  ghost predicate Picks(calls: seq<string>, round: nat, succeeds: (nat, nat) -> bool, found: seq<string>, at: seq<nat>) {
    && |at| == |found|
    && (forall i | 0 <= i < |at| :: at[i] < |calls| && succeeds(round, at[i]) && found[i] == calls[at[i]])
    && (forall i, j | 0 <= i < j < |at| :: at[i] < at[j])
    && (forall c: nat | c < |calls| && succeeds(round, c) :: c in at)
  }

  lemma {:induction false} EvidenceIsFound(calls: seq<string>, round: nat, succeeds: (nat, nat) -> bool)
    ensures exists at :: Picks(calls, round, succeeds, EvidenceOf(calls, round, succeeds), at)
    decreases |calls|
  {
    if calls == [] {
      var none: seq<nat> := [];
      assert Picks(calls, round, succeeds, EvidenceOf(calls, round, succeeds), none);
    } else {
      var n := |calls| - 1;
      EvidenceIsFound(calls[..n], round, succeeds);
      hide Picks;
      var at :| Picks(calls[..n], round, succeeds, EvidenceOf(calls[..n], round, succeeds), at);
      if succeeds(round, n) {
        PicksLast(calls, round, succeeds, EvidenceOf(calls[..n], round, succeeds), at);
        assert EvidenceOf(calls, round, succeeds) == EvidenceOf(calls[..n], round, succeeds) + [calls[n]];
        assert Picks(calls, round, succeeds, EvidenceOf(calls, round, succeeds), at + [n]);
      } else {
        PicksNoMore(calls, round, succeeds, EvidenceOf(calls[..n], round, succeeds), at);
        assert EvidenceOf(calls, round, succeeds) == EvidenceOf(calls[..n], round, succeeds);
      }
    }
  }

  lemma PicksLast(calls: seq<string>, round: nat, succeeds: (nat, nat) -> bool, found: seq<string>, at: seq<nat>)
    requires calls != [] && succeeds(round, |calls| - 1) && Picks(calls[..|calls| - 1], round, succeeds, found, at)
    ensures Picks(calls, round, succeeds, found + [calls[|calls| - 1]], at + [|calls| - 1])
  {
    var n := |calls| - 1;
    forall c: nat | c < |calls| && succeeds(round, c) ensures c in at + [n] {
      if c < n { assert c in at; } else { assert (at + [n])[|at|] == n; }
    }
  }

  lemma PicksNoMore(calls: seq<string>, round: nat, succeeds: (nat, nat) -> bool, found: seq<string>, at: seq<nat>)
    requires calls != [] && !succeeds(round, |calls| - 1) && Picks(calls[..|calls| - 1], round, succeeds, found, at)
    ensures Picks(calls, round, succeeds, found, at)
  {
  }

  /** Tokens add up: over turns one after the other, and of one turn its own. */
  lemma {:induction false} TokensAdd(a: seq<Turn>, b: seq<Turn>)
    ensures Input(a + b) == Input(a) + Input(b) && Output(a + b) == Output(a) + Output(b)
    ensures |b| == 1 ==> Input(b) == b[0].input && Output(b) == b[0].output
    decreases |b|
  {
    if b == [] {
      assert a + b == a;
    } else {
      TokensAdd(a, b[..|b| - 1]);
      assert (a + b)[..|a + b| - 1] == a + b[..|b| - 1];
      if |b| == 1 { assert b[..0] == []; }
    }
  }

  function Evidence(turns: seq<Turn>, succeeds: (nat, nat) -> bool): seq<string> {
    if turns == [] then []
    else
      Evidence(turns[..|turns| - 1], succeeds) + EvidenceOf(turns[|turns| - 1].calls, |turns| - 1, succeeds)
  }

  predicate Within(turns: seq<Turn>) {
    Input(turns) + Output(turns) <= 160000
  }

  /** A round that goes on to the next: within the reservation, a few calls, all of allowed tools. */
  predicate GoesOn(turns: seq<Turn>, r: nat, tools: set<string>)
    requires r < |turns|
  {
    && Within(turns[..r + 1]) && turns[r].stop != Refusal
    && 1 <= |turns[r].calls| <= 8 && forall tool | tool in turns[r].calls :: tool in tools
  }

  /** A round that answers: within the reservation, no calls, some text, and not cut off. */
  predicate Answers(turns: seq<Turn>, r: nat)
    requires r < |turns|
  {
    Within(turns[..r + 1]) && turns[r].stop == Finished && turns[r].calls == [] && turns[r].text != ""
  }

  /** Round r is the one that answers, every round before it went on. */
  predicate AnsweredIn(turns: seq<Turn>, r: nat, tools: set<string>) {
    r < 4 && r < |turns| && Answers(turns, r) && forall k: nat | k < r :: GoesOn(turns, k, tools)
  }

  /** The answer of round r, with the evidence found and the tokens used until then. */
  function AnswerOf(turns: seq<Turn>, r: nat, succeeds: (nat, nat) -> bool): Result
    requires r < |turns|
  {
    Answer(turns[r].text, Evidence(turns[..r], succeeds), Input(turns[..r + 1]), Output(turns[..r + 1]))
  }

  /** The calls of one round, each checked and made in turn; false when one is of no allowed tool. */
  method CallTools(calls: seq<string>, round: nat, tools: set<string>, succeeds: (nat, nat) -> bool) returns (done: bool, found: seq<string>)
    ensures done <==> forall tool | tool in calls :: tool in tools
    ensures done ==> found == EvidenceOf(calls, round, succeeds) && exists at :: Picks(calls, round, succeeds, found, at)
  {
    found := [];
    for i := 0 to |calls|
      invariant forall tool | tool in calls[..i] :: tool in tools
      invariant found == EvidenceOf(calls[..i], round, succeeds)
    {
      if calls[i] !in tools {
        assert calls[i] in calls;
        return false, found;
      }
      assert calls[..i + 1][..i] == calls[..i];
      if succeeds(round, i) { found := found + [calls[i]]; }
    }
    assert calls[..|calls|] == calls;
    EvidenceIsFound(calls, round, succeeds);
    done := true;
  }

  /**
   At most ROUNDS turns of the provider, whose answers `turns` are. `tools` are the names in the fixed list of
   allowed tools, none without a project. The answer comes exactly when some round answers after rounds that all went
   on; it carries the tokens of every turn taken, never more than the reservation, and the evidence found.
   */
  method Analyze(turns: seq<Turn>, tools: set<string>, succeeds: (nat, nat) -> bool) returns (result: Result)
    requires |turns| >= ROUNDS
    ensures result.Answer? <==> exists r: nat :: AnsweredIn(turns, r, tools)
    ensures result.Answer? ==> exists r: nat :: AnsweredIn(turns, r, tools) && result == AnswerOf(turns, r, succeeds)
    ensures result.Answer? ==> result.input + result.output <= RESERVATION
  {
    hide Input, Output, Evidence, EvidenceOf;
    var input, output, evidence := 0, 0, [];
    var round := 0;
    NoTurns(succeeds);
    while round < ROUNDS
      invariant round <= ROUNDS
      invariant input == Input(turns[..round]) && output == Output(turns[..round]) && evidence == Evidence(turns[..round], succeeds)
      invariant forall k: nat | k < round :: GoesOn(turns, k, tools)
    {
      var turn := turns[round];
      OneMoreTurn(turns, round, succeeds);
      input := input + turn.input;
      output := output + turn.output;
      if input + output > RESERVATION || turn.stop == Refusal { OnlyOneEnd(turns, round, tools); return Failed; }
      if turn.calls == [] {
        if turn.stop == OutOfLength || turn.text == "" { OnlyOneEnd(turns, round, tools); return Failed; }
        assert AnsweredIn(turns, round, tools);
        return Answer(turn.text, evidence, input, output);
      }
      if round == ROUNDS - 1 || |turn.calls| > MOST_CALLS { OnlyOneEnd(turns, round, tools); return Failed; }
      var done, found := CallTools(turn.calls, round, tools, succeeds);
      if !done { OnlyOneEnd(turns, round, tools); return Failed; }
      evidence := evidence + found;
      round := round + 1;
    }
    assert GoesOn(turns, ROUNDS - 1, tools);
    result := Failed;
    forall r: nat ensures !AnsweredIn(turns, r, tools) { assert r < ROUNDS ==> GoesOn(turns, r, tools); }
  }

  lemma NoTurns(succeeds: (nat, nat) -> bool)
    ensures Input([]) == 0 && Output([]) == 0 && Evidence([], succeeds) == []
  {
  }

  lemma OneMoreTurn(turns: seq<Turn>, r: nat, succeeds: (nat, nat) -> bool)
    requires r < |turns|
    ensures Input(turns[..r + 1]) == Input(turns[..r]) + turns[r].input
    ensures Output(turns[..r + 1]) == Output(turns[..r]) + turns[r].output
    ensures Evidence(turns[..r + 1], succeeds) == Evidence(turns[..r], succeeds) + EvidenceOf(turns[r].calls, r, succeeds)
  {
    assert turns[..r + 1][..r] == turns[..r];
  }

  /** A round that neither answers nor goes on ends it: no later round answers. */
  lemma OnlyOneEnd(turns: seq<Turn>, round: nat, tools: set<string>)
    requires round < |turns| && !Answers(turns, round) && (!GoesOn(turns, round, tools) || round == ROUNDS - 1)
    requires forall k: nat | k < round :: GoesOn(turns, k, tools)
    ensures forall r: nat :: !AnsweredIn(turns, r, tools)
  {
    forall r: nat ensures !AnsweredIn(turns, r, tools) {
      if r < round { assert GoesOn(turns, r, tools); }
    }
  }

  /**
   The reservation is never what stops an answer: when each request and reply keeps within the provider's own
   limits, the turns of all rounds together keep within the reservation.
   */
  lemma {:induction false} LimitsKeepWithin(turns: seq<Turn>)
    requires |turns| <= ROUNDS
    requires forall r | 0 <= r < |turns| :: turns[r].input <= MAX_REQUEST_BYTES && turns[r].output <= MAX_OUTPUT_TOKENS
    ensures Input(turns) + Output(turns) <= |turns| * (MAX_REQUEST_BYTES + MAX_OUTPUT_TOKENS)
    ensures Within(turns)
    decreases |turns|
  {
    if turns != [] { LimitsKeepWithin(turns[..|turns| - 1]); }
  }

  /** An answer rests on at most 24 results, all of allowed tools. */
  lemma {:induction false} EvidenceIsBounded(turns: seq<Turn>, r: nat, tools: set<string>, succeeds: (nat, nat) -> bool)
    requires r < ROUNDS && r <= |turns| && forall k: nat | k < r :: GoesOn(turns, k, tools)
    ensures |Evidence(turns[..r], succeeds)| <= r * 8
    ensures forall tool | tool in Evidence(turns[..r], succeeds) :: tool in tools
    decreases r
  {
    if r > 0 {
      EvidenceIsBounded(turns, r - 1, tools, succeeds);
      assert turns[..r][..r - 1] == turns[..r - 1];
      assert GoesOn(turns, r - 1, tools);
    }
  }
}
