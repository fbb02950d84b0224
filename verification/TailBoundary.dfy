/** What a fold keeps verbatim: as many whole user turns from the end as a token
    budget allows; inside the newest turn when that turn alone is
    over budget. */
module TailBoundary {
  import opened Transcript
  import opened Numerals

  /** Tokens of everything from `i` to the end. */
  ghost function Weight(msgs: seq<Message>, i: nat): nat
    requires i <= |msgs|
  {
    EstimateTokens(msgs[i..])
  }

  lemma WeightStep(msgs: seq<Message>, i: nat)
    requires i < |msgs|
    ensures Weight(msgs, i) == MessageTokens(msgs[i]) + Weight(msgs, i + 1)
  {
    assert msgs[i..][1..] == msgs[i + 1..];
  }

  lemma {:induction false} WeightShrinks(msgs: seq<Message>, i: nat, j: nat)
    requires i <= j <= |msgs|
    ensures Weight(msgs, j) <= Weight(msgs, i)
    decreases j - i
  {
    if i < j {
      WeightStep(msgs, i);
      WeightShrinks(msgs, i + 1, j);
    }
  }

  ghost predicate NoneFrom(msgs: seq<Message>, role: Role, i: nat) {
    forall j :: i <= j < |msgs| ==> msgs[j].role != role
  }

  /** What the boundary promises, without reference to how it is found. No boundary lies
      at index 0, where the system prompt stands. */
  ghost predicate IsTailBoundary(msgs: seq<Message>, budget: int, start: nat, split: bool) {
    if split then
      // an assistant message inside the newest turn, which as a whole is over budget
      && 1 <= start < |msgs|
      && msgs[start].role.Assistant?
      && NoneFrom(msgs, User, start)
      && (exists j :: 1 <= j <= start && OpensNewestTurn(msgs, j) && Weight(msgs, j) > budget)
      // the tail fits, unless it is the newest assistant group alone
      && (Weight(msgs, start) <= budget || NoneFrom(msgs, Assistant, start + 1))
      // no older assistant message of this turn would fit
      && (forall j :: 1 <= j < start && msgs[j].role.Assistant? && NoneFrom(msgs, User, j) ==> Weight(msgs, j) > budget)
    else if start < |msgs| then
      // a user message
      && 1 <= start
      && msgs[start].role.User?
      // the tail fits, unless it is the newest turn and nothing in it can be split off
      && (Weight(msgs, start) <= budget || (NoneFrom(msgs, User, start + 1) && NoneFrom(msgs, Assistant, start + 1)))
      // no older user message would fit
      && (forall j :: 1 <= j < start && msgs[j].role.User? ==> Weight(msgs, j) > budget)
    else
      // there is no user message to stop at and nothing is over budget
      && start == |msgs|
      && NoneFrom(msgs, User, 1)
      && (forall j :: 1 <= j < |msgs| && msgs[j].role.Assistant? ==> Weight(msgs, j) <= budget)
  }

  /** `j` is the newest user message, or an assistant message with no user
      message after it. */
  ghost predicate OpensNewestTurn(msgs: seq<Message>, j: nat)
    requires j < |msgs|
  {
    (msgs[j].role.User? && NoneFrom(msgs, User, j + 1)) || (msgs[j].role.Assistant? && NoneFrom(msgs, User, j))
  }

  /** One walk from message `i` down to message 1: `acc` tokens lie above `i`,
      `start` is the oldest user turn taken so far and `pair` the oldest
      assistant boundary seen inside the newest turn. */
  function Walk(msgs: seq<Message>, budget: int, i: nat, acc: nat, start: nat, pair: nat): (nat, bool)
    requires i < |msgs| || i == 0
  {
    if i < 1 then (start, false)
    else
      var acc := acc + MessageTokens(msgs[i]);
      if msgs[i].role.User? then
        if acc > budget && start < |msgs| then (start, false)
        else if acc > budget && pair < |msgs| then (pair, true)
        else Walk(msgs, budget, i - 1, acc, i, pair)
      else if start == |msgs| && msgs[i].role.Assistant? then
        if acc > budget then (if pair == |msgs| then i else pair, true)
        else Walk(msgs, budget, i - 1, acc, start, i)
      else
        Walk(msgs, budget, i - 1, acc, start, pair)
  }

  function TailStart(msgs: seq<Message>, budget: int): (nat, bool) {
    if msgs == [] then (0, false) else Walk(msgs, budget, |msgs| - 1, 0, |msgs|, |msgs|)
  }

  /** What holds of the walk's variables above index `i`. */
  ghost predicate WalkState(msgs: seq<Message>, budget: int, i: nat, acc: nat, start: nat, pair: nat) {
    && i + 1 <= |msgs|
    && acc == Weight(msgs, i + 1)
    && i < start <= |msgs|
    && i < pair <= |msgs|
    && (start == |msgs| ==> NoneFrom(msgs, User, i + 1))
    && (start < |msgs| ==>
          && msgs[start].role.User?
          && (forall j :: i < j < start ==> !msgs[j].role.User?)
          && (Weight(msgs, start) <= budget || (NoneFrom(msgs, User, start + 1) && NoneFrom(msgs, Assistant, start + 1))))
    && (start == |msgs| ==>
          && (pair == |msgs| ==> NoneFrom(msgs, Assistant, i + 1))
          && (forall j :: i < j < pair ==> !msgs[j].role.Assistant?)
          && (pair < |msgs| ==> msgs[pair].role.Assistant? && Weight(msgs, pair) <= budget))
  }

  lemma {:induction false} WalkFindsBoundary(msgs: seq<Message>, budget: int, i: nat, acc: nat, start: nat, pair: nat)
    requires WalkState(msgs, budget, i, acc, start, pair)
    ensures var (s, split) := Walk(msgs, budget, i, acc, start, pair); IsTailBoundary(msgs, budget, s, split)
    decreases i
  {
    hide Weight, MessageTokens;
    if i < 1 {
      if start == |msgs| {
        forall j | 1 <= j < |msgs| && msgs[j].role.Assistant? ensures Weight(msgs, j) <= budget {
          assert pair <= j;
          WeightShrinks(msgs, pair, j);
        }
      }
    } else {
      WeightStep(msgs, i);
      var over := acc + MessageTokens(msgs[i]) > budget;
      forall j | 1 <= j < i ensures Weight(msgs, i) <= Weight(msgs, j) {
        WeightShrinks(msgs, j, i);
      }
      if msgs[i].role.User? {
        if over && start < |msgs| {
        } else if over && pair < |msgs| {
          assert OpensNewestTurn(msgs, i);
        } else {
          WalkFindsBoundary(msgs, budget, i - 1, acc + MessageTokens(msgs[i]), i, pair);
        }
      } else if start == |msgs| && msgs[i].role.Assistant? {
        if over {
          assert OpensNewestTurn(msgs, i);
        } else {
          WalkFindsBoundary(msgs, budget, i - 1, acc + MessageTokens(msgs[i]), start, i);
        }
      } else {
        WalkFindsBoundary(msgs, budget, i - 1, acc + MessageTokens(msgs[i]), start, pair);
      }
    }
  }

  lemma TailStartIsBoundary(msgs: seq<Message>, budget: int)
    ensures var (start, split) := TailStart(msgs, budget); IsTailBoundary(msgs, budget, start, split)
  {
    if msgs != [] {
      WalkFindsBoundary(msgs, budget, |msgs| - 1, 0, |msgs|, |msgs|);
    }
  }

  /** The promises leave no choice: they hold of one boundary only. */
  lemma TailBoundaryIsUnique(msgs: seq<Message>, budget: int, a: nat, splitA: bool, b: nat, splitB: bool)
    requires IsTailBoundary(msgs, budget, a, splitA) && IsTailBoundary(msgs, budget, b, splitB)
    ensures a == b && splitA == splitB
  {
    if splitA && !splitB {
      SplitExcludesWhole(msgs, budget, a, b);
    }
    if splitB && !splitA {
      SplitExcludesWhole(msgs, budget, b, a);
    }
  }

  lemma SplitExcludesWhole(msgs: seq<Message>, budget: int, a: nat, b: nat)
    requires IsTailBoundary(msgs, budget, a, true)
    ensures !IsTailBoundary(msgs, budget, b, false)
  {
    var j :| 1 <= j <= a && OpensNewestTurn(msgs, j) && Weight(msgs, j) > budget;
    if b <= j {
      WeightShrinks(msgs, b, j);
    }
  }

  /** The backward loop over the history. */
  method CompactTailStart(msgs: seq<Message>, budget: int) returns (start: nat, split: bool)
    ensures (start, split) == TailStart(msgs, budget)
    ensures IsTailBoundary(msgs, budget, start, split)
  {
    TailStartIsBoundary(msgs, budget);
    var acc: nat := 0;
    start := |msgs|;
    var pair: nat := |msgs|;
    var i := |msgs| - 1;
    while i >= 1
      invariant msgs == [] ==> start == 0
      invariant msgs != [] ==> 0 <= i < |msgs| && TailStart(msgs, budget) == Walk(msgs, budget, i, acc, start, pair)
    {
      acc := acc + EstimateTokens(msgs[i..i + 1]);
      assert EstimateTokens(msgs[i..i + 1]) == MessageTokens(msgs[i]);
      if msgs[i].role.User? {
        if acc > budget && start < |msgs| {
          return start, false;
        }
        if acc > budget && pair < |msgs| {
          return pair, true;
        }
        start := i;
      } else if start == |msgs| && msgs[i].role.Assistant? {
        if acc > budget {
          if pair == |msgs| {
            pair := i;
          }
          return pair, true;
        }
        pair := i;
      }
      i := i - 1;
    }
    return start, false;
  }

  // ----- The budget

  const COMPACT_TAIL_MIN_TOKENS := 2_000
  const COMPACT_TAIL_MAX_TOKENS := 15_000
  const COMPACT_TAIL_FRACTION := 0.25

  /** Truncation toward zero. */
  function Truncated(x: real): int {
    if x >= 0.0 then x.Floor else -((-x).Floor)
  }

  function TailBudget(contextLimit: int, threshold: real): int {
    var budget :=
      if contextLimit > 0 then Truncated(contextLimit as real * (1.0 - threshold) * COMPACT_TAIL_FRACTION)
      else COMPACT_TAIL_MAX_TOKENS;
    Max(Min(budget, COMPACT_TAIL_MAX_TOKENS), COMPACT_TAIL_MIN_TOKENS)
  }

  /** Where neither clamp applies the budget is the fraction of the window it is
      meant to be, less than one token short of it. */
  lemma TailBudgetBounds(contextLimit: int, threshold: real)
    ensures COMPACT_TAIL_MIN_TOKENS <= TailBudget(contextLimit, threshold) <= COMPACT_TAIL_MAX_TOKENS
    ensures contextLimit <= 0 ==> TailBudget(contextLimit, threshold) == COMPACT_TAIL_MAX_TOKENS
    ensures contextLimit > 0 ==>
              var quarter := contextLimit as real * (1.0 - threshold) * COMPACT_TAIL_FRACTION;
              var budget := TailBudget(contextLimit, threshold);
              && (quarter <= 2000.0 ==> budget == COMPACT_TAIL_MIN_TOKENS)
              && (quarter >= 15000.0 ==> budget == COMPACT_TAIL_MAX_TOKENS)
              && (2000.0 <= quarter <= 15000.0 ==> budget as real <= quarter < budget as real + 1.0)
  {
  }
}
