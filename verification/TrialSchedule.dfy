/** The experiment matrix: every task meets every candidate in every repetition,
    in shuffled task order, with the starting arm counterbalanced. */
module TrialSchedule {
  import opened Transcript
  import opened Numerals

  /** One planned trial: task, candidate and repetition, and its position. */
  datatype Planned = Planned(id: string, task: string, candidate: string, repetition: nat)

  type Cell = (string, string, nat)

  function CellOf(p: Planned): Cell {
    (p.task, p.candidate, p.repetition)
  }

  // ----- Shuffles

  ghost predicate NoRepeats<T>(s: seq<T>) {
    forall i, j :: 0 <= i < j < |s| ==> s[i] != s[j]
  }

  /** A shuffle returns the same elements, each as often as before. */
  ghost predicate IsShuffle<T>(was: seq<T>, now: seq<T>) {
    multiset(was) == multiset(now)
  }

  /** What the random source decides: the shuffled starting arms, and the shuffled
      task order of every repetition. */
  datatype Shuffles = Shuffles(first: seq<nat>, orders: seq<seq<string>>)

  /** Starting arms dealt round-robin before they are shuffled. */
  function Dealt(tasks: nat, candidates: nat): (r: seq<nat>)
    requires candidates > 0
    ensures |r| == tasks && forall i :: 0 <= i < tasks ==> r[i] == i % candidates
  {
    seq(tasks, i => i % candidates)
  }

  ghost predicate FairShuffles(tasks: seq<string>, candidates: seq<string>, repetitions: nat, shuffles: Shuffles)
    requires |candidates| > 0
  {
    && IsShuffle(Dealt(|tasks|, |candidates|), shuffles.first)
    && |shuffles.first| == |tasks|
    && |shuffles.orders| == repetitions
    && forall r :: 0 <= r < repetitions ==> IsShuffle(tasks, shuffles.orders[r])
  }

  // ----- The matrix

  /** The starting arm that was dealt to a task. */
  function FirstArm(tasks: seq<string>, first: seq<nat>, task: string): nat
    requires |first| == |tasks|
  {
    if tasks == [] then 0
    else if tasks[|tasks| - 1] == task then first[|tasks| - 1]
    else FirstArm(tasks[..|tasks| - 1], first[..|tasks| - 1], task)
  }

  /** With two candidates the starting arm alternates from one repetition to the next. */
  function Arms(tasks: seq<string>, candidates: seq<string>, first: seq<nat>, task: string, repetition: nat): (r: seq<string>)
    requires |first| == |tasks| && repetition > 0
    ensures |r| == |candidates|
  {
    if |candidates| == 2 && (FirstArm(tasks, first, task) + repetition - 1) % 2 != 0 then [candidates[1], candidates[0]] else candidates
  }

  function TrialId(n: nat): string {
    "t" + Padded(n, 4)
  }

  /** The trials of one task in one repetition, numbered from `from` + 1. */
  function Pair(task: string, arms: seq<string>, repetition: nat, from: nat): (r: seq<Planned>)
    ensures |r| == |arms|
  {
    seq(|arms|, i requires 0 <= i < |arms| => Planned(TrialId(from + i + 1), task, arms[i], repetition))
  }

  /** The trials of one repetition over the first `k` tasks of its order. */
  function Repetition(tasks: seq<string>, candidates: seq<string>, first: seq<nat>, order: seq<string>, repetition: nat, k: nat, from: nat): seq<Planned>
    requires |first| == |tasks| && repetition > 0 && k <= |order|
  {
    if k == 0 then []
    else
      var earlier := Repetition(tasks, candidates, first, order, repetition, k - 1, from);
      earlier + Pair(order[k - 1], Arms(tasks, candidates, first, order[k - 1], repetition), repetition, from + |earlier|)
  }

  function Matrix(tasks: seq<string>, candidates: seq<string>, first: seq<nat>, orders: seq<seq<string>>, reps: nat): seq<Planned>
    requires |first| == |tasks| && reps <= |orders|
  {
    if reps == 0 then []
    else
      var earlier := Matrix(tasks, candidates, first, orders, reps - 1);
      earlier + Repetition(tasks, candidates, first, orders[reps - 1], reps, |orders[reps - 1]|, |earlier|)
  }

  // ----- IDs

  lemma TrialIdsDiffer(m: nat, n: nat)
    requires m != n
    ensures TrialId(m) != TrialId(n)
  {
    PaddedValue(m, 4);
    PaddedValue(n, 4);
    assert TrialId(m)[1..] == Padded(m, 4) && TrialId(n)[1..] == Padded(n, 4);
  }

  ghost predicate NumberedFrom(s: seq<Planned>, from: nat) {
    forall i :: 0 <= i < |s| ==> s[i].id == TrialId(from + i + 1)
  }

  lemma {:induction false} RepetitionIsNumbered(tasks: seq<string>, candidates: seq<string>, first: seq<nat>, order: seq<string>, repetition: nat, k: nat, from: nat)
    requires |first| == |tasks| && repetition > 0 && k <= |order|
    ensures NumberedFrom(Repetition(tasks, candidates, first, order, repetition, k, from), from)
    decreases k
  {
    hide TrialId, Arms;
    if k > 0 {
      RepetitionIsNumbered(tasks, candidates, first, order, repetition, k - 1, from);
    }
  }

  lemma {:induction false} MatrixIsNumbered(tasks: seq<string>, candidates: seq<string>, first: seq<nat>, orders: seq<seq<string>>, reps: nat)
    requires |first| == |tasks| && reps <= |orders|
    ensures NumberedFrom(Matrix(tasks, candidates, first, orders, reps), 0)
    decreases reps
  {
    hide TrialId, Repetition;
    if reps > 0 {
      MatrixIsNumbered(tasks, candidates, first, orders, reps - 1);
      var earlier := Matrix(tasks, candidates, first, orders, reps - 1);
      RepetitionIsNumbered(tasks, candidates, first, orders[reps - 1], reps, |orders[reps - 1]|, |earlier|);
    }
  }

  /** No two planned trials share an ID, however many there are. */
  lemma IdsAreDistinct(tasks: seq<string>, candidates: seq<string>, first: seq<nat>, orders: seq<seq<string>>, reps: nat)
    requires |first| == |tasks| && reps <= |orders|
    ensures var m := Matrix(tasks, candidates, first, orders, reps);
            forall i, j :: 0 <= i < j < |m| ==> m[i].id != m[j].id
  {
    hide TrialId, Matrix;
    MatrixIsNumbered(tasks, candidates, first, orders, reps);
    var m := Matrix(tasks, candidates, first, orders, reps);
    forall i, j | 0 <= i < j < |m| ensures m[i].id != m[j].id {
      TrialIdsDiffer(i + 1, j + 1);
    }
  }

  // ----- Every cell exactly once

  /** `s` holds each cell of this set exactly once, and nothing else. */
  ghost predicate Exactly(s: seq<Planned>, cells: set<Cell>) {
    && (forall i, j :: 0 <= i < j < |s| ==> CellOf(s[i]) != CellOf(s[j]))
    && (forall i :: 0 <= i < |s| ==> CellOf(s[i]) in cells)
    && (forall c :: c in cells ==> exists i :: 0 <= i < |s| && CellOf(s[i]) == c)
  }

  lemma ExactlyConcat(a: seq<Planned>, b: seq<Planned>, x: set<Cell>, y: set<Cell>)
    requires Exactly(a, x) && Exactly(b, y) && x !! y
    ensures Exactly(a + b, x + y)
  {
    var s := a + b;
    forall i, j | 0 <= i < j < |s| ensures CellOf(s[i]) != CellOf(s[j]) {
      if i < |a| && j >= |a| {
        assert CellOf(a[i]) in x && CellOf(b[j - |a|]) in y;
      }
    }
    forall c | c in x + y ensures exists i :: 0 <= i < |s| && CellOf(s[i]) == c {
      if c in x {
        var i :| 0 <= i < |a| && CellOf(a[i]) == c;
        assert s[i] == a[i];
      } else {
        var i :| 0 <= i < |b| && CellOf(b[i]) == c;
        assert s[i + |a|] == b[i];
      }
    }
  }

  ghost function Grid(tasks: set<string>, candidates: set<string>, reps: set<nat>): set<Cell> {
    set t, c, r | t in tasks && c in candidates && r in reps :: (t, c, r)
  }

  function Members<T(==)>(s: seq<T>): set<T> {
    set x | x in s
  }

  lemma PairIsExact(tasks: seq<string>, candidates: seq<string>, first: seq<nat>, task: string, repetition: nat, from: nat)
    requires |first| == |tasks| && repetition > 0 && NoRepeats(candidates)
    ensures Exactly(Pair(task, Arms(tasks, candidates, first, task, repetition), repetition, from), Grid({task}, Members(candidates), {repetition}))
  {
    hide TrialId, FirstArm;
    var arms := Arms(tasks, candidates, first, task, repetition);
    var s := Pair(task, arms, repetition, from);
    assert NoRepeats(arms) && Members(arms) == Members(candidates);
    forall c | c in Grid({task}, Members(candidates), {repetition}) ensures exists i :: 0 <= i < |s| && CellOf(s[i]) == c {
      assert c.1 in Members(arms);
      var i :| 0 <= i < |arms| && arms[i] == c.1;
      assert CellOf(s[i]) == c;
    }
  }

  lemma {:induction false} RepetitionIsExact(tasks: seq<string>, candidates: seq<string>, first: seq<nat>, order: seq<string>, repetition: nat, k: nat, from: nat)
    requires |first| == |tasks| && repetition > 0 && k <= |order|
    requires NoRepeats(candidates) && NoRepeats(order)
    ensures Exactly(Repetition(tasks, candidates, first, order, repetition, k, from), Grid(Members(order[..k]), Members(candidates), {repetition}))
    decreases k
  {
    hide Exactly, Pair, Arms;
    if k > 0 {
      RepetitionIsExact(tasks, candidates, first, order, repetition, k - 1, from);
      var earlier := Repetition(tasks, candidates, first, order, repetition, k - 1, from);
      PairIsExact(tasks, candidates, first, order[k - 1], repetition, from + |earlier|);
      var x := Grid(Members(order[..k - 1]), Members(candidates), {repetition});
      var y := Grid({order[k - 1]}, Members(candidates), {repetition});
      assert order[k - 1] !in order[..k - 1];
      ExactlyConcat(earlier, Pair(order[k - 1], Arms(tasks, candidates, first, order[k - 1], repetition), repetition, from + |earlier|), x, y);
      assert order[..k] == order[..k - 1] + [order[k - 1]];
      assert Grid(Members(order[..k]), Members(candidates), {repetition}) == x + y;
    } else {
      EmptyIsExact(Grid(Members(order[..0]), Members(candidates), {repetition}));
    }
  }

  lemma EmptyIsExact(cells: set<Cell>)
    requires cells == {}
    ensures Exactly([], cells)
  {
  }

  /** The repetitions 1 to `reps`. */
  function UpTo(reps: nat): (r: set<nat>)
    ensures forall x :: x in r <==> 1 <= x <= reps
  {
    if reps == 0 then {} else UpTo(reps - 1) + {reps}
  }

  lemma ShuffleMembers<T>(was: seq<T>, now: seq<T>)
    requires IsShuffle(was, now)
    ensures Members(was) == Members(now)
    ensures NoRepeats(was) ==> NoRepeats(now)
    ensures |was| == |now|
  {
    forall x ensures x in was <==> x in now {
      assert x in was <==> x in multiset(was);
      assert x in now <==> x in multiset(now);
    }
    assert |multiset(was)| == |was| && |multiset(now)| == |now|;
    if NoRepeats(was) {
      OnceEach(was);
      EachOnceIsDistinct(now);
    }
  }

  lemma {:induction false} OnceEach<T>(s: seq<T>)
    requires NoRepeats(s)
    ensures forall x :: multiset(s)[x] <= 1
  {
    if s != [] {
      var rest := s[..|s| - 1];
      assert NoRepeats(rest);
      OnceEach(rest);
      assert s == rest + [s[|s| - 1]];
      assert s[|s| - 1] !in rest;
    }
  }

  lemma EachOnceIsDistinct<T>(s: seq<T>)
    requires forall x :: multiset(s)[x] <= 1
    ensures NoRepeats(s)
  {
    forall i, j | 0 <= i < j < |s| ensures s[i] != s[j] {
      assert s == s[..j] + [s[j]] + s[j + 1..];
      assert multiset(s)[s[j]] == multiset(s[..j])[s[j]] + 1 + multiset(s[j + 1..])[s[j]];
      assert s[j] !in s[..j];
      assert s[i] in s[..j];
    }
  }

  /** For any shuffles the matrix holds every task, candidate and repetition
      together exactly once. */
  lemma {:induction false} MatrixIsExact(tasks: seq<string>, candidates: seq<string>, first: seq<nat>, orders: seq<seq<string>>, reps: nat)
    requires |first| == |tasks| && reps <= |orders|
    requires NoRepeats(tasks) && NoRepeats(candidates)
    requires forall r :: 0 <= r < |orders| ==> IsShuffle(tasks, orders[r])
    ensures Exactly(Matrix(tasks, candidates, first, orders, reps), Grid(Members(tasks), Members(candidates), UpTo(reps)))
    decreases reps
  {
    hide Exactly, Repetition, IsShuffle;
    if reps > 0 {
      MatrixIsExact(tasks, candidates, first, orders, reps - 1);
      var earlier := Matrix(tasks, candidates, first, orders, reps - 1);
      var order := orders[reps - 1];
      ShuffleMembers(tasks, order);
      RepetitionIsExact(tasks, candidates, first, order, reps, |order|, |earlier|);
      assert order[..|order|] == order;
      var x := Grid(Members(tasks), Members(candidates), UpTo(reps - 1));
      var y := Grid(Members(tasks), Members(candidates), {reps});
      ExactlyConcat(earlier, Repetition(tasks, candidates, first, order, reps, |order|, |earlier|), x, y);
      assert Grid(Members(tasks), Members(candidates), UpTo(reps)) == x + y;
    } else {
      EmptyIsExact(Grid(Members(tasks), Members(candidates), UpTo(0)));
    }
  }

  // ----- Order within the matrix

  lemma {:induction false} TaskInRepetition(tasks: seq<string>, candidates: seq<string>, first: seq<nat>, order: seq<string>, repetition: nat, k: nat, from: nat, j: nat)
      returns (at: nat)
    requires |first| == |tasks| && repetition > 0 && j < k <= |order|
    ensures var s := Repetition(tasks, candidates, first, order, repetition, k, from);
            && at + |candidates| <= |s|
            && s[at..at + |candidates|] == Pair(order[j], Arms(tasks, candidates, first, order[j], repetition), repetition, from + at)
    decreases k
  {
    hide Arms, TrialId, Pair;
    var earlier := Repetition(tasks, candidates, first, order, repetition, k - 1, from);
    if j == k - 1 {
      at := |earlier|;
    } else {
      at := TaskInRepetition(tasks, candidates, first, order, repetition, k - 1, from, j);
      assert Repetition(tasks, candidates, first, order, repetition, k, from)[at..at + |candidates|] == earlier[at..at + |candidates|];
    }
  }

  /** The arms of every task in every repetition stand next to each other, in the
      order the counterbalance gives them. */
  lemma {:induction false} ArmsStandTogether(tasks: seq<string>, candidates: seq<string>, first: seq<nat>, orders: seq<seq<string>>, reps: nat, repetition: nat, j: nat)
      returns (at: nat)
    requires |first| == |tasks| && 1 <= repetition <= reps <= |orders| && j < |orders[repetition - 1]|
    ensures var m := Matrix(tasks, candidates, first, orders, reps);
            var task := orders[repetition - 1][j];
            && at + |candidates| <= |m|
            && m[at..at + |candidates|] == Pair(task, Arms(tasks, candidates, first, task, repetition), repetition, at)
    decreases reps
  {
    hide Arms, TrialId, Pair, Repetition;
    var earlier := Matrix(tasks, candidates, first, orders, reps - 1);
    var m := Matrix(tasks, candidates, first, orders, reps);
    if repetition == reps {
      var order := orders[reps - 1];
      var inner := TaskInRepetition(tasks, candidates, first, order, reps, |order|, |earlier|, j);
      at := |earlier| + inner;
      var last := Repetition(tasks, candidates, first, order, reps, |order|, |earlier|);
      assert m == earlier + last;
      assert m[at..at + |candidates|] == last[inner..inner + |candidates|];
    } else {
      at := ArmsStandTogether(tasks, candidates, first, orders, reps - 1, repetition, j);
      assert m[at..at + |candidates|] == earlier[at..at + |candidates|];
    }
  }

  // ----- Where each trial stands

  /** An ID reads "t" and the number, in at least four digits. */
  lemma TrialIdReads(n: nat)
    ensures |TrialId(n)| >= 5 && TrialId(n)[0] == 't' && Value(TrialId(n)[1..]) == n
  {
    PaddedValue(n, 4);
    ZerosLength(4 - |Decimal(n)|);
    assert TrialId(n)[1..] == Padded(n, 4);
  }

  /** The length of `n` rows of this width. */
  function Rows(n: nat, width: nat): nat {
    if n == 0 then 0 else Rows(n - 1, width) + width
  }

  lemma {:induction false} RowsIsProduct(n: nat, width: nat)
    ensures Rows(n, width) == n * width
  {
    if n > 0 {
      RowsIsProduct(n - 1, width);
      assert n * width == (n - 1) * width + width;
    }
  }

  lemma {:induction false} RowBelow(j: nat, k: nat, width: nat)
    requires j < k
    ensures Rows(j, width) + width <= Rows(k, width)
  {
    if j < k - 1 {
      RowBelow(j, k - 1, width);
    }
  }

  lemma {:induction false} RepetitionAt(tasks: seq<string>, candidates: seq<string>, first: seq<nat>, order: seq<string>,
                                        repetition: nat, k: nat, from: nat, j: nat, a: nat)
    requires |first| == |tasks| && repetition > 0 && k <= |order|
    ensures var s, at := Repetition(tasks, candidates, first, order, repetition, k, from), Rows(j, |candidates|) + a;
            && |s| == Rows(k, |candidates|)
            && (j < k && a < |candidates| ==>
                  && at < |s| && s[at].task == order[j] && s[at].repetition == repetition
                  && s[at].candidate == Arms(tasks, candidates, first, order[j], repetition)[a])
    decreases k
  {
    hide Arms, TrialId;
    if k > 0 {
      RepetitionAt(tasks, candidates, first, order, repetition, k - 1, from, j, a);
      if j < k - 1 {
        RowBelow(j, k - 1, |candidates|);
      }
    }
  }

  lemma {:induction false} MatrixAt(tasks: seq<string>, candidates: seq<string>, first: seq<nat>, orders: seq<seq<string>>, reps: nat, r: nat, j: nat, a: nat)
    requires |first| == |tasks| && reps <= |orders| && forall i :: 0 <= i < |orders| ==> |orders[i]| == |tasks|
    ensures var m, block := Matrix(tasks, candidates, first, orders, reps), Rows(|tasks|, |candidates|);
            var at := Rows(r, block) + Rows(j, |candidates|) + a;
            && |m| == Rows(reps, block)
            && (r < reps && j < |tasks| && a < |candidates| ==>
                  && at < |m| && m[at].task == orders[r][j] && m[at].repetition == r + 1
                  && m[at].candidate == Arms(tasks, candidates, first, orders[r][j], r + 1)[a])
    decreases reps
  {
    hide Arms, TrialId, Repetition;
    if reps > 0 {
      var earlier := Matrix(tasks, candidates, first, orders, reps - 1);
      MatrixAt(tasks, candidates, first, orders, reps - 1, r, j, a);
      RepetitionAt(tasks, candidates, first, orders[reps - 1], reps, |tasks|, |earlier|, j, a);
      if j < |tasks| {
        RowBelow(j, |tasks|, |candidates|);
      }
      if r < reps - 1 {
        RowBelow(r, reps - 1, Rows(|tasks|, |candidates|));
      }
    }
  }

  /** The schedule, trial by trial: repetition after repetition, each in its own
      shuffled task order, for each task the candidates side by side. With two of
      them the dealt arm goes first, and from one repetition to the next the other. */
  lemma EveryTrialInItsPlace(tasks: seq<string>, candidates: seq<string>, first: seq<nat>, orders: seq<seq<string>>, reps: nat, r: nat, j: nat, a: nat, i: nat)
    requires |first| == |tasks| && reps <= |orders| && NoRepeats(tasks) && forall k :: 0 <= k < |orders| ==> IsShuffle(tasks, orders[k])
    requires r < reps && j < |orders[r]| && a < |candidates| && i < |tasks| && tasks[i] == orders[r][j]
    ensures var m, block := Matrix(tasks, candidates, first, orders, reps), Rows(|tasks|, |candidates|);
            var at := Rows(r, block) + Rows(j, |candidates|) + a;
            && |m| == Rows(reps, block) && at < |m|
            && m[at].task == tasks[i] && m[at].repetition == r + 1
            && m[at].candidate == candidates[if |candidates| == 2 then (first[i] + r + a) % 2 else a]
            && |m[at].id| >= 5 && m[at].id[0] == 't' && Value(m[at].id[1..]) == at + 1
  {
    hide Matrix, TrialId, IsShuffle, Value, Rows, Arms;
    forall k | 0 <= k < |orders| ensures |orders[k]| == |tasks| {
      ShuffleMembers(tasks, orders[k]);
    }
    MatrixAt(tasks, candidates, first, orders, reps, r, j, a);
    MatrixIsNumbered(tasks, candidates, first, orders, reps);
    TrialIdReads(Rows(r, Rows(|tasks|, |candidates|)) + Rows(j, |candidates|) + a + 1);
    if |candidates| == 2 {
      ArmsOfTask(tasks, candidates, first, i, r + 1);
      assert a == 0 || a == 1;
    } else {
      ArmsAsListed(tasks, candidates, first, tasks[i], r + 1);
    }
  }

  lemma ArmsAsListed(tasks: seq<string>, candidates: seq<string>, first: seq<nat>, task: string, repetition: nat)
    requires |first| == |tasks| && repetition > 0 && |candidates| != 2
    ensures Arms(tasks, candidates, first, task, repetition) == candidates
  {
  }

  // ----- Counterbalance

  /** How many of these arms are `arm`. */
  function CountArm(arms: seq<nat>, arm: nat): nat {
    multiset(arms)[arm]
  }

  lemma {:induction false} DealtIsBalanced(n: nat)
    ensures CountArm(Dealt(n, 2), 0) == (n + 1) / 2
    ensures CountArm(Dealt(n, 2), 1) == n / 2
  {
    hide *;
    DealtNext(n);
    if n > 0 {
      DealtIsBalanced(n - 1);
      CountNext(Dealt(n - 1, 2), (n - 1) % 2, 0);
      CountNext(Dealt(n - 1, 2), (n - 1) % 2, 1);
      Halves(n);
    }
  }

  lemma DealtNext(n: nat)
    ensures if n == 0 then CountArm(Dealt(n, 2), 0) == CountArm(Dealt(n, 2), 1) == 0 else Dealt(n, 2) == Dealt(n - 1, 2) + [(n - 1) % 2]
  {
  }

  lemma CountNext(arms: seq<nat>, a: nat, arm: nat)
    ensures CountArm(arms + [a], arm) == CountArm(arms, arm) + if a == arm then 1 else 0
  {
  }

  lemma Halves(n: nat)
    requires n > 0
    ensures (n + 1) / 2 == n / 2 + (if (n - 1) % 2 == 0 then 1 else 0)
    ensures n / 2 == (n - 1) / 2 + (if (n - 1) % 2 == 1 then 1 else 0)
  {
  }

  /** How many of the first `n` dealt arms lead to `arm` starting this repetition. */
  function StartingWith(first: seq<nat>, repetition: nat, arm: nat, n: nat): nat
    requires n <= |first| && repetition > 0
  {
    if n == 0 then 0
    else StartingWith(first, repetition, arm, n - 1) + (if (first[n - 1] + repetition - 1) % 2 == arm then 1 else 0)
  }

  lemma {:induction false} StartingCounts(first: seq<nat>, repetition: nat, n: nat)
    requires n <= |first| && repetition > 0
    requires forall i :: 0 <= i < |first| ==> first[i] < 2
    ensures StartingWith(first, repetition, 0, n) == CountArm(first[..n], (repetition - 1) % 2)
    ensures StartingWith(first, repetition, 1, n) == CountArm(first[..n], repetition % 2)
  {
    if n > 0 {
      StartingCounts(first, repetition, n - 1);
      assert first[..n] == first[..n - 1] + [first[n - 1]];
      ArmsByParity(first[n - 1], repetition - 1);
    }
  }

  lemma ArmsByParity(arm: nat, r: nat)
    requires arm < 2
    ensures (arm + r) % 2 == 0 <==> arm == r % 2
    ensures (arm + r) % 2 == 1 <==> arm == (r + 1) % 2
  {
  }

  /** The starting arms of a repetition are as balanced as the deal was. */
  lemma DealtStartsAreBalanced(first: seq<nat>, repetition: nat)
    requires IsShuffle(Dealt(|first|, 2), first) && repetition > 0
    ensures var a, b := StartingWith(first, repetition, 0, |first|), StartingWith(first, repetition, 1, |first|);
            a + b == |first| && -1 <= a - b <= 1
  {
    hide *;
    DealtIsBalanced(|first|);
    ShuffledArms(first);
    StartingCounts(first, repetition, |first|);
    assert first[..|first|] == first;
    ArmsByParity(0, repetition - 1);
  }

  lemma ShuffledArms(first: seq<nat>)
    requires IsShuffle(Dealt(|first|, 2), first)
    ensures forall i :: 0 <= i < |first| ==> first[i] < 2
    ensures CountArm(first, 0) == CountArm(Dealt(|first|, 2), 0) && CountArm(first, 1) == CountArm(Dealt(|first|, 2), 1)
  {
    forall i | 0 <= i < |first| ensures first[i] < 2 {
      assert first[i] in multiset(first);
      assert first[i] in multiset(Dealt(|first|, 2));
      assert first[i] in Dealt(|first|, 2);
    }
  }

  lemma {:induction false} FirstArmAt(tasks: seq<string>, first: seq<nat>, i: nat)
    requires |first| == |tasks| && i < |tasks| && NoRepeats(tasks)
    ensures FirstArm(tasks, first, tasks[i]) == first[i]
    decreases |tasks|
  {
    if i < |tasks| - 1 {
      assert tasks[|tasks| - 1] != tasks[i];
      FirstArmAt(tasks[..|tasks| - 1], first[..|tasks| - 1], i);
    }
  }

  /** The candidate of the first trial of a task in a repetition, in the order the
      trials stand. */
  function FirstCandidate(m: seq<Planned>, task: string, repetition: nat): Option<string> {
    if m == [] then None
    else if m[0].task == task && m[0].repetition == repetition then Some(m[0].candidate)
    else FirstCandidate(m[1..], task, repetition)
  }

  lemma {:induction false} FirstCandidateIs(m: seq<Planned>, task: string, repetition: nat, at: nat)
    requires at < |m| && m[at].task == task && m[at].repetition == repetition
    requires forall k :: 0 <= k < at ==> m[k].task != task || m[k].repetition != repetition
    ensures FirstCandidate(m, task, repetition) == Some(m[at].candidate)
    decreases at
  {
    if at > 0 {
      assert m[0].task != task || m[0].repetition != repetition;
      forall k | 0 <= k < at - 1 ensures m[1..][k].task != task || m[1..][k].repetition != repetition {
        assert m[1..][k] == m[k + 1];
      }
      FirstCandidateIs(m[1..], task, repetition, at - 1);
    }
  }

  /** What a schedule is made from, with two candidates. */
  ghost predicate TwoArmed(tasks: seq<string>, candidates: seq<string>, first: seq<nat>, orders: seq<seq<string>>) {
    && |candidates| == 2 && NoRepeats(candidates) && NoRepeats(tasks)
    && |first| == |tasks| && IsShuffle(Dealt(|tasks|, 2), first)
    && forall r :: 0 <= r < |orders| ==> IsShuffle(tasks, orders[r])
  }

  /** Where the two trials of a task stand in the matrix, and that no other trial
      of the task belongs to this repetition. */
  lemma BlockOfTask(tasks: seq<string>, candidates: seq<string>, first: seq<nat>, orders: seq<seq<string>>, reps: nat, i: nat, repetition: nat)
      returns (at: nat)
    requires TwoArmed(tasks, candidates, first, orders)
    requires i < |tasks| && 1 <= repetition <= reps <= |orders|
    ensures var m := Matrix(tasks, candidates, first, orders, reps);
            && at + 2 <= |m|
            && m[at].task == tasks[i] && m[at].repetition == repetition
            && m[at].candidate == candidates[(first[i] + repetition - 1) % 2]
            && forall k :: 0 <= k < at ==> m[k].task != tasks[i] || m[k].repetition != repetition
  {
    hide Matrix, Exactly, IsShuffle, TrialId, Arms;
    var m := Matrix(tasks, candidates, first, orders, reps);
    var task, order := tasks[i], orders[repetition - 1];
    assert IsShuffle(tasks, order);
    ShuffleMembers(tasks, order);
    assert task in Members(tasks);
    var j :| 0 <= j < |order| && order[j] == task;
    at := ArmsStandTogether(tasks, candidates, first, orders, reps, repetition, j);
    ArmsOfTask(tasks, candidates, first, i, repetition);
    var arms := Arms(tasks, candidates, first, task, repetition);
    var block := Pair(task, arms, repetition, at);
    assert m[at] == block[0] && m[at + 1] == block[1] by {
      assert m[at] == m[at..at + 2][0] && m[at + 1] == m[at..at + 2][1];
    }
    MatrixIsExact(tasks, candidates, first, orders, reps);
    NothingBefore(m, Grid(Members(tasks), Members(candidates), UpTo(reps)), candidates, task, repetition, at);
  }

  lemma NothingBefore(m: seq<Planned>, cells: set<Cell>, candidates: seq<string>, task: string, repetition: nat, at: nat)
    requires Exactly(m, cells) && at + 2 <= |m| && |candidates| == 2
    requires forall c :: c in cells ==> c.1 in candidates
    requires m[at].task == m[at + 1].task == task && m[at].repetition == m[at + 1].repetition == repetition
    requires {m[at].candidate, m[at + 1].candidate} == {candidates[0], candidates[1]}
    ensures forall k :: 0 <= k < at ==> m[k].task != task || m[k].repetition != repetition
  {
    forall k | 0 <= k < at ensures m[k].task != task || m[k].repetition != repetition {
      assert CellOf(m[k]) in cells;
      assert CellOf(m[k]).1 in candidates;
      assert m[k].candidate in {candidates[0], candidates[1]};
      assert CellOf(m[k]) != CellOf(m[at]) && CellOf(m[k]) != CellOf(m[at + 1]);
    }
  }

  lemma ArmsOfTask(tasks: seq<string>, candidates: seq<string>, first: seq<nat>, i: nat, repetition: nat)
    requires |first| == |tasks| && i < |tasks| && NoRepeats(tasks) && |candidates| == 2 && repetition > 0
    ensures Arms(tasks, candidates, first, tasks[i], repetition)
            == [candidates[(first[i] + repetition - 1) % 2], candidates[(first[i] + repetition) % 2]]
  {
    FirstArmAt(tasks, first, i);
  }

  lemma FirstTrialOfTask(tasks: seq<string>, candidates: seq<string>, first: seq<nat>, orders: seq<seq<string>>, reps: nat, i: nat, repetition: nat)
    requires TwoArmed(tasks, candidates, first, orders)
    requires i < |tasks| && 1 <= repetition <= reps <= |orders|
    ensures FirstCandidate(Matrix(tasks, candidates, first, orders, reps), tasks[i], repetition)
            == Some(candidates[(first[i] + repetition - 1) % 2])
  {
    hide Matrix, IsShuffle, FirstCandidate;
    var at := BlockOfTask(tasks, candidates, first, orders, reps, i, repetition);
    FirstCandidateIs(Matrix(tasks, candidates, first, orders, reps), tasks[i], repetition, at);
  }

  /** In the schedule, with two candidates, the first trial of a task in one
      repetition and its first trial in the next are of different candidates. */
  lemma ArmsAlternate(tasks: seq<string>, candidates: seq<string>, first: seq<nat>, orders: seq<seq<string>>, reps: nat, task: string, repetition: nat)
    requires TwoArmed(tasks, candidates, first, orders)
    requires task in tasks && 1 <= repetition < reps <= |orders|
    ensures var m := Matrix(tasks, candidates, first, orders, reps);
            var now, next := FirstCandidate(m, task, repetition), FirstCandidate(m, task, repetition + 1);
            && now.Some? && next.Some? && now != next
            && now.value in candidates && next.value in candidates
  {
    hide Matrix, IsShuffle, FirstCandidate;
    var i :| 0 <= i < |tasks| && tasks[i] == task;
    FirstTrialOfTask(tasks, candidates, first, orders, reps, i, repetition);
    FirstTrialOfTask(tasks, candidates, first, orders, reps, i, repetition + 1);
  }

  /** How many of these tasks have their first trial of the repetition with this
      candidate. */
  function Starts(m: seq<Planned>, tasks: seq<string>, repetition: nat, candidate: string): nat {
    if tasks == [] then 0
    else
      Starts(m, tasks[..|tasks| - 1], repetition, candidate)
      + (if FirstCandidate(m, tasks[|tasks| - 1], repetition) == Some(candidate) then 1 else 0)
  }

  lemma {:induction false} StartsAreDealt(tasks: seq<string>, candidates: seq<string>, first: seq<nat>, orders: seq<seq<string>>, reps: nat,
                                          repetition: nat, arm: nat, n: nat)
    requires TwoArmed(tasks, candidates, first, orders)
    requires 1 <= repetition <= reps <= |orders| && arm < 2 && n <= |tasks|
    ensures Starts(Matrix(tasks, candidates, first, orders, reps), tasks[..n], repetition, candidates[arm])
            == StartingWith(first, repetition, arm, n)
    decreases n
  {
    hide Matrix, IsShuffle, FirstCandidate;
    if n > 0 {
      StartsAreDealt(tasks, candidates, first, orders, reps, repetition, arm, n - 1);
      FirstTrialOfTask(tasks, candidates, first, orders, reps, n - 1, repetition);
      assert tasks[..n][..n - 1] == tasks[..n - 1];
    }
  }

  /** In every repetition of the schedule the two candidates go first almost equally
      often: the counts differ by at most one, whatever the shuffles. */
  lemma StartsAreBalanced(tasks: seq<string>, candidates: seq<string>, first: seq<nat>, orders: seq<seq<string>>, reps: nat, repetition: nat)
    requires TwoArmed(tasks, candidates, first, orders)
    requires 1 <= repetition <= reps <= |orders|
    ensures var m := Matrix(tasks, candidates, first, orders, reps);
            var a, b := Starts(m, tasks, repetition, candidates[0]), Starts(m, tasks, repetition, candidates[1]);
            a + b == |tasks| && -1 <= a - b <= 1
  {
    hide Matrix, IsShuffle, FirstCandidate, Starts, StartingWith;
    StartsAreDealt(tasks, candidates, first, orders, reps, repetition, 0, |tasks|);
    StartsAreDealt(tasks, candidates, first, orders, reps, repetition, 1, |tasks|);
    assert tasks[..|tasks|] == tasks;
    DealtStartsAreBalanced(first, repetition);
  }

  // ----- The loops

  /** Where a task is listed twice the later entry counts. */
  lemma FirstArmSnoc(tasks: seq<string>, first: seq<nat>, i: nat)
    requires |first| == |tasks| && i < |tasks|
    ensures forall t :: FirstArm(tasks[..i + 1], first[..i + 1], t) == if t == tasks[i] then first[i] else FirstArm(tasks[..i], first[..i], t)
    ensures forall t :: t in tasks[..i + 1] <==> t in tasks[..i] || t == tasks[i]
  {
    var more, arms := tasks[..i + 1], first[..i + 1];
    assert more[..i] == tasks[..i] && arms[..i] == first[..i];
    forall t ensures FirstArm(more, arms, t) == if t == tasks[i] then first[i] else FirstArm(tasks[..i], first[..i], t) {
      assert more[|more| - 1] == tasks[i] && arms[|more| - 1] == first[i];
    }
  }

  /** None: there is a task but no candidate to take its arm modulo. */
  method Schedule(tasks: seq<string>, candidates: seq<string>, repetitions: nat, shuffles: Shuffles) returns (result: Option<seq<Planned>>)
    requires |candidates| > 0 ==> FairShuffles(tasks, candidates, repetitions, shuffles)
    ensures result.None? <==> |candidates| == 0 && |tasks| > 0
    ensures |candidates| > 0 ==> result == Some(Matrix(tasks, candidates, shuffles.first, shuffles.orders, repetitions))
    ensures |candidates| == 0 && |tasks| == 0 ==> result == Some([])
  {
    hide TrialId, Repetition, IsShuffle, NoRepeats, Dealt;
    if |candidates| == 0 {
      return if |tasks| > 0 then None else Some([]);
    }
    var firstByTask: map<string, nat> := map[];
    for i := 0 to |tasks|
      invariant forall t :: t in firstByTask <==> t in tasks[..i]
      invariant forall t :: t in firstByTask ==> firstByTask[t] == FirstArm(tasks[..i], shuffles.first[..i], t)
    {
      FirstArmSnoc(tasks, shuffles.first, i);
      firstByTask := firstByTask[tasks[i] := shuffles.first[i]];
    }
    assert tasks[..|tasks|] == tasks && shuffles.first[..|tasks|] == shuffles.first;
    var all: seq<Planned> := [];
    for repetition := 1 to repetitions + 1
      invariant all == Matrix(tasks, candidates, shuffles.first, shuffles.orders, repetition - 1)
    {
      var order := shuffles.orders[repetition - 1];
      ShuffleMembers(tasks, order);
      assert forall t :: t in order ==> t in Members(order);
      all := ScheduleRepetition(all, tasks, candidates, shuffles.first, firstByTask, order, repetition);
    }
    return Some(all);
  }

  method ScheduleRepetition(result: seq<Planned>, ghost tasks: seq<string>, candidates: seq<string>, ghost first: seq<nat>,
                            firstByTask: map<string, nat>, order: seq<string>, repetition: nat)
      returns (all: seq<Planned>)
    requires |first| == |tasks| && repetition > 0
    requires forall t :: t in order ==> t in firstByTask && firstByTask[t] == FirstArm(tasks, first, t)
    ensures all == result + Repetition(tasks, candidates, first, order, repetition, |order|, |result|)
  {
    hide TrialId, FirstArm, Pair;
    all := result;
    for k := 0 to |order|
      invariant all == result + Repetition(tasks, candidates, first, order, repetition, k, |result|)
    {
      var task := order[k];
      var arms := candidates;
      if |arms| == 2 && (firstByTask[task] + repetition - 1) % 2 != 0 {
        arms := [arms[1], arms[0]];
      }
      all := SchedulePair(all, task, arms, repetition);
    }
  }

  method SchedulePair(result: seq<Planned>, task: string, arms: seq<string>, repetition: nat) returns (all: seq<Planned>)
    ensures all == result + Pair(task, arms, repetition, |result|)
  {
    hide TrialId;
    all := result;
    for a := 0 to |arms|
      invariant all == result + Pair(task, arms, repetition, |result|)[..a]
    {
      all := all + [Planned(TrialId(|all| + 1), task, arms[a], repetition)];
    }
  }
}
