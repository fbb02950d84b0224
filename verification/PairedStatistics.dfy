/** Comparing two arms of an evaluation task by task and pair by pair, and the
    interval the bootstrap gives. Fractions are exact here. */
module PairedStatistics {
  import opened Transcript

  // ----- Rows and their index

  /** One graded or ungraded trial. */
  datatype Row = Row(task: string, repetition: nat, success: Option<bool>)

  type Cell = (string, nat)

  function CellOf(row: Row): Cell {
    (row.task, row.repetition)
  }

  ghost predicate DistinctCells(rows: seq<Row>) {
    forall i, j :: 0 <= i < j < |rows| ==> CellOf(rows[i]) != CellOf(rows[j])
  }

  function Indexed(rows: seq<Row>): (r: map<Cell, Row>)
    ensures forall c :: c in r <==> exists i :: 0 <= i < |rows| && CellOf(rows[i]) == c
    ensures forall c :: c in r ==> r[c] in rows && CellOf(r[c]) == c
  {
    if rows == [] then map[]
    else
      var last := rows[|rows| - 1];
      var earlier := Indexed(rows[..|rows| - 1]);
      assert CellOf(rows[|rows| - 1]) == CellOf(last);
      assert forall c :: c in earlier ==> exists i :: 0 <= i < |rows| && CellOf(rows[i]) == c;
      earlier[CellOf(last) := last]
  }

  lemma IndexedSnoc(rows: seq<Row>, i: nat)
    requires i < |rows|
    ensures Indexed(rows[..i + 1]) == Indexed(rows[..i])[CellOf(rows[i]) := rows[i]]
    ensures CellOf(rows[i]) in Indexed(rows[..i]) <==> exists j :: 0 <= j < i && CellOf(rows[j]) == CellOf(rows[i])
  {
    assert rows[..i + 1][..i] == rows[..i];
    if exists j :: 0 <= j < i && CellOf(rows[j]) == CellOf(rows[i]) {
      var j :| 0 <= j < i && CellOf(rows[j]) == CellOf(rows[i]);
      assert rows[..i][j] == rows[j];
    }
  }

  ghost predicate DistinctUpTo(rows: seq<Row>, i: nat)
    requires i <= |rows|
  {
    forall j, k :: 0 <= j < k < i ==> CellOf(rows[j]) != CellOf(rows[k])
  }

  /** One more row is either a repeat or one more entry. */
  lemma IndexStep(rows: seq<Row>, i: nat)
    requires i < |rows| && DistinctUpTo(rows, i)
    ensures Indexed(rows[..i + 1]) == Indexed(rows[..i])[CellOf(rows[i]) := rows[i]]
    ensures if CellOf(rows[i]) in Indexed(rows[..i]) then !DistinctCells(rows) else DistinctUpTo(rows, i + 1)
  {
    hide Indexed, CellOf;
    IndexedSnoc(rows, i);
  }

  lemma DistinctThroughout(rows: seq<Row>)
    ensures DistinctUpTo(rows, 0)
    ensures DistinctUpTo(rows, |rows|) ==> DistinctCells(rows)
  {
  }

  /** None: some task and repetition occurs twice in an arm. */
  method Index(rows: seq<Row>) returns (result: Option<map<Cell, Row>>)
    ensures result == if DistinctCells(rows) then Some(Indexed(rows)) else None
  {
    hide *;
    var index: map<Cell, Row> := map[];
    NoRowsIndexed();
    DistinctThroughout(rows);
    assert rows[..0] == [];
    for i := 0 to |rows|
      invariant index == Indexed(rows[..i])
      invariant DistinctUpTo(rows, i)
    {
      IndexStep(rows, i);
      var key := CellOf(rows[i]);
      if key in index {
        return None;
      }
      index := index[key := rows[i]];
    }
    assert rows[..|rows|] == rows;
    return Some(index);
  }

  lemma NoRowsIndexed()
    ensures Indexed([]) == map[]
  {
  }

  // ----- What is counted

  type Arm = map<Cell, Row>

  predicate Passed(arm: Arm, c: Cell)
    requires c in arm
  {
    arm[c].success == Some(true)
  }

  predicate Graded(arm: Arm, c: Cell)
    requires c in arm
  {
    arm[c].success.Some?
  }

  function Shared(left: Arm, right: Arm): set<Cell> {
    set c | c in left && c in right && Graded(left, c) && Graded(right, c)
  }

  function Wins(left: Arm, right: Arm): set<Cell> {
    set c | c in Shared(left, right) && Passed(right, c) && !Passed(left, c)
  }

  function Losses(left: Arm, right: Arm): set<Cell> {
    set c | c in Shared(left, right) && Passed(left, c) && !Passed(right, c)
  }

  function Ties(left: Arm, right: Arm): set<Cell> {
    set c | c in Shared(left, right) && (Passed(left, c) <==> Passed(right, c))
  }

  /** Every pair graded on both sides is a win, a loss or a tie, and only one of them. */
  lemma PairsAddUp(left: Arm, right: Arm)
    ensures |Wins(left, right)| + |Losses(left, right)| + |Ties(left, right)| == |Shared(left, right)|
  {
    var w, l, t := Wins(left, right), Losses(left, right), Ties(left, right);
    assert w !! l && (w + l) !! t;
    assert w + l + t == Shared(left, right);
  }

  // ----- The loop over pairs

  lemma KindOfPair(left: Arm, right: Arm, c: Cell)
    requires c in left && c in right
    ensures var graded := left[c].success.Some? && right[c].success.Some?;
            && (c in Wins(left, right) <==> graded && right[c].success.value && !left[c].success.value)
            && (c in Losses(left, right) <==> graded && left[c].success.value && !right[c].success.value)
            && (c in Ties(left, right) <==> graded && left[c].success.value == right[c].success.value)
  {
  }

  lemma OneMore(kind: set<Cell>, seen: set<Cell>, c: Cell)
    requires c !in seen
    ensures |kind * (seen + {c})| == |kind * seen| + if c in kind then 1 else 0
  {
    assert kind * (seen + {c}) == kind * seen + if c in kind then {c} else {};
  }

  /** What one more pair adds to the three counts. */
  lemma Tally(left: Arm, right: Arm, seen: set<Cell>, c: Cell)
    requires c in left && c in right && c !in seen
    ensures var graded := left[c].success.Some? && right[c].success.Some?;
            var now := seen + {c};
            && |Wins(left, right) * now| == |Wins(left, right) * seen| + (if graded && right[c].success.value && !left[c].success.value then 1 else 0)
            && |Losses(left, right) * now| == |Losses(left, right) * seen| + (if graded && left[c].success.value && !right[c].success.value then 1 else 0)
            && |Ties(left, right) * now| == |Ties(left, right) * seen| + (if graded && left[c].success.value == right[c].success.value then 1 else 0)
  {
    hide Wins, Losses, Ties;
    KindOfPair(left, right, c);
    OneMore(Wins(left, right), seen, c);
    OneMore(Losses(left, right), seen, c);
    OneMore(Ties(left, right), seen, c);
  }

  lemma AllSeen(left: Arm, right: Arm, seen: set<Cell>)
    requires seen == left.Keys * right.Keys
    ensures Wins(left, right) * seen == Wins(left, right)
    ensures Losses(left, right) * seen == Losses(left, right)
    ensures Ties(left, right) * seen == Ties(left, right)
  {
  }

  /** The three counts over the pairs seen so far. */
  ghost predicate Counted(left: Arm, right: Arm, seen: set<Cell>, wins: nat, losses: nat, ties: nat) {
    && wins == |Wins(left, right) * seen|
    && losses == |Losses(left, right) * seen|
    && ties == |Ties(left, right) * seen|
  }

  lemma NothingCounted(left: Arm, right: Arm)
    ensures Counted(left, right, {}, 0, 0, 0)
  {
    hide Wins, Losses, Ties;
  }

  lemma CountStep(left: Arm, right: Arm, seen: set<Cell>, c: Cell, wins: nat, losses: nat, ties: nat)
    requires Counted(left, right, seen, wins, losses, ties)
    requires c in left && c in right && c !in seen
    ensures if left[c].success.Some? && right[c].success.Some? then
              var a, b := left[c].success.value, right[c].success.value;
              Counted(left, right, seen + {c}, wins + (if b && !a then 1 else 0), losses + (if a && !b then 1 else 0), ties + (if a == b then 1 else 0))
            else Counted(left, right, seen + {c}, wins, losses, ties)
  {
    hide Wins, Losses, Ties;
    Tally(left, right, seen, c);
  }

  lemma EverythingCounted(left: Arm, right: Arm, seen: set<Cell>, wins: nat, losses: nat, ties: nat)
    requires seen == left.Keys * right.Keys && Counted(left, right, seen, wins, losses, ties)
    ensures wins == |Wins(left, right)| && losses == |Losses(left, right)| && ties == |Ties(left, right)|
  {
    hide Wins, Losses, Ties;
    AllSeen(left, right, seen);
  }

  method CountPairs(left: Arm, right: Arm) returns (wins: nat, losses: nat, ties: nat)
    ensures wins == |Wins(left, right)| && losses == |Losses(left, right)| && ties == |Ties(left, right)|
  {
    hide *;
    wins, losses, ties := 0, 0, 0;
    NothingCounted(left, right);
    var keys := left.Keys * right.Keys;
    ghost var seen: set<Cell> := {};
    while keys != {}
      invariant keys + seen == left.Keys * right.Keys && keys !! seen
      invariant Counted(left, right, seen, wins, losses, ties)
      decreases |keys|
    {
      var key :| key in keys;
      keys := keys - {key};
      CountStep(left, right, seen, key, wins, losses, ties);
      if left[key].success.Some? && right[key].success.Some? {
        var a, b := left[key].success.value, right[key].success.value;
        wins := wins + if b && !a then 1 else 0;
        losses := losses + if a && !b then 1 else 0;
        ties := ties + if a == b then 1 else 0;
      }
      seen := seen + {key};
    }
    EverythingCounted(left, right, seen, wins, losses, ties);
  }

  // ----- The loop over tasks

  function OfTask(arm: Arm, task: string): set<Cell> {
    set c | c in arm && c.0 == task
  }

  function PassedOfTask(arm: Arm, task: string): set<Cell> {
    set c | c in arm && c.0 == task && Passed(arm, c)
  }

  predicate TaskGraded(arm: Arm, task: string) {
    forall c :: c in arm && c.0 == task ==> Graded(arm, c)
  }

  /** The share of a task's trials that passed. */
  function PassRate(arm: Arm, task: string): real
    requires OfTask(arm, task) != {}
  {
    |PassedOfTask(arm, task)| as real / |OfTask(arm, task)| as real
  }

  function Sum(values: seq<real>): real {
    if values == [] then 0.0 else Sum(values[..|values| - 1]) + values[|values| - 1]
  }

  function Mean(values: seq<real>): real
    requires values != []
  {
    Sum(values) / |values| as real
  }

  /** Differences of the pass rates of the fully graded tasks, in task order. */
  function Deltas(left: Arm, right: Arm, tasks: seq<string>): seq<real>
    requires forall t :: t in tasks ==> OfTask(left, t) != {} && OfTask(right, t) != {}
  {
    if tasks == [] then []
    else
      var earlier, t := Deltas(left, right, tasks[..|tasks| - 1]), tasks[|tasks| - 1];
      if TaskGraded(left, t) && TaskGraded(right, t) then earlier + [PassRate(right, t) - PassRate(left, t)] else earlier
  }

  /** The tasks both arms have rows for, each once; any order will do. */
  ghost predicate CommonTasks(left: Arm, right: Arm, tasks: seq<string>) {
    && (forall i, j :: 0 <= i < j < |tasks| ==> tasks[i] != tasks[j])
    && (forall t :: t in tasks <==> OfTask(left, t) != {} && OfTask(right, t) != {})
  }

  /** There are common tasks, and every trial of them is graded on both sides. */
  ghost predicate Complete(left: Arm, right: Arm, tasks: seq<string>) {
    tasks != [] && forall t :: t in tasks ==> TaskGraded(left, t) && TaskGraded(right, t)
  }

  method TaskDeltas(left: Arm, right: Arm, tasks: seq<string>) returns (deltas: seq<real>, complete: bool)
    requires CommonTasks(left, right, tasks)
    ensures deltas == Deltas(left, right, tasks)
    ensures complete <==> Complete(left, right, tasks)
  {
    deltas := [];
    complete := |tasks| > 0;
    for i := 0 to |tasks|
      invariant deltas == Deltas(left, right, tasks[..i])
      invariant complete <==> tasks != [] && forall t :: t in tasks[..i] ==> TaskGraded(left, t) && TaskGraded(right, t)
    {
      assert tasks[..i + 1][..i] == tasks[..i];
      assert forall t :: t in tasks[..i + 1] <==> t in tasks[..i] || t == tasks[i];
      var task := tasks[i];
      if TaskGraded(left, task) && TaskGraded(right, task) {
        deltas := deltas + [PassRate(right, task) - PassRate(left, task)];
      } else {
        complete := false;
      }
    }
    assert tasks[..|tasks|] == tasks;
  }

  // ----- The two loops agree

  /** Both arms hold the same cells, all graded: `reps` of each of these tasks. */
  ghost predicate FullMatrix(left: Arm, right: Arm, tasks: seq<string>, reps: nat) {
    && CommonTasks(left, right, tasks)
    && left.Keys == right.Keys
    && (forall c :: c in left ==> Graded(left, c) && Graded(right, c))
    && (forall t :: t in tasks ==> |OfTask(left, t)| == reps)
  }

  function PassedCells(arm: Arm): set<Cell> {
    set c | c in arm && Passed(arm, c)
  }

  function PassedUpTo(arm: Arm, tasks: seq<string>): set<Cell> {
    set c | c in arm && c.0 in tasks && Passed(arm, c)
  }

  /** Wins less losses is the difference in passes. */
  lemma WinsLessLosses(left: Arm, right: Arm)
    requires left.Keys == right.Keys && forall c :: c in left ==> Graded(left, c) && Graded(right, c)
    ensures |Wins(left, right)| - |Losses(left, right)| == |PassedCells(right)| - |PassedCells(left)|
  {
    var both := PassedCells(left) * PassedCells(right);
    assert PassedCells(right) == Wins(left, right) + both;
    assert PassedCells(left) == Losses(left, right) + both;
  }

  lemma PassedSnoc(arm: Arm, tasks: seq<string>)
    requires tasks != [] && forall i, j :: 0 <= i < j < |tasks| ==> tasks[i] != tasks[j]
    ensures |PassedUpTo(arm, tasks)| == |PassedUpTo(arm, tasks[..|tasks| - 1])| + |PassedOfTask(arm, tasks[|tasks| - 1])|
  {
    var front, last := tasks[..|tasks| - 1], tasks[|tasks| - 1];
    assert last !in front;
    assert forall t :: t in tasks <==> t in front || t == last;
    assert PassedUpTo(arm, tasks) == PassedUpTo(arm, front) + PassedOfTask(arm, last);
  }

  lemma {:induction false} DeltasSum(left: Arm, right: Arm, tasks: seq<string>, reps: nat)
    requires forall i, j :: 0 <= i < j < |tasks| ==> tasks[i] != tasks[j]
    requires forall t :: t in tasks ==> OfTask(left, t) != {} && OfTask(right, t) != {}
    requires forall t :: t in tasks ==> |OfTask(left, t)| == reps && |OfTask(right, t)| == reps
    requires forall t :: t in tasks ==> TaskGraded(left, t) && TaskGraded(right, t)
    requires reps > 0
    ensures |Deltas(left, right, tasks)| == |tasks|
    ensures Sum(Deltas(left, right, tasks)) == (|PassedUpTo(right, tasks)| - |PassedUpTo(left, tasks)|) as real / reps as real
  {
    hide PassedUpTo, OfTask, PassedOfTask, TaskGraded;
    if tasks == [] {
      NothingPassed(left);
      NothingPassed(right);
    } else {
      var front, t := tasks[..|tasks| - 1], tasks[|tasks| - 1];
      DeltasSum(left, right, front, reps);
      PassedSnoc(left, tasks);
      PassedSnoc(right, tasks);
      var deltas := Deltas(left, right, tasks);
      assert deltas[..|deltas| - 1] == Deltas(left, right, front);
      var x, y := |PassedUpTo(right, front)| - |PassedUpTo(left, front)|, |PassedOfTask(right, t)| - |PassedOfTask(left, t)|;
      DivisionAdds(x, y, reps);
      DivisionSubtracts(|PassedOfTask(right, t)|, |PassedOfTask(left, t)|, reps);
    }
  }

  lemma NothingPassed(arm: Arm)
    ensures PassedUpTo(arm, []) == {}
  {
  }

  lemma DivisionAdds(x: int, y: int, n: nat)
    requires n > 0
    ensures x as real / n as real + y as real / n as real == (x + y) as real / n as real
  {
  }

  lemma DivisionSubtracts(x: nat, y: nat, n: nat)
    requires n > 0
    ensures x as real / n as real - y as real / n as real == (x - y) as real / n as real
  {
  }

  /** For two fully graded arms over the same tasks with the same number of
      repetitions, the per-task difference of pass rates averages to wins less losses
      over the number of pairs, although one comes from a loop over tasks and the
      other from a loop over pairs. */
  lemma DeltaIsNetWins(left: Arm, right: Arm, tasks: seq<string>, reps: nat)
    requires FullMatrix(left, right, tasks, reps) && tasks != []
    ensures reps > 0 && |Deltas(left, right, tasks)| == |tasks|
    ensures Mean(Deltas(left, right, tasks))
            == (|Wins(left, right)| - |Losses(left, right)|) as real / (|tasks| * reps) as real
  {
    hide Deltas, Wins, Losses;
    forall t | t in tasks ensures OfTask(left, t) == OfTask(right, t) && TaskGraded(left, t) && TaskGraded(right, t) {
    }
    assert OfTask(left, tasks[0]) != {} && |OfTask(left, tasks[0])| == reps;
    DeltasSum(left, right, tasks, reps);
    AllPassed(left, right, tasks);
    WinsLessLosses(left, right);
    DivisionTwice(|Wins(left, right)| - |Losses(left, right)|, reps, |tasks|);
  }

  lemma AllPassed(left: Arm, right: Arm, tasks: seq<string>)
    requires CommonTasks(left, right, tasks) && left.Keys == right.Keys
    ensures PassedUpTo(left, tasks) == PassedCells(left) && PassedUpTo(right, tasks) == PassedCells(right)
  {
    forall c | c in left ensures c.0 in tasks {
      assert c in OfTask(left, c.0) && c in OfTask(right, c.0);
    }
  }

  lemma DivisionTwice(x: int, m: nat, n: nat)
    requires m > 0 && n > 0
    ensures m * n > 0 && n * m > 0 && (x as real / m as real) / n as real == x as real / (n * m) as real
  {
    var a, b, c := x as real, m as real, n as real;
    assert (n * m) as real == c * b;
    var q := a / b / c;
    assert q * c == a / b;
    assert (q * c) * b == a;
    assert q * (c * b) == a;
  }

  // ----- Quantiles and the bootstrap interval

  predicate Sorted(values: seq<real>) {
    forall i, j :: 0 <= i < j < |values| ==> values[i] <= values[j]
  }

  /** `value` put in its place in a sorted list. */
  function Inserted(values: seq<real>, value: real): (r: seq<real>)
    ensures |r| == |values| + 1
  {
    if values == [] || values[|values| - 1] <= value then values + [value]
    else Inserted(values[..|values| - 1], value) + [values[|values| - 1]]
  }

  lemma {:induction false} InsertedKeepsElements(values: seq<real>, value: real)
    ensures multiset(Inserted(values, value)) == multiset(values) + multiset{value}
  {
    if values != [] {
      assert values == values[..|values| - 1] + [values[|values| - 1]];
      InsertedKeepsElements(values[..|values| - 1], value);
    }
  }

  lemma {:induction false} InsertedIsSorted(values: seq<real>, value: real, top: real)
    requires Sorted(values) && value <= top && forall i :: 0 <= i < |values| ==> values[i] <= top
    ensures Sorted(Inserted(values, value))
    ensures forall i :: 0 <= i <= |values| ==> Inserted(values, value)[i] <= top
  {
    if values != [] && value < values[|values| - 1] {
      InsertedIsSorted(values[..|values| - 1], value, values[|values| - 1]);
    }
  }

  function SortedCopy(values: seq<real>): (r: seq<real>)
    ensures Sorted(r) && multiset(r) == multiset(values) && |r| == |values|
  {
    if values == [] then []
    else
      var front, last := values[..|values| - 1], values[|values| - 1];
      var earlier := SortedCopy(front);
      assert values == front + [last];
      InsertedKeepsElements(earlier, last);
      InsertedIsSorted(earlier, last, if earlier == [] || earlier[|earlier| - 1] < last then last else earlier[|earlier| - 1]);
      Inserted(earlier, last)
  }

  /** Linear interpolation between the two sorted values around a position. */
  function Interpolated(sorted: seq<real>, position: real): real
    requires sorted != [] && 0.0 <= position <= (|sorted| - 1) as real
  {
    var lower := position.Floor;
    var upper := if lower + 1 < |sorted| - 1 then lower + 1 else |sorted| - 1;
    Blend(sorted[lower], sorted[upper], position - lower as real)
  }

  function Blend(a: real, b: real, w: real): real {
    a + Times(b - a, w)
  }

  function Times(a: real, b: real): real {
    a * b
  }

  lemma BlendRises(a: real, b: real, v: real, w: real)
    requires a <= b && 0.0 <= v <= w <= 1.0
    ensures a <= Blend(a, b, v) <= Blend(a, b, w) <= b
  {
    hide Times;
    Steeper(b - a, 0.0, v);
    Steeper(b - a, v, w);
    Steeper(b - a, w, 1.0);
  }

  lemma Steeper(slope: real, v: real, w: real)
    requires slope >= 0.0 && v <= w
    ensures Times(slope, v) <= Times(slope, w)
    ensures Times(slope, 0.0) == 0.0 && Times(slope, 1.0) == slope
  {
    assert slope * (w - v) >= 0.0;
  }

  /** How far along a list of n + 1 entries a fraction points. */
  function Position(n: nat, fraction: real): (r: real)
    requires 0.0 <= fraction <= 1.0
    ensures 0.0 <= r <= n as real
  {
    Steeper(n as real, 0.0, fraction);
    Steeper(n as real, fraction, 1.0);
    Times(n as real, fraction)
  }

  lemma PositionRises(n: nat, f: real, g: real)
    requires 0.0 <= f <= g <= 1.0
    ensures Position(n, f) <= Position(n, g)
  {
    hide Times;
    Steeper(n as real, f, g);
  }

  function Quantile(values: seq<real>, fraction: real): (r: Option<real>)
    requires 0.0 <= fraction <= 1.0
    ensures r.Some? <==> values != []
  {
    if values == [] then None
    else
      var sorted := SortedCopy(values);
      Some(Interpolated(sorted, Position(|sorted| - 1, fraction)))
  }

  /** The value lies between the two entries around its position. */
  lemma Bracket(sorted: seq<real>, position: real)
    requires sorted != [] && Sorted(sorted) && 0.0 <= position <= (|sorted| - 1) as real
    ensures var lower := position.Floor;
            && 0 <= lower < |sorted|
            && sorted[lower] <= Interpolated(sorted, position)
            && Interpolated(sorted, position) <= sorted[if lower + 1 < |sorted| - 1 then lower + 1 else |sorted| - 1]
  {
    var lower := position.Floor;
    var upper := if lower + 1 < |sorted| - 1 then lower + 1 else |sorted| - 1;
    hide Blend;
    BlendRises(sorted[lower], sorted[upper], position - lower as real, position - lower as real);
  }

  lemma InterpolationIsMonotone(sorted: seq<real>, p: real, q: real)
    requires sorted != [] && Sorted(sorted) && 0.0 <= p <= q <= (|sorted| - 1) as real
    ensures Interpolated(sorted, p) <= Interpolated(sorted, q)
  {
    hide Blend;
    if p.Floor == q.Floor {
      var lower := p.Floor;
      var upper := if lower + 1 < |sorted| - 1 then lower + 1 else |sorted| - 1;
      BlendRises(sorted[lower], sorted[upper], p - lower as real, q - lower as real);
    } else {
      Bracket(sorted, p);
      Bracket(sorted, q);
    }
  }

  /** The fraction k/n of n + 1 values points exactly at the k-th of them in order. */
  lemma QuantileHitsRanks(values: seq<real>, k: nat)
    requires |values| > 1 && k < |values|
    ensures 0.0 <= k as real / (|values| - 1) as real <= 1.0
    ensures Quantile(values, k as real / (|values| - 1) as real) == Some(SortedCopy(values)[k])
  {
    hide SortedCopy;
    var n := (|values| - 1) as real;
    FractionInUnit(k as real, n);
    assert Position(|values| - 1, k as real / n) == k as real;
    Steeper(1.0, 0.0, 0.0);
    assert (k as real).Floor == k;
  }

  /** Between two ranks the quantile lies on the line between their values: `part` is
      how far past the k-th of them the fraction points. */
  lemma QuantileBetweenRanks(values: seq<real>, fraction: real, k: nat, part: real)
    requires k + 1 < |values| && 0.0 <= fraction <= 1.0
    requires 0.0 <= part <= 1.0 && Times((|values| - 1) as real, fraction) == k as real + part
    ensures var sorted := SortedCopy(values);
            Quantile(values, fraction) == Some(sorted[k] + Times(sorted[k + 1] - sorted[k], part))
  {
    hide SortedCopy, Interpolated, Times;
    InterpolatedBetween(SortedCopy(values), Position(|values| - 1, fraction), k, part);
  }

  lemma TimesIsProduct(a: real, b: real)
    ensures Times(a, b) == a * b
  {
  }

  lemma InterpolatedBetween(sorted: seq<real>, position: real, k: nat, part: real)
    requires k + 1 < |sorted| && 0.0 <= part <= 1.0 && position == k as real + part
    ensures position <= (|sorted| - 1) as real
    ensures Interpolated(sorted, position) == sorted[k] + Times(sorted[k + 1] - sorted[k], part)
  {
    hide Times;
    if part == 1.0 {
      assert position.Floor == k + 1;
      var upper := if k + 2 < |sorted| - 1 then k + 2 else |sorted| - 1;
      LineMeetsRank(sorted[k], sorted[k + 1], sorted[upper], position - (k + 1) as real, part);
    } else {
      assert position.Floor == k;
      assert position - k as real == part;
    }
  }

  lemma LineMeetsRank(a: real, b: real, c: real, none: real, whole: real)
    requires none == 0.0 && whole == 1.0
    ensures Blend(b, c, none) == b == a + Times(b - a, whole)
  {
  }

  lemma FractionInUnit(k: real, n: real)
    requires n > 0.0 && 0.0 <= k <= n
    ensures 0.0 <= k / n <= 1.0 && Times(n, k / n) == k
  {
  }

  lemma SameElements(a: seq<real>, b: seq<real>)
    requires multiset(a) == multiset(b)
    ensures forall x :: x in a ==> x in b
  {
    forall x | x in a ensures x in b {
      assert x in multiset(a);
    }
  }

  /** A quantile is never below the least value nor above the greatest. */
  lemma QuantileInRange(values: seq<real>, fraction: real, low: real, high: real)
    requires values != [] && 0.0 <= fraction <= 1.0
    requires forall v :: v in values ==> low <= v <= high
    ensures low <= Quantile(values, fraction).value <= high
  {
    hide SortedCopy, Interpolated, Position;
    var sorted := SortedCopy(values);
    SameElements(sorted, values);
    forall i | 0 <= i < |sorted| ensures sorted[i] in values {
      assert sorted[i] in sorted;
    }
    Bracket(sorted, Position(|sorted| - 1, fraction));
  }

  /** A larger fraction never gives a smaller quantile. */
  lemma QuantileIsMonotone(values: seq<real>, f: real, g: real)
    requires values != [] && 0.0 <= f <= g <= 1.0
    ensures Quantile(values, f).value <= Quantile(values, g).value
  {
    hide SortedCopy, Interpolated, Position;
    var sorted := SortedCopy(values);
    PositionRises(|sorted| - 1, f, g);
    InterpolationIsMonotone(sorted, Position(|sorted| - 1, f), Position(|sorted| - 1, g));
  }

  /** One resampling: which of the deltas each draw takes. */
  function Drawn(deltas: seq<real>, picks: seq<nat>): (r: seq<real>)
    requires forall i :: 0 <= i < |picks| ==> picks[i] < |deltas|
    ensures |r| == |picks| && forall v :: v in r ==> v in deltas
  {
    seq(|picks|, i requires 0 <= i < |picks| => deltas[picks[i]])
  }

  lemma {:induction false} SumInRange(values: seq<real>, low: real, high: real)
    requires forall v :: v in values ==> low <= v <= high
    ensures low * |values| as real <= Sum(values) <= high * |values| as real
  {
    if values != [] {
      var front, last := values[..|values| - 1], values[|values| - 1];
      assert last in values && forall v :: v in front ==> v in values;
      SumInRange(front, low, high);
      assert |values| as real == |front| as real + 1.0;
      assert low * |values| as real == low * |front| as real + low;
      assert high * |values| as real == high * |front| as real + high;
    }
  }

  lemma MeanInRange(values: seq<real>, low: real, high: real)
    requires values != [] && forall v :: v in values ==> low <= v <= high
    ensures low <= Mean(values) <= high
  {
    hide Sum;
    SumInRange(values, low, high);
    QuotientInRange(Sum(values), |values| as real, low, high);
  }

  lemma QuotientInRange(s: real, n: real, low: real, high: real)
    requires n > 0.0 && low * n <= s <= high * n
    ensures low <= s / n <= high
  {
    var m := s / n;
    assert m * n == s;
    assert m < low ==> (low - m) * n > 0.0;
    assert m > high ==> (m - high) * n > 0.0;
  }

  /** Each resampling draws as many deltas as there are. */
  ghost predicate Resamplings(deltas: seq<real>, draws: seq<seq<nat>>) {
    forall k :: 0 <= k < |draws| ==> |draws[k]| == |deltas| && forall i :: 0 <= i < |draws[k]| ==> draws[k][i] < |deltas|
  }

  function BootstrapMeans(deltas: seq<real>, draws: seq<seq<nat>>): (r: seq<real>)
    requires deltas != [] && Resamplings(deltas, draws)
    ensures |r| == |draws|
  {
    seq(|draws|, k requires 0 <= k < |draws| => Mean(Drawn(deltas, draws[k])))
  }

  /** What the draws pick, added up. */
  function DrawnSum(deltas: seq<real>, picks: seq<nat>): real
    requires forall i :: 0 <= i < |picks| ==> picks[i] < |deltas|
  {
    if picks == [] then 0.0 else DrawnSum(deltas, picks[..|picks| - 1]) + deltas[picks[|picks| - 1]]
  }

  /** Every entry is the mean of what its own draws pick. */
  ghost predicate AreMeansOfDraws(means: seq<real>, deltas: seq<real>, draws: seq<seq<nat>>)
    requires Resamplings(deltas, draws)
  {
    |means| == |draws| && forall k :: 0 <= k < |draws| ==> means[k] * |deltas| as real == DrawnSum(deltas, draws[k])
  }

  lemma {:induction false} SumOfDrawn(deltas: seq<real>, picks: seq<nat>)
    requires forall i :: 0 <= i < |picks| ==> picks[i] < |deltas|
    ensures Sum(Drawn(deltas, picks)) == DrawnSum(deltas, picks)
  {
    if picks != [] {
      SumOfDrawn(deltas, picks[..|picks| - 1]);
      assert Drawn(deltas, picks)[..|picks| - 1] == Drawn(deltas, picks[..|picks| - 1]);
    }
  }

  lemma MeansFollowDraws(deltas: seq<real>, draws: seq<seq<nat>>)
    requires deltas != [] && Resamplings(deltas, draws)
    ensures AreMeansOfDraws(BootstrapMeans(deltas, draws), deltas, draws)
  {
    hide Sum, Drawn, DrawnSum;
    var means := BootstrapMeans(deltas, draws);
    forall k | 0 <= k < |draws| ensures means[k] * |deltas| as real == DrawnSum(deltas, draws[k]) {
      SumOfDrawn(deltas, draws[k]);
      assert means[k] == Mean(Drawn(deltas, draws[k]));
    }
  }

  lemma {:induction false} SumOfOne(deltas: seq<real>, picks: seq<nat>, j: nat)
    requires j < |deltas| && forall i :: 0 <= i < |picks| ==> picks[i] == j
    ensures DrawnSum(deltas, picks) == deltas[j] * |picks| as real
  {
    if picks != [] {
      SumOfOne(deltas, picks[..|picks| - 1], j);
      assert |picks| as real == (|picks| - 1) as real + 1.0;
    }
  }

  /** Where every draw picks the same task, both ends of the interval are its delta. */
  lemma OneTaskDrawn(deltas: seq<real>, draws: seq<seq<nat>>, j: nat)
    requires draws != [] && j < |deltas| && Resamplings(deltas, draws)
    requires forall k, i :: 0 <= k < |draws| && 0 <= i < |draws[k]| ==> draws[k][i] == j
    ensures var means := BootstrapMeans(deltas, draws);
            Quantile(means, 0.025) == Quantile(means, 0.975) == Some(deltas[j])
  {
    hide Quantile, DrawnSum, BootstrapMeans;
    var means, d := BootstrapMeans(deltas, draws), deltas[j];
    MeansFollowDraws(deltas, draws);
    forall k | 0 <= k < |means| ensures means[k] == d {
      SumOfOne(deltas, draws[k], j);
      SameFactor(means[k], d, |deltas| as real);
    }
    forall v | v in means ensures d <= v <= d {
      var k :| 0 <= k < |means| && means[k] == v;
    }
    QuantileInRange(means, 0.025, d, d);
    QuantileInRange(means, 0.975, d, d);
    AQuantile(means, 0.025);
    AQuantile(means, 0.975);
  }

  lemma AQuantile(values: seq<real>, fraction: real)
    requires values != [] && 0.0 <= fraction <= 1.0
    ensures Quantile(values, fraction).Some?
  {
  }

  lemma SameFactor(a: real, b: real, n: real)
    requires n > 0.0 && a * n == b * n
    ensures a == b
  {
  }

  /** The bootstrap interval is ordered and lies within the range of the per-task
      deltas, for every resampling. */
  lemma IntervalIsSound(deltas: seq<real>, draws: seq<seq<nat>>, low: real, high: real)
    requires deltas != [] && draws != [] && Resamplings(deltas, draws)
    requires forall v :: v in deltas ==> low <= v <= high
    ensures var means := BootstrapMeans(deltas, draws);
            low <= Quantile(means, 0.025).value <= Quantile(means, 0.975).value <= high
  {
    hide Quantile, Mean;
    var means := BootstrapMeans(deltas, draws);
    forall v | v in means ensures low <= v <= high {
      var k :| 0 <= k < |means| && means[k] == v;
      MeanInRange(Drawn(deltas, draws[k]), low, high);
    }
    QuantileInRange(means, 0.025, low, high);
    QuantileInRange(means, 0.975, low, high);
    QuantileIsMonotone(means, 0.025, 0.975);
  }

  /** So an interval that lies above zero needs a task that improved. */
  lemma ImprovementNeedsATask(deltas: seq<real>, draws: seq<seq<nat>>)
    requires deltas != [] && draws != [] && Resamplings(deltas, draws)
    requires Quantile(BootstrapMeans(deltas, draws), 0.025).value > 0.0
    ensures exists v :: v in deltas && v > 0.0
  {
    hide Quantile, Mean;
    if forall v :: v in deltas ==> v <= 0.0 {
      var low := Least(deltas);
      IntervalIsSound(deltas, draws, low, 0.0);
    }
  }

  function Least(values: seq<real>): (r: real)
    requires values != []
    ensures forall v :: v in values ==> r <= v
  {
    if |values| == 1 then values[0]
    else
      var front, last := Least(values[..|values| - 1]), values[|values| - 1];
      assert forall v :: v in values ==> v == last || v in values[..|values| - 1];
      if last < front then last else front
  }

  // ----- The common tasks, in order

  /** The order of strings: by their first different character. */
  predicate Before(a: string, b: string) {
    b != "" && (a == "" || a[0] < b[0] || (a[0] == b[0] && Before(a[1..], b[1..])))
  }

  lemma {:induction false} BeforeIsTotal(a: string, b: string)
    ensures a == b || Before(a, b) || Before(b, a)
    ensures Before(a, b) ==> a != b && !Before(b, a)
    decreases |a|
  {
    if a != "" && b != "" {
      BeforeIsTotal(a[1..], b[1..]);
      assert a == [a[0]] + a[1..] && b == [b[0]] + b[1..];
    }
  }

  lemma {:induction false} BeforeIsTransitive(a: string, b: string, c: string)
    requires Before(a, b) && Before(b, c)
    ensures Before(a, c)
  {
    if a != "" && b != "" && c != "" && a[0] == b[0] == c[0] {
      BeforeIsTransitive(a[1..], b[1..], c[1..]);
    }
  }

  ghost predicate Ascending(names: seq<string>) {
    forall i, j :: 0 <= i < j < |names| ==> Before(names[i], names[j])
  }

  /** `name` put in its place, unless it is there. */
  function Placed(names: seq<string>, name: string): seq<string> {
    if names == [] || Before(names[|names| - 1], name) then names + [name]
    else if names[|names| - 1] == name then names
    else Placed(names[..|names| - 1], name) + [names[|names| - 1]]
  }

  lemma {:induction false} PlacedIsAscending(names: seq<string>, name: string)
    requires Ascending(names)
    ensures Ascending(Placed(names, name))
    ensures forall n :: n in Placed(names, name) <==> n in names || n == name
  {
    hide Before;
    if names != [] {
      var front, last := names[..|names| - 1], names[|names| - 1];
      BeforeIsTotal(last, name);
      forall n | n in front ensures Before(n, last) {
        var i :| 0 <= i < |front| && front[i] == n;
      }
      if Before(last, name) {
        forall i | 0 <= i < |names| - 1 ensures Before(names[i], name) {
          BeforeIsTransitive(names[i], last, name);
        }
      } else if last != name {
        PlacedIsAscending(front, name);
        var earlier := Placed(front, name);
        forall i | 0 <= i < |earlier| ensures Before(earlier[i], last) {
          assert earlier[i] in earlier;
        }
      }
    }
  }

  predicate HasTask(rows: seq<Row>, task: string) {
    exists i :: 0 <= i < |rows| && rows[i].task == task
  }

  /** The tasks that occur in both lists of rows, in order. */
  function SharedTasks(control: seq<Row>, candidate: seq<Row>): seq<string> {
    if control == [] then []
    else
      var earlier, task := SharedTasks(control[..|control| - 1], candidate), control[|control| - 1].task;
      if HasTask(candidate, task) then Placed(earlier, task) else earlier
  }

  lemma {:induction false} SharedTasksAreInBoth(control: seq<Row>, candidate: seq<Row>)
    ensures Ascending(SharedTasks(control, candidate))
    ensures forall t :: t in SharedTasks(control, candidate) <==> HasTask(control, t) && HasTask(candidate, t)
  {
    hide Before, Ascending, Placed;
    if control == [] {
      NoTasksAscend();
    } else {
      var front, task := control[..|control| - 1], control[|control| - 1].task;
      SharedTasksAreInBoth(front, candidate);
      PlacedIsAscending(SharedTasks(front, candidate), task);
      forall t ensures HasTask(control, t) <==> HasTask(front, t) || t == task {
        TaskOfLast(control, t);
      }
    }
  }

  lemma NoTasksAscend()
    ensures Ascending([])
  {
  }

  lemma TaskOfLast(rows: seq<Row>, t: string)
    requires rows != []
    ensures HasTask(rows, t) <==> HasTask(rows[..|rows| - 1], t) || t == rows[|rows| - 1].task
  {
    var front := rows[..|rows| - 1];
    if HasTask(front, t) {
      var i :| 0 <= i < |front| && front[i].task == t;
      assert rows[i].task == t;
    }
    if HasTask(rows, t) {
      var i :| 0 <= i < |rows| && rows[i].task == t;
      assert i < |front| ==> front[i].task == t;
    }
  }

  lemma TasksOfIndex(rows: seq<Row>, t: string)
    ensures HasTask(rows, t) <==> OfTask(Indexed(rows), t) != {}
  {
    if HasTask(rows, t) {
      var i :| 0 <= i < |rows| && rows[i].task == t;
      assert CellOf(rows[i]) in OfTask(Indexed(rows), t);
    }
    if OfTask(Indexed(rows), t) != {} {
      var c :| c in OfTask(Indexed(rows), t);
      var i :| 0 <= i < |rows| && CellOf(rows[i]) == c;
      assert rows[i].task == t;
    }
  }

  /** They are exactly the tasks both arms have rows for, each once. */
  lemma SharedTasksAreCommon(control: seq<Row>, candidate: seq<Row>)
    ensures CommonTasks(Indexed(control), Indexed(candidate), SharedTasks(control, candidate))
  {
    hide Indexed, OfTask, HasTask, SharedTasks, Before;
    var tasks := SharedTasks(control, candidate);
    SharedTasksAreInBoth(control, candidate);
    forall i, j | 0 <= i < j < |tasks| ensures tasks[i] != tasks[j] {
      BeforeIsTotal(tasks[i], tasks[j]);
    }
    forall t ensures t in tasks <==> OfTask(Indexed(control), t) != {} && OfTask(Indexed(candidate), t) != {} {
      TasksOfIndex(control, t);
      TasksOfIndex(candidate, t);
    }
  }

  method TasksInBoth(control: seq<Row>, candidate: seq<Row>) returns (tasks: seq<string>)
    ensures tasks == SharedTasks(control, candidate)
    ensures Ascending(tasks) && forall t :: t in tasks <==> HasTask(control, t) && HasTask(candidate, t)
  {
    hide Before, Ascending, Placed, HasTask;
    SharedTasksAreInBoth(control, candidate);
    tasks := [];
    for i := 0 to |control|
      invariant tasks == SharedTasks(control[..i], candidate)
    {
      assert control[..i + 1][..i] == control[..i];
      if HasTask(candidate, control[i].task) {
        tasks := Placed(tasks, control[i].task);
      }
    }
    assert control[..|control|] == control;
  }

  // ----- The comparison

  datatype Comparison = Comparison(
    taskCount: nat, complete: bool, wins: nat, losses: nat, ties: nat, delta: Option<real>,
    interval: Option<(Option<real>, Option<real>)>)

  /** The per-task differences of the arms that two lists of rows make up. */
  function SharedDeltas(control: seq<Row>, candidate: seq<Row>): seq<real> {
    SharedTasksAreCommon(control, candidate);
    Deltas(Indexed(control), Indexed(candidate), SharedTasks(control, candidate))
  }

  /** None: an arm has the same task and repetition twice. `draws` is what the
      seeded source picks. */
  method CompareTrials(control: seq<Row>, candidate: seq<Row>, draws: seq<seq<nat>>) returns (result: Option<Comparison>)
    requires DistinctCells(control) && DistinctCells(candidate) ==>
               (Complete(Indexed(control), Indexed(candidate), SharedTasks(control, candidate)) ==>
                  Resamplings(SharedDeltas(control, candidate), draws))
    ensures result.Some? <==> DistinctCells(control) && DistinctCells(candidate)
    ensures result.Some? ==>
              var left, right, tasks := Indexed(control), Indexed(candidate), SharedTasks(control, candidate);
              var c := result.value;
              && CommonTasks(left, right, tasks)
              && c.taskCount == |tasks|
              && c.wins == |Wins(left, right)| && c.losses == |Losses(left, right)| && c.ties == |Ties(left, right)|
              && (c.complete <==> Complete(left, right, tasks))
              && (c.delta.Some? <==> c.complete)
              && (c.interval.Some? <==> c.complete)
              && (c.complete ==>
                    var deltas := SharedDeltas(control, candidate);
                    && deltas != [] && c.delta == Some(Mean(deltas))
                    && exists means :: AreMeansOfDraws(means, deltas, draws) && c.interval == Some((Quantile(means, 0.025), Quantile(means, 0.975))))
  {
    hide Indexed, Deltas, Wins, Losses, Ties, TaskGraded, OfTask, Quantile, Mean, DistinctCells, SharedTasks, HasTask, Before;
    var first := Index(control);
    if first.None? {
      return None;
    }
    var second := Index(candidate);
    if second.None? {
      return None;
    }
    var left, right := first.value, second.value;
    SharedTasksAreCommon(control, candidate);
    var tasks := TasksInBoth(control, candidate);
    var deltas, complete := TaskDeltas(left, right, tasks);
    var wins, losses, ties := CountPairs(left, right);
    var delta: Option<real>, interval: Option<(Option<real>, Option<real>)> := None, None;
    if complete {
      EveryTaskHasADelta(left, right, tasks);
      delta := Some(Mean(deltas));
      var means := BootstrapMeans(deltas, draws);
      MeansFollowDraws(deltas, draws);
      interval := Some((Quantile(means, 0.025), Quantile(means, 0.975)));
    }
    return Some(Comparison(|tasks|, complete, wins, losses, ties, delta, interval));
  }

  /** The share of the trials of a task that passed, counted out. */
  ghost function Share(arm: Arm, task: string): real {
    var all := set c | c in arm && c.0 == task;
    if all == {} then 0.0 else |set c | c in arm && c.0 == task && arm[c].success == Some(true)| as real / |all| as real
  }

  /** In a complete comparison each task, in order, contributes the candidate's share
      less the control's. */
  lemma {:induction false} DeltaOfTask(left: Arm, right: Arm, tasks: seq<string>, i: nat)
    requires forall t :: t in tasks ==> OfTask(left, t) != {} && OfTask(right, t) != {}
    requires forall t :: t in tasks ==> TaskGraded(left, t) && TaskGraded(right, t)
    requires i < |tasks|
    ensures |Deltas(left, right, tasks)| == |tasks|
    ensures Deltas(left, right, tasks)[i] == Share(right, tasks[i]) - Share(left, tasks[i])
  {
    hide TaskGraded, OfTask, PassedOfTask, Share;
    EveryTaskHasADelta(left, right, tasks);
    EveryTaskHasADelta(left, right, tasks[..|tasks| - 1]);
    if i == |tasks| - 1 {
      RateIsShare(left, tasks[i]);
      RateIsShare(right, tasks[i]);
    } else {
      DeltaOfTask(left, right, tasks[..|tasks| - 1], i);
    }
  }

  lemma RateIsShare(arm: Arm, task: string)
    requires OfTask(arm, task) != {}
    ensures PassRate(arm, task) == Share(arm, task)
  {
    assert PassedOfTask(arm, task) == set c | c in arm && c.0 == task && arm[c].success == Some(true);
  }

  /** A comparison is complete exactly when there is a common task and every row of a
      common task, on either side, is graded. */
  lemma CompleteMeans(control: seq<Row>, candidate: seq<Row>)
    requires DistinctCells(control) && DistinctCells(candidate)
    ensures Complete(Indexed(control), Indexed(candidate), SharedTasks(control, candidate)) <==>
            && (exists t :: HasTask(control, t) && HasTask(candidate, t))
            && (forall row :: row in control + candidate && HasTask(control, row.task) && HasTask(candidate, row.task) ==> row.success.Some?)
  {
    hide SharedTasks, HasTask, Indexed, DistinctCells, TaskGraded, Before, Ascending;
    var tasks := SharedTasks(control, candidate);
    SharedTasksAreInBoth(control, candidate);
    assert tasks != [] <==> exists t :: HasTask(control, t) && HasTask(candidate, t) by {
      if tasks != [] {
        assert tasks[0] in tasks;
      }
    }
    forall t ensures TaskGraded(Indexed(control), t) <==> forall row :: row in control && row.task == t ==> row.success.Some? {
      GradedRows(control, t);
    }
    forall t ensures TaskGraded(Indexed(candidate), t) <==> forall row :: row in candidate && row.task == t ==> row.success.Some? {
      GradedRows(candidate, t);
    }
  }

  lemma GradedRows(rows: seq<Row>, t: string)
    requires DistinctCells(rows)
    ensures TaskGraded(Indexed(rows), t) <==> forall row :: row in rows && row.task == t ==> row.success.Some?
  {
    forall row | row in rows ensures CellOf(row) in Indexed(rows) && Indexed(rows)[CellOf(row)] == row {
      var i :| 0 <= i < |rows| && rows[i] == row;
      var found := Indexed(rows)[CellOf(row)];
      var j :| 0 <= j < |rows| && rows[j] == found;
      assert i == j;
    }
  }

  lemma {:induction false} EveryTaskHasADelta(left: Arm, right: Arm, tasks: seq<string>)
    requires forall t :: t in tasks ==> OfTask(left, t) != {} && OfTask(right, t) != {}
    requires forall t :: t in tasks ==> TaskGraded(left, t) && TaskGraded(right, t)
    ensures |Deltas(left, right, tasks)| == |tasks|
  {
    hide OfTask, TaskGraded, PassRate;
    if tasks != [] {
      EveryTaskHasADelta(left, right, tasks[..|tasks| - 1]);
    }
  }
}
