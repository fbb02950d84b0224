/** Central admission of trials against a capacity of several resources.

    Trials are dispatched first in, first out. A trial's reservation comes back
    only when its cleanup is proven complete. A trial is named by its position in
    the input; which workers finish when, and what they report, is input. */
module TrialPool {
  import opened Transcript
  import opened Numerals

  datatype Trial = Trial(id: string, resources: map<string, nat>)

  datatype TrialResult = TrialResult(started: bool, cleanupComplete: bool, cleanupIncomplete: bool, cancelled: bool, errorCode: string)

  /** What a finished worker hands back. An interrupt is an exception that is not
      an ordinary error and ends the run. */
  datatype Report = Returned(result: TrialResult) | Raised(errorCode: string) | Interrupted

  datatype Completion = Completion(trial: nat, report: Report, callbackRaises: bool)

  /** One pass of the outer loop: after how many polls the cancel event is set, if
      it is, which workers the wait finds done, in the order they are taken, and
      whether an interrupt breaks the pass off after those, or in the wait itself
      when there are none. */
  datatype PoolRound = PoolRound(cancelAfter: Option<nat>, done: seq<Completion>, interrupted: bool)

  datatype Setup = Setup(trials: seq<Trial>, capacity: map<string, nat>, jobs: int, cancelOnInterrupt: bool)

  datatype PoolState = PoolState(
    available: map<string, int>,
    dispatched: nat,
    active: seq<nat>,
    leaked: seq<nat>,
    results: map<string, TrialResult>,
    cancelled: bool,
    peak: nat,
    sizes: seq<nat>)

  datatype PoolOutcome = Finished(pool: PoolState) | RaisedOut(pool: PoolState) | StillWaiting(pool: PoolState)

  // ----- What a caller provides

  ghost predicate DistinctIds(trials: seq<Trial>) {
    forall i, j :: 0 <= i < j < |trials| ==> trials[i].id != trials[j].id
  }

  /** Every trial names an amount of every resource, and IDs are distinct. */
  ghost predicate WellPosed(setup: Setup) {
    && DistinctIds(setup.trials)
    && forall i, key :: 0 <= i < |setup.trials| && key in setup.capacity ==> key in setup.trials[i].resources
  }

  predicate Needs(trial: Trial, key: string, limit: int) {
    key in trial.resources && trial.resources[key] > limit
  }

  /** There is a job to run trials in, and no trial needs more than the whole
      capacity; otherwise the run is refused. */
  predicate Admissible(setup: Setup) {
    setup.jobs >= 1 &&
    forall i :: 0 <= i < |setup.trials| ==> forall key :: key in setup.capacity ==> !Needs(setup.trials[i], key, setup.capacity[key])
  }

  // ----- Steps

  function Start(setup: Setup, cancelled: bool): PoolState {
    PoolState(map key | key in setup.capacity :: setup.capacity[key] as int, 0, [], [], map[], cancelled, 0, [])
  }

  function Need(trial: Trial, key: string): nat {
    if key in trial.resources then trial.resources[key] else 0
  }

  function Taken(available: map<string, int>, trial: Trial): map<string, int> {
    map key | key in available :: available[key] - Need(trial, key)
  }

  function Restored(available: map<string, int>, trial: Trial): map<string, int> {
    map key | key in available :: available[key] + Need(trial, key)
  }

  predicate Fits(trial: Trial, available: map<string, int>) {
    forall key :: key in available ==> !Needs(trial, key, available[key])
  }

  predicate CanAdmit(setup: Setup, p: PoolState) {
    p.dispatched < |setup.trials| && !p.cancelled && |p.active| < setup.jobs && Fits(setup.trials[p.dispatched], p.available)
  }

  function AdmitHead(setup: Setup, p: PoolState): PoolState
    requires p.dispatched < |setup.trials|
  {
    var active := p.active + [p.dispatched];
    p.(available := Taken(p.available, setup.trials[p.dispatched]),
       dispatched := p.dispatched + 1,
       active := active,
       peak := Max(p.peak, |active|),
       sizes := p.sizes + [|active|])
  }

  /** The inner loop. The cancel event is polled before each admission. */
  function AdmitAll(setup: Setup, p: PoolState, cancelAfter: Option<nat>): PoolState
    decreases |setup.trials| - p.dispatched
  {
    var polled := if cancelAfter == Some(0) then p.(cancelled := true) else p;
    if CanAdmit(setup, polled) then
      AdmitAll(setup, AdmitHead(setup, polled), Polled(cancelAfter))
    else polled
  }

  function Without(s: seq<nat>, x: nat): seq<nat> {
    if s == [] then [] else if s[0] == x then s[1..] else [s[0]] + Without(s[1..], x)
  }

  /** The result kept for a trial that finished: its own, with a mark unless its
      cleanup is proven complete. A worker that raised has proven nothing. */
  function Kept(report: Report): (r: TrialResult)
    ensures r.cleanupIncomplete <==> !r.cleanupComplete
    ensures report.Returned? ==> r == report.result.(cleanupIncomplete := r.cleanupIncomplete)
    ensures report.Raised? ==> r.cleanupIncomplete && !r.started && r.errorCode == report.errorCode
  {
    match report
    case Returned(result) => result.(cleanupIncomplete := !result.cleanupComplete)
    case Raised(code) => TrialResult(false, false, true, false, code)
    case Interrupted => TrialResult(false, false, true, false, "")
  }

  /** Take one finished worker; the second component says the run was broken off. */
  function Collect(setup: Setup, p: PoolState, c: Completion): (PoolState, bool)
    requires c.trial < |setup.trials|
  {
    var trial := setup.trials[c.trial];
    var active := Without(p.active, c.trial);
    var popped := p.(active := active, sizes := p.sizes + [|active|]);
    if c.report.Interrupted? then (popped.(leaked := p.leaked + [c.trial]), true)
    else
      var result := Kept(c.report);
      var kept := popped.(results := p.results[trial.id := result]);
      (if result.cleanupComplete then kept.(available := Restored(p.available, trial)) else kept.(leaked := p.leaked + [c.trial]),
       c.callbackRaises)
  }

  predicate Collectable(setup: Setup, p: PoolState, done: seq<Completion>) {
    && (forall i :: 0 <= i < |done| ==> done[i].trial in p.active && done[i].trial < |setup.trials|)
    && (forall i, j :: 0 <= i < j < |done| ==> done[i].trial != done[j].trial)
  }

  function CollectAll(setup: Setup, p: PoolState, done: seq<Completion>): (PoolState, bool)
    decreases |done|
  {
    if done == [] || done[0].trial >= |setup.trials| then (p, false)
    else match Collect(setup, p, done[0])
      case (q, true) => (q, true)
      case (q, false) => CollectAll(setup, q, done[1..])
  }

  /** The outer loop, followed for the given passes. */
  function Run(setup: Setup, p: PoolState, rounds: seq<PoolRound>): PoolOutcome
    decreases |rounds|
  {
    if p.dispatched >= |setup.trials| && p.active == [] then Finished(p)
    else if rounds == [] then StillWaiting(p)
    else
      var admitted := AdmitAll(setup, p, rounds[0].cancelAfter);
      if admitted.active == [] then Finished(admitted)
      else
        var (q, raised) := CollectAll(setup, admitted, rounds[0].done);
        if raised || rounds[0].interrupted then RaisedOut(q.(cancelled := q.cancelled || setup.cancelOnInterrupt))
        else Run(setup, q, rounds[1..])
  }

  const DISPATCH_STOPPED := "dispatch_stopped"

  function NeverDispatched(cancelled: bool): TrialResult {
    TrialResult(false, true, false, cancelled, DISPATCH_STOPPED)
  }

  /** Account for the trials from `from` on, which were never dispatched. */
  function Account(setup: Setup, results: map<string, TrialResult>, from: nat, cancelled: bool): map<string, TrialResult>
    decreases |setup.trials| - from
  {
    if from >= |setup.trials| then results
    else Account(setup, results[setup.trials[from].id := NeverDispatched(cancelled)], from + 1, cancelled)
  }

  /** The waits of a run only ever find active workers, each once. */
  ghost predicate HonestWaits(setup: Setup, p: PoolState, rounds: seq<PoolRound>)
    decreases |rounds|
  {
    rounds == [] ||
    (var admitted := AdmitAll(setup, p, rounds[0].cancelAfter);
     Collectable(setup, admitted, rounds[0].done) &&
     HonestWaits(setup, CollectAll(setup, admitted, rounds[0].done).0, rounds[1..]))
  }

  // ----- Conservation

  function Reserved(setup: Setup, who: seq<nat>, key: string): nat {
    if who == [] then 0
    else (if who[0] < |setup.trials| then Need(setup.trials[who[0]], key) else 0) + Reserved(setup, who[1..], key)
  }

  /** For every resource: what is available, what active trials hold and what was
      never proven free again add up to the capacity; nothing is overdrawn, no more
      than `jobs` trials are active, and the recorded peak is the largest number
      ever active. */
  ghost predicate Conserved(setup: Setup, p: PoolState) {
    && p.available.Keys == setup.capacity.Keys
    && (forall key :: key in setup.capacity ==>
          && p.available[key] >= 0
          && p.available[key] + Reserved(setup, p.active, key) + Reserved(setup, p.leaked, key) == setup.capacity[key])
    && |p.active| <= Max(setup.jobs, 0)
    && (p.sizes != [] ==> p.sizes[|p.sizes| - 1] == |p.active|)
    && (p.sizes == [] ==> p.active == [])
    && PeakOf(p.sizes, p.peak)
  }

  ghost predicate PeakOf(sizes: seq<nat>, peak: nat) {
    && (forall i :: 0 <= i < |sizes| ==> sizes[i] <= peak)
    && (sizes == [] ==> peak == 0)
    && (sizes != [] ==> peak in sizes)
  }

  lemma {:induction false} ReservedConcat(setup: Setup, a: seq<nat>, b: seq<nat>, key: string)
    ensures Reserved(setup, a + b, key) == Reserved(setup, a, key) + Reserved(setup, b, key)
  {
    if a == [] {
      assert a + b == b;
    } else {
      ReservedConcat(setup, a[1..], b, key);
      assert (a + b)[1..] == a[1..] + b;
    }
  }

  lemma {:induction false} WithoutOne(setup: Setup, s: seq<nat>, x: nat, key: string)
    requires x in s
    ensures |Without(s, x)| == |s| - 1
    ensures Reserved(setup, s, key) == Reserved(setup, Without(s, x), key) + (if x < |setup.trials| then Need(setup.trials[x], key) else 0)
  {
    if s[0] != x {
      WithoutOne(setup, s[1..], x, key);
      assert ([s[0]] + Without(s[1..], x))[1..] == Without(s[1..], x);
    }
  }

  lemma PeakGrows(sizes: seq<nat>, peak: nat, n: nat)
    requires PeakOf(sizes, peak)
    ensures PeakOf(sizes + [n], Max(peak, n))
  {
    var more := sizes + [n];
    assert more[|sizes|] == n;
    if sizes != [] {
      var i :| 0 <= i < |sizes| && sizes[i] == peak;
      assert more[i] == peak;
    }
  }

  /** A pool may shrink without a new peak, as long as something was active before. */
  lemma PeakStays(sizes: seq<nat>, peak: nat, n: nat)
    requires PeakOf(sizes, peak) && sizes != [] && n <= sizes[|sizes| - 1]
    ensures PeakOf(sizes + [n], peak)
  {
    PeakGrows(sizes, peak, n);
  }

  lemma AdmitConserves(setup: Setup, p: PoolState)
    requires Conserved(setup, p) && CanAdmit(setup, p)
    ensures Conserved(setup, AdmitHead(setup, p))
  {
    hide PeakOf;
    var i := p.dispatched;
    forall key | key in setup.capacity
      ensures Reserved(setup, p.active + [i], key) == Reserved(setup, p.active, key) + Need(setup.trials[i], key)
    {
      ReservedConcat(setup, p.active, [i], key);
      assert [i][1..] == [];
    }
    PeakGrows(p.sizes, p.peak, |p.active| + 1);
  }

  lemma CollectConserves(setup: Setup, p: PoolState, c: Completion)
    requires Conserved(setup, p) && c.trial in p.active && c.trial < |setup.trials|
    ensures Conserved(setup, Collect(setup, p, c).0)
  {
    hide PeakOf;
    forall key | key in setup.capacity
      ensures Reserved(setup, p.active, key) == Reserved(setup, Without(p.active, c.trial), key) + Need(setup.trials[c.trial], key)
      ensures Reserved(setup, p.leaked + [c.trial], key) == Reserved(setup, p.leaked, key) + Need(setup.trials[c.trial], key)
    {
      WithoutOne(setup, p.active, c.trial, key);
      ReservedConcat(setup, p.leaked, [c.trial], key);
      assert [c.trial][1..] == [];
    }
    WithoutOne(setup, p.active, c.trial, "");
    PeakStays(p.sizes, p.peak, |Without(p.active, c.trial)|);
  }

  // ----- Every trial once

  ghost predicate Distinct(s: seq<nat>) {
    forall i, j :: 0 <= i < j < |s| ==> s[i] != s[j]
  }

  /** Active trials are distinct and dispatched; results are kept for exactly the
      dispatched trials that are no longer active. */
  ghost predicate Accounted(setup: Setup, p: PoolState) {
    && p.dispatched <= |setup.trials|
    && Distinct(p.active)
    && (forall i :: i in p.active ==> i < p.dispatched)
    && (forall i :: 0 <= i < |setup.trials| ==> (setup.trials[i].id in p.results <==> i < p.dispatched && i !in p.active))
    && (forall id :: id in p.results ==> exists i :: 0 <= i < |setup.trials| && setup.trials[i].id == id)
    && (forall i :: i in p.leaked ==> i < p.dispatched && i !in p.active && p.results[setup.trials[i].id].cleanupIncomplete)
  }

  lemma {:induction false} WithoutMembers(s: seq<nat>, x: nat)
    requires Distinct(s) && x in s
    ensures Distinct(Without(s, x))
    ensures forall y :: y in Without(s, x) <==> y in s && y != x
  {
    if s[0] == x {
    } else {
      assert Distinct(s[1..]) by {
        forall i, j | 0 <= i < j < |s[1..]| ensures s[1..][i] != s[1..][j] {
          assert s[i + 1] != s[j + 1];
        }
      }
      WithoutMembers(s[1..], x);
      assert forall y :: y in s <==> y == s[0] || y in s[1..];
      assert s[0] !in s[1..];
    }
  }

  lemma AdmitAccounts(setup: Setup, p: PoolState)
    requires Accounted(setup, p) && CanAdmit(setup, p)
    ensures Accounted(setup, AdmitHead(setup, p))
  {
    assert p.dispatched !in p.active;
    forall i, j | 0 <= i < j < |p.active| + 1 ensures (p.active + [p.dispatched])[i] != (p.active + [p.dispatched])[j] {
      assert p.active[i] in p.active;
    }
  }

  lemma CollectFields(setup: Setup, p: PoolState, c: Completion)
    requires c.trial < |setup.trials| && !c.report.Interrupted?
    ensures var q, result := Collect(setup, p, c).0, Kept(c.report);
            && q.dispatched == p.dispatched
            && q.active == Without(p.active, c.trial)
            && q.results == p.results[setup.trials[c.trial].id := result]
            && q.leaked == (if result.cleanupIncomplete then p.leaked + [c.trial] else p.leaked)
  {
    hide Restored;
  }

  lemma CollectAccounts(setup: Setup, p: PoolState, c: Completion)
    requires DistinctIds(setup.trials)
    requires Accounted(setup, p) && c.trial in p.active && !c.report.Interrupted?
    ensures c.trial < |setup.trials| && Accounted(setup, Collect(setup, p, c).0)
    ensures Collect(setup, p, c).0.results[setup.trials[c.trial].id] == Kept(c.report)
    ensures forall id :: id in p.results ==> id in Collect(setup, p, c).0.results && Collect(setup, p, c).0.results[id] == p.results[id]
  {
    hide Distinct, Collect, Kept, Without;
    WithoutMembers(p.active, c.trial);
    CollectFields(setup, p, c);
    assert forall i :: 0 <= i < |setup.trials| && i != c.trial ==> setup.trials[i].id != setup.trials[c.trial].id;
  }

  // ----- Every reachable state

  lemma {:induction false} AdmitAllKeeps(setup: Setup, p: PoolState, cancelAfter: Option<nat>)
    requires Conserved(setup, p) && Accounted(setup, p)
    ensures var q := AdmitAll(setup, p, cancelAfter);
            && Conserved(setup, q) && Accounted(setup, q)
            && !CanAdmit(setup, q) && p.dispatched <= q.dispatched && q.results == p.results && q.leaked == p.leaked
    decreases |setup.trials| - p.dispatched
  {
    hide Fits, Distinct, PeakOf;
    var polled := if cancelAfter == Some(0) then p.(cancelled := true) else p;
    assert Conserved(setup, polled) && Accounted(setup, polled);
    if CanAdmit(setup, polled) {
      AdmitConserves(setup, polled);
      AdmitAccounts(setup, polled);
      AdmitAllKeeps(setup, AdmitHead(setup, polled), Polled(cancelAfter));
    }
  }

  // ----- A trial that could start does start

  /** The trials from `from` up to `to`, in order. */
  function Range(from: nat, to: nat): seq<nat>
    requires from <= to
  {
    seq(to - from, i requires 0 <= i < to - from => from + i)
  }

  /** More of some resource is needed than there is left. */
  predicate LacksSomething(trial: Trial, available: map<string, int>) {
    exists key :: key in available && key in trial.resources && trial.resources[key] > available[key]
  }

  /** Admission takes trials from the head of the queue, one after the other, and
      stops only where it must: nothing is left, the run is cancelled, all jobs are
      busy, or the next trial needs more of something than there is. */
  lemma {:induction false} AdmitsWhileItCan(setup: Setup, p: PoolState, cancelAfter: Option<nat>)
    ensures var q := AdmitAll(setup, p, cancelAfter);
            && p.dispatched <= q.dispatched
            && q.active == p.active + Range(p.dispatched, q.dispatched)
            && (q.dispatched >= |setup.trials| || q.cancelled || |q.active| >= setup.jobs || LacksSomething(setup.trials[q.dispatched], q.available))
            && (q.cancelled <==> p.cancelled || cancelAfter == Some(q.dispatched - p.dispatched))
    decreases |setup.trials| - p.dispatched
  {
    hide Taken;
    var polled := if cancelAfter == Some(0) then p.(cancelled := true) else p;
    assert Range(p.dispatched, p.dispatched) == [];
    if CanAdmit(setup, polled) {
      var next := AdmitHead(setup, polled);
      AdmitsWhileItCan(setup, next, Polled(cancelAfter));
      var q := AdmitAll(setup, next, Polled(cancelAfter));
      assert Range(p.dispatched, q.dispatched) == [p.dispatched] + Range(next.dispatched, q.dispatched);
    }
  }

  /** Each trial that is admitted fits what is available then, under a free job. */
  lemma AdmittedTrialFits(setup: Setup, p: PoolState)
    requires CanAdmit(setup, p)
    ensures p.dispatched < |setup.trials| && !p.cancelled && |p.active| < setup.jobs
    ensures !LacksSomething(setup.trials[p.dispatched], p.available)
  {
  }

  lemma {:induction false} CollectAllKeeps(setup: Setup, p: PoolState, done: seq<Completion>)
    requires DistinctIds(setup.trials)
    requires Conserved(setup, p) && Accounted(setup, p) && Collectable(setup, p, done)
    ensures var (q, raised) := CollectAll(setup, p, done);
            && Conserved(setup, q) && (!raised ==> Accounted(setup, q))
            && q.dispatched == p.dispatched
            && (forall id :: id in p.results ==> id in q.results && q.results[id] == p.results[id])
    decreases |done|
  {
    hide Conserved;
    if done != [] {
      var c := done[0];
      CollectConserves(setup, p, c);
      if !c.report.Interrupted? {
        CollectAccounts(setup, p, c);
        var (q, raised) := Collect(setup, p, c);
        if !raised {
          WithoutMembers(p.active, c.trial);
          CollectAllKeeps(setup, q, done[1..]);
        }
      }
    }
  }

  lemma StartIsSound(setup: Setup, cancelled: bool)
    ensures Conserved(setup, Start(setup, cancelled)) && Accounted(setup, Start(setup, cancelled))
  {
  }

  /** Whatever workers do, at every point a run can be looked at, broken off or
      not, no resource is lost or overdrawn; unless it was broken off, every
      dispatched trial is either active or has its one result. */
  lemma {:induction false} RunKeeps(setup: Setup, p: PoolState, rounds: seq<PoolRound>)
    requires DistinctIds(setup.trials)
    requires Conserved(setup, p) && Accounted(setup, p) && HonestWaits(setup, p, rounds)
    ensures var outcome := Run(setup, p, rounds);
            && Conserved(setup, outcome.pool)
            && (!outcome.RaisedOut? ==> Accounted(setup, outcome.pool))
    decreases |rounds|
  {
    hide Conserved, Accounted, AdmitAll, CollectAll, Collectable;
    if !(p.dispatched >= |setup.trials| && p.active == []) && rounds != [] {
      AdmitAllKeeps(setup, p, rounds[0].cancelAfter);
      var admitted := AdmitAll(setup, p, rounds[0].cancelAfter);
      if admitted.active != [] {
        CollectAllKeeps(setup, admitted, rounds[0].done);
        var (q, raised) := CollectAll(setup, admitted, rounds[0].done);
        if raised || rounds[0].interrupted {
          CancelKeeps(setup, q);
        } else {
          RunKeeps(setup, q, rounds[1..]);
        }
      }
    }
  }

  lemma CancelKeeps(setup: Setup, p: PoolState)
    requires Conserved(setup, p)
    ensures Conserved(setup, p.(cancelled := true))
  {
  }

  // ----- How a run is broken off

  predicate Breaks(c: Completion) {
    c.report == Interrupted || c.callbackRaises
  }

  /** Collecting breaks off exactly at the first worker that was interrupted or whose
      callback raised; the ones behind it are not looked at. */
  lemma {:induction false} CollectingBreaksOff(setup: Setup, p: PoolState, done: seq<Completion>) returns (k: nat)
    requires forall i :: 0 <= i < |done| ==> done[i].trial < |setup.trials|
    ensures k <= |done| && forall i :: 0 <= i < k ==> !Breaks(done[i])
    ensures k < |done| ==> Breaks(done[k]) && CollectAll(setup, p, done) == CollectAll(setup, p, done[..k + 1])
    ensures CollectAll(setup, p, done).1 <==> k < |done|
    decreases |done|
  {
    hide Restored, Without, Kept;
    k := 0;
    if done != [] && !Breaks(done[0]) {
      var q := Collect(setup, p, done[0]).0;
      k := CollectingBreaksOff(setup, q, done[1..]);
      k := k + 1;
      if k < |done| {
        assert done[..k + 1][1..] == done[1..][..k];
      }
    } else if done != [] {
      assert done[..1] == [done[0]];
    }
  }

  /** A run that is broken off cancels the others, if it is told to. */
  lemma {:induction false} BreakingOffCancels(setup: Setup, p: PoolState, rounds: seq<PoolRound>)
    requires Run(setup, p, rounds).RaisedOut? && setup.cancelOnInterrupt
    ensures Run(setup, p, rounds).pool.cancelled
    decreases |rounds|
  {
    hide AdmitAll, CollectAll;
    if !(p.dispatched >= |setup.trials| && p.active == []) && rounds != [] {
      var admitted := AdmitAll(setup, p, rounds[0].cancelAfter);
      var (q, raised) := CollectAll(setup, admitted, rounds[0].done);
      if admitted.active != [] && !raised && !rounds[0].interrupted {
        BreakingOffCancels(setup, q, rounds[1..]);
      }
    }
  }

  // ----- Every run ends

  /** While somebody is active, each pass finds at least one worker done, and nothing
      breaks it off. */
  ghost predicate EveryPassCollects(setup: Setup, p: PoolState, rounds: seq<PoolRound>)
    decreases |rounds|
  {
    rounds == [] ||
    (var admitted := AdmitAll(setup, p, rounds[0].cancelAfter);
     admitted.active == [] ||
     (var done := rounds[0].done;
      && Collectable(setup, admitted, done) && done != [] && !rounds[0].interrupted
      && (forall i :: 0 <= i < |done| ==> !Breaks(done[i]))
      && EveryPassCollects(setup, CollectAll(setup, admitted, done).0, rounds[1..])))
  }

  /** Trials that have not been collected yet. */
  function Outstanding(setup: Setup, p: PoolState): int {
    |setup.trials| - p.dispatched + |p.active|
  }

  lemma {:induction false} CollectingFinishes(setup: Setup, p: PoolState, done: seq<Completion>)
    requires Distinct(p.active) && Collectable(setup, p, done) && forall i :: 0 <= i < |done| ==> !Breaks(done[i])
    ensures var (q, raised) := CollectAll(setup, p, done);
            !raised && Distinct(q.active) && Outstanding(setup, q) == Outstanding(setup, p) - |done|
    decreases |done|
  {
    hide Restored, Kept, Without;
    if done != [] {
      WithoutMembers(p.active, done[0].trial);
      WithoutOne(setup, p.active, done[0].trial, "");
      CollectingFinishes(setup, Collect(setup, p, done[0]).0, done[1..]);
    }
  }

  /** A run cannot go on for ever: with one pass per unfinished trial it finishes. */
  lemma {:induction false} RunFinishes(setup: Setup, p: PoolState, rounds: seq<PoolRound>)
    requires Conserved(setup, p) && Accounted(setup, p)
    requires DistinctIds(setup.trials) && EveryPassCollects(setup, p, rounds)
    requires |rounds| >= Outstanding(setup, p)
    ensures Run(setup, p, rounds).Finished?
    decreases |rounds|
  {
    hide AdmitAll, CollectAll, Collectable, Conserved, Breaks;
    if !(p.dispatched >= |setup.trials| && p.active == []) {
      assert rounds != [];
      var admitted := AdmitAll(setup, p, rounds[0].cancelAfter);
      AdmitAllKeeps(setup, p, rounds[0].cancelAfter);
      AdmitsWhileItCan(setup, p, rounds[0].cancelAfter);
      if admitted.active != [] {
        CollectingFinishes(setup, admitted, rounds[0].done);
        CollectAllKeeps(setup, admitted, rounds[0].done);
        RunFinishes(setup, CollectAll(setup, admitted, rounds[0].done).0, rounds[1..]);
      }
    }
  }

  // ----- Results are reports

  /** Some worker in this wait reported exactly this for the trial with this ID. */
  ghost predicate ReportedIn(setup: Setup, done: seq<Completion>, id: string, result: TrialResult) {
    exists k :: 0 <= k < |done| && done[k].trial < |setup.trials| && setup.trials[done[k].trial].id == id && Kept(done[k].report) == result
  }

  /** The result was there before, or is the report of one of these waits. */
  ghost predicate IsReport(setup: Setup, p: PoolState, rounds: seq<PoolRound>, id: string, result: TrialResult) {
    || (id in p.results && p.results[id] == result)
    || exists r :: 0 <= r < |rounds| && ReportedIn(setup, rounds[r].done, id, result)
  }

  lemma {:induction false} AdmittingReportsNothing(setup: Setup, p: PoolState, cancelAfter: Option<nat>)
    ensures AdmitAll(setup, p, cancelAfter).results == p.results
    decreases |setup.trials| - p.dispatched
  {
    hide Fits, Taken;
    var polled := if cancelAfter == Some(0) then p.(cancelled := true) else p;
    if CanAdmit(setup, polled) {
      AdmittingReportsNothing(setup, AdmitHead(setup, polled), Polled(cancelAfter));
    }
  }

  lemma {:induction false} CollectingReports(setup: Setup, p: PoolState, done: seq<Completion>, id: string)
    ensures var q := CollectAll(setup, p, done).0;
            id in q.results ==> (id in p.results && p.results[id] == q.results[id]) || ReportedIn(setup, done, id, q.results[id])
    decreases |done|
  {
    hide Restored, Without, Kept;
    if done != [] && done[0].trial < |setup.trials| {
      var (t, raised) := Collect(setup, p, done[0]);
      var q := CollectAll(setup, p, done).0;
      if id in t.results && (id !in p.results || t.results[id] != p.results[id]) {
        assert ReportedIn(setup, done, id, t.results[id]);
      }
      if !raised {
        CollectingReports(setup, t, done[1..], id);
        if id in q.results && ReportedIn(setup, done[1..], id, q.results[id]) {
          var k :| 0 <= k < |done[1..]| && done[1..][k].trial < |setup.trials| && setup.trials[done[1..][k].trial].id == id
                   && Kept(done[1..][k].report) == q.results[id];
          assert done[k + 1] == done[1..][k];
        }
      }
    }
  }

  /** Every result of a run is what a worker of that trial reported in one of the
      waits: none is made up and none is given to another trial. */
  lemma {:induction false} ResultsAreReports(setup: Setup, p: PoolState, rounds: seq<PoolRound>, id: string)
    requires id in Run(setup, p, rounds).pool.results
    ensures IsReport(setup, p, rounds, id, Run(setup, p, rounds).pool.results[id])
    decreases |rounds|
  {
    hide AdmitAll, CollectAll, ReportedIn;
    if !(p.dispatched >= |setup.trials| && p.active == []) && rounds != [] {
      var admitted := AdmitAll(setup, p, rounds[0].cancelAfter);
      AdmittingReportsNothing(setup, p, rounds[0].cancelAfter);
      CollectingReports(setup, admitted, rounds[0].done, id);
      var (q, raised) := CollectAll(setup, admitted, rounds[0].done);
      if admitted.active != [] && !raised && !rounds[0].interrupted {
        ResultsAreReports(setup, q, rounds[1..], id);
        var result := Run(setup, q, rounds[1..]).pool.results[id];
        if exists r :: 0 <= r < |rounds[1..]| && ReportedIn(setup, rounds[1..][r].done, id, result) {
          var r :| 0 <= r < |rounds[1..]| && ReportedIn(setup, rounds[1..][r].done, id, result);
          assert rounds[r + 1] == rounds[1..][r];
        }
      }
    }
  }

  // ----- Completeness

  /** The reservations of leaked trials leave too little for the next trial. */
  ghost predicate Starved(setup: Setup, p: PoolState)
    requires p.dispatched < |setup.trials|
  {
    exists key :: key in setup.capacity && Needs(setup.trials[p.dispatched], key, setup.capacity[key] - Reserved(setup, p.leaked, key))
  }

  /** A run ends with trials pending only if it was cancelled, was given no jobs, or
      the next trial exceeds the capacity less what leaked. */
  lemma {:induction false} WhyItStopped(setup: Setup, p: PoolState, rounds: seq<PoolRound>)
    requires DistinctIds(setup.trials)
    requires Conserved(setup, p) && Accounted(setup, p) && HonestWaits(setup, p, rounds)
    requires Run(setup, p, rounds).Finished?
    ensures var q := Run(setup, p, rounds).pool;
            && q.active == []
            && (q.dispatched < |setup.trials| ==> q.cancelled || setup.jobs < 1 || Starved(setup, q))
    decreases |rounds|
  {
    hide Conserved, Accounted, AdmitAll, CollectAll, Collectable;
    if !(p.dispatched >= |setup.trials| && p.active == []) {
      AdmitAllKeeps(setup, p, rounds[0].cancelAfter);
      var admitted := AdmitAll(setup, p, rounds[0].cancelAfter);
      if admitted.active == [] {
        NobodyLeftToWaitFor(setup, admitted);
      } else {
        CollectAllKeeps(setup, admitted, rounds[0].done);
        WhyItStopped(setup, CollectAll(setup, admitted, rounds[0].done).0, rounds[1..]);
      }
    }
  }

  lemma NobodyLeftToWaitFor(setup: Setup, p: PoolState)
    requires Conserved(setup, p) && p.active == [] && !CanAdmit(setup, p)
    ensures p.dispatched < |setup.trials| ==> p.cancelled || setup.jobs < 1 || Starved(setup, p)
  {
    if p.dispatched < |setup.trials| && !p.cancelled && setup.jobs >= 1 {
      var key :| key in p.available && Needs(setup.trials[p.dispatched], key, p.available[key]);
      assert p.available[key] == setup.capacity[key] - Reserved(setup, p.leaked, key);
    }
  }

  /** What was never proven free again shows in the results. */
  lemma LeakShows(setup: Setup, p: PoolState)
    requires Accounted(setup, p) && p.leaked != []
    ensures exists id :: id in p.results && p.results[id].cleanupIncomplete
  {
    hide Distinct;
    var i := p.leaked[0];
    assert i in p.leaked && setup.trials[i].id in p.results;
  }

  lemma DispatchedInInput(setup: Setup, p: PoolState)
    requires Accounted(setup, p)
    ensures p.dispatched <= |setup.trials|
  {
  }

  /** When every worker proved its cleanup, there is at least one job and nobody
      cancelled, every trial of an accepted input is dispatched. */
  lemma EverythingRuns(setup: Setup, cancelled: bool, rounds: seq<PoolRound>)
    requires WellPosed(setup) && Admissible(setup)
    requires HonestWaits(setup, Start(setup, cancelled), rounds)
    requires Run(setup, Start(setup, cancelled), rounds).Finished?
    ensures var q := Run(setup, Start(setup, cancelled), rounds).pool;
            !q.cancelled && (forall id :: id in q.results ==> !q.results[id].cleanupIncomplete) ==> q.dispatched == |setup.trials|
  {
    hide Run, HonestWaits, Conserved, Accounted;
    StartIsSound(setup, cancelled);
    RunKeeps(setup, Start(setup, cancelled), rounds);
    WhyItStopped(setup, Start(setup, cancelled), rounds);
    var q := Run(setup, Start(setup, cancelled), rounds).pool;
    assert q.dispatched <= |setup.trials| by {
      DispatchedInInput(setup, q);
    }
    if q.leaked != [] {
      LeakShows(setup, q);
    }
  }

  lemma {:induction false} CollectingDispatchesNothing(setup: Setup, p: PoolState, done: seq<Completion>)
    ensures var q := CollectAll(setup, p, done).0; q.dispatched == p.dispatched && q.cancelled == p.cancelled
    decreases |done|
  {
    hide Restored, Without, Kept;
    if done != [] && done[0].trial < |setup.trials| {
      CollectingDispatchesNothing(setup, Collect(setup, p, done[0]).0, done[1..]);
    }
  }

  /** Once the cancel event is set no further trial is dispatched; what is active is
      only waited for. */
  lemma {:induction false} CancelStopsDispatch(setup: Setup, p: PoolState, rounds: seq<PoolRound>)
    requires p.cancelled
    ensures Run(setup, p, rounds).pool.dispatched == p.dispatched
    decreases |rounds|
  {
    hide CollectAll, Fits;
    if rounds != [] {
      assert AdmitAll(setup, p, rounds[0].cancelAfter) == p;
      CollectingDispatchesNothing(setup, p, rounds[0].done);
      CancelStopsDispatch(setup, CollectAll(setup, p, rounds[0].done).0, rounds[1..]);
    }
  }

  lemma {:induction false} AccountIsExact(setup: Setup, results: map<string, TrialResult>, from: nat, cancelled: bool)
    requires DistinctIds(setup.trials) && from <= |setup.trials|
    ensures var r := Account(setup, results, from, cancelled);
            && r.Keys == results.Keys + (set i | from <= i < |setup.trials| :: setup.trials[i].id)
            && (forall i :: from <= i < |setup.trials| ==> r[setup.trials[i].id] == NeverDispatched(cancelled))
            && (forall id :: id in results && (forall i :: from <= i < |setup.trials| ==> setup.trials[i].id != id) ==> r[id] == results[id])
    decreases |setup.trials| - from
  {
    if from < |setup.trials| {
      AccountIsExact(setup, results[setup.trials[from].id := NeverDispatched(cancelled)], from + 1, cancelled);
    }
  }

  function IdsOf(trials: seq<Trial>): set<string> {
    set i | 0 <= i < |trials| :: trials[i].id
  }

  lemma {:induction false} IdsCount(trials: seq<Trial>)
    requires DistinctIds(trials)
    ensures |IdsOf(trials)| == |trials|
  {
    if trials != [] {
      var rest := trials[..|trials| - 1];
      IdsCount(rest);
      assert IdsOf(trials) == IdsOf(rest) + {trials[|trials| - 1].id};
    }
  }

  /** The trials that have a result and those that were never dispatched are all
      the trials there are. */
  lemma FinishedAndPending(setup: Setup, p: PoolState)
    requires Accounted(setup, p) && p.active == []
    ensures p.results.Keys + (set i | p.dispatched <= i < |setup.trials| :: setup.trials[i].id) == IdsOf(setup.trials)
  {
    hide DistinctIds;
    forall i | 0 <= i < |setup.trials|
      ensures setup.trials[i].id in p.results.Keys + (set i | p.dispatched <= i < |setup.trials| :: setup.trials[i].id)
    {
    }
  }

  /** A finished run returns exactly one result per trial: what the worker of a
      dispatched trial reported, and a stop record for each of the others. */
  lemma ResultsAreComplete(setup: Setup, p: PoolState, cancelled: bool)
    requires DistinctIds(setup.trials) && Accounted(setup, p) && p.active == []
    ensures var r := Account(setup, p.results, p.dispatched, cancelled);
            && r.Keys == IdsOf(setup.trials) && |r| == |setup.trials|
            && (forall i :: 0 <= i < p.dispatched ==> setup.trials[i].id in p.results && r[setup.trials[i].id] == p.results[setup.trials[i].id])
            && (forall i :: p.dispatched <= i < |setup.trials| ==>
                  r[setup.trials[i].id] == TrialResult(false, true, false, cancelled, "dispatch_stopped"))
  {
    hide Account, IdsOf;
    AccountIsExact(setup, p.results, p.dispatched, cancelled);
    FinishedAndPending(setup, p);
    IdsCount(setup.trials);
    var r := Account(setup, p.results, p.dispatched, cancelled);
    assert |r| == |r.Keys|;
  }

  /** Every run from the start: resources are conserved wherever it is looked at;
      when it finishes there is exactly one result per trial, and trials are left
      undispatched only for one of three reasons. */
  lemma EveryRun(setup: Setup, cancelled: bool, rounds: seq<PoolRound>, cancelledAtEnd: bool)
    requires DistinctIds(setup.trials)
    requires HonestWaits(setup, Start(setup, cancelled), rounds)
    ensures var outcome := Run(setup, Start(setup, cancelled), rounds);
            var p := outcome.pool;
            && Conserved(setup, p)
            && (!outcome.RaisedOut? ==> Accounted(setup, p))
            && (outcome.Finished? ==>
                  && |Account(setup, p.results, p.dispatched, cancelledAtEnd)| == |setup.trials|
                  && Account(setup, p.results, p.dispatched, cancelledAtEnd).Keys == IdsOf(setup.trials)
                  && (p.dispatched < |setup.trials| ==> p.cancelled || setup.jobs < 1 || Starved(setup, p)))
  {
    hide Run, HonestWaits, Conserved, Account, IdsOf, Starved;
    StartIsSound(setup, cancelled);
    RunKeeps(setup, Start(setup, cancelled), rounds);
    var outcome := Run(setup, Start(setup, cancelled), rounds);
    if outcome.Finished? {
      WhyItStopped(setup, Start(setup, cancelled), rounds);
      ResultsAreComplete(setup, outcome.pool, cancelledAtEnd);
    }
  }

  lemma RunUnfolds(setup: Setup, p: PoolState, rounds: seq<PoolRound>)
    requires (p.dispatched < |setup.trials| || p.active != []) && rounds != []
    ensures var admitted := AdmitAll(setup, p, rounds[0].cancelAfter);
            var (q, raised) := CollectAll(setup, admitted, rounds[0].done);
            Run(setup, p, rounds) ==
            if admitted.active == [] then Finished(admitted)
            else if raised || rounds[0].interrupted then RaisedOut(q.(cancelled := q.cancelled || setup.cancelOnInterrupt))
            else Run(setup, q, rounds[1..])
  {
    hide AdmitAll, CollectAll;
  }

  lemma RunEnds(setup: Setup, p: PoolState, rounds: seq<PoolRound>)
    ensures p.dispatched >= |setup.trials| && p.active == [] ==> Run(setup, p, rounds) == Finished(p)
    ensures (p.dispatched < |setup.trials| || p.active != []) && rounds == [] ==> Run(setup, p, rounds) == StillWaiting(p)
  {
  }

  lemma AdmitPolls(setup: Setup, p: PoolState)
    ensures AdmitAll(setup, p, Some(0)) == AdmitAll(setup, p.(cancelled := true), Some(0))
  {
  }

  lemma AdmitUnfolds(setup: Setup, p: PoolState, after: Option<nat>)
    requires after == Some(0) ==> p.cancelled
    ensures AdmitAll(setup, p, after) ==
            if CanAdmit(setup, p) then AdmitAll(setup, AdmitHead(setup, p), Polled(after)) else p
  {
    hide Fits, AdmitHead;
    assert after == Some(0) ==> p.(cancelled := true) == p;
  }

  function Polled(after: Option<nat>): Option<nat> {
    if after.Some? && after.value > 0 then Some(after.value - 1) else None
  }

  // ----- The coordinator

  /** What a run gives its caller. Refused: there are no jobs, or some trial can never fit. */
  datatype Answer = Refused | Results(results: map<string, TrialResult>) | Broken | Unfinished

  class Coordinator {
    const setup: Setup
    var available: map<string, int>
    var pending: seq<Trial>
    var active: seq<nat>
    var results: map<string, TrialResult>
    var cancelled: bool
    var peakActiveTrials: nat
    ghost var leaked: seq<nat>
    ghost var sizes: seq<nat>

    ghost predicate Valid()
      reads this
    {
      |pending| <= |setup.trials| && pending == setup.trials[|setup.trials| - |pending|..]
    }

    ghost function Snapshot(): PoolState
      reads this
      requires Valid()
    {
      PoolState(available, |setup.trials| - |pending|, active, leaked, results, cancelled, peakActiveTrials, sizes)
    }

    constructor (setup: Setup, cancelled: bool)
      ensures this.setup == setup && Valid() && Snapshot() == Start(setup, cancelled)
    {
      this.setup := setup;
      available := map key | key in setup.capacity :: setup.capacity[key] as int;
      pending, active, results := setup.trials, [], map[];
      this.cancelled := cancelled;
      peakActiveTrials := 0;
      leaked, sizes := [], [];
    }

    method Reserve(trial: Trial)
      modifies this`available
      ensures available == Taken(old(available), trial)
    {
      var keys := available.Keys;
      while keys != {}
        invariant keys <= available.Keys == old(available).Keys
        invariant forall key :: key in available ==>
                    available[key] == if key in keys then old(available)[key] else old(available)[key] - Need(trial, key)
        decreases |keys|
      {
        var key :| key in keys;
        available := available[key := available[key] - Need(trial, key)];
        keys := keys - {key};
      }
    }

    method Release(trial: Trial)
      modifies this`available
      ensures available == Restored(old(available), trial)
    {
      var keys := available.Keys;
      while keys != {}
        invariant keys <= available.Keys == old(available).Keys
        invariant forall key :: key in available ==>
                    available[key] == if key in keys then old(available)[key] else old(available)[key] + Need(trial, key)
        decreases |keys|
      {
        var key :| key in keys;
        available := available[key := available[key] + Need(trial, key)];
        keys := keys - {key};
      }
    }

    method Admit(cancelAfter: Option<nat>)
      requires Valid()
      modifies this
      ensures Valid() && Snapshot() == AdmitAll(setup, old(Snapshot()), cancelAfter)
      ensures pending == [] || cancelled || |active| >= setup.jobs || LacksSomething(pending[0], available)
    {
      AdmitsWhileItCan(setup, Snapshot(), cancelAfter);
      hide AdmitAll, AdmitHead, Fits;
      var after := cancelAfter;
      if after == Some(0) {
        AdmitPolls(setup, Snapshot());
        cancelled := true;
      }
      while |pending| > 0 && !cancelled && |active| < setup.jobs
        invariant Valid()
        invariant after == Some(0) ==> cancelled
        invariant AdmitAll(setup, old(Snapshot()), cancelAfter) == AdmitAll(setup, Snapshot(), after)
        decreases |pending|
      {
        AdmitUnfolds(setup, Snapshot(), after);
        var trial := pending[0];
        if !Fits(trial, available) {
          return;
        }
        AdmitFirst(trial);
        after := Polled(after);
        if after == Some(0) {
          AdmitPolls(setup, Snapshot());
          cancelled := true;
        }
      }
      AdmitUnfolds(setup, Snapshot(), after);
    }

    method AdmitFirst(trial: Trial)
      requires Valid() && |pending| > 0 && trial == pending[0]
      modifies this
      ensures Valid() && |pending| == |old(pending)| - 1
      ensures Snapshot() == AdmitHead(setup, old(Snapshot()))
    {
      hide Taken;
      pending := pending[1..];
      Reserve(trial);
      active := active + [|setup.trials| - |pending| - 1];
      peakActiveTrials := Max(peakActiveTrials, |active|);
      sizes := sizes + [|active|];
    }

    method Harvest(done: seq<Completion>) returns (raised: bool)
      requires Valid()
      requires forall c :: c in done ==> c.trial < |setup.trials|
      modifies this
      ensures Valid() && (Snapshot(), raised) == CollectAll(setup, old(Snapshot()), done)
    {
      hide Collect;
      for k := 0 to |done|
        invariant Valid()
        invariant CollectAll(setup, old(Snapshot()), done) == CollectAll(setup, Snapshot(), done[k..])
      {
        assert done[k] in done && done[k..][0] == done[k] && done[k..][1..] == done[k + 1..];
        raised := CollectOne(done[k]);
        if raised {
          return;
        }
      }
      return false;
    }

    method CollectOne(c: Completion) returns (raised: bool)
      requires Valid() && c.trial < |setup.trials|
      modifies this
      ensures Valid() && (Snapshot(), raised) == Collect(setup, old(Snapshot()), c)
    {
      hide Restored;
      var trial := setup.trials[c.trial];
      active := Without(active, c.trial);
      sizes := sizes + [|active|];
      if c.report.Interrupted? {
        leaked := leaked + [c.trial];
        return true;
      }
      var result := Kept(c.report);
      results := results[trial.id := result];
      if result.cleanupComplete {
        Release(trial);
      } else {
        leaked := leaked + [c.trial];
      }
      return c.callbackRaises;
    }

    /** A stop record for every trial that was left in the queue. */
    method AccountPending() returns (all: map<string, TrialResult>)
      requires Valid()
      ensures all == Account(setup, results, |setup.trials| - |pending|, cancelled)
    {
      all := results;
      var from := |setup.trials| - |pending|;
      for j := 0 to |pending|
        invariant Account(setup, results, from, cancelled) == Account(setup, all, from + j, cancelled)
      {
        assert pending[j] == setup.trials[from + j];
        all := all[pending[j].id := NeverDispatched(cancelled)];
      }
    }

    method Accepts() returns (possible: bool)
      ensures possible <==> Admissible(setup)
      ensures possible <==> setup.jobs >= 1 && forall i :: 0 <= i < |setup.trials| ==> !LacksSomething(setup.trials[i], setup.capacity)
    {
      if setup.jobs < 1 {
        return false;
      }
      for i := 0 to |setup.trials|
        invariant forall j :: 0 <= j < i ==> forall key :: key in setup.capacity ==> !Needs(setup.trials[j], key, setup.capacity[key])
      {
        if exists key :: key in setup.capacity && Needs(setup.trials[i], key, setup.capacity[key]) {
          return false;
        }
      }
      return true;
    }

    method RunPool(rounds: seq<PoolRound>, cancelledAtEnd: bool) returns (answer: Answer)
      requires Valid()
      requires forall r :: r in rounds ==> forall c :: c in r.done ==> c.trial < |setup.trials|
      modifies this
      ensures Valid()
      ensures !Admissible(setup) ==> answer == Refused && Snapshot() == old(Snapshot())
      ensures Admissible(setup) ==>
                match Run(setup, old(Snapshot()), rounds)
                case Finished(p) =>
                  && p == Snapshot().(cancelled := p.cancelled) && cancelled == (p.cancelled || cancelledAtEnd)
                  && answer == Results(Account(setup, p.results, p.dispatched, cancelled))
                case RaisedOut(p) => Snapshot() == p && answer == Broken
                case StillWaiting(p) => Snapshot() == p && answer == Unfinished
    {
      hide AdmitAll, CollectAll, Admissible, Account, Run;
      var possible := Accepts();
      if !possible {
        return Refused;
      }
      var k := 0;
      while |pending| > 0 || |active| > 0
        invariant Valid() && 0 <= k <= |rounds|
        invariant Run(setup, old(Snapshot()), rounds) == Run(setup, Snapshot(), rounds[k..])
        decreases |rounds| - k
      {
        if k == |rounds| {
          RunEnds(setup, Snapshot(), rounds[k..]);
          return Unfinished;
        }
        RunUnfolds(setup, Snapshot(), rounds[k..]);
        assert rounds[k] in rounds && rounds[k..][0] == rounds[k] && rounds[k..][1..] == rounds[k + 1..];
        Admit(rounds[k].cancelAfter);
        if |active| == 0 {
          break;
        }
        var raised := Harvest(rounds[k].done);
        if raised || rounds[k].interrupted {
          if setup.cancelOnInterrupt {
            cancelled := true;
          }
          return Broken;
        }
        k := k + 1;
      }
      ghost var ended := Snapshot();
      RunEnds(setup, ended, rounds[k..]);
      assert Run(setup, old(Snapshot()), rounds) == Finished(ended);
      cancelled := cancelled || cancelledAtEnd; // the event may be set up to the last moment
      var all := AccountPending();
      return Results(all);
    }
  }
}
