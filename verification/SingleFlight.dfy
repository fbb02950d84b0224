/** One fetch per icon for any number of callers: a map of pending keys under a
    mutex, a semaphore of four slots, and one channel per fetch that is closed
    when the fetch is over. Callers interleave at every step that touches shared
    state. */
module SingleFlight {

  type Key = string
  type Channel = nat

  /** Where one lookup stands. A leader is between creating the pending entry and
      closing its channel. */
  datatype Call =
    | Reading(key: Key)                    // about to look in the cache
    | Locking(key: Key)                    // missed; about to take the mutex
    | Waiting(key: Key, done: Channel)     // somebody else fetches this key
    | Acquiring(key: Key, done: Channel)   // leader, waiting for a slot
    | Fetching(key: Key, done: Channel)    // leader, holding a slot
    | Releasing(key: Key, done: Channel)   // leader, about to give the slot back
    | Deleting(key: Key, done: Channel)    // leader, about to remove the entry
    | Closing(key: Key, done: Channel)     // leader, about to close the channel
    | Finished

  const IN_FLIGHT := 4

  datatype State = State(calls: seq<Call>, pending: map<Key, Channel>, made: nat, closed: set<Channel>, slots: nat)

  function Initial(): State {
    State([], map[], 0, {}, 0)
  }

  /** What a call does next when there is a choice: a cache hit, the ordinary step,
      or giving up because its context ended. */
  datatype Choice = Hit | Proceed | GiveUp

  datatype Move = Arrive(key: Key) | Advance(call: nat, choice: Choice)

  predicate Enabled(s: State, m: Move) {
    match m
    case Arrive(_) => true
    case Advance(i, choice) =>
      i < |s.calls| &&
      match s.calls[i]
      case Reading(_) => choice != GiveUp
      case Waiting(_, done) => choice == GiveUp || (choice == Proceed && done in s.closed)
      case Acquiring(_, _) => choice == GiveUp || (choice == Proceed && s.slots < IN_FLIGHT)
      case Finished => false
      case _ => choice == Proceed
  }

  function Step(s: State, m: Move): State
    requires Enabled(s, m)
  {
    match m
    case Arrive(key) => s.(calls := s.calls + [Reading(key)])
    case Advance(i, choice) =>
      match s.calls[i]
      case Reading(key) => At(s, i, if choice == Hit then Finished else Locking(key))
      case Locking(key) =>
        if key in s.pending then At(s, i, Waiting(key, s.pending[key]))
        else At(s, i, Acquiring(key, s.made)).(pending := s.pending[key := s.made], made := s.made + 1)
      case Waiting(_, _) => At(s, i, Finished)
      case Acquiring(key, done) =>
        if choice == GiveUp then At(s, i, Deleting(key, done))
        else At(s, i, Fetching(key, done)).(slots := s.slots + 1)
      case Fetching(key, done) => At(s, i, Releasing(key, done))
      case Releasing(key, done) => At(s, i, Deleting(key, done)).(slots := if s.slots > 0 then s.slots - 1 else 0)
      case Deleting(key, done) => At(s, i, Closing(key, done)).(pending := s.pending - {key})
      case Closing(_, done) => At(s, i, Finished).(closed := s.closed + {done})
  }

  function At(s: State, i: nat, c: Call): State
    requires i < |s.calls|
  {
    s.(calls := s.calls[i := c])
  }

  // ----- The invariant

  predicate Leads(c: Call) {
    c.Acquiring? || c.Fetching? || c.Releasing? || c.Deleting? || c.Closing?
  }

  /** A leader owns the pending entry until it deletes it. */
  predicate Owns(c: Call, key: Key) {
    (c.Acquiring? || c.Fetching? || c.Releasing? || c.Deleting?) && c.key == key
  }

  predicate Holds(c: Call) {
    c.Fetching? || c.Releasing?
  }

  ghost function Holders(calls: seq<Call>): set<nat> {
    set i: nat | i < |calls| && Holds(calls[i])
  }

  ghost predicate LedBy(s: State, i: nat, done: Channel) {
    i < |s.calls| && Leads(s.calls[i]) && s.calls[i].done == done
  }

  ghost predicate OwnedBy(s: State, i: nat, key: Key) {
    i < |s.calls| && Owns(s.calls[i], key)
  }

  /** A key is pending exactly when a live leader owns it, and under that leader's channel. */
  ghost predicate PendingIsOwned(s: State) {
    && (forall key :: key in s.pending ==> exists i: nat :: OwnedBy(s, i, key))
    && (forall i: nat, key :: OwnedBy(s, i, key) ==> key in s.pending && s.pending[key] == s.calls[i].done)
  }

  /** Leaders have channels of their own, all made and none of them closed yet: no
      channel is ever closed twice. */
  ghost predicate ChannelsAreSound(s: State) {
    && (forall i: nat, done: Channel :: LedBy(s, i, done) ==> done < s.made && done !in s.closed)
    && (forall i: nat, j: nat, done: Channel :: LedBy(s, i, done) && LedBy(s, j, done) ==> i == j)
    && (forall done: Channel :: done in s.closed ==> done < s.made)
  }

  /** Every waiter waits for a closed channel or for a leader that has yet to close it. */
  ghost predicate WaitersAreServed(s: State) {
    forall i :: 0 <= i < |s.calls| && s.calls[i].Waiting? ==>
      s.calls[i].done in s.closed || exists j: nat :: LedBy(s, j, s.calls[i].done)
  }

  ghost predicate SlotsAreCounted(s: State) {
    s.slots == |Holders(s.calls)| && s.slots <= IN_FLIGHT
  }

  ghost predicate Sound(s: State) {
    PendingIsOwned(s) && ChannelsAreSound(s) && WaitersAreServed(s) && SlotsAreCounted(s)
  }

  // ----- What the invariant means

  /** At most one fetch per key. */
  lemma OneFetchPerKey(s: State, i: nat, j: nat)
    requires Sound(s) && i < |s.calls| && j < |s.calls|
    requires s.calls[i].Fetching? && s.calls[j].Fetching? && s.calls[i].key == s.calls[j].key
    ensures i == j
  {
    OneOwnerPerKey(s);
    assert OwnedBy(s, i, s.calls[i].key) && OwnedBy(s, j, s.calls[j].key);
  }

  /** At most four fetches over all keys. */
  lemma FewFetches(s: State)
    requires Sound(s)
    ensures |set i: nat | i < |s.calls| && s.calls[i].Fetching?| <= 4
  {
    var fetching := set i: nat | i < |s.calls| && s.calls[i].Fetching?;
    assert fetching <= Holders(s.calls);
    SubsetIsSmaller(fetching, Holders(s.calls));
  }

  /** A leader may start to fetch exactly while fewer than four callers hold a slot;
      any caller that waits may give up, and nothing else needs leave. */
  lemma LeaderStartsWhenFree(s: State, i: nat)
    requires Sound(s) && i < |s.calls|
    ensures s.calls[i].Acquiring? ==>
              (Enabled(s, Advance(i, Proceed)) <==> |set j: nat | j < |s.calls| && (s.calls[j].Fetching? || s.calls[j].Releasing?)| < 4)
    ensures Enabled(s, Advance(i, GiveUp)) <==> s.calls[i].Waiting? || s.calls[i].Acquiring?
    ensures Enabled(s, Advance(i, Hit)) <==> s.calls[i].Reading?
    ensures s.calls[i].Waiting? ==> (Enabled(s, Advance(i, Proceed)) <==> s.calls[i].done in s.closed)
    ensures !s.calls[i].Acquiring? && !s.calls[i].Waiting? ==> (Enabled(s, Advance(i, Proceed)) <==> s.calls[i] != Finished)
  {
    assert Holders(s.calls) == set j: nat | j < |s.calls| && (s.calls[j].Fetching? || s.calls[j].Releasing?);
  }

  lemma SubsetIsSmaller(a: set<nat>, b: set<nat>)
    requires a <= b
    ensures |a| <= |b|
  {
    assert b == a + (b - a);
  }

  // ----- Every step keeps it

  lemma HoldersAfter(calls: seq<Call>, i: nat, c: Call)
    requires i < |calls|
    ensures |Holders(calls[i := c])| == |Holders(calls)| - (if Holds(calls[i]) then 1 else 0) + (if Holds(c) then 1 else 0)
  {
    HoldersSplit(calls, i);
    HoldersSplit(calls[i := c], i);
    assert HoldersElsewhere(calls[i := c], i) == HoldersElsewhere(calls, i);
  }

  ghost function HoldersElsewhere(calls: seq<Call>, i: nat): set<nat> {
    set j: nat | j < |calls| && j != i && Holds(calls[j])
  }

  lemma HoldersSplit(calls: seq<Call>, i: nat)
    requires i < |calls|
    ensures |Holders(calls)| == |HoldersElsewhere(calls, i)| + if Holds(calls[i]) then 1 else 0
  {
    hide Holds;
    assert Holders(calls) == HoldersElsewhere(calls, i) + if Holds(calls[i]) then {i} else {};
  }

  lemma ArriveKeeps(s: State, key: Key)
    requires Sound(s)
    ensures Sound(Step(s, Arrive(key)))
  {
    var t := Step(s, Arrive(key));
    assert Holders(t.calls) == Holders(s.calls);
    forall k | k in t.pending ensures exists i: nat :: OwnedBy(t, i, k) {
      var i: nat :| OwnedBy(s, i, k);
      assert OwnedBy(t, i, k);
    }
    forall i: nat, k | OwnedBy(t, i, k) ensures k in t.pending && t.pending[k] == t.calls[i].done {
      assert OwnedBy(s, i, k);
    }
    LedAlike(s, t);
    forall i | 0 <= i < |t.calls| && t.calls[i].Waiting?
      ensures t.calls[i].done in t.closed || exists j: nat :: LedBy(t, j, t.calls[i].done)
    {
      if s.calls[i].done !in s.closed {
        var j: nat :| LedBy(s, j, s.calls[i].done);
        assert LedBy(t, j, t.calls[i].done);
      }
    }
  }

  lemma LedAlike(s: State, t: State)
    requires |t.calls| == |s.calls| + 1 && t.calls[..|s.calls|] == s.calls && t.calls[|s.calls|].Reading?
    ensures forall i: nat, done: Channel :: LedBy(t, i, done) <==> LedBy(s, i, done)
  {
    forall i: nat, done: Channel ensures LedBy(t, i, done) <==> LedBy(s, i, done) {
      if i < |s.calls| { assert t.calls[i] == s.calls[i]; }
    }
  }

  lemma OneOwnerPerKey(s: State)
    requires PendingIsOwned(s) && ChannelsAreSound(s)
    ensures forall i: nat, j: nat, key :: OwnedBy(s, i, key) && OwnedBy(s, j, key) ==> i == j
  {
    forall i: nat, j: nat, key | OwnedBy(s, i, key) && OwnedBy(s, j, key) ensures i == j {
      assert LedBy(s, i, s.pending[key]) && LedBy(s, j, s.pending[key]);
    }
  }

  lemma PendingStaysOwned(s: State, i: nat, choice: Choice)
    requires Sound(s) && Enabled(s, Advance(i, choice))
    ensures PendingIsOwned(Step(s, Advance(i, choice)))
  {
    hide SlotsAreCounted, WaitersAreServed;
    var t := Step(s, Advance(i, choice));
    OneOwnerPerKey(s);
    assert forall j: nat, k :: j != i ==> (OwnedBy(t, j, k) <==> OwnedBy(s, j, k));
    forall k | k in t.pending ensures exists j: nat :: OwnedBy(t, j, k) {
      if k in s.pending {
        var j: nat :| OwnedBy(s, j, k);
        assert OwnedBy(t, j, k);
      } else {
        assert OwnedBy(t, i, k);
      }
    }
    forall j: nat, k | OwnedBy(t, j, k) ensures k in t.pending && t.pending[k] == t.calls[j].done {
      if j != i {
        assert OwnedBy(s, j, k);
        assert s.calls[i].Deleting? ==> OwnedBy(s, i, s.calls[i].key);
      } else if !s.calls[i].Locking? {
        assert OwnedBy(s, i, k);
      }
    }
  }

  lemma ChannelsStaySound(s: State, i: nat, choice: Choice)
    requires Sound(s) && Enabled(s, Advance(i, choice))
    ensures ChannelsAreSound(Step(s, Advance(i, choice)))
  {
    hide SlotsAreCounted, WaitersAreServed, PendingIsOwned;
    var t := Step(s, Advance(i, choice));
    forall j: nat, done: Channel | LedBy(t, j, done)
      ensures LedBy(s, j, done) || (s.calls[i].Locking? && j == i && done == s.made)
    {
    }
    forall j: nat, done: Channel | LedBy(t, j, done) ensures done < t.made && done !in t.closed {
      if s.calls[i].Closing? {
        assert LedBy(s, i, s.calls[i].done);
      }
    }
    forall done: Channel | done in t.closed ensures done < t.made {
      if s.calls[i].Closing? {
        assert LedBy(s, i, s.calls[i].done);
      }
    }
  }

  lemma WaitersStayServed(s: State, i: nat, choice: Choice)
    requires Sound(s) && Enabled(s, Advance(i, choice))
    ensures WaitersAreServed(Step(s, Advance(i, choice)))
  {
    hide SlotsAreCounted, ChannelsAreSound;
    var t := Step(s, Advance(i, choice));
    forall j | 0 <= j < |t.calls| && t.calls[j].Waiting?
      ensures t.calls[j].done in t.closed || exists l: nat :: LedBy(t, l, t.calls[j].done)
    {
      var done := t.calls[j].done;
      if j == i {
        var l: nat :| OwnedBy(s, l, s.calls[i].key);
        assert LedBy(t, l, done);
      } else if done !in s.closed {
        var l: nat :| LedBy(s, l, done);
        if l != i || !s.calls[i].Closing? {
          assert LedBy(t, l, done);
        }
      }
    }
  }

  lemma SlotsStayCounted(s: State, i: nat, choice: Choice)
    requires Sound(s) && Enabled(s, Advance(i, choice))
    ensures SlotsAreCounted(Step(s, Advance(i, choice)))
  {
    hide ChannelsAreSound, WaitersAreServed, PendingIsOwned;
    var t := Step(s, Advance(i, choice));
    HoldersAfter(s.calls, i, t.calls[i]);
    assert t.calls == s.calls[i := t.calls[i]];
    if s.calls[i].Releasing? {
      assert i in Holders(s.calls);
    }
  }

  lemma StepKeepsSound(s: State, m: Move)
    requires Sound(s) && Enabled(s, m)
    ensures Sound(Step(s, m))
  {
    hide PendingIsOwned, ChannelsAreSound, WaitersAreServed, SlotsAreCounted, Step;
    match m
    case Arrive(key) => ArriveKeeps(s, key);
    case Advance(i, choice) =>
      PendingStaysOwned(s, i, choice);
      ChannelsStaySound(s, i, choice);
      WaitersStayServed(s, i, choice);
      SlotsStayCounted(s, i, choice);
  }

  // ----- Runs

  ghost predicate Possible(s: State, moves: seq<Move>)
    decreases |moves|
  {
    moves == [] || (Enabled(s, moves[0]) && Possible(Step(s, moves[0]), moves[1..]))
  }

  function After(s: State, moves: seq<Move>): State
    requires Possible(s, moves)
    decreases |moves|
  {
    if moves == [] then s else After(Step(s, moves[0]), moves[1..])
  }

  /** In every interleaving of any callers the invariant holds. */
  lemma {:induction false} EveryInterleavingIsSound(s: State, moves: seq<Move>)
    requires Sound(s) && Possible(s, moves)
    ensures Sound(After(s, moves))
    decreases |moves|
  {
    hide Sound, Step;
    if moves != [] {
      StepKeepsSound(s, moves[0]);
      EveryInterleavingIsSound(Step(s, moves[0]), moves[1..]);
    }
  }

  lemma InitiallySound()
    ensures Sound(Initial())
  {
    assert Holders([]) == {};
  }

  /** So it holds in everything that can be reached from an unused resolver. */
  lemma EveryReachableStateIsSound(moves: seq<Move>)
    requires Possible(Initial(), moves)
    ensures Sound(After(Initial(), moves))
  {
    hide Sound, Step;
    InitiallySound();
    EveryInterleavingIsSound(Initial(), moves);
  }

  // ----- Who fetches and who waits

  /** What one step of a caller makes of it, by where it stands. A cache hit ends it; a
      miss joins the fetch of its key or leads one on a channel of its own; a waiter
      ends only with its channel closed or its context over; a leader fetches unless
      its context ends first, then lets go of the slot, the key and the channel. */
  ghost predicate Moves(s: State, c: Call, choice: Choice, d: Call) {
    match c
    case Reading(key) => d == if choice == Hit then Finished else Locking(key)
    case Locking(key) => d == if key in s.pending then Waiting(key, s.pending[key]) else Acquiring(key, s.made)
    case Waiting(_, done) => d == Finished && (choice == GiveUp || done in s.closed)
    case Acquiring(key, done) => d == if choice == GiveUp then Deleting(key, done) else Fetching(key, done)
    case Fetching(key, done) => d == Releasing(key, done)
    case Releasing(key, done) => d == Deleting(key, done)
    case Deleting(key, done) => d == Closing(key, done)
    case Closing(_, _) => d == Finished
    case Finished => false
  }

  lemma StepMovesOneCall(s: State, i: nat, choice: Choice)
    requires Enabled(s, Advance(i, choice))
    ensures var t := Step(s, Advance(i, choice));
            && |t.calls| == |s.calls| && Moves(s, s.calls[i], choice, t.calls[i])
            && (forall j :: 0 <= j < |s.calls| && j != i ==> t.calls[j] == s.calls[j])
            && s.closed <= t.closed && (t.closed != s.closed ==> s.calls[i].Closing? && t.closed == s.closed + {s.calls[i].done})
  {
  }

  lemma ArrivalChangesNobody(s: State, key: Key)
    ensures var t := Step(s, Arrive(key)); t.calls == s.calls + [Reading(key)] && t.closed == s.closed
  {
  }

  /** On the way through these moves the call is at one point fetching. */
  ghost predicate Fetches(s: State, moves: seq<Move>, i: nat)
    requires Possible(s, moves)
    decreases |moves|
  {
    || (i < |s.calls| && s.calls[i].Fetching?)
    || (moves != [] && Fetches(Step(s, moves[0]), moves[1..], i))
  }

  /** ... and at one point waiting for this channel. */
  ghost predicate Waits(s: State, moves: seq<Move>, i: nat, done: Channel)
    requires Possible(s, moves)
    decreases |moves|
  {
    || (i < |s.calls| && s.calls[i].Waiting? && s.calls[i].done == done)
    || (moves != [] && Waits(Step(s, moves[0]), moves[1..], i, done))
  }

  lemma OneMove(s: State, m: Move, i: nat)
    requires Enabled(s, m) && i < |s.calls|
    ensures var t := Step(s, m);
            && i < |t.calls|
            && (t.calls[i] == s.calls[i] || (m.Advance? && m.call == i && Moves(s, s.calls[i], m.choice, t.calls[i])))
            && s.closed <= t.closed
            && (m.Arrive? || m.call != i ==> t.calls[i] == s.calls[i])
  {
    match m {
      case Arrive(key) => ArrivalChangesNobody(s, key);
      case Advance(j, choice) => StepMovesOneCall(s, j, choice);
    }
  }

  lemma {:induction false} ClosedStaysClosed(s: State, moves: seq<Move>)
    requires Possible(s, moves)
    ensures s.closed <= After(s, moves).closed
    decreases |moves|
  {
    hide Step;
    if moves != [] {
      match moves[0] {
        case Arrive(key) => ArrivalChangesNobody(s, key);
        case Advance(j, choice) => StepMovesOneCall(s, j, choice);
      }
      ClosedStaysClosed(Step(s, moves[0]), moves[1..]);
    }
  }

  /** A waiter is still waiting, or its channel has been closed, or it gave up. */
  lemma {:induction false} WaiterWaits(s: State, moves: seq<Move>, i: nat)
    requires Possible(s, moves) && i < |s.calls| && s.calls[i].Waiting?
    ensures i < |After(s, moves).calls|
    ensures After(s, moves).calls[i] == s.calls[i] || s.calls[i].done in After(s, moves).closed || Advance(i, GiveUp) in moves
    decreases |moves|
  {
    hide Step;
    if moves != [] {
      OneMove(s, moves[0], i);
      CallsStay(Step(s, moves[0]), moves[1..], i);
      ClosedStaysClosed(Step(s, moves[0]), moves[1..]);
      if Step(s, moves[0]).calls[i] == s.calls[i] {
        WaiterWaits(Step(s, moves[0]), moves[1..], i);
      }
    }
  }

  lemma {:induction false} CallsStay(s: State, moves: seq<Move>, i: nat)
    requires Possible(s, moves) && i < |s.calls|
    ensures i < |After(s, moves).calls|
    decreases |moves|
  {
    hide Step;
    if moves != [] {
      OneMove(s, moves[0], i);
      CallsStay(Step(s, moves[0]), moves[1..], i);
    }
  }

  /** A call that missed the cache and ended without giving up has either fetched the
      icon itself or waited for a channel that is closed by then. */
  lemma {:induction false} NobodyAnswersEarly(s: State, moves: seq<Move>, i: nat)
    requires Possible(s, moves) && i < |s.calls| && (s.calls[i].Locking? || s.calls[i].Acquiring? || s.calls[i].Waiting? || s.calls[i].Fetching?)
    ensures i < |After(s, moves).calls|
    ensures After(s, moves).calls[i] == Finished && Advance(i, GiveUp) !in moves ==>
              Fetches(s, moves, i) || exists done: Channel :: Waits(s, moves, i, done) && done in After(s, moves).closed
    decreases |moves|
  {
    hide Step;
    CallsStay(s, moves, i);
    if moves != [] && !s.calls[i].Fetching? {
      var t := Step(s, moves[0]);
      OneMove(s, moves[0], i);
      if s.calls[i].Waiting? {
        WaiterWaits(s, moves, i);
        assert Waits(s, moves, i, s.calls[i].done);
      } else if moves[0] != Advance(i, GiveUp) {
        NobodyAnswersEarly(t, moves[1..], i);
        if done: Channel :| Waits(t, moves[1..], i, done) && done in After(t, moves[1..]).closed {
          assert Waits(s, moves, i, done);
        }
      }
    }
  }

  /** A channel is closed by its own leader, and only after that has fetched or given
      up: so whoever waits for it gets an answer that somebody went to look for. */
  lemma {:induction false} ClosedByItsLeader(s: State, moves: seq<Move>, i: nat)
    requires Sound(s) && Possible(s, moves) && i < |s.calls| && s.calls[i].Acquiring?
    requires s.calls[i].done in After(s, moves).closed
    ensures Fetches(s, moves, i) || Advance(i, GiveUp) in moves
    decreases |moves|
  {
    hide Step, Sound;
    LeaderHasOpenChannel(s, i);
    if moves != [] {
      var t := Step(s, moves[0]);
      OneMove(s, moves[0], i);
      StepKeepsSound(s, moves[0]);
      if t.calls[i] == s.calls[i] {
        ClosedByItsLeader(t, moves[1..], i);
      } else if moves[0] != Advance(i, GiveUp) {
        assert Fetches(t, moves[1..], i);
      }
    }
  }

  /** Nobody is ever stuck: while a call is unfinished, some call can proceed without
      any context ending. */
  lemma SomebodyCanProceed(s: State)
    requires Sound(s)
    requires exists i :: 0 <= i < |s.calls| && s.calls[i] != Finished
    ensures exists j: nat :: Enabled(s, Advance(j, Proceed))
  {
    var i :| 0 <= i < |s.calls| && s.calls[i] != Finished;
    if s.calls[i].Waiting? && s.calls[i].done !in s.closed {
      var j: nat :| LedBy(s, j, s.calls[i].done);
      LeaderOrHolderCanProceed(s, j);
    } else if s.calls[i].Acquiring? {
      LeaderOrHolderCanProceed(s, i);
    } else {
      assert Enabled(s, Advance(i, Proceed));
    }
  }

  lemma LeaderOrHolderCanProceed(s: State, i: nat)
    requires SlotsAreCounted(s) && i < |s.calls| && Leads(s.calls[i])
    ensures exists j: nat :: Enabled(s, Advance(j, Proceed))
  {
    if s.calls[i].Acquiring? && s.slots == IN_FLIGHT {
      assert Holders(s.calls) != {};
      var j :| j in Holders(s.calls);
      assert Enabled(s, Advance(j, Proceed));
    } else {
      assert Enabled(s, Advance(i, Proceed));
    }
  }

  /** How many steps a call can still take. */
  function Left(c: Call): nat {
    match c
    case Reading(_) => 7
    case Locking(_) => 6
    case Acquiring(_, _) => 5
    case Fetching(_, _) => 4
    case Releasing(_, _) => 3
    case Deleting(_, _) => 2
    case Closing(_, _) => 1
    case Waiting(_, _) => 1
    case Finished => 0
  }

  function AllLeft(calls: seq<Call>): nat {
    if calls == [] then 0 else Left(calls[0]) + AllLeft(calls[1..])
  }

  lemma {:induction false} LeftAfter(calls: seq<Call>, i: nat, c: Call)
    requires i < |calls|
    ensures AllLeft(calls[i := c]) == AllLeft(calls) - Left(calls[i]) + Left(c)
  {
    if i > 0 {
      LeftAfter(calls[1..], i - 1, c);
      assert calls[i := c][1..] == calls[1..][i - 1 := c];
    } else {
      assert calls[i := c][1..] == calls[1..];
    }
  }

  /** Every step of a call uses up some of what is left, so without new callers any
      run is at most that long; and a run that can go no further has finished every
      call. */
  lemma {:induction false} RunsEnd(s: State, moves: seq<Move>)
    requires Sound(s) && Possible(s, moves) && forall k :: 0 <= k < |moves| ==> moves[k].Advance?
    ensures |moves| <= AllLeft(s.calls)
    ensures (forall j: nat :: !Enabled(After(s, moves), Advance(j, Proceed)))
            ==> forall i :: 0 <= i < |After(s, moves).calls| ==> After(s, moves).calls[i] == Finished
    decreases |moves|
  {
    hide *;
    NoMovesNoChange(s, moves);
    if moves == [] {
      StuckMeansFinished(s);
    } else {
      StepKeepsSound(s, moves[0]);
      StepUsesUp(s, moves[0]);
      RunsEnd(Step(s, moves[0]), moves[1..]);
    }
  }

  lemma NoMovesNoChange(s: State, moves: seq<Move>)
    requires Possible(s, moves)
    ensures if moves == [] then After(s, moves) == s
            else Enabled(s, moves[0]) && Possible(Step(s, moves[0]), moves[1..]) && After(s, moves) == After(Step(s, moves[0]), moves[1..])
  {
    hide Step, Enabled;
  }

  lemma StuckMeansFinished(s: State)
    requires Sound(s)
    ensures (forall j: nat :: !Enabled(s, Advance(j, Proceed))) ==> forall i :: 0 <= i < |s.calls| ==> s.calls[i] == Finished
  {
    hide Sound, Enabled;
    if exists i :: 0 <= i < |s.calls| && s.calls[i] != Finished {
      SomebodyCanProceed(s);
    }
  }

  lemma StepUsesUp(s: State, m: Move)
    requires Enabled(s, m) && m.Advance?
    ensures AllLeft(Step(s, m).calls) < AllLeft(s.calls)
  {
    hide Step, AllLeft;
    StepMovesOneCall(s, m.call, m.choice);
    var t := Step(s, m);
    LeftAfter(s.calls, m.call, t.calls[m.call]);
    assert t.calls == s.calls[m.call := t.calls[m.call]];
  }

  // ----- The object the callers share

  class Resolver {
    var calls: seq<Call>
    var pending: map<Key, Channel>
    var made: nat
    var closed: set<Channel>
    var slots: nat

    ghost function Snapshot(): State
      reads this
    {
      State(calls, pending, made, closed, slots)
    }

    constructor ()
      ensures Snapshot() == Initial() && Sound(Snapshot())
    {
      calls, pending, made, closed, slots := [], map[], 0, {}, 0;
      new;
      InitiallySound();
    }

    method Enter(key: Key) returns (call: nat)
      requires Sound(Snapshot())
      modifies this`calls
      ensures Sound(Snapshot()) && Snapshot() == Step(old(Snapshot()), Arrive(key)) && call == |old(calls)|
    {
      hide Sound;
      StepKeepsSound(Snapshot(), Arrive(key));
      call := |calls|;
      calls := calls + [Reading(key)];
    }

    /** The mutex section: join the fetch of this key, or become its leader. */
    method JoinOrLead(call: nat)
      requires Sound(Snapshot()) && call < |calls| && calls[call].Locking?
      modifies this`calls, this`pending, this`made
      ensures Sound(Snapshot()) && Snapshot() == Step(old(Snapshot()), Advance(call, Proceed))
      ensures calls[call].Acquiring? <==> old(calls)[call].key !in old(pending)
    {
      hide Sound;
      StepKeepsSound(Snapshot(), Advance(call, Proceed));
      var key := calls[call].key;
      if key in pending {
        calls := calls[call := Waiting(key, pending[key])];
      } else {
        var done := made;
        made := made + 1;
        pending := pending[key := done];
        calls := calls[call := Acquiring(key, done)];
      }
    }

    /** Any other step of a lookup. */
    method Continue(call: nat, choice: Choice)
      requires Sound(Snapshot()) && Enabled(Snapshot(), Advance(call, choice)) && !calls[call].Locking?
      modifies this`calls, this`pending, this`closed, this`slots
      ensures Sound(Snapshot()) && Snapshot() == Step(old(Snapshot()), Advance(call, choice))
      ensures old(calls)[call].Closing? ==> old(calls)[call].done !in old(closed)
    {
      if Leads(calls[call]) {
        LeaderHasOpenChannel(Snapshot(), call);
      }
      hide Sound;
      StepKeepsSound(Snapshot(), Advance(call, choice));
      match calls[call] {
        case Reading(key) => calls := calls[call := if choice == Hit then Finished else Locking(key)];
        case Waiting(_, _) => calls := calls[call := Finished];
        case Acquiring(key, done) =>
          if choice == GiveUp {
            calls := calls[call := Deleting(key, done)];
          } else {
            slots := slots + 1;
            calls := calls[call := Fetching(key, done)];
          }
        case Fetching(key, done) => calls := calls[call := Releasing(key, done)];
        case Releasing(key, done) =>
          slots := if slots > 0 then slots - 1 else 0;
          calls := calls[call := Deleting(key, done)];
        case Deleting(key, done) =>
          pending := pending - {key};
          calls := calls[call := Closing(key, done)];
        case Closing(_, done) =>
          closed := closed + {done};
          calls := calls[call := Finished];
        case _ =>
      }
    }

    /** Drive any interleaving of callers through the shared object. */
    method Interleave(moves: seq<Move>)
      requires Sound(Snapshot()) && Possible(Snapshot(), moves)
      modifies this
      ensures Sound(Snapshot()) && Snapshot() == After(old(Snapshot()), moves)
    {
      hide Sound, Step;
      for k := 0 to |moves|
        invariant Sound(Snapshot()) && Possible(Snapshot(), moves[k..])
        invariant After(Snapshot(), moves[k..]) == After(old(Snapshot()), moves)
      {
        assert moves[k..][0] == moves[k] && moves[k..][1..] == moves[k + 1..];
        match moves[k] {
          case Arrive(key) =>
            var call := Enter(key);
          case Advance(call, choice) =>
            if calls[call].Locking? {
              JoinOrLead(call);
            } else {
              Continue(call, choice);
            }
        }
      }
    }
  }

  lemma LeaderHasOpenChannel(s: State, i: nat)
    requires Sound(s) && i < |s.calls| && Leads(s.calls[i])
    ensures s.calls[i].done !in s.closed
  {
    assert LedBy(s, i, s.calls[i].done);
  }
}
