/** How often a turn asks, folds and retries, read off the events it leaves. */
module TurnBounds {
  import opened Transcript
  import opened Folding
  import opened Decay
  import opened Turn

  predicate IsFold(e: Event, kind: FoldKind) {
    e.Summarized? && e.kind == kind
  }

  /** The rules among the events of one turn, in the order they happen. */
  ghost predicate Disciplined(events: seq<Event>) {
    forall i, j :: 0 <= i < j < |events| ==> MayFollow(events[i], events[j])
  }

  /** `later` may come somewhere after `earlier` in the same turn. */
  predicate MayFollow(earlier: Event, later: Event) {
    // after a fold that stayed over the threshold there is no further proactive fold
    && (earlier.Stalled? ==> !IsFold(later, Proactive) && !IsFold(later, Closing))
    // the overflow retry is spent once
    && (IsFold(earlier, Overflow) ==> !IsFold(later, Overflow))
    // a turn that folded does not fold again when it closes
    && (earlier.Summarized? ==> !IsFold(later, Closing))
    // the request without tools is the last thing a turn does, and a closing fold too
    && earlier != Streamed(true)
    && (IsFold(earlier, Closing) ==> later.Stalled?)
  }

  function Requests(events: seq<Event>): nat {
    if events == [] then 0 else Requests(events[..|events| - 1]) + (if events[|events| - 1].Streamed? then 1 else 0)
  }

  /** What the guard flags know about the events of the turn so far. */
  ghost predicate Guarded(s: State, events: seq<Event>) {
    forall i :: 0 <= i < |events| ==>
      && (events[i].Summarized? ==> s.compacted)
      && (events[i].Stalled? ==> s.compactStalled)
      && (IsFold(events[i], Overflow) ==> s.retriedOverflow)
      && events[i] != Streamed(true) && !IsFold(events[i], Closing)
  }

  /** The turn that began when the trace had `k` events has made `done` requests,
      has kept the rules, and its flags know it. */
  ghost predicate Watched(s: State, k: nat, done: nat) {
    && k <= |s.trace|
    && Disciplined(s.trace[k..])
    && Guarded(s, s.trace[k..])
    && Requests(s.trace[k..]) == done
  }

  /** A turn that is over: the rules hold of its events. */
  ghost predicate Closed(s: State, k: nat, most: nat) {
    k <= |s.trace| && Disciplined(s.trace[k..]) && Requests(s.trace[k..]) <= most
  }

  lemma AddEvent(events: seq<Event>, e: Event)
    requires Disciplined(events)
    requires forall i :: 0 <= i < |events| ==> MayFollow(events[i], e)
    ensures Disciplined(events + [e])
    ensures Requests(events + [e]) == Requests(events) + (if e.Streamed? then 1 else 0)
  {
    assert (events + [e])[..|events|] == events;
  }

  /** One more event, allowed by the flags, recorded in the flags. */
  lemma PushEvent(s: State, u: State, k: nat, done: nat, e: Event)
    requires Watched(s, k, done) && u.trace == s.trace + [e]
    requires IsFold(e, Proactive) || IsFold(e, Closing) ==> !s.compactStalled
    requires IsFold(e, Overflow) ==> !s.retriedOverflow
    requires IsFold(e, Closing) ==> !s.compacted
    ensures Closed(u, k, done + (if e.Streamed? then 1 else 0))
    ensures var more := if e.Streamed? then 1 else 0;
            && e != Streamed(true) && !IsFold(e, Closing)
            && (s.compacted || e.Summarized? ==> u.compacted)
            && (s.compactStalled || e.Stalled? ==> u.compactStalled)
            && (s.retriedOverflow || IsFold(e, Overflow) ==> u.retriedOverflow)
            ==> Watched(u, k, done + more)
  {
    hide Disciplined, Requests;
    assert u.trace[k..] == s.trace[k..] + [e];
    AddEvent(s.trace[k..], e);
  }

  lemma WatchedIsClosed(s: State, k: nat, done: nat)
    requires Watched(s, k, done)
    ensures Closed(s, k, done)
  {
  }

  lemma ProactiveFoldIsWatched(cfg: Config, s: State, outcome: SummaryOutcome, k: nat, done: nat)
    requires Watched(s, k, done)
    ensures Watched(MaybeCompact(cfg, s, Proactive, outcome).0, k, done)
  {
    hide Watched, Closed, PlanFold, EstimateTokens, FoldLimit, OverThreshold;
    var (t, status) := Compact(cfg, s, Proactive, outcome);
    if !s.compactStalled && t.trace != s.trace {
      var e := t.trace[|s.trace|];
      assert t.trace == s.trace + [e];
      PushEvent(s, t.(compacted := true), k, done, e);
      PushEvent(t.(compacted := true), MarkFolded(cfg, t).(trace := t.trace + [Stalled], compactStalled := true), k, done, Stalled);
    }
  }

  lemma ClosingFoldIsClosed(cfg: Config, s: State, outcome: SummaryOutcome, k: nat, done: nat)
    requires Watched(s, k, done) && !s.compacted
    ensures Closed(MaybeCompact(cfg, s, Closing, outcome).0, k, done)
  {
    hide Watched, Disciplined, Requests, PlanFold, EstimateTokens, FoldLimit, OverThreshold;
    WatchedIsClosed(s, k, done);
    var (t, status) := Compact(cfg, s, Closing, outcome);
    if !s.compactStalled && t.trace != s.trace {
      var e := t.trace[|s.trace|];
      assert t.trace == s.trace + [e];
      PushEvent(s, t, k, done, e);
      ClosingThenStalled(s, t, k, done);
    }
  }

  /** The closing fold may still find that it did not get under the threshold. */
  lemma ClosingThenStalled(s: State, t: State, k: nat, done: nat)
    requires Watched(s, k, done)
    requires |t.trace| == |s.trace| + 1 && t.trace[..|s.trace|] == s.trace && IsFold(t.trace[|s.trace|], Closing)
    requires Closed(t, k, done)
    ensures Closed(t.(trace := t.trace + [Stalled]), k, done)
  {
    hide Requests;
    var events := t.trace[k..];
    assert t.trace + [Stalled] == t.trace + [Stalled];
    assert (t.trace + [Stalled])[k..] == events + [Stalled];
    forall i | 0 <= i < |events| ensures MayFollow(events[i], Stalled) {
      if i < |s.trace| - k {
        assert events[i] == s.trace[k..][i];
      } else {
        assert events[i] == t.trace[|s.trace|];
      }
    }
    AddEvent(events, Stalled);
  }

  lemma OverflowFoldIsWatched(cfg: Config, s: State, outcome: SummaryOutcome, k: nat, done: nat)
    requires Watched(s, k, done) && !s.retriedOverflow
    ensures Watched(Compact(cfg, s.(retriedOverflow := true, compacted := true), Overflow, outcome).0, k, done)
  {
    hide Disciplined, Requests, PlanFold;
    var marked := s.(retriedOverflow := true, compacted := true);
    assert Watched(marked, k, done);
    var t := Compact(cfg, marked, Overflow, outcome).0;
    if t.trace != s.trace {
      var e := t.trace[|s.trace|];
      assert t.trace == s.trace + [e];
      PushEvent(s, t, k, done, e);
    }
  }

  /** The turn is still going under watch, or it is over and kept the rules. */
  ghost predicate StepIsWatched(step: Step, k: nat, done: nat) {
    match step
    case Continue(u) => Watched(u, k, done)
    case Exit(u, _) => Closed(u, k, done)
  }

  /** What the guards and the trace do not depend on. */
  lemma OtherFields(s: State, u: State, k: nat, done: nat)
    requires Watched(s, k, done) && u.trace == s.trace
    requires u.compacted == s.compacted && u.compactStalled == s.compactStalled && u.retriedOverflow == s.retriedOverflow
    ensures Watched(u, k, done)
  {
    hide Disciplined, Requests;
  }

  lemma BoundaryIsWatched(cfg: Config, s: State, r: Round, reply: Reply, k: nat, done: nat)
    requires Watched(s, k, done)
    ensures StepIsWatched(AtBoundary(cfg, s, r, reply), k, done)
  {
    hide Watched, Closed, MaybeCompact;
    var drained := s.(pending := []);
    OtherFields(s, drained, k, done);
    WatchedIsClosed(drained, k, done);
    match r.boundary
    case BoundaryFailed =>
    case Inject(messages) =>
      var t := AppendAll(cfg, drained, SteerMessages(s.pending) + messages);
      OtherFields(s, t, k, done);
      WatchedIsClosed(t, k, done);
      if !t.compacted {
        ClosingFoldIsClosed(cfg, t, r.closing, k, done);
      }
  }

  lemma RoundIsWatched(cfg: Config, s: State, r: Round, k: nat, done: nat)
    requires Watched(s, k, done)
    ensures StepIsWatched(RoundStep(cfg, s, r), k, done + 1)
  {
    hide Watched, Closed, MaybeCompact, AtBoundary, Compact;
    ProactiveFoldIsWatched(cfg, s, r.fold, k, done);
    var (t, error) := MaybeCompact(cfg, s, Proactive, r.fold);
    WatchedIsClosed(t, k, done);
    ClosedWithMore(t, k, done);
    if error.None? {
      var u := Request(t, false, r.promptTokens).(pending := t.pending + r.steers);
      PushEvent(t, u, k, done, Streamed(false));
      match r.stream {
        case Replied(reply) =>
          var v := AppendAll(cfg, u, [ReplyMessage(reply)]);
          OtherFields(u, v, k, done + 1);
          BoundaryIsWatched(cfg, v, r, reply, k, done + 1);
          var w := AfterTools(cfg, v, reply.calls, r.finished);
          OtherFields(u, w, k, done + 1);
          WatchedIsClosed(w, k, done + 1);
          BoundaryIsWatched(cfg, w, r, reply, k, done + 1);
        case Broke(partial, failure) =>
          var kept := AppendAll(cfg, u, PreservedRows(partial, failure));
          OtherFields(u, kept, k, done + 1);
          WatchedIsClosed(kept, k, done + 1);
          if !kept.retriedOverflow {
            OverflowFoldIsWatched(cfg, kept, r.retryFold, k, done + 1);
            WatchedIsClosed(Compact(cfg, kept.(retriedOverflow := true, compacted := true), Overflow, r.retryFold).0, k, done + 1);
          }
      }
    }
  }

  lemma ClosedWithMore(s: State, k: nat, most: nat)
    requires Closed(s, k, most)
    ensures Closed(s, k, most + 1)
  {
  }

  lemma FinalAnswerIsClosed(cfg: Config, s: State, stream: StreamOutcome, promptTokens: int, k: nat, done: nat)
    requires Watched(s, k, done)
    ensures Closed(FinalAnswer(cfg, s, stream, promptTokens).0, k, done + 1)
  {
    hide Watched, Disciplined, Requests;
    var t := Request(s, true, promptTokens);
    PushEvent(s, t, k, done, Streamed(true));
  }

  lemma {:induction false} RoundsAreWatched(cfg: Config, s: State, t: TurnInput, done: nat, rounds: seq<Round>, k: nat)
    requires Watched(s, k, done)
    requires cfg.maxTurns > 0 ==> done <= cfg.maxTurns
    ensures var (u, outcome) := Rounds(cfg, s, t, done, rounds);
            && Closed(u, k, if cfg.maxTurns > 0 then cfg.maxTurns + 1 else done + |rounds|)
            && (cfg.maxTurns > 0 && done + |rounds| >= cfg.maxTurns ==> outcome != Running)
    decreases |rounds|
  {
    hide Watched, Disciplined, Requests, RoundStep, FinalAnswer;
    WatchedIsClosed(s, k, done);
    if cfg.maxTurns > 0 && done >= cfg.maxTurns {
      FinalAnswerIsClosed(cfg, s, t.finalStream, t.finalPromptTokens, k, done);
      FinalAnswerEnds(cfg, s, t.finalStream, t.finalPromptTokens);
    } else if rounds != [] {
      RoundIsWatched(cfg, s, rounds[0], k, done);
      RoundEnds(cfg, s, rounds[0]);
      match RoundStep(cfg, s, rounds[0])
      case Continue(u) => RoundsAreWatched(cfg, u, t, done + 1, rounds[1..], k);
      case Exit(_, _) =>
    }
  }

  lemma RoundEnds(cfg: Config, s: State, r: Round)
    ensures RoundStep(cfg, s, r).Exit? ==> RoundStep(cfg, s, r).outcome != Running
  {
    hide MaybeCompact, AppendAll, AfterTools, Compact;
  }

  lemma FinalAnswerEnds(cfg: Config, s: State, stream: StreamOutcome, promptTokens: int)
    ensures FinalAnswer(cfg, s, stream, promptTokens).1 != Running
  {
  }

  lemma NoEvents()
    ensures Disciplined([]) && Requests([]) == 0
  {
  }

  predicate Idle(s: State) {
    !s.compacted && !s.compactStalled && !s.retriedOverflow && !s.running && s.pending == []
  }

  /** With a positive cap a turn makes at most one request more than the cap and
      always ends; whatever the cap, its folds and retries keep the rules, and once
      it is over all guards are down again. */
  lemma TurnIsBounded(cfg: Config, s: State, t: TurnInput)
    requires Idle(s)
    ensures var (u, outcome) := RunTurn(cfg, s, t);
            && |s.trace| <= |u.trace|
            && Disciplined(u.trace[|s.trace|..])
            && (cfg.maxTurns > 0 ==> Requests(u.trace[|s.trace|..]) <= cfg.maxTurns + 1)
            && (cfg.maxTurns > 0 && |t.rounds| >= cfg.maxTurns ==> outcome != Running)
            && (outcome != Running ==> Idle(u))
  {
    hide Rounds, Disciplined, Decayed;
    var k := |s.trace|;
    assert s.trace[k..] == [];
    match cfg.transform(t.input)
    case None => NoEvents();
    case Some(shown) =>
      var begun := Begin(cfg, s, t, shown);
      assert begun.trace == s.trace;
      NoEvents();
      RoundsAreWatched(cfg, begun, t, 0, t.rounds, k);
  }

  /** A fold settles the matter: until another request reports its prompt size or
      the history grows, looking again folds nothing, whatever the summary call
      would say. */
  lemma FreshFoldIsNotRefolded(cfg: Config, s: State, kind: FoldKind, outcome: SummaryOutcome, again: FoldKind, next: SummaryOutcome)
    ensures var t := MaybeCompact(cfg, s, kind, outcome).0;
            t.trace != s.trace ==> MaybeCompact(cfg, t, again, next) == (t, None)
  {
    hide PlanFold, EstimateTokens, FoldLimit;
    var t := Compact(cfg, s, kind, outcome).0;
    assert t.trace != s.trace ==> t.lastPrompt == 0;
  }

  // ----- Every turn of a session

  lemma FoldingKeepsRunning(cfg: Config, s: State, kind: FoldKind, outcome: SummaryOutcome)
    ensures Compact(cfg, s, kind, outcome).0.running == s.running
    ensures MaybeCompact(cfg, s, kind, outcome).0.running == s.running
  {
    hide PlanFold, EstimateTokens, FoldLimit, OverThreshold;
  }

  lemma RoundKeepsRunning(cfg: Config, s: State, r: Round)
    ensures RoundStep(cfg, s, r).state.running == s.running
  {
    hide MaybeCompact, Compact, AtBoundary, Numbered, ResultRows, MeasuredCalls, PreservedRows;
    FoldingKeepsRunning(cfg, s, Proactive, r.fold);
    var t := MaybeCompact(cfg, s, Proactive, r.fold).0;
    var u := Request(t, false, r.promptTokens).(pending := t.pending + r.steers);
    match r.stream {
      case Replied(reply) =>
        var v := AppendAll(cfg, u, [ReplyMessage(reply)]);
        BoundaryKeepsRunning(cfg, v, r, reply);
        BoundaryKeepsRunning(cfg, AfterTools(cfg, v, reply.calls, r.finished), r, reply);
      case Broke(partial, failure) =>
        var kept := AppendAll(cfg, u, PreservedRows(partial, failure));
        FoldingKeepsRunning(cfg, kept.(retriedOverflow := true, compacted := true), Overflow, r.retryFold);
    }
  }

  lemma BoundaryKeepsRunning(cfg: Config, s: State, r: Round, reply: Reply)
    ensures AtBoundary(cfg, s, r, reply).state.running == s.running
  {
    hide MaybeCompact, SteerMessages, Numbered;
    if r.boundary.Inject? {
      var t := AppendAll(cfg, s.(pending := []), SteerMessages(s.pending) + r.boundary.messages);
      FoldingKeepsRunning(cfg, t, Closing, r.closing);
    }
  }

  lemma {:induction false} RoundsKeepRunning(cfg: Config, s: State, t: TurnInput, done: nat, rounds: seq<Round>)
    requires Rounds(cfg, s, t, done, rounds).1 == Running
    ensures Rounds(cfg, s, t, done, rounds).0.running == s.running
    decreases |rounds|
  {
    hide RoundStep, FinalAnswer;
    FinalAnswerEnds(cfg, s, t.finalStream, t.finalPromptTokens);
    if !(cfg.maxTurns > 0 && done >= cfg.maxTurns) && rounds != [] {
      RoundKeepsRunning(cfg, s, rounds[0]);
      RoundEnds(cfg, s, rounds[0]);
      RoundsKeepRunning(cfg, RoundStep(cfg, s, rounds[0]).state, t, done + 1, rounds[1..]);
    }
  }

  lemma ActKeepsIdle(cfg: Config, s: State, a: Action)
    requires Idle(s)
    ensures Act(cfg, s, a).running || Idle(Act(cfg, s, a))
  {
    hide Rounds, Compact, Decayed, Disciplined, Requests;
    match a {
      case CompactNow(outcome) =>
        FoldingKeepsGuards(cfg, s, outcome);
      case TakeTurn(t) =>
        TurnIsBounded(cfg, s, t);
        if RunTurn(cfg, s, t).1 == Running {
          RoundsKeepRunning(cfg, Begin(cfg, s, t, cfg.transform(t.input).value), t, 0, t.rounds);
        }
    }
  }

  lemma FoldingKeepsGuards(cfg: Config, s: State, outcome: SummaryOutcome)
    ensures Idle(s) ==> Idle(Compact(cfg, s, Manual, outcome).0)
  {
    hide PlanFold;
  }

  lemma {:induction false} SessionKeepsIdle(cfg: Config, s: State, actions: seq<Action>)
    requires s.running || Idle(s)
    ensures Session(cfg, s, actions).running || Idle(Session(cfg, s, actions))
    decreases |actions|
  {
    hide Act;
    if actions != [] && !s.running {
      ActKeepsIdle(cfg, s, actions[0]);
      SessionKeepsIdle(cfg, Act(cfg, s, actions[0]), actions[1..]);
    }
  }

  /** The bounds hold of every turn of every session: whenever the agent is not in
      the middle of a turn, the next one starts with its guards down. */
  lemma EveryTurnIsBounded(cfg: Config, systemPrompt: string, actions: seq<Action>, t: TurnInput)
    requires !Session(cfg, Fresh(systemPrompt), actions).running
    ensures var s := Session(cfg, Fresh(systemPrompt), actions);
            var (u, outcome) := RunTurn(cfg, s, t);
            && |s.trace| <= |u.trace|
            && Disciplined(u.trace[|s.trace|..])
            && (cfg.maxTurns > 0 ==> Requests(u.trace[|s.trace|..]) <= cfg.maxTurns + 1)
            && (cfg.maxTurns > 0 && |t.rounds| >= cfg.maxTurns ==> outcome != Running)
            && (outcome != Running ==> Idle(u))
  {
    hide Session, RunTurn, Disciplined, Requests;
    SessionKeepsIdle(cfg, Fresh(systemPrompt), actions);
    TurnIsBounded(cfg, Session(cfg, Fresh(systemPrompt), actions), t);
  }
}
