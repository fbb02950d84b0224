/** Which rows a turn leaves in the raw log: exactly what came in and what was
    answered, in order, whatever was folded in between. */
module TurnRecords {
  import opened Transcript
  import opened Folding
  import opened Decay
  import opened Turn
  import TurnBounds

  /** The rows of a round that made its request. */
  function RoundRows(pending: seq<Steer>, r: Round): seq<Message> {
    match r.stream
    case Broke(partial, failure) => PreservedRows(partial, failure)
    case Replied(reply) =>
      [ReplyMessage(reply)]
      + ResultRows(reply.calls, r.finished)
      + (if (reply.calls != [] && r.cancelledAfterTools) || r.boundary.BoundaryFailed? then []
         else SteerMessages(pending + r.steers) + r.boundary.messages)
  }

  /** Steers that arrive while a request breaks wait for the next boundary. */
  function PendingAfter(pending: seq<Steer>, r: Round): seq<Steer> {
    if r.stream.Broke? then pending + r.steers else []
  }

  /** The rows of the first `n` rounds. */
  function RowsOfRounds(pending: seq<Steer>, rounds: seq<Round>, n: nat): seq<Message>
    requires n <= |rounds|
    decreases n
  {
    if n == 0 then [] else RoundRows(pending, rounds[0]) + RowsOfRounds(PendingAfter(pending, rounds[0]), rounds[1..], n - 1)
  }

  function FinalRows(stream: StreamOutcome): seq<Message> {
    match stream
    case Replied(reply) => [ReplyMessage(reply)]
    case Broke(partial, failure) => PreservedRows(partial, failure)
  }

  /** How many rounds of the turn got as far as their request, and whether it made
      the last one without tools. */
  function OrdinaryRequests(events: seq<Event>): nat {
    if events == [] then 0
    else OrdinaryRequests(events[..|events| - 1]) + (if events[|events| - 1] == Streamed(false) then 1 else 0)
  }

  predicate AskedFinally(events: seq<Event>) {
    Streamed(true) in events
  }

  /** `u` continues `s` with these rows and these events. */
  ghost predicate Records(cfg: Config, s: State, u: State, rows: seq<Message>, ordinary: nat, final: bool) {
    && u.log == s.log + Numbered(cfg, |s.log|, rows)
    && |s.trace| <= |u.trace| && u.trace[..|s.trace|] == s.trace
    && OrdinaryRequests(u.trace[|s.trace|..]) == ordinary
    && (AskedFinally(u.trace[|s.trace|..]) <==> final)
  }

  lemma NumberedConcat(cfg: Config, first: nat, a: seq<Message>, b: seq<Message>)
    ensures Numbered(cfg, first, a + b) == Numbered(cfg, first, a) + Numbered(cfg, first + |a|, b)
  {
  }

  lemma {:induction false} OrdinaryConcat(a: seq<Event>, b: seq<Event>)
    ensures OrdinaryRequests(a + b) == OrdinaryRequests(a) + OrdinaryRequests(b)
    ensures AskedFinally(a + b) <==> AskedFinally(a) || AskedFinally(b)
    decreases |b|
  {
    if b == [] {
      assert a + b == a;
    } else {
      OrdinaryConcat(a, b[..|b| - 1]);
      assert (a + b)[..|a + b| - 1] == a + b[..|b| - 1];
    }
  }

  /** What two stretches record adds up. */
  lemma RecordsTwice(cfg: Config, s: State, t: State, u: State, a: seq<Message>, b: seq<Message>, m: nat, n: nat, f: bool, g: bool)
    requires Records(cfg, s, t, a, m, f) && Records(cfg, t, u, b, n, g)
    ensures Records(cfg, s, u, a + b, m + n, f || g)
  {
    hide Numbered, AskedFinally, OrdinaryRequests;
    NumberedConcat(cfg, |s.log|, a, b);
    assert u.log == s.log + Numbered(cfg, |s.log|, a + b);
    assert u.trace[..|s.trace|] == s.trace by {
      assert u.trace[..|s.trace|] == u.trace[..|t.trace|][..|s.trace|];
    }
    assert u.trace[|s.trace|..] == t.trace[|s.trace|..] + u.trace[|t.trace|..] by {
      assert u.trace == t.trace + u.trace[|t.trace|..];
    }
    OrdinaryConcat(t.trace[|s.trace|..], u.trace[|t.trace|..]);
  }

  /** A stretch without requests: only folds happen. */
  lemma RecordsNothing(cfg: Config, s: State, u: State)
    requires u.log == s.log
    requires u.trace == s.trace
             || (exists e: Event :: !e.Streamed? && u.trace == s.trace + [e])
             || (exists e: Event :: !e.Streamed? && u.trace == s.trace + [e] + [Stalled])
    ensures Records(cfg, s, u, [], 0, false)
  {
    if u.trace == s.trace {
      assert u.trace[|s.trace|..] == [];
    } else if e: Event :| !e.Streamed? && u.trace == s.trace + [e] {
      assert u.trace[|s.trace|..] == [e];
      assert [e][..0] == [];
    } else {
      var e: Event :| !e.Streamed? && u.trace == s.trace + [e] + [Stalled];
      assert u.trace[|s.trace|..] == [e, Stalled];
      assert [e] + [Stalled] == [e, Stalled] && [e][..0] == [] && [Stalled][..0] == [];
      OrdinaryConcat([e], [Stalled]);
    }
  }

  lemma RecordsRows(cfg: Config, s: State, u: State, rows: seq<Message>)
    requires u.log == s.log + Numbered(cfg, |s.log|, rows) && u.trace == s.trace
    ensures Records(cfg, s, u, rows, 0, false)
  {
    assert u.trace[|s.trace|..] == [];
  }

  lemma RecordsRequest(cfg: Config, s: State, u: State, final: bool)
    requires u.log == s.log && u.trace == s.trace + [Streamed(final)]
    ensures Records(cfg, s, u, [], if final then 0 else 1, final)
  {
    assert u.trace[|s.trace|..] == [Streamed(final)];
    assert [Streamed(final)][..0] == [];
  }

  lemma CompactRecordsNothing(cfg: Config, s: State, kind: FoldKind, outcome: SummaryOutcome)
    ensures Records(cfg, s, Compact(cfg, s, kind, outcome).0, [], 0, false)
  {
    hide PlanFold, Records;
    RecordsNothing(cfg, s, Compact(cfg, s, kind, outcome).0);
  }

  lemma MaybeCompactRecordsNothing(cfg: Config, s: State, kind: FoldKind, outcome: SummaryOutcome)
    ensures Records(cfg, s, MaybeCompact(cfg, s, kind, outcome).0, [], 0, false)
  {
    hide PlanFold, Records, EstimateTokens, FoldLimit, OverThreshold;
    RecordsNothing(cfg, s, MaybeCompact(cfg, s, kind, outcome).0);
  }

  lemma BoundaryRecords(cfg: Config, s: State, r: Round, reply: Reply)
    ensures Records(cfg, s, AtBoundary(cfg, s, r, reply).state,
                    if r.boundary.BoundaryFailed? then [] else SteerMessages(s.pending) + r.boundary.messages, 0, false)
    ensures AtBoundary(cfg, s, r, reply).Continue? ==> AtBoundary(cfg, s, r, reply).state.pending == []
  {
    hide MaybeCompact, Records, Numbered, SteerMessages;
    var drained := s.(pending := []);
    match r.boundary
    case BoundaryFailed => RecordsNothing(cfg, s, drained);
    case Inject(messages) =>
      var rows := SteerMessages(s.pending) + messages;
      var t := AppendAll(cfg, drained, rows);
      RecordsRows(cfg, s, t, rows);
      MaybeCompactRecordsNothing(cfg, t, Closing, r.closing);
      var u := MaybeCompact(cfg, t, Closing, r.closing).0;
      RecordsTwice(cfg, s, t, u, rows, [], 0, 0, false, false);
      assert rows + [] == rows;
  }

  lemma ReplyRecords(cfg: Config, s: State, r: Round, reply: Reply)
    requires r.stream == Replied(reply)
    ensures Records(cfg, s, AfterReply(cfg, s, r, reply).state,
                    [ReplyMessage(reply)] + ResultRows(reply.calls, r.finished)
                    + (if (reply.calls != [] && r.cancelledAfterTools) || r.boundary.BoundaryFailed? then []
                       else SteerMessages(s.pending) + r.boundary.messages), 0, false)
    ensures AfterReply(cfg, s, r, reply).Continue? ==> AfterReply(cfg, s, r, reply).state.pending == []
  {
    hide AtBoundary, Records, Numbered, SteerMessages, ResultRows, MeasuredCalls;
    var head := [ReplyMessage(reply)];
    var results := ResultRows(reply.calls, r.finished);
    var t := AppendAll(cfg, s, head);
    RecordsRows(cfg, s, t, head);
    var u := if reply.calls == [] then t else AfterTools(cfg, t, reply.calls, r.finished);
    assert reply.calls == [] ==> results == [] && head + results == head;
    if reply.calls != [] {
      RecordsRows(cfg, t, u, results);
      RecordsTwice(cfg, s, t, u, head, results, 0, 0, false, false);
    }
    BoundaryRecords(cfg, u, r, reply);
    var rest := if r.boundary.BoundaryFailed? then [] else SteerMessages(u.pending) + r.boundary.messages;
    RecordsTwice(cfg, s, u, AtBoundary(cfg, u, r, reply).state, head + results, rest, 0, 0, false, false);
    assert head + results + [] == head + results;
  }

  lemma BreakRecords(cfg: Config, s: State, r: Round, partial: Reply, failure: Failure)
    ensures Records(cfg, s, AfterBreak(cfg, s, r, partial, failure).state, PreservedRows(partial, failure), 0, false)
    ensures AfterBreak(cfg, s, r, partial, failure).state.pending == s.pending
  {
    hide Compact, Records, Numbered, PreservedRows;
    var rows := PreservedRows(partial, failure);
    var kept := AppendAll(cfg, s, rows);
    RecordsRows(cfg, s, kept, rows);
    var marked := kept.(retriedOverflow := true, compacted := true);
    RecordsRows(cfg, s, marked, rows);
    CompactRecordsNothing(cfg, marked, Overflow, r.retryFold);
    CompactKeepsPending(cfg, marked, Overflow, r.retryFold);
    RecordsTwice(cfg, s, marked, Compact(cfg, marked, Overflow, r.retryFold).0, rows, [], 0, 0, false, false);
    assert rows + [] == rows;
  }

  lemma CompactKeepsPending(cfg: Config, s: State, kind: FoldKind, outcome: SummaryOutcome)
    ensures Compact(cfg, s, kind, outcome).0.pending == s.pending
    ensures MaybeCompact(cfg, s, kind, outcome).0.pending == s.pending
  {
    hide PlanFold, EstimateTokens, FoldLimit, OverThreshold;
  }

  /** A round that got as far as its request leaves its rows, all of them and in
      order; a round that ended before leaves nothing. */
  lemma RoundRecords(cfg: Config, s: State, r: Round)
    ensures var error := MaybeCompact(cfg, s, Proactive, r.fold).1;
            var step := RoundStep(cfg, s, r);
            && (error.None? ==> Records(cfg, s, step.state, RoundRows(s.pending, r), 1, false))
            && (error.Some? ==> step.Exit? && Records(cfg, s, step.state, [], 0, false))
            && (step.Continue? ==> step.state.pending == PendingAfter(s.pending, r))
  {
    hide MaybeCompact, AfterReply, AfterBreak, Records, Numbered;
    var (t, error) := MaybeCompact(cfg, s, Proactive, r.fold);
    MaybeCompactRecordsNothing(cfg, s, Proactive, r.fold);
    CompactKeepsPending(cfg, s, Proactive, r.fold);
    if error.None? {
      var u := Request(t, false, r.promptTokens).(pending := t.pending + r.steers);
      RecordsRequest(cfg, t, u, false);
      RecordsTwice(cfg, s, t, u, [], [], 0, 1, false, false);
      var end := RoundStep(cfg, s, r).state;
      match r.stream {
        case Replied(reply) => ReplyRecords(cfg, u, r, reply);
        case Broke(partial, failure) => BreakRecords(cfg, u, r, partial, failure);
      }
      var rows := RoundRows(s.pending, r);
      assert Records(cfg, u, end, rows, 0, false);
      assert [] + [] + rows == rows;
      RecordsTwice(cfg, s, u, end, [] + [], rows, 1, 0, false, false);
    }
  }

  lemma FinalAnswerRecords(cfg: Config, s: State, stream: StreamOutcome, promptTokens: int)
    ensures Records(cfg, s, FinalAnswer(cfg, s, stream, promptTokens).0, FinalRows(stream), 0, true)
  {
    hide Records, Numbered, PreservedRows;
    var t := Request(s, true, promptTokens);
    var u := FinalAnswer(cfg, s, stream, promptTokens).0;
    RecordsRequest(cfg, s, t, true);
    RecordsRows(cfg, t, u, FinalRows(stream));
    RecordsTwice(cfg, s, t, u, [], FinalRows(stream), 0, 0, true, false);
    assert [] + FinalRows(stream) == FinalRows(stream);
  }

  lemma RowsOfOne(pending: seq<Steer>, rounds: seq<Round>, n: nat)
    requires rounds != [] && n <= 1
    ensures RowsOfRounds(pending, rounds, n) + [] == if n == 1 then RoundRows(pending, rounds[0]) else []
  {
    hide RoundRows;
    assert RowsOfRounds(PendingAfter(pending, rounds[0]), rounds[1..], 0) == [];
  }

  /** The rounds leave the rows of a prefix of them, and the final rows exactly if
      the final request was made. */
  lemma {:induction false} RoundsRecord(cfg: Config, s: State, t: TurnInput, done: nat, rounds: seq<Round>) returns (n: nat, final: bool)
    ensures n <= |rounds|
    ensures Records(cfg, s, Rounds(cfg, s, t, done, rounds).0,
                    RowsOfRounds(s.pending, rounds, n) + (if final then FinalRows(t.finalStream) else []), n, final)
    decreases |rounds|
  {
    hide Records, RoundStep, FinalAnswer, FinalRows, RoundRows, MaybeCompact, PendingAfter;
    if cfg.maxTurns > 0 && done >= cfg.maxTurns {
      FinalAnswerRecords(cfg, s, t.finalStream, t.finalPromptTokens);
      n, final := 0, true;
      assert [] + FinalRows(t.finalStream) == FinalRows(t.finalStream);
    } else if rounds == [] {
      RecordsNothing(cfg, s, s);
      n, final := 0, false;
      assert RowsOfRounds(s.pending, rounds, 0) + [] == [];
    } else {
      RoundRecords(cfg, s, rounds[0]);
      match RoundStep(cfg, s, rounds[0]) {
        case Continue(u) =>
          var m, g := RoundsRecord(cfg, u, t, done + 1, rounds[1..]);
          n, final := m + 1, g;
          var last := if g then FinalRows(t.finalStream) else [];
          var first, rest := RoundRows(s.pending, rounds[0]), RowsOfRounds(u.pending, rounds[1..], m);
          RecordsTwice(cfg, s, u, Rounds(cfg, u, t, done + 1, rounds[1..]).0, first, rest + last, 1, m, false, g);
          assert first + (rest + last) == RowsOfRounds(s.pending, rounds, n) + last;
        case Exit(u, _) =>
          n, final := if MaybeCompact(cfg, s, Proactive, rounds[0].fold).1.None? then 1 else 0, false;
          RowsOfOne(s.pending, rounds, n);
      }
    }
  }

  /** The raw log after a turn is the raw log before it, then the prefix, the input
      as it was submitted, the rows of every round that made its request, and the
      rows of the final request if there was one: nothing lost, nothing invented,
      in order, whatever was folded on the way. */
  lemma TurnRecordsEverything(cfg: Config, s: State, t: TurnInput)
    requires TurnBounds.Idle(s) && cfg.transform(t.input).Some?
    ensures var u := RunTurn(cfg, s, t).0;
            && |s.trace| <= |u.trace|
            && var events := u.trace[|s.trace|..];
               var n := OrdinaryRequests(events);
               && n <= |t.rounds|
               && u.log == s.log + Numbered(cfg, |s.log|,
                    t.prefix + [UserText(t.input, t.parts, t.authored)] + RowsOfRounds([], t.rounds, n)
                    + (if AskedFinally(events) then FinalRows(t.finalStream) else []))
  {
    hide Rounds, Numbered, Decayed, FinalRows, RowsOfRounds, OrdinaryRequests, AskedFinally;
    var shown := cfg.transform(t.input).value;
    var row := UserText(t.input, t.parts, t.authored);
    var begun := Begin(cfg, s, t, shown);
    BeginRecords(cfg, s, t, shown);
    var n, final := RoundsRecord(cfg, begun, t, 0, t.rounds);
    var u := Rounds(cfg, begun, t, 0, t.rounds).0;
    var rest := RowsOfRounds([], t.rounds, n) + (if final then FinalRows(t.finalStream) else []);
    RecordsTwice(cfg, s, begun, u, t.prefix + [row], rest, 0, n, false, final);
    assert t.prefix + [row] + rest
        == t.prefix + [row] + RowsOfRounds([], t.rounds, n) + (if final then FinalRows(t.finalStream) else []);
    assert RunTurn(cfg, s, t).0.log == u.log && RunTurn(cfg, s, t).0.trace == u.trace;
  }

  lemma BeginRecords(cfg: Config, s: State, t: TurnInput, shown: string)
    ensures Records(cfg, s, Begin(cfg, s, t, shown), t.prefix + [UserText(t.input, t.parts, t.authored)], 0, false)
    ensures Begin(cfg, s, t, shown).pending == s.pending
  {
    hide Decayed, Records;
    var row := UserText(t.input, t.parts, t.authored);
    NumberedConcat(cfg, |s.log|, t.prefix, [row]);
    assert Numbered(cfg, |s.log| + |t.prefix|, [row]) == [row.(rawSequence := cfg.number(|s.log| + |t.prefix|))];
    RecordsRows(cfg, s, Begin(cfg, s, t, shown), t.prefix + [row]);
  }

  // ----- The answer

  /** The text a turn returns is the text of the last row it recorded, an assistant
      message that requests no tool unless it answered the request without tools. */
  ghost predicate EndsWithReply(log: seq<Message>, text: string) {
    && log != []
    && log[|log| - 1].role.Assistant?
    && log[|log| - 1].content == text
  }

  lemma BoundaryAnswers(cfg: Config, s: State, r: Round, reply: Reply, text: string)
    requires AtBoundary(cfg, s, r, reply).Exit? && AtBoundary(cfg, s, r, reply).outcome == Answered(text)
    requires EndsWithReply(s.log, reply.content)
    ensures EndsWithReply(AtBoundary(cfg, s, r, reply).state.log, text) && reply.calls == []
  {
    hide MaybeCompact, SteerMessages, Records;
    BoundaryRecords(cfg, s, r, reply);
    RecordsUnfold(cfg, s, AtBoundary(cfg, s, r, reply).state, SteerMessages(s.pending) + r.boundary.messages);
  }

  lemma RecordsUnfold(cfg: Config, s: State, u: State, rows: seq<Message>)
    requires Records(cfg, s, u, rows, 0, false)
    ensures rows == [] ==> u.log == s.log
  {
  }

  lemma RoundAnswers(cfg: Config, s: State, r: Round, text: string)
    requires RoundStep(cfg, s, r).Exit? && RoundStep(cfg, s, r).outcome == Answered(text)
    ensures EndsWithReply(RoundStep(cfg, s, r).state.log, text)
    ensures r.stream.Replied? && r.stream.reply.content == text && r.stream.reply.calls == []
  {
    hide MaybeCompact, AtBoundary, Compact;
    var t := MaybeCompact(cfg, s, Proactive, r.fold).0;
    var u := Request(t, false, r.promptTokens).(pending := t.pending + r.steers);
    var reply := r.stream.reply;
    var v := AppendAll(cfg, u, [ReplyMessage(reply)]);
    if reply.calls != [] {
      CallsNeverAnswer(cfg, AfterTools(cfg, v, reply.calls, r.finished), r, reply);
    } else {
      BoundaryAnswersWith(cfg, v, r, reply);
      BoundaryAnswers(cfg, v, r, reply, text);
    }
  }

  lemma CallsNeverAnswer(cfg: Config, s: State, r: Round, reply: Reply)
    requires reply.calls != []
    ensures AtBoundary(cfg, s, r, reply).Exit? ==> AtBoundary(cfg, s, r, reply).outcome.Failed?
  {
    hide MaybeCompact, SteerMessages, Numbered;
  }

  lemma BoundaryAnswersWith(cfg: Config, s: State, r: Round, reply: Reply)
    ensures AtBoundary(cfg, s, r, reply).Exit? && AtBoundary(cfg, s, r, reply).outcome.Answered?
            ==> AtBoundary(cfg, s, r, reply).outcome.text == reply.content
  {
    hide MaybeCompact, SteerMessages, Numbered;
  }

  lemma {:induction false} RoundsAnswer(cfg: Config, s: State, t: TurnInput, done: nat, rounds: seq<Round>, text: string)
    requires Rounds(cfg, s, t, done, rounds).1 == Answered(text)
    ensures EndsWithReply(Rounds(cfg, s, t, done, rounds).0.log, text)
    decreases |rounds|
  {
    hide RoundStep, EndsWithReply, FinalAnswer;
    if cfg.maxTurns > 0 && done >= cfg.maxTurns {
      FinalAnswerAnswers(cfg, s, t.finalStream, t.finalPromptTokens, text);
    } else if rounds != [] {
      match RoundStep(cfg, s, rounds[0])
      case Continue(u) => RoundsAnswer(cfg, u, t, done + 1, rounds[1..], text);
      case Exit(_, _) => RoundAnswers(cfg, s, rounds[0], text);
    }
  }

  lemma FinalAnswerAnswers(cfg: Config, s: State, stream: StreamOutcome, promptTokens: int, text: string)
    requires FinalAnswer(cfg, s, stream, promptTokens).1 == Answered(text)
    ensures EndsWithReply(FinalAnswer(cfg, s, stream, promptTokens).0.log, text)
  {
  }

  lemma TurnAnswersWithLastRow(cfg: Config, s: State, t: TurnInput, text: string)
    requires RunTurn(cfg, s, t).1 == Answered(text)
    ensures EndsWithReply(RunTurn(cfg, s, t).0.log, text)
  {
    hide Rounds, EndsWithReply, Begin;
    var shown := cfg.transform(t.input).value;
    RoundsAnswer(cfg, Begin(cfg, s, t, shown), t, 0, t.rounds, text);
  }
}
