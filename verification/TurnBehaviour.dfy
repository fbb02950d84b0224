/** What a turn does, said about its inputs and its results alone: whose output a
    tool result carries, which failure earns a retry, when a fold happens, how a
    round ends, and what each recorded row says. */
module TurnBehaviour {
  import opened Transcript
  import opened TailBoundary
  import opened Folding
  import opened Decay
  import opened Turn
  import TurnBounds
  import TurnLaws
  import TurnRecords

  // ----- Tool results

  /** Report `k` is the last one of worker `i`. */
  ghost predicate LastReport(finished: seq<Completion>, k: nat, i: nat) {
    k < |finished| && finished[k].index == i && forall l :: k < l < |finished| ==> finished[l].index != i
  }

  predicate Reported(finished: seq<Completion>, i: nat) {
    exists k :: 0 <= k < |finished| && finished[k].index == i
  }

  predicate ReadsAsError(output: string) {
    "error" <= output || "Error" <= output
  }

  /** The row answers this call and says what its own worker last reported; a worker
      that never reported has said nothing. */
  ghost predicate Carries(row: Message, call: ToolCall, finished: seq<Completion>, i: nat) {
    && row.role.Tool? && row.toolCallID == call.id && row.name == call.name
    && row.parts == [] && row.toolCalls == [] && row.continuation == 0 && !row.authored
    && (forall k: nat :: LastReport(finished, k, i) ==> row.content == finished[k].output)
    && (!Reported(finished, i) ==> row.content == "")
  }

  /** The call with the time and the exit code of that same report. */
  ghost predicate MeasuredBy(shown: ToolCall, call: ToolCall, finished: seq<Completion>, i: nat) {
    && shown.id == call.id && shown.name == call.name && shown.arguments == call.arguments
    && (forall k: nat :: LastReport(finished, k, i) ==>
          shown.durationMs == finished[k].ms && shown.exitCode == if ReadsAsError(finished[k].output) then 1 else 0)
    && (!Reported(finished, i) ==> shown == call)
  }

  /** Dropping a last report of another worker changes nothing for this one. */
  lemma ReportsBefore(finished: seq<Completion>, i: nat)
    requires finished != [] && finished[|finished| - 1].index != i
    ensures var front := finished[..|finished| - 1];
            && (Reported(finished, i) <==> Reported(front, i))
            && forall k: nat :: LastReport(finished, k, i) ==> k < |front| && LastReport(front, k, i)
  {
    var front := finished[..|finished| - 1];
    if Reported(finished, i) {
      var k :| 0 <= k < |finished| && finished[k].index == i;
      assert front[k].index == i;
    }
    if Reported(front, i) {
      var k :| 0 <= k < |front| && front[k].index == i;
      assert finished[k].index == i;
    }
  }

  lemma NewestReport(finished: seq<Completion>, i: nat)
    requires finished != [] && finished[|finished| - 1].index == i
    ensures Reported(finished, i) && forall k: nat :: LastReport(finished, k, i) ==> k == |finished| - 1
  {
  }

  lemma {:induction false} ReportOfIsLast(finished: seq<Completion>, i: nat)
    ensures Reported(finished, i) <==> ReportOf(finished, i).Some?
    ensures forall k: nat :: LastReport(finished, k, i) ==> k < |finished| && ReportOf(finished, i) == Some(finished[k])
  {
    hide Reported, LastReport;
    if finished == [] {
      NobodyReported(i);
    } else if finished[|finished| - 1].index == i {
      NewestReport(finished, i);
    } else {
      ReportsBefore(finished, i);
      ReportOfIsLast(finished[..|finished| - 1], i);
    }
  }

  lemma NobodyReported(i: nat)
    ensures !Reported([], i) && forall k: nat :: !LastReport([], k, i)
  {
  }

  lemma ResultCarriesReport(calls: seq<ToolCall>, finished: seq<Completion>, i: nat)
    requires i < |calls|
    ensures Carries(ResultRows(calls, finished)[i], calls[i], finished, i)
    ensures MeasuredBy(MeasuredCalls(calls, finished)[i], calls[i], finished, i)
  {
    hide ReportOf;
    ReportOfIsLast(finished, i);
  }

  /** Whatever order workers report in: the row of each call, in the log and in the
      view, carries what its own worker last reported, and so do the measurements
      on the call. */
  lemma ToolsAnswerTheirCalls(cfg: Config, s: State, calls: seq<ToolCall>, finished: seq<Completion>)
    requires s.messages != []
    ensures var u, at := AfterTools(cfg, s, calls, finished), |s.messages| - 1;
            && |u.log| == |s.log| + |calls| && u.log[..|s.log|] == s.log
            && |u.messages| == |s.messages| + |calls| && u.messages[..at] == s.messages[..at]
            && u.messages[at] == s.messages[at].(toolCalls := u.messages[at].toolCalls) && |u.messages[at].toolCalls| == |calls|
            && forall i :: 0 <= i < |calls| ==>
                 && Carries(u.log[|s.log| + i], calls[i], finished, i)
                 && u.log[|s.log| + i].rawSequence == cfg.number(|s.log| + i)
                 && u.messages[|s.messages| + i] == u.log[|s.log| + i]
                 && MeasuredBy(u.messages[at].toolCalls[i], calls[i], finished, i)
  {
    hide Carries, MeasuredBy, ResultRows, MeasuredCalls;
    var u, at := AfterTools(cfg, s, calls, finished), |s.messages| - 1;
    forall i | 0 <= i < |calls|
      ensures Carries(u.log[|s.log| + i], calls[i], finished, i)
      ensures u.log[|s.log| + i].rawSequence == cfg.number(|s.log| + i)
      ensures u.messages[|s.messages| + i] == u.log[|s.log| + i]
      ensures MeasuredBy(u.messages[at].toolCalls[i], calls[i], finished, i)
    {
      ResultCarriesReport(calls, finished, i);
      NumberCarries(ResultRows(calls, finished)[i], cfg.number(|s.log| + i), calls[i], finished, i);
    }
  }

  lemma NumberCarries(row: Message, sequence: int, call: ToolCall, finished: seq<Completion>, i: nat)
    requires Carries(row, call, finished, i)
    ensures Carries(row.(rawSequence := sequence), call, finished, i)
  {
  }

  // ----- What the rows of a round say

  /** A message with these fields and nothing else. */
  ghost predicate Says(m: Message, role: Role, content: string) {
    && m.role == role && m.content == content
    && m.toolCallID == "" && m.name == "" && m.rawSequence == 0
  }

  ghost predicate IsReply(m: Message, content: string, reply: Reply) {
    && Says(m, Assistant, content) && m.toolCalls == reply.calls && m.continuation == reply.continuation
    && m.parts == [] && !m.authored
  }

  ghost predicate IsSteer(m: Message, steer: Steer) {
    && Says(m, User, steer.text) && m.parts == steer.parts && !m.authored
    && m.toolCalls == [] && m.continuation == 0
  }

  /** An answered round records the reply, one result per call, then every pending
      steer and every injected message; the last two only if the round got there. */
  lemma RowsOfAnsweredRound(pending: seq<Steer>, r: Round)
    requires r.stream.Replied?
    ensures var rows, reply := TurnRecords.RoundRows(pending, r), r.stream.reply;
            var steers, n := pending + r.steers, |reply.calls|;
            var reached := !(n > 0 && r.cancelledAfterTools) && r.boundary.Inject?;
            && |rows| == 1 + n + (if reached then |steers| + |r.boundary.messages| else 0)
            && IsReply(rows[0], reply.content, reply)
            && (forall i :: 0 <= i < n ==> Carries(rows[1 + i], reply.calls[i], r.finished, i))
            && (reached ==>
                  && (forall i :: 0 <= i < |steers| ==> IsSteer(rows[1 + n + i], steers[i]))
                  && rows[1 + n + |steers|..] == r.boundary.messages)
  {
    hide Carries, ReportOf, ResultRows;
    var rows, reply := TurnRecords.RoundRows(pending, r), r.stream.reply;
    var results := ResultRows(reply.calls, r.finished);
    forall i | 0 <= i < |reply.calls| ensures Carries(rows[1 + i], reply.calls[i], r.finished, i) {
      ResultCarriesReport(reply.calls, r.finished, i);
      assert rows[1 + i] == results[i];
    }
  }

  /** A broken round records nothing if nothing arrived; else the text so far, marked
      as interrupted unless it had arrived completely, and for every requested tool
      a result that says it did not run. */
  lemma RowsOfBrokenRound(pending: seq<Steer>, r: Round)
    requires r.stream.Broke?
    ensures BrokenRows(TurnRecords.RoundRows(pending, r), r.stream.partial, r.stream.failure)
  {
    BrokenRowsOf(r.stream.partial, r.stream.failure);
  }

  ghost predicate BrokenRows(rows: seq<Message>, partial: Reply, failure: Failure) {
    if partial.content == "" && partial.calls == [] then rows == []
    else
      && |rows| == 1 + |partial.calls|
      && IsReply(rows[0], if failure == AccountingComplete then partial.content else partial.content + "\n[response interrupted]", partial)
      && forall i :: 0 <= i < |partial.calls| ==>
           && rows[1 + i].role.Tool? && rows[1 + i].content == "Not executed: model accounting stopped this turn."
           && rows[1 + i].toolCallID == partial.calls[i].id && rows[1 + i].name == partial.calls[i].name
           && rows[1 + i].parts == [] && rows[1 + i].toolCalls == []
  }

  lemma BrokenRowsOf(partial: Reply, failure: Failure)
    ensures BrokenRows(PreservedRows(partial, failure), partial, failure)
  {
  }

  /** The request without tools records its reply, or what a broken round would. */
  lemma RowsOfFinalRequest(stream: StreamOutcome)
    ensures var rows := TurnRecords.FinalRows(stream);
            match stream
            case Replied(reply) => |rows| == 1 && IsReply(rows[0], reply.content, reply)
            case Broke(partial, failure) => BrokenRows(rows, partial, failure)
  {
    if stream.Broke? {
      BrokenRowsOf(stream.partial, stream.failure);
    }
  }

  // ----- How a turn begins

  /** Message by message, `recorded` is `rows` under the next numbers. */
  ghost predicate RecordedAs(cfg: Config, first: nat, rows: seq<Message>, recorded: seq<Message>) {
    && |recorded| == |rows|
    && forall i :: 0 <= i < |rows| ==> recorded[i] == rows[i].(rawSequence := cfg.number(first + i))
  }

  ghost predicate IsInput(row: Message, t: TurnInput, sequence: int) {
    && Says(row.(rawSequence := 0), User, t.input) && row.rawSequence == sequence
    && row.parts == t.parts && row.authored == t.authored && row.toolCalls == [] && row.continuation == 0
  }

  lemma NumberedIsRecorded(cfg: Config, first: nat, rows: seq<Message>)
    ensures RecordedAs(cfg, first, rows, Numbered(cfg, first, rows))
  {
  }

  /** The old view is decayed, then the prefix follows, then the input: recorded as
      it was submitted, shown as it was rewritten. */
  lemma TurnBegins(cfg: Config, s: State, t: TurnInput, shown: string)
    ensures var u, n, k := Begin(cfg, s, t, shown), |s.messages|, |s.log|;
            && |u.messages| == n + |t.prefix| + 1 && u.messages[..n] == Decayed(t.host, s.messages)
            && |u.log| == k + |t.prefix| + 1 && u.log[..k] == s.log
            && RecordedAs(cfg, k, t.prefix, u.log[k..k + |t.prefix|])
            && u.messages[n..n + |t.prefix|] == u.log[k..k + |t.prefix|]
            && IsInput(u.log[k + |t.prefix|], t, cfg.number(k + |t.prefix|))
            && u.messages[n + |t.prefix|] == u.log[k + |t.prefix|].(content := shown)
            && u.running && u.trace == s.trace && u.lastPrompt == s.lastPrompt && u.pending == s.pending
            && u.compacted == s.compacted && u.compactStalled == s.compactStalled && u.retriedOverflow == s.retriedOverflow
  {
    hide Decayed;
    NumberedIsRecorded(cfg, |s.log|, t.prefix);
  }

  /** A refused input changes nothing. */
  lemma RefusedInput(cfg: Config, s: State, t: TurnInput)
    requires cfg.transform(t.input).None?
    ensures RunTurn(cfg, s, t) == (s, Failed("", InputRejected))
  {
    hide Rounds, Begin;
  }

  // ----- When a fold happens

  /** The share of the window at which folding is due: half unless configured. */
  function DueAt(cfg: Config): int {
    Truncated((if cfg.compactThreshold > 0.0 then cfg.compactThreshold else 0.5) * cfg.contextLimit as real)
  }

  /** The size that counts: what the provider last reported, or else the estimate. */
  function SizeOf(s: State): int {
    if s.lastPrompt > 0 then s.lastPrompt else EstimateTokens(s.messages)
  }

  ghost predicate FoldIsDue(cfg: Config, s: State) {
    cfg.contextLimit != 0 && !s.compactStalled && SizeOf(s) >= DueAt(cfg)
  }

  ghost predicate HasHistory(cfg: Config, s: State) {
    PlanFold(s.messages, Budget(cfg)).Some?
  }

  /** `u` is `s` after a fold: the view is folded around the trimmed summary, the
      reported size is forgotten, and the trace says so. */
  ghost predicate FoldedTo(cfg: Config, s: State, u: State, kind: FoldKind, text: string)
    requires HasHistory(cfg, s)
  {
    var plan := PlanFold(s.messages, Budget(cfg)).value;
    && u.messages == Folded(s.messages, plan, TrimSpace(text))
    && u.lastPrompt == 0 && u.log == s.log && u.pending == s.pending && u.running == s.running
    && u.retriedOverflow == s.retriedOverflow
    && |u.trace| > |s.trace| && u.trace[..|s.trace|] == s.trace
    && u.trace[|s.trace|] == Summarized(kind, plan.prior, TrimSpace(text))
  }

  /** A fold happens exactly when one is due, there is history to fold and the
      summary call gives a text. Then the turn is marked as folded, and as stalled
      exactly if the estimate is still not below the threshold. Otherwise nothing
      changes. The turn ends exactly if the summary failed or is unsettled. */
  lemma FoldsExactlyWhenDue(cfg: Config, s: State, kind: FoldKind, outcome: SummaryOutcome)
    ensures var (u, error) := MaybeCompact(cfg, s, kind, outcome);
            var due := FoldIsDue(cfg, s) && HasHistory(cfg, s);
            && (due && outcome.SummaryText? ==>
                  var stalled := EstimateTokens(u.messages) >= DueAt(cfg);
                  && FoldedTo(cfg, s, u, kind, outcome.text)
                  && u.trace[|s.trace| + 1..] == (if stalled then [Stalled] else [])
                  && u.compacted && (u.compactStalled <==> stalled))
            && (!(due && outcome.SummaryText?) ==> u == s)
            && (error == Some(SummaryError) <==> due && outcome == SummaryFailed)
            && (error == Some(SummaryUnsettled) <==> due && outcome.SummaryText? && outcome.unsettled)
            && (error.None? || error == Some(SummaryError) || error == Some(SummaryUnsettled))
  {
    hide PlanFold, EstimateTokens, TrimSpace, Budget, Truncated, Folded;
    var (t, status) := Compact(cfg, s, kind, outcome);
    if FoldIsDue(cfg, s) && HasHistory(cfg, s) && outcome.SummaryText? {
      FoldChanges(cfg, s, kind, outcome);
    }
  }

  lemma FoldChanges(cfg: Config, s: State, kind: FoldKind, outcome: SummaryOutcome)
    requires HasHistory(cfg, s) && outcome.SummaryText?
    ensures var (t, status) := Compact(cfg, s, kind, outcome);
            && FoldedTo(cfg, s, t, kind, outcome.text) && |t.trace| == |s.trace| + 1
            && t.compacted == s.compacted && t.compactStalled == s.compactStalled
            && status == if outcome.unsettled then FoldUnsettled else FoldDone
  {
    hide PlanFold, TrimSpace, Budget, Folded;
  }

  /** The tail budget of a fold goes by the same share of the window. */
  lemma BudgetFollowsThreshold(cfg: Config)
    ensures Budget(cfg) == TailBudget(cfg.contextLimit, if cfg.compactThreshold > 0.0 then cfg.compactThreshold else 0.5)
  {
    hide TailBudget;
  }

  // ----- How a round ends

  /** The state in which the provider's answer is taken up: one request was made, and
      a size it reported replaces the one before. */
  ghost predicate Asked(t: State, u: State, r: Round) {
    && u.trace == t.trace + [Streamed(false)]
    && u.lastPrompt == (if r.promptTokens > 0 then r.promptTokens else t.lastPrompt)
    && u.compacted == t.compacted && u.compactStalled == t.compactStalled && u.retriedOverflow == t.retriedOverflow
    && u.running == t.running
  }

  /** The same rows were added to the log and to the view. */
  ghost predicate Recorded(cfg: Config, t: State, u: State, rows: seq<Message>) {
    && |u.log| == |t.log| + |rows| && u.log[..|t.log|] == t.log
    && |u.messages| == |t.messages| + |rows| && u.messages[..|t.messages|] == t.messages
    && u.messages[|t.messages|..] == u.log[|t.log|..]
    && RecordedAs(cfg, |t.log|, rows, u.log[|t.log|..])
  }

  lemma AppendedIsRecorded(cfg: Config, t: State, u: State, rows: seq<Message>)
    requires u.messages == t.messages + Numbered(cfg, |t.log|, rows) && u.log == t.log + Numbered(cfg, |t.log|, rows)
    ensures Recorded(cfg, t, u, rows)
  {
    NumberedIsRecorded(cfg, |t.log|, rows);
    assert u.log[|t.log|..] == Numbered(cfg, |t.log|, rows) && u.messages[|t.messages|..] == Numbered(cfg, |t.log|, rows);
  }

  /** A rejection for length, the first of the turn, while nobody cancelled. */
  predicate EarnsRetry(s: State, r: Round, failure: Failure) {
    failure == ContextLimit && !s.retriedOverflow && !r.cancelledAfterStream
  }

  /** The state that a request leaves for its answer. */
  lemma Asking(cfg: Config, s: State, r: Round) returns (u: State)
    requires MaybeCompact(cfg, s, Proactive, r.fold).1.None?
    ensures var t := MaybeCompact(cfg, s, Proactive, r.fold).0;
            && Asked(t, u, r) && u.messages == t.messages && u.log == t.log
            && u.pending == s.pending + r.steers && u.retriedOverflow == s.retriedOverflow
    ensures RoundStep(cfg, s, r) == match r.stream
            case Replied(reply) => AfterReply(cfg, u, r, reply)
            case Broke(partial, failure) => AfterBreak(cfg, u, r, partial, failure)
  {
    hide MaybeCompact, AfterReply, AfterBreak, FoldIsDue, PlanFold, Folded;
    FoldsExactlyWhenDue(cfg, s, Proactive, r.fold);
    var t := MaybeCompact(cfg, s, Proactive, r.fold).0;
    u := Request(t, false, r.promptTokens).(pending := t.pending + r.steers);
  }

  /** How a broken request ends, from the state that has what had arrived. */
  ghost predicate BreakEnds(cfg: Config, kept: State, retry: bool, r: Round, partial: Reply, failure: Failure, step: Step) {
    if retry then
      var text := r.retryFold.SummaryText?;
      && kept.retriedOverflow && kept.compacted
      && (step.Continue? <==> HasHistory(cfg, kept) && text && !r.retryFold.unsettled)
      && (step.Exit? ==>
            && step.outcome.Failed? && step.outcome.text == ""
            && (step.outcome.reason == CompactionExhausted <==> !HasHistory(cfg, kept))
            && (step.outcome.reason == SummaryError <==> HasHistory(cfg, kept) && !text)
            && (step.outcome.reason == SummaryUnsettled <==> HasHistory(cfg, kept) && text && r.retryFold.unsettled))
      && (if HasHistory(cfg, kept) && text then
            FoldedTo(cfg, kept, step.state, Overflow, r.retryFold.text) && |step.state.trace| == |kept.trace| + 1
          else step.state == kept)
    else step == Exit(kept, Failed(partial.content, StreamError(failure)))
  }

  lemma AfterBreakEnds(cfg: Config, u: State, r: Round, partial: Reply, failure: Failure) returns (kept: State)
    ensures Recorded(cfg, u, kept, PreservedRows(partial, failure))
    ensures kept.(messages := u.messages, log := u.log, retriedOverflow := u.retriedOverflow, compacted := u.compacted) == u
    ensures BreakEnds(cfg, kept, EarnsRetry(u, r, failure), r, partial, failure, AfterBreak(cfg, u, r, partial, failure))
  {
    hide Numbered, PreservedRows, PlanFold, TrimSpace, Budget, Folded, RecordedAs;
    var rows := PreservedRows(partial, failure);
    kept := AppendAll(cfg, u, rows);
    if EarnsRetry(u, r, failure) {
      kept := kept.(retriedOverflow := true, compacted := true);
      if HasHistory(cfg, kept) && r.retryFold.SummaryText? {
        FoldChanges(cfg, kept, Overflow, r.retryFold);
      }
    }
    AppendedIsRecorded(cfg, u, kept, rows);
  }

  /** A broken request. Only a first rejection for length is answered by a fold, and
      the round goes on exactly if that fold was possible and settled; the three ways
      in which it was not have their own reasons. Every other failure ends the turn
      as it came, with what had arrived, and nothing happens after the request. */
  lemma BrokenRoundEnds(cfg: Config, s: State, r: Round) returns (kept: State)
    requires MaybeCompact(cfg, s, Proactive, r.fold).1.None? && r.stream.Broke?
    ensures var t := MaybeCompact(cfg, s, Proactive, r.fold).0;
            && Asked(t, kept.(retriedOverflow := t.retriedOverflow, compacted := t.compacted), r)
            && BrokenRows(TurnRecords.RoundRows(s.pending, r), r.stream.partial, r.stream.failure)
            && Recorded(cfg, t, kept, TurnRecords.RoundRows(s.pending, r))
            && kept.pending == s.pending + r.steers
    ensures BreakEnds(cfg, kept, EarnsRetry(s, r, r.stream.failure), r, r.stream.partial, r.stream.failure, RoundStep(cfg, s, r))
  {
    hide *;
    var u := Asking(cfg, s, r);
    kept := AfterBreakEnds(cfg, u, r, r.stream.partial, r.stream.failure);
    BrokenRowsOf(r.stream.partial, r.stream.failure);
    KeptFromAsked(cfg, MaybeCompact(cfg, s, Proactive, r.fold).0, s, u, kept, r);
  }

  lemma KeptFromAsked(cfg: Config, t: State, s: State, u: State, kept: State, r: Round)
    requires r.stream.Broke? && Asked(t, u, r) && u.log == t.log && u.messages == t.messages && u.retriedOverflow == s.retriedOverflow
    requires Recorded(cfg, u, kept, PreservedRows(r.stream.partial, r.stream.failure))
    requires kept.(messages := u.messages, log := u.log, retriedOverflow := u.retriedOverflow, compacted := u.compacted) == u
    ensures Asked(t, kept.(retriedOverflow := t.retriedOverflow, compacted := t.compacted), r)
    ensures TurnRecords.RoundRows(s.pending, r) == PreservedRows(r.stream.partial, r.stream.failure)
    ensures Recorded(cfg, t, kept, TurnRecords.RoundRows(s.pending, r))
    ensures EarnsRetry(u, r, r.stream.failure) == EarnsRetry(s, r, r.stream.failure)
  {
    hide RecordedAs, PreservedRows;
  }

  /** How an answered request ends, from the state that has its results. Nothing came
      in at the boundary if there is neither a steer nor an injected message. */
  ghost predicate AnswerEnds(cfg: Config, done: State, steers: seq<Steer>, r: Round, reply: Reply, step: Step) {
    var calls := reply.calls != [];
    if calls && r.cancelledAfterTools then step == Exit(done, Failed("", Cancelled))
    else if r.boundary.BoundaryFailed? then step == Exit(done, Failed("", BoundaryError))
    else if calls || steers != [] || r.boundary.messages != [] then step == Continue(done)
    else match r.check
      case Reject => step == Exit(done, Failed("", FinalRejected))
      case Retry => step == Continue(done)
      case Accept =>
        if done.compacted then step == Exit(done, Answered(reply.content))
        else
          var (u, error) := MaybeCompact(cfg, done, Closing, r.closing);
          step == Exit(u, match error case None => Answered(reply.content) case Some(reason) => Failed("", reason))
  }

  lemma AtBoundaryEnds(cfg: Config, s: State, r: Round, reply: Reply) returns (done: State)
    requires !(reply.calls != [] && r.cancelledAfterTools)
    ensures Recorded(cfg, s, done, if r.boundary.BoundaryFailed? then [] else SteerMessages(s.pending) + r.boundary.messages)
    ensures done.(messages := s.messages, log := s.log) == s.(pending := [])
    ensures AnswerEnds(cfg, done, s.pending, r, reply, AtBoundary(cfg, s, r, reply))
  {
    hide MaybeCompact, Numbered, SteerMessages, RecordedAs;
    var rows := if r.boundary.BoundaryFailed? then [] else SteerMessages(s.pending) + r.boundary.messages;
    done := AppendAll(cfg, s.(pending := []), rows);
    AppendedIsRecorded(cfg, s, done, rows);
    assert rows == [] ==> done == s.(pending := []);
    assert |SteerMessages(s.pending)| == |s.pending|;
  }

  /** Tools that were requested have their calls measured in the view; otherwise the
      view gets exactly the rows of the log. */
  ghost predicate RecordedMeasured(cfg: Config, t: State, u: State, rows: seq<Message>, calls: seq<ToolCall>, finished: seq<Completion>) {
    && |u.log| == |t.log| + |rows| && u.log[..|t.log|] == t.log
    && RecordedAs(cfg, |t.log|, rows, u.log[|t.log|..])
    && |u.messages| == |t.messages| + |rows| && u.messages[..|t.messages|] == t.messages
    && |rows| > 0
    && u.messages[|t.messages| + 1..] == u.log[|t.log| + 1..]
    && var at := u.messages[|t.messages|];
       at == u.log[|t.log|].(toolCalls := at.toolCalls) && |at.toolCalls| == |calls|
       && forall i :: 0 <= i < |calls| ==> MeasuredBy(at.toolCalls[i], calls[i], finished, i)
  }

  lemma RecordedTwice(cfg: Config, t: State, u: State, v: State, first: seq<Message>, rest: seq<Message>, calls: seq<ToolCall>, finished: seq<Completion>)
    requires RecordedMeasured(cfg, t, u, first, calls, finished) && Recorded(cfg, u, v, rest)
    ensures RecordedMeasured(cfg, t, v, first + rest, calls, finished)
  {
    hide MeasuredBy;
    forall i | 0 <= i < |first + rest|
      ensures v.log[|t.log|..][i] == (first + rest)[i].(rawSequence := cfg.number(|t.log| + i))
    {
      if i < |first| {
        assert v.log[|t.log|..][i] == v.log[..|u.log|][|t.log| + i] == u.log[|t.log|..][i];
      } else {
        assert v.log[|t.log|..][i] == v.log[|u.log|..][i - |first|];
        assert |t.log| + i == |u.log| + (i - |first|);
      }
    }
    assert v.messages[..|u.messages|] == u.messages && v.log[..|u.log|] == u.log;
    assert v.messages[..|t.messages|] == u.messages[..|t.messages|];
    assert v.log[..|t.log|] == u.log[..|t.log|];
    assert v.messages[|t.messages| + 1..] == u.messages[|t.messages| + 1..] + v.messages[|u.messages|..];
    assert v.log[|t.log| + 1..] == u.log[|t.log| + 1..] + v.log[|u.log|..];
  }

  lemma BlockIsRecorded(cfg: Config, s: State, u: State, reply: Reply, finished: seq<Completion>)
    requires u.messages == s.messages + Numbered(cfg, |s.log|, TurnLaws.ShownBlock(reply, finished))
    requires u.log == s.log + Numbered(cfg, |s.log|, TurnLaws.LoggedBlock(reply, finished))
    ensures RecordedMeasured(cfg, s, u, [ReplyMessage(reply)] + ResultRows(reply.calls, finished), reply.calls, finished)
  {
    hide ResultRows, MeasuredCalls, MeasuredBy;
    var shown, logged := Numbered(cfg, |s.log|, TurnLaws.ShownBlock(reply, finished)), Numbered(cfg, |s.log|, TurnLaws.LoggedBlock(reply, finished));
    forall i | 0 <= i < |reply.calls| ensures MeasuredBy(MeasuredCalls(reply.calls, finished)[i], reply.calls[i], finished, i) {
      ResultCarriesReport(reply.calls, finished, i);
    }
    assert shown[1..] == logged[1..];
    assert u.messages[|s.messages| + 1..] == shown[1..] && u.log[|s.log| + 1..] == logged[1..];
    assert u.log[|s.log|..] == logged;
    NumberedIsRecorded(cfg, |s.log|, TurnLaws.LoggedBlock(reply, finished));
  }

  /** Taking up a reply: it is recorded, then its tools' results. */
  lemma AfterReplySteps(cfg: Config, s: State, r: Round, reply: Reply) returns (w: State)
    ensures RecordedMeasured(cfg, s, w, [ReplyMessage(reply)] + ResultRows(reply.calls, r.finished), reply.calls, r.finished)
    ensures w.(messages := s.messages, log := s.log) == s
    ensures AfterReply(cfg, s, r, reply) ==
            if reply.calls != [] && r.cancelledAfterTools then Exit(w, Failed("", Cancelled)) else AtBoundary(cfg, w, r, reply)
  {
    hide AtBoundary, ResultRows, MeasuredCalls, RecordedMeasured, Numbered;
    var t := AppendAll(cfg, s, [ReplyMessage(reply)]);
    TurnLaws.ToolBlock(cfg, s, reply, r.finished);
    if reply.calls == [] {
      w := t;
      NoCallsBlock(reply, r.finished);
    } else {
      w := AfterTools(cfg, t, reply.calls, r.finished);
    }
    BlockIsRecorded(cfg, s, w, reply, r.finished);
  }

  lemma NoCallsBlock(reply: Reply, finished: seq<Completion>)
    requires reply.calls == []
    ensures TurnLaws.ShownBlock(reply, finished) == TurnLaws.LoggedBlock(reply, finished) == [ReplyMessage(reply)]
  {
  }

  /** An answered request: what it records is what the round is said to record, and
      how it ends is decided in this order: a cancellation after tools, a boundary
      that failed, anything to go on for, the final check, the closing fold. */
  lemma AnsweredRoundEnds(cfg: Config, s: State, r: Round) returns (done: State)
    requires MaybeCompact(cfg, s, Proactive, r.fold).1.None? && r.stream.Replied?
    ensures var t, reply := MaybeCompact(cfg, s, Proactive, r.fold).0, r.stream.reply;
            && Asked(t, done, r)
            && RecordedMeasured(cfg, t, done, TurnRecords.RoundRows(s.pending, r), reply.calls, r.finished)
            && AnswerEnds(cfg, done, s.pending + r.steers, r, reply, RoundStep(cfg, s, r))
            && (reply.calls == [] || !r.cancelledAfterTools ==> done.pending == [])
  {
    hide *;
    var t, reply := MaybeCompact(cfg, s, Proactive, r.fold).0, r.stream.reply;
    var u := Asking(cfg, s, r);
    var w := AfterReplySteps(cfg, u, r, reply);
    var first := [ReplyMessage(reply)] + ResultRows(reply.calls, r.finished);
    var rest := if (reply.calls != [] && r.cancelledAfterTools) || r.boundary.BoundaryFailed? then []
                else SteerMessages(s.pending + r.steers) + r.boundary.messages;
    if reply.calls != [] && r.cancelledAfterTools {
      done := w;
      CancelledEnds(cfg, w, u.pending, r, reply);
      assert first + rest == first;
    } else {
      done := AtBoundaryEnds(cfg, w, r, reply);
      RecordedTwice(cfg, u, w, done, first, rest, reply.calls, r.finished);
    }
    RowsInOrder(s.pending, r);
    FromHere(cfg, t, u, done, first + rest, reply.calls, r.finished);
    AskedBefore(t, u, done, r);
  }

  lemma RowsInOrder(pending: seq<Steer>, r: Round)
    requires r.stream.Replied?
    ensures var reply := r.stream.reply;
            TurnRecords.RoundRows(pending, r) ==
            [ReplyMessage(reply)] + ResultRows(reply.calls, r.finished)
            + (if (reply.calls != [] && r.cancelledAfterTools) || r.boundary.BoundaryFailed? then []
               else SteerMessages(pending + r.steers) + r.boundary.messages)
  {
  }

  lemma AskedBefore(t: State, u: State, v: State, r: Round)
    requires Asked(t, u, r) && v.(messages := u.messages, log := u.log, pending := u.pending) == u
    ensures Asked(t, v, r)
  {
  }

  lemma CancelledEnds(cfg: Config, done: State, steers: seq<Steer>, r: Round, reply: Reply)
    requires reply.calls != [] && r.cancelledAfterTools
    ensures AnswerEnds(cfg, done, steers, r, reply, Exit(done, Failed("", Cancelled)))
  {
  }

  lemma FromHere(cfg: Config, t: State, u: State, v: State, rows: seq<Message>, calls: seq<ToolCall>, finished: seq<Completion>)
    requires t.log == u.log && t.messages == u.messages
    ensures RecordedMeasured(cfg, u, v, rows, calls, finished) <==> RecordedMeasured(cfg, t, v, rows, calls, finished)
  {
  }

  // ----- How a turn goes from round to round

  /** The state after `n` rounds, each of which went on to the next. */
  function AfterRounds(cfg: Config, s: State, rounds: seq<Round>, n: nat): Option<State>
    requires n <= |rounds|
    decreases n
  {
    if n == 0 then Some(s)
    else match RoundStep(cfg, s, rounds[0])
      case Continue(u) => AfterRounds(cfg, u, rounds[1..], n - 1)
      case Exit(_, _) => None
  }

  /** One request without tools: its rows are recorded, a reported size counts, and
      its reply is the answer or its failure the end. */
  ghost predicate FinallyAsked(cfg: Config, v: State, t: TurnInput, u: State, outcome: Outcome) {
    && Recorded(cfg, v, u, TurnRecords.FinalRows(t.finalStream))
    && u.trace == v.trace + [Streamed(true)]
    && u.lastPrompt == (if t.finalPromptTokens > 0 then t.finalPromptTokens else v.lastPrompt)
    && outcome == match t.finalStream
       case Replied(reply) => Answered(reply.content)
       case Broke(partial, failure) => Failed(partial.content, StreamError(failure))
  }

  lemma FinalAnswerAsks(cfg: Config, v: State, t: TurnInput)
    ensures var (u, outcome) := FinalAnswer(cfg, v, t.finalStream, t.finalPromptTokens); FinallyAsked(cfg, v, t, u, outcome)
  {
    hide Numbered, PreservedRows, Recorded;
    var rows := TurnRecords.FinalRows(t.finalStream);
    var asked := Request(v, true, t.finalPromptTokens);
    assert FinalAnswer(cfg, v, t.finalStream, t.finalPromptTokens).0 == AppendAll(cfg, asked, rows);
    AppendedIsRecorded(cfg, v, AppendAll(cfg, asked, rows), rows);
  }

  /** After `n` rounds that went on: the cap was reached, exactly then, and the final
      request was made; or the input has no more rounds; or the next round ended it. */
  ghost predicate EndsAfter(cfg: Config, v: State, t: TurnInput, rounds: seq<Round>, done: nat, n: nat, u: State, outcome: Outcome)
    requires n <= |rounds|
  {
    if cfg.maxTurns > 0 && done + n >= cfg.maxTurns then
      done + n == cfg.maxTurns && FinallyAsked(cfg, v, t, u, outcome)
    else if n == |rounds| then u == v && outcome == Running
    else RoundStep(cfg, v, rounds[n]) == Exit(u, outcome)
  }

  lemma {:induction false} RoundsFollow(cfg: Config, s: State, t: TurnInput, done: nat, rounds: seq<Round>) returns (n: nat)
    requires cfg.maxTurns > 0 ==> done <= cfg.maxTurns
    ensures n <= |rounds| && AfterRounds(cfg, s, rounds, n).Some?
    ensures var (u, outcome) := Rounds(cfg, s, t, done, rounds);
            EndsAfter(cfg, AfterRounds(cfg, s, rounds, n).value, t, rounds, done, n, u, outcome)
    decreases |rounds|
  {
    hide RoundStep, FinalAnswer, FinallyAsked;
    n := 0;
    if cfg.maxTurns > 0 && done >= cfg.maxTurns {
      FinalAnswerAsks(cfg, s, t);
    } else if rounds != [] {
      match RoundStep(cfg, s, rounds[0]) {
        case Continue(u) =>
          n := RoundsFollow(cfg, u, t, done + 1, rounds[1..]);
          n := n + 1;
        case Exit(_, _) =>
      }
    }
  }

  /** A turn begins, makes one round after the other while they go on, up to the cap,
      and ends as the last of them says; then only the guards and the pending steers
      are put back. */
  lemma TurnIsItsRounds(cfg: Config, s: State, t: TurnInput) returns (n: nat, last: State)
    requires cfg.transform(t.input).Some?
    ensures n <= |t.rounds|
    ensures var begun := Begin(cfg, s, t, cfg.transform(t.input).value);
            && AfterRounds(cfg, begun, t.rounds, n).Some?
            && EndsAfter(cfg, AfterRounds(cfg, begun, t.rounds, n).value, t, t.rounds, 0, n, last, RunTurn(cfg, s, t).1)
    ensures var u := RunTurn(cfg, s, t).0;
            && u.messages == last.messages && u.log == last.log && u.trace == last.trace && u.lastPrompt == last.lastPrompt
            && (RunTurn(cfg, s, t).1 == Running ==> u == last)
  {
    hide *;
    var begun := Begin(cfg, s, t, cfg.transform(t.input).value);
    n := RoundsFollow(cfg, begun, t, 0, t.rounds);
    last := Rounds(cfg, begun, t, 0, t.rounds).0;
    TurnPutsBack(cfg, s, t);
  }

  lemma TurnPutsBack(cfg: Config, s: State, t: TurnInput)
    requires cfg.transform(t.input).Some?
    ensures var (last, outcome) := Rounds(cfg, Begin(cfg, s, t, cfg.transform(t.input).value), t, 0, t.rounds);
            var u := RunTurn(cfg, s, t).0;
            && RunTurn(cfg, s, t).1 == outcome
            && u.messages == last.messages && u.log == last.log && u.trace == last.trace && u.lastPrompt == last.lastPrompt
            && (outcome == Running ==> u == last)
  {
    hide Rounds, Begin;
  }

  /** Message by message, the raw log after a turn is the log before it, the prefix,
      the input as it was submitted, the rows of every round that made its request,
      and those of the final request if there was one. */
  lemma TurnLeavesItsRows(cfg: Config, s: State, t: TurnInput)
    requires TurnBounds.Idle(s) && cfg.transform(t.input).Some?
    ensures var u := RunTurn(cfg, s, t).0;
            && |s.trace| <= |u.trace|
            && var n := TurnRecords.OrdinaryRequests(u.trace[|s.trace|..]);
               && n <= |t.rounds|
               && |s.log| <= |u.log| && u.log[..|s.log|] == s.log
               && RecordedAs(cfg, |s.log|,
                    t.prefix + [UserText(t.input, t.parts, t.authored)] + TurnRecords.RowsOfRounds([], t.rounds, n)
                    + (if Streamed(true) in u.trace[|s.trace|..] then TurnRecords.FinalRows(t.finalStream) else []),
                    u.log[|s.log|..])
  {
    hide RunTurn, Numbered, RecordedAs, TurnRecords.RowsOfRounds, TurnRecords.FinalRows, TurnRecords.OrdinaryRequests;
    TurnRecords.TurnRecordsEverything(cfg, s, t);
    var u := RunTurn(cfg, s, t).0;
    var events := u.trace[|s.trace|..];
    var rows := t.prefix + [UserText(t.input, t.parts, t.authored)] + TurnRecords.RowsOfRounds([], t.rounds, TurnRecords.OrdinaryRequests(events))
                + (if Streamed(true) in events then TurnRecords.FinalRows(t.finalStream) else []);
    NumberedIsRecorded(cfg, |s.log|, rows);
    assert u.log[|s.log|..] == Numbered(cfg, |s.log|, rows);
  }

  // ----- Every call of every round

  /** In the log after a round its calls are answered by their own workers. */
  lemma RoundAnswersItsCalls(cfg: Config, s: State, r: Round)
    requires MaybeCompact(cfg, s, Proactive, r.fold).1.None? && r.stream.Replied?
    ensures var u, reply, at := RoundStep(cfg, s, r).state, r.stream.reply, |s.log|;
            && |u.log| >= at + 1 + |reply.calls| && u.log[..at] == s.log
            && IsReply(u.log[at].(rawSequence := 0), reply.content, reply)
            && forall i :: 0 <= i < |reply.calls| ==> Carries(u.log[at + 1 + i], reply.calls[i], r.finished, i)
  {
    hide *;
    var rows := TurnRecords.RoundRows(s.pending, r);
    var done := AnsweredRoundEnds(cfg, s, r);
    EndsWithSameLog(cfg, done, s.pending + r.steers, r, r.stream.reply, RoundStep(cfg, s, r));
    RowsOfAnsweredRound(s.pending, r);
    LogOfProactiveFold(cfg, s, r);
    RecordedRows(cfg, MaybeCompact(cfg, s, Proactive, r.fold).0, done, rows, r.stream.reply.calls, r.finished);
    RowsCarryOver(cfg, |s.log|, rows, done.log[|s.log|..], r);
    assert forall i :: 0 <= i < |rows| ==> done.log[|s.log|..][i] == done.log[|s.log| + i];
  }

  lemma LogOfProactiveFold(cfg: Config, s: State, r: Round)
    ensures MaybeCompact(cfg, s, Proactive, r.fold).0.log == s.log
  {
    hide PlanFold, EstimateTokens, FoldLimit, OverThreshold, Folded, TrimSpace;
  }

  lemma RecordedRows(cfg: Config, t: State, u: State, rows: seq<Message>, calls: seq<ToolCall>, finished: seq<Completion>)
    requires RecordedMeasured(cfg, t, u, rows, calls, finished)
    ensures |u.log| == |t.log| + |rows| && u.log[..|t.log|] == t.log && RecordedAs(cfg, |t.log|, rows, u.log[|t.log|..])
  {
    hide RecordedAs, MeasuredBy;
  }

  lemma EndsWithSameLog(cfg: Config, done: State, steers: seq<Steer>, r: Round, reply: Reply, step: Step)
    requires AnswerEnds(cfg, done, steers, r, reply, step)
    ensures step.state.log == done.log
  {
    hide PlanFold, EstimateTokens, FoldLimit, OverThreshold, Folded, TrimSpace;
  }

  lemma RowsCarryOver(cfg: Config, first: nat, rows: seq<Message>, recorded: seq<Message>, r: Round)
    requires r.stream.Replied? && RecordedAs(cfg, first, rows, recorded) && |rows| >= 1 + |r.stream.reply.calls|
    requires IsReply(rows[0], r.stream.reply.content, r.stream.reply)
    requires forall i :: 0 <= i < |r.stream.reply.calls| ==> Carries(rows[1 + i], r.stream.reply.calls[i], r.finished, i)
    ensures |recorded| == |rows| && IsReply(recorded[0].(rawSequence := 0), r.stream.reply.content, r.stream.reply)
    ensures forall i :: 0 <= i < |r.stream.reply.calls| ==> Carries(recorded[1 + i], r.stream.reply.calls[i], r.finished, i)
  {
    hide Carries;
    forall i | 0 <= i < |r.stream.reply.calls| ensures Carries(recorded[1 + i], r.stream.reply.calls[i], r.finished, i) {
      NumberCarries(rows[1 + i], cfg.number(first + (1 + i)), r.stream.reply.calls[i], r.finished, i);
    }
  }

  /** The rows of round `k` stand behind those of the rounds before it. */
  lemma {:induction false} RowsOfRound(pending: seq<Steer>, rounds: seq<Round>, n: nat, k: nat) returns (waiting: seq<Steer>)
    requires k < n <= |rounds|
    ensures var all, at := TurnRecords.RowsOfRounds(pending, rounds, n), |TurnRecords.RowsOfRounds(pending, rounds, k)|;
            var rows := TurnRecords.RoundRows(waiting, rounds[k]);
            at + |rows| <= |all| && all[at..at + |rows|] == rows
    decreases k
  {
    hide TurnRecords.RoundRows, TurnRecords.PendingAfter;
    var first := TurnRecords.RoundRows(pending, rounds[0]);
    var next := TurnRecords.PendingAfter(pending, rounds[0]);
    var rest := TurnRecords.RowsOfRounds(next, rounds[1..], n - 1);
    assert TurnRecords.RowsOfRounds(pending, rounds, n) == first + rest;
    if k == 0 {
      waiting := pending;
    } else {
      waiting := RowsOfRound(next, rounds[1..], n - 1, k - 1);
      var rows, at := TurnRecords.RoundRows(waiting, rounds[k]), |TurnRecords.RowsOfRounds(next, rounds[1..], k - 1)|;
      assert (first + rest)[|first| + at..|first| + at + |rows|] == rest[at..at + |rows|];
    }
  }

  /** In the log after a turn the calls of every answered round are answered by their
      own workers, at the place where that round's rows stand. */
  lemma TurnAnswersItsCalls(cfg: Config, s: State, t: TurnInput, k: nat)
    requires TurnBounds.Idle(s) && cfg.transform(t.input).Some?
    requires |s.trace| <= |RunTurn(cfg, s, t).0.trace|
    requires k < TurnRecords.OrdinaryRequests(RunTurn(cfg, s, t).0.trace[|s.trace|..]) && k < |t.rounds| && t.rounds[k].stream.Replied?
    ensures var u, r := RunTurn(cfg, s, t).0, t.rounds[k];
            var at := |s.log| + |t.prefix| + 1 + |TurnRecords.RowsOfRounds([], t.rounds, k)|;
            && |u.log| >= at + 1 + |r.stream.reply.calls|
            && IsReply(u.log[at].(rawSequence := 0), r.stream.reply.content, r.stream.reply)
            && forall i :: 0 <= i < |r.stream.reply.calls| ==> Carries(u.log[at + 1 + i], r.stream.reply.calls[i], r.finished, i)
  {
    hide *;
    TurnLeavesItsRows(cfg, s, t);
    var u, r := RunTurn(cfg, s, t).0, t.rounds[k];
    var events := u.trace[|s.trace|..];
    var n := TurnRecords.OrdinaryRequests(events);
    var waiting := RowsOfRound([], t.rounds, n, k);
    var mine := TurnRecords.RoundRows(waiting, r);
    RowsOfAnsweredRound(waiting, r);
    var before, all := t.prefix + [UserText(t.input, t.parts, t.authored)], TurnRecords.RowsOfRounds([], t.rounds, n);
    var last := if Streamed(true) in events then TurnRecords.FinalRows(t.finalStream) else [];
    var at := |t.prefix| + 1 + |TurnRecords.RowsOfRounds([], t.rounds, k)|;
    InTheMiddle(before, all, last, |TurnRecords.RowsOfRounds([], t.rounds, k)|, mine);
    RecordedPart(cfg, |s.log|, before + all + last, u.log[|s.log|..], at, mine);
    RowsCarryOver(cfg, |s.log| + at, mine, u.log[|s.log|..][at..at + |mine|], r);
    var part := u.log[|s.log|..][at..at + |mine|];
    forall i | 0 <= i < |mine| ensures part[i] == u.log[|s.log| + at + i] {
    }
  }

  lemma InTheMiddle(before: seq<Message>, all: seq<Message>, last: seq<Message>, k: nat, mine: seq<Message>)
    requires k + |mine| <= |all| && all[k..k + |mine|] == mine
    ensures |before| + k + |mine| <= |before + all + last|
    ensures (before + all + last)[|before| + k..|before| + k + |mine|] == mine
  {
    var part := (before + all + last)[|before| + k..|before| + k + |mine|];
    forall i | 0 <= i < |mine| ensures part[i] == mine[i] {
      assert mine[i] == all[k + i];
    }
  }

  lemma RecordedPart(cfg: Config, first: nat, rows: seq<Message>, recorded: seq<Message>, at: nat, mine: seq<Message>)
    requires RecordedAs(cfg, first, rows, recorded) && at + |mine| <= |rows| && rows[at..at + |mine|] == mine
    ensures |recorded| == |rows| && RecordedAs(cfg, first + at, mine, recorded[at..at + |mine|])
  {
    forall i | 0 <= i < |mine| ensures recorded[at..at + |mine|][i] == mine[i].(rawSequence := cfg.number(first + at + i)) {
      assert mine[i] == rows[at + i] && recorded[at..at + |mine|][i] == recorded[at + i];
      assert first + at + i == first + (at + i);
    }
  }

  // ----- Sessions

  /** An explicit compaction folds exactly when there is history and the summary call
      gives a text, whatever the size of the context; else it changes nothing. */
  lemma CompactNowFolds(cfg: Config, s: State, outcome: SummaryOutcome)
    ensures var u := Act(cfg, s, CompactNow(outcome));
            if HasHistory(cfg, s) && outcome.SummaryText? then
              && FoldedTo(cfg, s, u, Manual, outcome.text) && |u.trace| == |s.trace| + 1
              && u.compacted == s.compacted && u.compactStalled == s.compactStalled
            else u == s
  {
    hide PlanFold, Budget, TrimSpace, Folded;
    if HasHistory(cfg, s) && outcome.SummaryText? {
      FoldChanges(cfg, s, Manual, outcome);
    }
  }

  /** One more action acts on what the session has come to, unless a turn is still
      going. */
  lemma {:induction false} SessionGoesOn(cfg: Config, s: State, actions: seq<Action>, a: Action)
    ensures Session(cfg, s, actions + [a]) ==
            var u := Session(cfg, s, actions);
            if u.running then u else Act(cfg, u, a)
    decreases |actions|
  {
    hide Act;
    if actions == [] {
      assert [a][1..] == [];
    } else if !s.running {
      assert (actions + [a])[1..] == actions[1..] + [a];
      SessionGoesOn(cfg, Act(cfg, s, actions[0]), actions[1..], a);
    }
  }
}
