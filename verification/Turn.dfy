/** One turn of the agent as a step function over its state.

    Everything the turn learns from outside arrives as input: what the provider
    answers, in which order tools finish, what is steered in, what the summary
    calls return. A turn is followed through any finite number of rounds. */
module Turn {
  import opened Transcript
  import opened Pairing
  import opened TailBoundary
  import opened Folding
  import opened Decay

  // ----- State

  /** What an agent is configured with. `number` is the sequence number the raw
      log gives its k-th row. */
  datatype Config = Config(transform: Transform, number: nat -> int, contextLimit: int, compactThreshold: real, maxTurns: int)

  datatype Steer = Steer(text: string, parts: seq<ContentPart>)

  datatype FoldKind = Proactive | Overflow | Closing | Manual

  /** A request streamed to the provider; a successful fold, with the summary it
      was handed and the one it returned; a fold that did not get under the
      threshold. */
  datatype Event =
    | Streamed(final: bool)
    | Summarized(kind: FoldKind, prior: string, summary: string)
    | Stalled

  datatype State = State(
    messages: seq<Message>,
    pending: seq<Steer>,
    lastPrompt: int,
    compacted: bool,
    compactStalled: bool,
    retriedOverflow: bool,
    running: bool,
    log: seq<Message>,
    trace: seq<Event>)

  function Fresh(systemPrompt: string): State {
    State([Plain(System, systemPrompt)], [], 0, false, false, false, false, [], [])
  }

  // ----- Inputs

  datatype Reply = Reply(content: string, calls: seq<ToolCall>, continuation: nat)

  /** Why a request failed. An accounting failure says whether the response had
      arrived completely. */
  datatype Failure = AccountingComplete | AccountingPartial | ContextLimit | OtherFailure

  datatype StreamOutcome = Replied(reply: Reply) | Broke(partial: Reply, failure: Failure)

  /** The answer to a summary call; `unsettled` when only its accounting failed. */
  datatype SummaryOutcome = SummaryText(text: string, unsettled: bool) | SummaryFailed

  /** A tool worker finishing. Workers report in any order. */
  datatype Completion = Completion(index: nat, output: string, ms: nat)

  datatype BoundaryWork = Inject(messages: seq<Message>) | BoundaryFailed

  datatype FinalCheck = Accept | Retry | Reject

  datatype Round = Round(
    fold: SummaryOutcome,
    stream: StreamOutcome,
    promptTokens: int,
    cancelledAfterStream: bool,
    retryFold: SummaryOutcome,
    finished: seq<Completion>,
    cancelledAfterTools: bool,
    steers: seq<Steer>,
    boundary: BoundaryWork,
    check: FinalCheck,
    closing: SummaryOutcome)

  datatype TurnInput = TurnInput(
    host: Host,
    prefix: seq<Message>,
    input: string,
    parts: seq<ContentPart>,
    authored: bool,
    rounds: seq<Round>,
    finalStream: StreamOutcome,
    finalPromptTokens: int)

  datatype Reason =
    | InputRejected | StreamError(failure: Failure) | SummaryError | SummaryUnsettled | CompactionExhausted
    | Cancelled | BoundaryError | FinalRejected

  /** Running: the turn is still going after the last round followed. */
  datatype Outcome = Answered(text: string) | Failed(text: string, reason: Reason) | Running

  // ----- Recording messages

  function Numbered(cfg: Config, first: nat, msgs: seq<Message>): (r: seq<Message>)
    ensures |r| == |msgs|
  {
    seq(|msgs|, i requires 0 <= i < |msgs| => msgs[i].(rawSequence := cfg.number(first + i)))
  }

  /** Record each message in the raw log and append it to the view. */
  function AppendAll(cfg: Config, s: State, msgs: seq<Message>): State {
    var rows := Numbered(cfg, |s.log|, msgs);
    s.(messages := s.messages + rows, log := s.log + rows)
  }

  /** Record `row`, but show the model `shown` in its place. */
  function AppendShown(cfg: Config, s: State, shown: Message, row: Message): State {
    var k := cfg.number(|s.log|);
    s.(messages := s.messages + [shown.(rawSequence := k)], log := s.log + [row.(rawSequence := k)])
  }

  function ReplyMessage(reply: Reply): Message {
    Plain(Assistant, reply.content).(toolCalls := reply.calls, continuation := reply.continuation)
  }

  const INTERRUPTED := "\n[response interrupted]"
  const NOT_EXECUTED := "Not executed: model accounting stopped this turn."

  /** What is kept of a response that accounting or transport stopped: the text so
      far, and an explicit result for every tool that will not run. */
  function PreservedRows(partial: Reply, failure: Failure): seq<Message> {
    if partial.content == "" && partial.calls == [] then []
    else
      var shown := if failure.AccountingComplete? then partial else partial.(content := partial.content + INTERRUPTED);
      [ReplyMessage(shown)] + NotExecuted(partial.calls)
  }

  function NotExecuted(calls: seq<ToolCall>): (r: seq<Message>)
    ensures |r| == |calls|
  {
    seq(|calls|, i requires 0 <= i < |calls| => ToolResult(calls[i], NOT_EXECUTED))
  }

  // ----- Tools

  /** The newest report of worker `i`, if it made one. */
  function ReportOf(finished: seq<Completion>, i: nat): Option<Completion> {
    if finished == [] then None
    else if finished[|finished| - 1].index == i then Some(finished[|finished| - 1])
    else ReportOf(finished[..|finished| - 1], i)
  }

  function OutputOf(finished: seq<Completion>, i: nat): string {
    match ReportOf(finished, i) case None => "" case Some(c) => c.output
  }

  function ToolExitCode(output: string): int {
    if "error" <= output || "Error" <= output then 1 else 0
  }

  function Measured(call: ToolCall, finished: seq<Completion>, i: nat): ToolCall {
    match ReportOf(finished, i)
    case None => call
    case Some(c) => call.(durationMs := c.ms, exitCode := ToolExitCode(c.output))
  }

  function MeasuredCalls(calls: seq<ToolCall>, finished: seq<Completion>): (r: seq<ToolCall>)
    ensures |r| == |calls|
  {
    seq(|calls|, i requires 0 <= i < |calls| => Measured(calls[i], finished, i))
  }

  function ResultRows(calls: seq<ToolCall>, finished: seq<Completion>): (r: seq<Message>)
    ensures |r| == |calls|
  {
    seq(|calls|, i requires 0 <= i < |calls| => ToolResult(calls[i], OutputOf(finished, i)))
  }

  /** Swap in the measured calls of the last message, then append the results in
      call order. */
  function AfterTools(cfg: Config, s: State, calls: seq<ToolCall>, finished: seq<Completion>): State
    requires s.messages != []
  {
    var last := |s.messages| - 1;
    var measured := s.messages[last].(toolCalls := MeasuredCalls(calls, finished));
    AppendAll(cfg, s.(messages := s.messages[last := measured]), ResultRows(calls, finished))
  }

  // ----- Folding inside a turn

  function Threshold(cfg: Config): real {
    if cfg.compactThreshold > 0.0 then cfg.compactThreshold else 0.5
  }

  function Budget(cfg: Config): int {
    TailBudget(cfg.contextLimit, Threshold(cfg))
  }

  function FoldLimit(cfg: Config): int {
    Truncated(Threshold(cfg) * cfg.contextLimit as real)
  }

  /** The characters with the White_Space property of Unicode. */
  predicate IsSpace(c: char) {
    || '\U{0009}' <= c <= '\U{000D}' || c == ' ' || c == '\U{0085}' || c == '\U{00A0}' || c == '\U{1680}'
    || '\U{2000}' <= c <= '\U{200A}' || c == '\U{2028}' || c == '\U{2029}' || c == '\U{202F}' || c == '\U{205F}' || c == '\U{3000}'
  }

  function TrimSpace(s: string): string {
    if s == "" then ""
    else if IsSpace(s[0]) then TrimSpace(s[1..])
    else if IsSpace(s[|s| - 1]) then TrimSpace(s[..|s| - 1])
    else s
  }

  predicate AllSpace(s: string) {
    forall i :: 0 <= i < |s| ==> IsSpace(s[i])
  }

  lemma TrimUnfolds(s: string)
    ensures TrimSpace(s) ==
            if s == "" then "" else if IsSpace(s[0]) then TrimSpace(s[1..])
            else if IsSpace(s[|s| - 1]) then TrimSpace(s[..|s| - 1]) else s
  {
  }

  lemma MoreSpace(c: char, left: string, middle: string, right: string)
    requires IsSpace(c) && AllSpace(left) && AllSpace(right)
    ensures AllSpace([c] + left) && [c] + (left + middle + right) == ([c] + left) + middle + right
    ensures AllSpace(right + [c]) && left + middle + right + [c] == left + middle + (right + [c])
  {
    hide IsSpace;
  }

  /** Trimming removes blanks at both ends, all of them, and nothing else. */
  lemma {:induction false} TrimmedText(s: string) returns (left: string, right: string)
    ensures s == left + TrimSpace(s) + right && AllSpace(left) && AllSpace(right)
    ensures TrimSpace(s) != "" ==> !IsSpace(TrimSpace(s)[0]) && !IsSpace(TrimSpace(s)[|TrimSpace(s)| - 1])
    decreases |s|
  {
    TrimUnfolds(s);
    NoSpace();
    hide *;
    left, right := "", "";
    if s == "" {
    } else if IsSpace(s[0]) {
      left, right := TrimmedText(s[1..]);
      MoreSpace(s[0], left, TrimSpace(s), right);
      assert s == [s[0]] + s[1..];
      left := [s[0]] + left;
    } else if IsSpace(s[|s| - 1]) {
      left, right := TrimmedText(s[..|s| - 1]);
      MoreSpace(s[|s| - 1], left, TrimSpace(s), right);
      assert s == s[..|s| - 1] + [s[|s| - 1]];
      right := right + [s[|s| - 1]];
    }
  }

  lemma NoSpace()
    ensures AllSpace("")
  {
  }

  datatype FoldStatus = FoldDone | FoldUnsettled | NoHistory | FoldFailed

  function Compact(cfg: Config, s: State, kind: FoldKind, outcome: SummaryOutcome): (State, FoldStatus) {
    match PlanFold(s.messages, Budget(cfg))
    case None => (s, NoHistory)
    case Some(plan) =>
      match outcome
      case SummaryFailed => (s, FoldFailed)
      case SummaryText(text, unsettled) =>
        var summary := TrimSpace(text);
        (s.(messages := Folded(s.messages, plan, summary), lastPrompt := 0,
            trace := s.trace + [Summarized(kind, plan.prior, summary)]),
         if unsettled then FoldUnsettled else FoldDone)
  }

  /** Whether the size of the context calls for a fold. */
  predicate OverThreshold(cfg: Config, s: State) {
    if s.lastPrompt > 0 then s.lastPrompt >= FoldLimit(cfg) else EstimateTokens(s.messages) >= FoldLimit(cfg)
  }

  /** Mark the turn compacted, and stalled when the fold did not get under the
      threshold. */
  function MarkFolded(cfg: Config, s: State): State {
    var marked := s.(compacted := true);
    if EstimateTokens(s.messages) >= FoldLimit(cfg) then
      marked.(compactStalled := true, trace := s.trace + [Stalled])
    else marked
  }

  /** The second component is the error, if the turn must end. */
  function MaybeCompact(cfg: Config, s: State, kind: FoldKind, outcome: SummaryOutcome): (State, Option<Reason>) {
    if cfg.contextLimit == 0 || s.compactStalled || !OverThreshold(cfg, s) then (s, None)
    else
      var (t, status) := Compact(cfg, s, kind, outcome);
      match status
      case NoHistory => (t, None)
      case FoldFailed => (t, Some(SummaryError))
      case FoldUnsettled => (MarkFolded(cfg, t), Some(SummaryUnsettled))
      case FoldDone => (MarkFolded(cfg, t), None)
  }

  // ----- One round

  datatype Step = Continue(state: State) | Exit(state: State, outcome: Outcome)

  /** A provider that reports no usage leaves the previous prompt size in force. */
  function NotePrompt(s: State, promptTokens: int): State {
    if promptTokens <= 0 then s else s.(lastPrompt := promptTokens)
  }

  function Request(s: State, final: bool, promptTokens: int): State {
    NotePrompt(s.(trace := s.trace + [Streamed(final)]), promptTokens)
  }

  function AfterBreak(cfg: Config, s: State, r: Round, partial: Reply, failure: Failure): Step {
    var kept := AppendAll(cfg, s, PreservedRows(partial, failure));
    if failure.ContextLimit? && !s.retriedOverflow && !r.cancelledAfterStream then
      var (t, status) := Compact(cfg, kept.(retriedOverflow := true, compacted := true), Overflow, r.retryFold);
      match status
      case NoHistory => Exit(t, Failed("", CompactionExhausted))
      case FoldFailed => Exit(t, Failed("", SummaryError))
      case FoldUnsettled => Exit(t, Failed("", SummaryUnsettled))
      case FoldDone => Continue(t)
    else
      Exit(kept, Failed(partial.content, StreamError(failure)))
  }

  function SteerMessages(steers: seq<Steer>): (r: seq<Message>)
    ensures |r| == |steers|
  {
    seq(|steers|, i requires 0 <= i < |steers| => UserText(steers[i].text, steers[i].parts, false))
  }

  /** What happens between two rounds: pending steers and injected messages enter
      the history; a reply without calls ends the turn unless something was injected. */
  function AtBoundary(cfg: Config, s: State, r: Round, reply: Reply): Step {
    var steered := SteerMessages(s.pending);
    var drained := s.(pending := []);
    match r.boundary
    case BoundaryFailed => Exit(drained, Failed("", BoundaryError))
    case Inject(messages) =>
      var t := AppendAll(cfg, drained, steered + messages);
      if reply.calls != [] || steered + messages != [] then Continue(t)
      else match r.check
        case Reject => Exit(t, Failed("", FinalRejected))
        case Retry => Continue(t)
        case Accept =>
          if t.compacted then Exit(t, Answered(reply.content))
          else match MaybeCompact(cfg, t, Closing, r.closing)
            case (u, None) => Exit(u, Answered(reply.content))
            case (u, Some(reason)) => Exit(u, Failed("", reason))
  }

  function AfterReply(cfg: Config, s: State, r: Round, reply: Reply): Step {
    var t := AppendAll(cfg, s, [ReplyMessage(reply)]);
    if reply.calls == [] then AtBoundary(cfg, t, r, reply)
    else
      var u := AfterTools(cfg, t, reply.calls, r.finished);
      if r.cancelledAfterTools then Exit(u, Failed("", Cancelled)) else AtBoundary(cfg, u, r, reply)
  }

  function RoundStep(cfg: Config, s: State, r: Round): Step {
    match MaybeCompact(cfg, s, Proactive, r.fold)
    case (t, Some(reason)) => Exit(t, Failed("", reason))
    case (t, None) =>
      var u := Request(t, false, r.promptTokens).(pending := t.pending + r.steers);
      match r.stream
      case Replied(reply) => AfterReply(cfg, u, r, reply)
      case Broke(partial, failure) => AfterBreak(cfg, u, r, partial, failure)
  }

  // ----- The whole turn

  /** One last request with tools disabled. */
  function FinalAnswer(cfg: Config, s: State, stream: StreamOutcome, promptTokens: int): (State, Outcome) {
    var t := Request(s, true, promptTokens);
    match stream
    case Replied(reply) => (AppendAll(cfg, t, [ReplyMessage(reply)]), Answered(reply.content))
    case Broke(partial, failure) => (AppendAll(cfg, t, PreservedRows(partial, failure)), Failed(partial.content, StreamError(failure)))
  }

  /** `done` rounds have been made; `rounds` are the ones to come. */
  function Rounds(cfg: Config, s: State, t: TurnInput, done: nat, rounds: seq<Round>): (State, Outcome)
    decreases |rounds|
  {
    if cfg.maxTurns > 0 && done >= cfg.maxTurns then FinalAnswer(cfg, s, t.finalStream, t.finalPromptTokens)
    else if rounds == [] then (s, Running)
    else match RoundStep(cfg, s, rounds[0])
      case Continue(u) => Rounds(cfg, u, t, done + 1, rounds[1..])
      case Exit(u, outcome) => (u, outcome)
  }

  function Begin(cfg: Config, s: State, t: TurnInput, shown: string): State {
    var decayed := s.(messages := Decayed(t.host, s.messages), running := true);
    var row := UserText(t.input, t.parts, t.authored);
    AppendShown(cfg, AppendAll(cfg, decayed, t.prefix), row.(content := shown), row)
  }

  function Finish(s: State): State {
    s.(compacted := false, compactStalled := false, retriedOverflow := false, running := false, pending := [])
  }

  function RunTurn(cfg: Config, s: State, t: TurnInput): (State, Outcome) {
    match cfg.transform(t.input)
    case None => (s, Failed("", InputRejected))
    case Some(shown) =>
      match Rounds(cfg, Begin(cfg, s, t, shown), t, 0, t.rounds)
      case (u, Running) => (u, Running)
      case (u, outcome) => (Finish(u), outcome)
  }

  // ----- A session: turns and explicit compactions in any order

  datatype Action = TakeTurn(turn: TurnInput) | CompactNow(outcome: SummaryOutcome)

  function Act(cfg: Config, s: State, a: Action): State {
    match a
    case TakeTurn(t) => RunTurn(cfg, s, t).0
    case CompactNow(outcome) => Compact(cfg, s, Manual, outcome).0
  }

  /** Act while the agent is idle; nothing is started behind a running turn. */
  function Session(cfg: Config, s: State, actions: seq<Action>): State
    decreases |actions|
  {
    if actions == [] || s.running then s else Session(cfg, Act(cfg, s, actions[0]), actions[1..])
  }
}
