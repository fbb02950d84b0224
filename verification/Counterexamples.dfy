/** Promises of comments and texts that the code does not keep, each with a run
    or a history in which it fails. When they do hold is said, exactly, by
    Folding.FirstUserMessageIsKept and by DuplicateReads.FirstCopyIsInlineExactly. */
module Counterexamples {
  import opened Transcript
  import opened Numerals
  import opened Pairing
  import opened TailBoundary
  import opened Folding
  import opened Decay
  import opened DecayLaws
  import opened DuplicateReads
  import opened Turn
  import opened TurnLaws

  // ----- A fold that loses the only instruction

  function Unchanged(input: string): Option<string> {
    Some(input)
  }

  function FromOne(k: nat): int {
    k + 1
  }

  /** No known window, so nothing is folded before it is asked for. */
  const CONFIG := Config(Unchanged, FromOne, 0, 0.0, 0)

  const HOST := Host((arguments: string) => arguments, (i: nat, turns: nat) => "", (i: nat, k: nat) => "")

  /** A reply without tools, nothing steered in, and this verdict on it. */
  function Answering(text: string, check: FinalCheck): Round {
    Round(SummaryFailed, Replied(Reply(text, [], 0)), 0, false, SummaryFailed, [], false, [], Inject([]), check, SummaryFailed)
  }

  /** One instruction; the first answer is sent back, the second accepted. */
  const INSTRUCTED := TurnInput(HOST, [], "first", [], true, [Answering("a", Retry), Answering("b", Accept)],
                                Broke(Reply("", [], 0), OtherFailure), 0)

  function Row(role: Role, content: string, sequence: int): Message {
    Plain(role, content).(rawSequence := sequence)
  }

  const VIEW := [
    Plain(System, "s"), Row(User, "first", 1).(authored := true), Row(Assistant, "a", 2), Row(Assistant, "b", 3)]

  lemma OneRow(s: State, m: Message)
    ensures AppendAll(CONFIG, s, [m])
            == s.(messages := s.messages + [m.(rawSequence := |s.log| + 1)], log := s.log + [m.(rawSequence := |s.log| + 1)])
  {
    assert Numbered(CONFIG, |s.log|, [m]) == [m.(rawSequence := |s.log| + 1)];
  }

  lemma NoRows(s: State)
    ensures AppendAll(CONFIG, s, []) == s
  {
    assert Numbered(CONFIG, |s.log|, []) == [];
    assert s.messages + [] == s.messages && s.log + [] == s.log;
  }

  lemma AnsweringRound(s: State, text: string, check: FinalCheck)
    requires s.pending == []
    ensures var t := AppendAll(CONFIG, Request(s, false, 0), [ReplyMessage(Reply(text, [], 0))]);
            && (check == Retry ==> RoundStep(CONFIG, s, Answering(text, check)) == Continue(t))
            && (check == Accept ==> RoundStep(CONFIG, s, Answering(text, check)) == Exit(t, Answered(text)))
  {
    hide AppendAll;
    var t := AppendAll(CONFIG, Request(s, false, 0), [ReplyMessage(Reply(text, [], 0))]);
    assert SteerMessages([]) + [] == [];
    assert s.pending + [] == [];
    NoRows(t);
    OneRow(Request(s, false, 0), ReplyMessage(Reply(text, [], 0)));
    assert t.(pending := []) == t;
  }

  lemma NothingToDecay(m: Message)
    requires m.role.System?
    ensures Decayed(HOST, [m]) == [m]
  {
  }

  lemma InstructedTurn()
    ensures var s := RunTurn(CONFIG, Fresh("s"), INSTRUCTED).0; s.messages == VIEW && !s.running
    ensures RunTurn(CONFIG, Fresh("s"), INSTRUCTED).1 == Answered("b")
  {
    hide AppendAll, RoundStep, Decayed, Request, Numbered;
    var begun := Begin(CONFIG, Fresh("s"), INSTRUCTED, "first");
    NothingToDecay(Plain(System, "s"));
    NoRows(Fresh("s").(running := true));
    assert begun.messages == VIEW[..2] && |begun.log| == 1 && begun.pending == [];
    AfterRequest(begun, "a");
    var t := AppendAll(CONFIG, Request(begun, false, 0), [ReplyMessage(Reply("a", [], 0))]);
    assert t.messages == VIEW[..3] && |t.log| == 2 && t.pending == [];
    AnsweringRound(begun, "a", Retry);
    AfterRequest(t, "b");
    var u := AppendAll(CONFIG, Request(t, false, 0), [ReplyMessage(Reply("b", [], 0))]);
    assert u.messages == VIEW;
    AnsweringRound(t, "b", Accept);
    assert INSTRUCTED.rounds[1..] == [Answering("b", Accept)];
    assert Rounds(CONFIG, begun, INSTRUCTED, 0, INSTRUCTED.rounds) == Rounds(CONFIG, t, INSTRUCTED, 1, INSTRUCTED.rounds[1..]);
    assert Rounds(CONFIG, t, INSTRUCTED, 1, INSTRUCTED.rounds[1..]) == (u, Answered("b"));
  }

  lemma AfterRequest(s: State, text: string)
    ensures var t := AppendAll(CONFIG, Request(s, false, 0), [ReplyMessage(Reply(text, [], 0))]);
            && t.messages == s.messages + [Row(Assistant, text, |s.log| + 1)]
            && |t.log| == |s.log| + 1 && t.pending == s.pending
  {
    OneRow(Request(s, false, 0), ReplyMessage(Reply(text, [], 0)));
  }

  lemma PlanOfView()
    ensures PlanFold(VIEW, COMPACT_TAIL_MAX_TOKENS) == Some(FoldPlan(2, false, "", [VIEW[1]], []))
  {
    var view, budget := VIEW, COMPACT_TAIL_MAX_TOKENS;
    assert MessageTokens(view[3]) == 5 && MessageTokens(view[2]) == 5 && MessageTokens(view[1]) == 6;
    assert Walk(view, budget, 3, 0, 4, 4) == Walk(view, budget, 2, 5, 4, 3);
    assert Walk(view, budget, 2, 5, 4, 3) == Walk(view, budget, 1, 10, 4, 2);
    assert Walk(view, budget, 1, 10, 4, 2) == Walk(view, budget, 0, 16, 1, 2);
    assert WalkBack(view, 2) == 2;
    assert view[1..2] == [view[1]];
  }

  /** A new agent is given one instruction, its first answer is sent back and the
      second accepted, and then it is asked to compact: the instruction is gone from
      the view, neither pinned nor in the tail. */
  lemma FirstUserMessageCanBeFolded()
    ensures Numbering(CONFIG) && HonestSession([TakeTurn(INSTRUCTED)])
    ensures var before := Session(CONFIG, Fresh("s"), [TakeTurn(INSTRUCTED)]);
            var after := Act(CONFIG, before, CompactNow(SummaryText("done", false)));
            && !before.running && before.messages == VIEW
            && after.trace == before.trace + [Summarized(Manual, "", "done")]
            && after.messages == [VIEW[0], SummaryMessage("done", 1), VIEW[2], VIEW[3]]
            && VIEW[1] !in after.messages && NewestUser(after.messages) == 0
  {
    hide RunTurn, PlanFold, TailBudget;
    InstructedTurn();
    PlanOfView();
    var before := Session(CONFIG, Fresh("s"), [TakeTurn(INSTRUCTED)]);
    SessionOfOne(CONFIG, Fresh("s"), TakeTurn(INSTRUCTED));
    assert Budget(CONFIG) == COMPACT_TAIL_MAX_TOKENS by {
      TailBudgetBounds(0, Threshold(CONFIG));
    }
    assert TrimSpace("done") == "done";
    CutoffOfView();
    assert VIEW[2..] == [VIEW[2], VIEW[3]];
    var after := [VIEW[0], SummaryMessage("done", 1), VIEW[2], VIEW[3]];
    UserBeforeIs(after, 4, 0);
  }

  lemma SessionOfOne(cfg: Config, s: State, a: Action)
    ensures Session(cfg, s, [a]) == if s.running then s else Act(cfg, s, a)
  {
    hide Act;
    assert Session(cfg, Act(cfg, s, a), [a][1..]) == Act(cfg, s, a);
  }

  lemma CutoffOfView()
    ensures RawCutoff(VIEW, 2) == 1
  {
    assert RawCutoff(VIEW, 0) == 0 && RawCutoff(VIEW, 1) == 0;
  }

  // ----- The copy a duplicate notice points at is superseded

  function Asks(id: string, name: string): Message {
    Plain(Assistant, "").(toolCalls := [ToolCall(id, name, "f", 0, 0)])
  }

  function Gets(id: string, name: string, content: string): Message {
    ToolResult(ToolCall(id, name, "f", 0, 0), content)
  }

  function Exchange(id: string, name: string, content: string): seq<Message> {
    [Asks(id, name), Gets(id, name, content)]
  }

  /** Longer than the hot window. */
  function Long(): string {
    seq(4 * DECAY_HOT_WINDOW + 4, i => 'x')
  }

  /** A file is read, read again without a change, and then written. */
  function Reread(): seq<Message> {
    [Plain(System, "s"), Plain(User, "u"),
     Asks("1", "read"), Gets("1", "read", "x"),
     Asks("2", "read"), Gets("2", "read", "x"),
     Asks("3", "write"), Gets("3", "write", "ok"),
     Plain(User, Long())]
  }

  lemma OneCallIsPaired(id: string, name: string, content: string)
    ensures Paired(Exchange(id, name, content))
  {
    PairedBlock(Asks(id, name), [Gets(id, name, content)]);
    assert [Asks(id, name)] + [Gets(id, name, content)] == Exchange(id, name, content);
  }

  lemma RereadIsPaired()
    ensures Paired(Reread()) && ToolsArePlain(Reread())
  {
    hide Paired, Long;
    var head, tail := [Plain(System, "s"), Plain(User, "u")], [Plain(User, Long())];
    var one, two, three := Exchange("1", "read", "x"), Exchange("2", "read", "x"), Exchange("3", "write", "ok");
    OneCallIsPaired("1", "read", "x");
    OneCallIsPaired("2", "read", "x");
    OneCallIsPaired("3", "write", "ok");
    PairedFlat(head);
    PairedFlat(tail);
    PairedConcat(head, one);
    PairedConcat(head + one, two);
    PairedConcat(head + one + two, three);
    PairedConcat(head + one + two + three, tail);
    assert Reread() == head + one + two + three + tail;
  }

  lemma RereadBoundary()
    ensures HotBoundary(Reread()) == 8
  {
    var s := Reread();
    assert |s[8].content| == 4 * DECAY_HOT_WINDOW + 4;
    assert MsgTokens(s[8]) > DECAY_HOT_WINDOW;
  }

  lemma CallsOfReread()
    ensures var s := Reread();
            && PathOf(HOST, s, 3) == PathOf(HOST, s, 5) == PathOf(HOST, s, 7) == "f"
            && CallArgs(s, 3) == CallArgs(s, 5) == "f"
  {
    var s := Reread();
    assert OwnerBefore(s, 3) == Some(2) && OwnerBefore(s, 5) == Some(4) && OwnerBefore(s, 7) == Some(6);
  }

  lemma ReadsOfReread()
    ensures var s := Reread();
            && |s| == 9 && s[3].content == s[5].content
            && LiveRead(HOST, s, 3) && LiveRead(HOST, s, 5) && !LiveRead(HOST, s, 4) && !LiveRead(HOST, s, 7)
  {
    hide PathOf, Long;
    var s := Reread();
    CallsOfReread();
    assert s[3] == s[5].(toolCallID := "1") == Gets("1", "read", "x") && s[7].name == "write" && s[4].role == Assistant;
    assert "x"[0] == 'x' && DECAYED_MARKER[0] != 'x';
    assert !IsDecayed("x");
    assert |"read"| == 4 && |"write"| == 5;
  }

  lemma RereadIsDuplicate()
    ensures Duplicate(HOST, Reread(), 8, 5) && !Duplicate(HOST, Reread(), 8, 7)
  {
    hide PathOf, CallArgs, LiveRead, Reread;
    var s := Reread();
    CallsOfReread();
    ReadsOfReread();
    assert LastRead(HOST, s, KeyOf(HOST, s, 5), 4) == Some(3);
    assert LastRead(HOST, s, KeyOf(HOST, s, 5), 5) == Some(3);
  }

  /** The second read says that its content stands at the first read above, and no
      read above it has any content left. */
  lemma DuplicateNoticeCanMislead()
    ensures var s := Reread();
            && Paired(s) && ToolsArePlain(s)
            && Duplicate(HOST, s, HotBoundary(s), 5)
            && Decayed(HOST, s)[5].content == DuplicateNotice("f")
            && !exists k: nat :: InlineCopy(HOST, s, Decayed(HOST, s), 5, k)
  {
    hide Reread, Duplicate, Decayed, PathOf, InlineCopy, DuplicateNotice, HotBoundary, FirstCopy, Long;
    var s := Reread();
    RereadIsPaired();
    RereadBoundary();
    CallsOfReread();
    RereadIsDuplicate();
    RereadShows();
    NoticeStays(HOST, s, 5);
    FirstCopyIsInlineExactly(HOST, s, 5);
    assert Sights(HOST, s, 7, PathOf(HOST, s, 5));
  }

  lemma RereadShows()
    ensures |Reread()| == 9 && Sights(HOST, Reread(), 7, "f")
  {
    hide PathOf, Long;
    CallsOfReread();
  }
}
