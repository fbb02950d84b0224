/** What holds after every round, every turn and every session: the raw log stays
    covered by the view and every tool call stays paired with its result. */
module TurnLaws {
  import opened Transcript
  import opened Pairing
  import opened TailBoundary
  import opened Folding
  import opened Decay
  import opened DecayLaws
  import opened Turn

  // ----- The invariant

  /** Sequence numbers are positive and strictly increasing. */
  ghost predicate Numbering(cfg: Config) {
    cfg.number(0) > 0 && forall i: nat, j: nat :: i < j ==> cfg.number(i) < cfg.number(j)
  }

  ghost predicate LogNumbered(cfg: Config, log: seq<Message>) {
    forall i :: 0 <= i < |log| ==> log[i].rawSequence == cfg.number(i) && !log[i].role.System?
  }

  lemma LogIsOrdered(cfg: Config, log: seq<Message>)
    requires Numbering(cfg) && LogNumbered(cfg, log)
    ensures Ordered(log)
  {
    forall i | 0 <= i < |log| ensures log[i].rawSequence > 0 {
      assert cfg.number(0) <= cfg.number(i);
    }
  }

  /** The view covers the raw log and pairs every call with its result. */
  ghost predicate SoundView(cfg: Config, view: seq<Message>, log: seq<Message>) {
    && LogNumbered(cfg, log)
    && Covers(cfg.transform, view, log)
    && Paired(view)
  }

  /** The summary the last fold returned. */
  function LastSummary(trace: seq<Event>): Option<string> {
    if trace == [] then None
    else match trace[|trace| - 1]
      case Summarized(_, _, summary) => Some(summary)
      case _ => LastSummary(trace[..|trace| - 1])
  }

  /** Every fold was handed exactly what the fold before it returned. */
  ghost predicate HandedOn(trace: seq<Event>) {
    forall i :: 0 <= i < |trace| && trace[i].Summarized? ==>
      trace[i].prior == (match LastSummary(trace[..i]) case None => "" case Some(summary) => summary)
  }

  /** ... and the view carries what the last one returned. */
  ghost predicate Carries(view: seq<Message>, trace: seq<Event>) {
    match LastSummary(trace)
    case None => !HasSummary(view)
    case Some(summary) => HasSummary(view) && view[1].content == SUMMARY_PREFIX + summary
  }

  ghost predicate Sound(cfg: Config, s: State) {
    SoundView(cfg, s.messages, s.log) && HandedOn(s.trace) && Carries(s.messages, s.trace)
  }

  /** An event that is no fold changes nothing about the summaries. */
  lemma OtherEventsHandOn(trace: seq<Event>, e: Event)
    requires !e.Summarized?
    ensures LastSummary(trace + [e]) == LastSummary(trace)
    ensures HandedOn(trace) ==> HandedOn(trace + [e])
  {
    var after := trace + [e];
    assert after[..|trace|] == trace;
    assert forall i :: 0 <= i < |trace| ==> after[..i] == trace[..i];
  }

  lemma FoldEventsHandOn(trace: seq<Event>, e: Event)
    requires e.Summarized? && HandedOn(trace)
    requires e.prior == (match LastSummary(trace) case None => "" case Some(summary) => summary)
    ensures HandedOn(trace + [e]) && LastSummary(trace + [e]) == Some(e.summary)
  {
    var after := trace + [e];
    assert after[..|trace|] == trace;
    assert forall i :: 0 <= i < |trace| ==> after[..i] == trace[..i];
  }

  lemma RequestKeepsSound(cfg: Config, s: State, u: State, final: bool)
    requires Sound(cfg, s)
    requires u.messages == s.messages && u.log == s.log && u.trace == s.trace + [Streamed(final)]
    ensures Sound(cfg, u)
  {
    hide SoundView, HandedOn, LastSummary;
    OtherEventsHandOn(s.trace, Streamed(final));
  }

  lemma FreshIsSound(cfg: Config, systemPrompt: string)
    ensures Sound(cfg, Fresh(systemPrompt))
  {
    PairedFlat(Fresh(systemPrompt).messages);
  }

  // ----- What the inputs are relied on for

  /** Injected messages are user messages, as the callbacks that supply them
      promise; a request made without tools gets no tool calls back. */
  ghost predicate UserMessages(msgs: seq<Message>) {
    forall i :: 0 <= i < |msgs| ==> msgs[i].role.User?
  }

  ghost predicate HonestRound(r: Round) {
    r.boundary.Inject? ==> UserMessages(r.boundary.messages)
  }

  ghost predicate HonestTurn(t: TurnInput) {
    && UserMessages(t.prefix)
    && (forall i :: 0 <= i < |t.rounds| ==> HonestRound(t.rounds[i]))
    && (t.finalStream.Replied? ==> t.finalStream.reply.calls == [])
  }

  // ----- Appending

  /** Behind a sound view, rows that are shown for what they are keep it sound. */
  lemma AppendKeepsSound(cfg: Config, s: State, shown: seq<Message>, rows: seq<Message>)
    requires Numbering(cfg) && Sound(cfg, s)
    requires |shown| == |rows| && Paired(shown)
    requires |s.messages| == 1 && shown != [] ==> shown[0].role.User?
    requires forall i :: 0 <= i < |rows| ==>
               && rows[i].rawSequence == cfg.number(|s.log| + i) && !rows[i].role.System?
               && Represents(cfg.transform, shown[i], rows[i])
    ensures Sound(cfg, s.(messages := s.messages + shown, log := s.log + rows))
    ensures Cutoff(s.messages + shown) == Cutoff(s.messages)
  {
    hide SoundView, HandedOn, Carries, Represents, Cutoff;
    AppendKeepsSoundView(cfg, s.messages, s.log, shown, rows);
    CarriedByHead(s.messages, s.messages + shown, s.trace);
  }

  lemma AppendKeepsSoundView(cfg: Config, view: seq<Message>, log: seq<Message>, shown: seq<Message>, rows: seq<Message>)
    requires Numbering(cfg) && SoundView(cfg, view, log)
    requires |shown| == |rows| && Paired(shown)
    requires |view| == 1 && shown != [] ==> shown[0].role.User?
    requires forall i :: 0 <= i < |rows| ==>
               && rows[i].rawSequence == cfg.number(|log| + i) && !rows[i].role.System?
               && Represents(cfg.transform, shown[i], rows[i])
    ensures SoundView(cfg, view + shown, log + rows)
    ensures Cutoff(view + shown) == Cutoff(view)
    ensures HasSummary(view + shown) <==> HasSummary(view)
    ensures |view| > 0
  {
    hide Paired, LogNumbered, Represents, Cutoff, ExactlyAbove, InLog, IsSummary, Numbering;
    PairedConcat(view, shown);
    NumberedLogGrows(cfg, log, rows);
    NewRowsAreAboveCutoff(cfg, view, log, shown, rows);
    AppendKeepsCoverage(cfg.transform, view, shown, log, rows);
  }

  lemma NumberedLogGrows(cfg: Config, log: seq<Message>, rows: seq<Message>)
    requires LogNumbered(cfg, log)
    requires forall i :: 0 <= i < |rows| ==> rows[i].rawSequence == cfg.number(|log| + i) && !rows[i].role.System?
    ensures LogNumbered(cfg, log + rows)
  {
  }

  lemma CarriedByHead(view: seq<Message>, after: seq<Message>, trace: seq<Event>)
    requires Carries(view, trace)
    requires HasSummary(after) == HasSummary(view) && (HasSummary(view) ==> after[1] == view[1])
    ensures Carries(after, trace)
  {
  }

  lemma NewRowsAreAboveCutoff(cfg: Config, view: seq<Message>, log: seq<Message>, shown: seq<Message>, rows: seq<Message>)
    requires Numbering(cfg) && LogNumbered(cfg, log) && Covers(cfg.transform, view, log)
    requires |shown| == |rows|
    requires forall i :: 0 <= i < |rows| ==>
               rows[i].rawSequence == cfg.number(|log| + i) && Represents(cfg.transform, shown[i], rows[i])
    ensures forall i :: 0 <= i < |rows| ==> shown[i].rawSequence > Cutoff(view)
  {
    hide Covers, Cutoff;
    CutoffIsLogged(cfg, view, log);
  }

  /** The cutoff is below the number of the next row. */
  lemma CutoffIsLogged(cfg: Config, view: seq<Message>, log: seq<Message>)
    requires Numbering(cfg) && LogNumbered(cfg, log) && Covers(cfg.transform, view, log)
    ensures forall i: nat :: i >= |log| ==> Cutoff(view) < cfg.number(i)
  {
    hide Represents, Paired, ExactlyAbove;
    forall i: nat | i >= |log| ensures Cutoff(view) < cfg.number(i) {
      assert cfg.number(0) <= cfg.number(i);
      if HasSummary(view) {
        var r :| 0 <= r < |log| && log[r].rawSequence == Cutoff(view);
        assert cfg.number(r) < cfg.number(i);
      }
    }
  }

  lemma AppendKeepsCoverage(transform: Transform, view: seq<Message>, shown: seq<Message>, log: seq<Message>, rows: seq<Message>)
    requires Covers(transform, view, log)
    requires |shown| == |rows|
    requires |view| == 1 && shown != [] ==> shown[0].role.User?
    requires forall i :: 0 <= i < |rows| ==> Represents(transform, shown[i], rows[i]) && shown[i].rawSequence > Cutoff(view)
    ensures Covers(transform, view + shown, log + rows)
    ensures Cutoff(view + shown) == Cutoff(view)
    ensures HasSummary(view + shown) <==> HasSummary(view)
  {
    hide Represents, ExactlyAbove;
    var after := view + shown;
    assert HasSummary(after) <==> HasSummary(view);
    if HasSummary(view) {
      var r :| 0 <= r < |log| && log[r].rawSequence == Cutoff(view);
      assert (log + rows)[r].rawSequence == Cutoff(view);
    }
    assert HasPin(after) <==> HasPin(view);
    if HasPin(view) {
      PinStaysLogged(transform, view[2], log, rows);
    }
    ExtendExactly(transform, view, shown, TailIndex(view), log, rows, Cutoff(view));
  }

  lemma PinStaysLogged(transform: Transform, m: Message, log: seq<Message>, rows: seq<Message>)
    requires InLog(transform, m, log)
    ensures InLog(transform, m, log + rows)
  {
    var r :| 0 <= r < |log| && Represents(transform, m, log[r]);
    assert (log + rows)[r] == log[r];
  }

  lemma ExtendExactly(transform: Transform, view: seq<Message>, shown: seq<Message>, start: nat, log: seq<Message>, rows: seq<Message>, c: int)
    requires start <= |view| && |shown| == |rows|
    requires ExactlyAbove(transform, view, start, log, c)
    requires forall i :: 0 <= i < |rows| ==> Represents(transform, shown[i], rows[i]) && shown[i].rawSequence > c
    ensures ExactlyAbove(transform, view + shown, start, log + rows, c)
  {
    var shift := |log| - |view|;
    forall r | 0 <= r < |log + rows| ensures (log + rows)[r].rawSequence > c <==> r >= start + shift {
      if r >= |log| {
        assert Represents(transform, shown[r - |log|], rows[r - |log|]);
      }
    }
    forall i | start <= i < |view + shown| ensures Represents(transform, (view + shown)[i], (log + rows)[i + shift]) {
      if i < |view| {
        assert Represents(transform, view[i], log[i + shift]);
      } else {
        assert Represents(transform, shown[i - |view|], rows[i - |view|]);
      }
    }
  }

  /** A row whose tool results carry no parts stands for itself. */
  ghost predicate Recordable(msgs: seq<Message>) {
    forall i :: 0 <= i < |msgs| ==> !msgs[i].role.System? && (msgs[i].role.Tool? ==> msgs[i].parts == [])
  }

  lemma AppendAllKeepsSound(cfg: Config, s: State, msgs: seq<Message>)
    requires Numbering(cfg) && Sound(cfg, s)
    requires Recordable(msgs) && Paired(msgs)
    requires |s.messages| == 1 && msgs != [] ==> msgs[0].role.User?
    ensures Sound(cfg, AppendAll(cfg, s, msgs))
    ensures Cutoff(AppendAll(cfg, s, msgs).messages) == Cutoff(s.messages)
  {
    hide Sound, Paired;
    var rows := Numbered(cfg, |s.log|, msgs);
    assert forall i :: 0 <= i < |rows| ==> PairsAlike(msgs[i], rows[i]);
    PairedByShape(msgs, rows);
    AppendKeepsSound(cfg, s, rows, rows);
  }

  // ----- Replies, results, and what is preserved of a broken response

  lemma PreservedRowsArePaired(partial: Reply, failure: Failure)
    ensures Paired(PreservedRows(partial, failure)) && Recordable(PreservedRows(partial, failure))
  {
    var rows := PreservedRows(partial, failure);
    if rows != [] {
      PairedBlock(rows[0], rows[1..]);
      assert rows == [rows[0]] + rows[1..];
    }
  }

  /** The reply with its measured calls, and one result per call in call order. */
  function ShownBlock(reply: Reply, finished: seq<Completion>): seq<Message> {
    [ReplyMessage(reply).(toolCalls := MeasuredCalls(reply.calls, finished))] + ResultRows(reply.calls, finished)
  }

  function LoggedBlock(reply: Reply, finished: seq<Completion>): seq<Message> {
    [ReplyMessage(reply)] + ResultRows(reply.calls, finished)
  }

  lemma ToolBlock(cfg: Config, s: State, reply: Reply, finished: seq<Completion>)
    ensures AfterTools(cfg, AppendAll(cfg, s, [ReplyMessage(reply)]), reply.calls, finished)
            == s.(messages := s.messages + Numbered(cfg, |s.log|, ShownBlock(reply, finished)),
                  log := s.log + Numbered(cfg, |s.log|, LoggedBlock(reply, finished)))
  {
    hide MeasuredCalls, ResultRows;
    var t := AppendAll(cfg, s, [ReplyMessage(reply)]);
    var u := AfterTools(cfg, t, reply.calls, finished);
    var results := ResultRows(reply.calls, finished);
    NumberedTail(cfg, |s.log|, ShownBlock(reply, finished)[0], results);
    NumberedTail(cfg, |s.log|, LoggedBlock(reply, finished)[0], results);
    hide Numbered;
    var measured := ShownBlock(reply, finished)[0].(rawSequence := cfg.number(|s.log|));
    assert t.messages[|t.messages| - 1 := measured] == s.messages + [measured];
    assert u.log == s.log + Numbered(cfg, |s.log|, LoggedBlock(reply, finished));
    assert u.messages == s.messages + Numbered(cfg, |s.log|, ShownBlock(reply, finished));
  }

  lemma NumberedTail(cfg: Config, first: nat, m: Message, rest: seq<Message>)
    ensures Numbered(cfg, first, [m] + rest) == [m.(rawSequence := cfg.number(first))] + Numbered(cfg, first + 1, rest)
  {
    var all, tail := Numbered(cfg, first, [m] + rest), Numbered(cfg, first + 1, rest);
    forall i | 0 <= i < |tail| ensures tail[i] == all[i + 1] {
      assert first + 1 + i == first + (i + 1);
    }
  }

  lemma ToolBlockIsPaired(cfg: Config, first: nat, reply: Reply, finished: seq<Completion>)
    ensures Paired(Numbered(cfg, first, ShownBlock(reply, finished)))
  {
    hide Paired;
    var shown := ShownBlock(reply, finished);
    var numbered := Numbered(cfg, first, shown);
    PairedBlock(shown[0], shown[1..]);
    assert shown == [shown[0]] + shown[1..];
    assert forall i :: 0 <= i < |numbered| ==> PairsAlike(shown[i], numbered[i]);
    PairedByShape(shown, numbered);
  }

  lemma ToolBlockKeepsSound(cfg: Config, s: State, reply: Reply, finished: seq<Completion>)
    requires Numbering(cfg) && Sound(cfg, s) && |s.messages| > 1
    ensures var u := AfterTools(cfg, AppendAll(cfg, s, [ReplyMessage(reply)]), reply.calls, finished);
            Sound(cfg, u) && Cutoff(u.messages) == Cutoff(s.messages) && |u.messages| > 1 && u.pending == s.pending
  {
    hide SoundView, Paired, HandedOn, LastSummary;
    ToolBlock(cfg, s, reply, finished);
    ToolBlockIsPaired(cfg, |s.log|, reply, finished);
    var shown := Numbered(cfg, |s.log|, ShownBlock(reply, finished));
    var logged := Numbered(cfg, |s.log|, LoggedBlock(reply, finished));
    AppendKeepsSound(cfg, s, shown, logged);
  }

  // ----- Decay and folding inside the state

  lemma SoundViewsArePlain(cfg: Config, s: State)
    requires Sound(cfg, s)
    ensures ToolsArePlain(s.messages)
  {
    var shift := |s.log| - |s.messages|;
    forall i | 0 <= i < |s.messages| && s.messages[i].role.Tool? ensures s.messages[i].parts == [] {
      assert i >= TailIndex(s.messages);
      assert Represents(cfg.transform, s.messages[i], s.log[i + shift]);
    }
  }

  lemma StrippedStillShows(host: Host, i: nat, m: Message, text: string, parts: seq<ContentPart>)
    requires Shows(m, text, parts)
    ensures Shows(Stripped(host, i, m), text, parts)
  {
    hide WithNotes, ImageNotes, IsDecayed;
    if m.parts == parts && ImageCount(parts) > 0 {
      NotePerImage(host, i, ImageCount(parts));
      assert Stripped(host, i, m).content == WithNotes(text, parts, ImageNotes(host, i, ImageCount(parts)));
    }
  }

  lemma DecayedStillRepresents(transform: Transform, host: Host, boundary: nat, i: nat, m: Message, now: Message, row: Message)
    requires Represents(transform, m, row) && DecayedOne(host, boundary, i, m, now)
    ensures Represents(transform, now, row)
  {
    hide Shows, IsDecayed;
    if row.role.User? {
      if Shows(m, row.content, row.parts) {
        StrippedStillShows(host, i, m, row.content, row.parts);
      } else {
        StrippedStillShows(host, i, m, transform(row.content).value, row.parts);
      }
    } else if !row.role.Tool? {
      StrippedStillShows(host, i, m, row.content, row.parts);
    }
  }

  /** What a message of the view still says of a row that is no tool result: the
      text of the row, or what the input was rewritten to, comes first, and every
      text part of the row is a part of the message or stands in its text. */
  lemma RowTextIsShown(transform: Transform, m: Message, row: Message)
    requires Represents(transform, m, row) && !row.role.Tool?
    ensures row.content <= m.content || (row.role.User? && transform(row.content).Some? && transform(row.content).value <= m.content)
    ensures forall j :: 0 <= j < |row.parts| && row.parts[j].TextPart? ==> row.parts[j] in m.parts || Contains(m.content, row.parts[j].text)
  {
    hide Shows, IsDecayed, Contains;
    if Shows(m, row.content, row.parts) {
      ShownTextIsThere(m, row.content, row.parts);
    } else {
      ShownTextIsThere(m, transform(row.content).value, row.parts);
    }
  }

  lemma ShownTextIsThere(m: Message, text: string, parts: seq<ContentPart>)
    requires Shows(m, text, parts)
    ensures text <= m.content
    ensures forall j :: 0 <= j < |parts| && parts[j].TextPart? ==> parts[j] in m.parts || Contains(m.content, parts[j].text)
  {
    hide WithNotes, ImageCount, IsDecayed, Contains;
    if !(m.content == text && m.parts == parts) {
      var notes: seq<string> :| |notes| == ImageCount(parts) && (forall n :: n in notes ==> IsDecayed(n))
                                && m.content == WithNotes(text, parts, notes);
      NotesKeepTexts(text, parts, notes);
    }
  }

  lemma DecayKeepsSound(cfg: Config, s: State, host: Host)
    requires Sound(cfg, s)
    ensures Sound(cfg, s.(messages := Decayed(host, s.messages)))
    ensures Cutoff(Decayed(host, s.messages)) == Cutoff(s.messages)
  {
    hide Paired, Covers, Decayed, HotBoundary, HandedOn, Carries;
    SoundViewsArePlain(cfg, s);
    var view, after := s.messages, Decayed(host, s.messages);
    DecayFrame(host, view);
    assert forall i :: 0 <= i < |view| ==> PairsAlike(view[i], after[i]);
    PairedByShape(view, after);
    RewritingKeepsCoverage(cfg.transform, host, HotBoundary(view), view, after, s.log);
    CarriedByHead(view, after, s.trace);
  }

  lemma PromptAndSummaryStay(transform: Transform, host: Host, boundary: nat, view: seq<Message>, after: seq<Message>, log: seq<Message>)
    requires Covers(transform, view, log) && |after| == |view|
    requires forall i :: 0 <= i < |view| ==> DecayedOne(host, boundary, i, view[i], after[i])
    ensures after[0] == view[0] && (HasSummary(view) ==> after[1] == view[1])
    ensures forall i :: 0 <= i < |view| ==> after[i].role == view[i].role && after[i].rawSequence == view[i].rawSequence
  {
    hide ExactlyAbove, InLog, IsSummary, IsDecayed, WithNotes;
    assert DecayedOne(host, boundary, 0, view[0], after[0]);
    if HasSummary(view) {
      assert DecayedOne(host, boundary, 1, view[1], after[1]);
    }
  }

  lemma RewritingKeepsCoverage(transform: Transform, host: Host, boundary: nat, view: seq<Message>, after: seq<Message>, log: seq<Message>)
    requires Covers(transform, view, log) && |after| == |view|
    requires forall i :: 0 <= i < |view| ==> DecayedOne(host, boundary, i, view[i], after[i])
    ensures Covers(transform, after, log) && Cutoff(after) == Cutoff(view)
    ensures HasSummary(after) == HasSummary(view) && (HasSummary(view) ==> after[1] == view[1])
  {
    hide Represents, DecayedOne;
    PromptAndSummaryStay(transform, host, boundary, view, after, log);
    forall i | TailIndex(view) <= i < |view| ensures Represents(transform, after[i], log[i + (|log| - |view|)]) {
      DecayedStillRepresents(transform, host, boundary, i, view[i], after[i], log[i + (|log| - |view|)]);
    }
    if HasPin(view) {
      var r :| 0 <= r < |log| && Represents(transform, view[2], log[r]);
      DecayedStillRepresents(transform, host, boundary, 2, view[2], after[2], log[r]);
    }
  }

  lemma CompactKeepsSound(cfg: Config, s: State, kind: FoldKind, outcome: SummaryOutcome)
    requires Numbering(cfg) && Sound(cfg, s)
    ensures Sound(cfg, Compact(cfg, s, kind, outcome).0)
    ensures Cutoff(s.messages) <= Cutoff(Compact(cfg, s, kind, outcome).0.messages)
    ensures |s.messages| > 1 ==> |Compact(cfg, s, kind, outcome).0.messages| > 1
    ensures Compact(cfg, s, kind, outcome).0.log == s.log
  {
    hide Paired, Covers, PlanFold, Budget, TrimSpace, HandedOn, LastSummary;
    LogIsOrdered(cfg, s.log);
    match PlanFold(s.messages, Budget(cfg))
    case None =>
    case Some(plan) =>
      if outcome.SummaryText? {
        FoldKeepsView(cfg.transform, s.messages, s.log, Budget(cfg), plan, TrimSpace(outcome.text));
        PriorIsLastSummary(cfg, s, plan);
        FoldEventsHandOn(s.trace, Summarized(kind, plan.prior, TrimSpace(outcome.text)));
      }
  }

  lemma PriorIsLastSummary(cfg: Config, s: State, plan: FoldPlan)
    requires Sound(cfg, s) && PlanFold(s.messages, Budget(cfg)) == Some(plan)
    ensures plan.prior == (match LastSummary(s.trace) case None => "" case Some(summary) => summary)
  {
    hide Paired, Covers, PlanFold, Budget, HandedOn, LastSummary;
    match LastSummary(s.trace)
    case Some(summary) =>
      FoldHandsOnSummary(cfg.transform, s.messages, s.log, Budget(cfg), plan, summary);
    case None =>
      PlanCutsCleanly(cfg.transform, s.messages, s.log, Budget(cfg), plan);
  }

  lemma MaybeCompactKeepsSound(cfg: Config, s: State, kind: FoldKind, outcome: SummaryOutcome)
    requires Numbering(cfg) && Sound(cfg, s)
    ensures var t := MaybeCompact(cfg, s, kind, outcome).0;
            Sound(cfg, t) && Cutoff(s.messages) <= Cutoff(t.messages) && (|s.messages| > 1 ==> |t.messages| > 1) && t.log == s.log
  {
    hide Compact, SoundView, Cutoff, HandedOn, LastSummary, EstimateTokens, FoldLimit;
    CompactKeepsSound(cfg, s, kind, outcome);
    OtherEventsHandOn(Compact(cfg, s, kind, outcome).0.trace, Stalled);
  }

  // ----- Rounds

  /** `u` is sound, and its summary stands for no fewer rows than that of `s`. */
  ghost predicate Keeps(cfg: Config, s: State, u: State) {
    Sound(cfg, u) && Cutoff(s.messages) <= Cutoff(u.messages) && |u.messages| > 1
  }

  lemma AfterBreakKeepsSound(cfg: Config, s: State, r: Round, partial: Reply, failure: Failure)
    requires Numbering(cfg) && Sound(cfg, s) && |s.messages| > 1
    ensures Keeps(cfg, s, AfterBreak(cfg, s, r, partial, failure).state)
  {
    hide Compact, SoundView, Paired, Cutoff, PreservedRows, Recordable, HandedOn, LastSummary;
    PreservedRowsArePaired(partial, failure);
    AppendAllKeepsSound(cfg, s, PreservedRows(partial, failure));
    var kept := AppendAll(cfg, s, PreservedRows(partial, failure)).(retriedOverflow := true, compacted := true);
    CompactKeepsSound(cfg, kept, Overflow, r.retryFold);
  }

  lemma AtBoundaryKeepsSound(cfg: Config, s: State, r: Round, reply: Reply)
    requires Numbering(cfg) && Sound(cfg, s) && |s.messages| > 1 && HonestRound(r)
    ensures Keeps(cfg, s, AtBoundary(cfg, s, r, reply).state)
  {
    hide MaybeCompact, SoundView, Paired, Cutoff, HandedOn, LastSummary;
    match r.boundary
    case BoundaryFailed =>
    case Inject(messages) =>
      var injected := SteerMessages(s.pending) + messages;
      PairedFlat(injected);
      var drained := s.(pending := []);
      AppendAllKeepsSound(cfg, drained, injected);
      MaybeCompactKeepsSound(cfg, AppendAll(cfg, drained, injected), Closing, r.closing);
  }

  lemma AfterReplyKeepsSound(cfg: Config, s: State, r: Round, reply: Reply)
    requires Numbering(cfg) && Sound(cfg, s) && |s.messages| > 1 && HonestRound(r)
    ensures Keeps(cfg, s, AfterReply(cfg, s, r, reply).state)
  {
    hide AtBoundary, Paired, SoundView, AfterTools, Cutoff, HandedOn, LastSummary;
    var t := AppendAll(cfg, s, [ReplyMessage(reply)]);
    if reply.calls == [] {
      PairedFlat([ReplyMessage(reply)]);
      AppendAllKeepsSound(cfg, s, [ReplyMessage(reply)]);
      AtBoundaryKeepsSound(cfg, t, r, reply);
    } else {
      ToolBlockKeepsSound(cfg, s, reply, r.finished);
      var u := AfterTools(cfg, t, reply.calls, r.finished);
      AtBoundaryKeepsSound(cfg, u, r, reply);
    }
  }

  /** Whatever a round meets, at its end the view covers the log and every call
      has its result; the cutoff never goes back. */
  lemma RoundKeepsSound(cfg: Config, s: State, r: Round)
    requires Numbering(cfg) && Sound(cfg, s) && |s.messages| > 1 && HonestRound(r)
    ensures Keeps(cfg, s, RoundStep(cfg, s, r).state)
  {
    hide MaybeCompact, AfterReply, AfterBreak, SoundView, Cutoff, HandedOn, LastSummary;
    MaybeCompactKeepsSound(cfg, s, Proactive, r.fold);
    var (t, error) := MaybeCompact(cfg, s, Proactive, r.fold);
    if error.None? {
      var u := Request(t, false, r.promptTokens).(pending := t.pending + r.steers);
      RequestKeepsSound(cfg, t, u, false);
      match r.stream
      case Replied(reply) => AfterReplyKeepsSound(cfg, u, r, reply);
      case Broke(partial, failure) => AfterBreakKeepsSound(cfg, u, r, partial, failure);
    }
  }

  /** The request made at the cap keeps the view sound if and only if the provider
      honours that no tools were offered. */
  lemma FinalAnswerKeepsSound(cfg: Config, s: State, stream: StreamOutcome, promptTokens: int)
    requires Numbering(cfg) && Sound(cfg, s) && |s.messages| > 1
    ensures Sound(cfg, FinalAnswer(cfg, s, stream, promptTokens).0) <==> (stream.Replied? ==> stream.reply.calls == [])
    ensures Cutoff(FinalAnswer(cfg, s, stream, promptTokens).0.messages) == Cutoff(s.messages)
    ensures |FinalAnswer(cfg, s, stream, promptTokens).0.messages| > 1
  {
    hide SoundView, Paired, PreservedRows, Recordable, HandedOn, LastSummary;
    var t := Request(s, true, promptTokens);
    RequestKeepsSound(cfg, s, t, true);
    match stream
    case Broke(partial, failure) =>
      PreservedRowsArePaired(partial, failure);
      AppendAllKeepsSound(cfg, t, PreservedRows(partial, failure));
    case Replied(reply) =>
      LastReplyKeepsSound(cfg, t, reply);
  }

  lemma LastReplyKeepsSound(cfg: Config, s: State, reply: Reply)
    requires Numbering(cfg) && Sound(cfg, s) && |s.messages| > 1
    ensures Sound(cfg, AppendAll(cfg, s, [ReplyMessage(reply)])) <==> reply.calls == []
  {
    hide Covers, Paired, HandedOn, LastSummary;
    var m := ReplyMessage(reply).(rawSequence := cfg.number(|s.log|));
    assert Numbered(cfg, |s.log|, [ReplyMessage(reply)]) == [m];
    PairedLast(s.messages, m);
    if reply.calls == [] {
      PairedFlat([ReplyMessage(reply)]);
      AppendAllKeepsSound(cfg, s, [ReplyMessage(reply)]);
    }
  }

  lemma {:induction false} RoundsKeepSound(cfg: Config, s: State, t: TurnInput, done: nat, rounds: seq<Round>)
    requires Numbering(cfg) && Sound(cfg, s) && |s.messages| > 1
    requires HonestTurn(t) && forall i :: 0 <= i < |rounds| ==> HonestRound(rounds[i])
    ensures Keeps(cfg, s, Rounds(cfg, s, t, done, rounds).0)
    decreases |rounds|
  {
    hide SoundView, RoundStep, FinalAnswer, Cutoff, HandedOn, LastSummary;
    if cfg.maxTurns > 0 && done >= cfg.maxTurns {
      FinalAnswerKeepsSound(cfg, s, t.finalStream, t.finalPromptTokens);
    } else if rounds != [] {
      RoundKeepsSound(cfg, s, rounds[0]);
      match RoundStep(cfg, s, rounds[0])
      case Continue(u) => RoundsKeepSound(cfg, u, t, done + 1, rounds[1..]);
      case Exit(_, _) =>
    }
  }

  // ----- Turns and sessions

  lemma BeginKeepsSound(cfg: Config, s: State, t: TurnInput, shown: string)
    requires Numbering(cfg) && Sound(cfg, s) && UserMessages(t.prefix)
    requires cfg.transform(t.input) == Some(shown)
    ensures Keeps(cfg, s, Begin(cfg, s, t, shown))
  {
    hide SoundView, Paired, Decayed, Cutoff, HandedOn, LastSummary;
    DecayKeepsSound(cfg, s, t.host);
    SoundHasPrompt(cfg, s);
    var decayed := s.(messages := Decayed(t.host, s.messages), running := true);
    PairedFlat(t.prefix);
    AppendAllKeepsSound(cfg, decayed, t.prefix);
    var u := AppendAll(cfg, decayed, t.prefix);
    var k := cfg.number(|u.log|);
    var row := UserText(t.input, t.parts, t.authored).(rawSequence := k);
    var m := row.(content := shown);
    PairedFlat([m]);
    AppendKeepsSound(cfg, u, [m], [row]);
  }

  lemma SoundHasPrompt(cfg: Config, s: State)
    requires Sound(cfg, s)
    ensures |s.messages| > 0
  {
  }

  /** After any turn, however it ended and after however many rounds: the view
      covers the raw log, every call is paired, and the cutoff has not gone back. */
  lemma TurnKeepsSound(cfg: Config, s: State, t: TurnInput)
    requires Numbering(cfg) && Sound(cfg, s) && HonestTurn(t)
    ensures Sound(cfg, RunTurn(cfg, s, t).0)
    ensures Cutoff(s.messages) <= Cutoff(RunTurn(cfg, s, t).0.messages)
  {
    hide SoundView, Rounds, Begin, Cutoff, HandedOn, LastSummary;
    match cfg.transform(t.input)
    case None =>
    case Some(shown) =>
      BeginKeepsSound(cfg, s, t, shown);
      RoundsKeepSound(cfg, Begin(cfg, s, t, shown), t, 0, t.rounds);
  }

  ghost predicate HonestSession(actions: seq<Action>) {
    forall i :: 0 <= i < |actions| && actions[i].TakeTurn? ==> HonestTurn(actions[i].turn)
  }

  lemma {:induction false} SessionKeepsSound(cfg: Config, s: State, actions: seq<Action>)
    requires Numbering(cfg) && Sound(cfg, s) && HonestSession(actions)
    ensures Sound(cfg, Session(cfg, s, actions))
    ensures Cutoff(s.messages) <= Cutoff(Session(cfg, s, actions).messages)
    decreases |actions|
  {
    hide SoundView, Cutoff, RunTurn, Compact, HandedOn, LastSummary;
    if actions != [] && !s.running {
      match actions[0] {
        case TakeTurn(t) => TurnKeepsSound(cfg, s, t);
        case CompactNow(outcome) => CompactKeepsSound(cfg, s, Manual, outcome);
      }
      SessionKeepsSound(cfg, Act(cfg, s, actions[0]), actions[1..]);
    }
  }

  // ----- The system prompt

  ghost predicate Prompted(s: State, prompt: Message) {
    |s.messages| > 0 && s.messages[0] == prompt && prompt.role.System?
  }

  lemma AppendKeepsPrompt(cfg: Config, s: State, msgs: seq<Message>, prompt: Message)
    requires Prompted(s, prompt)
    ensures Prompted(AppendAll(cfg, s, msgs), prompt)
  {
    hide Numbered;
  }

  lemma CompactKeepsPrompt(cfg: Config, s: State, kind: FoldKind, outcome: SummaryOutcome, prompt: Message)
    requires Prompted(s, prompt)
    ensures Prompted(Compact(cfg, s, kind, outcome).0, prompt)
    ensures Prompted(MaybeCompact(cfg, s, kind, outcome).0, prompt)
  {
    hide PlanFold, RawCutoff, EstimateTokens, FoldLimit, OverThreshold;
  }

  lemma DecayKeepsPrompt(host: Host, msgs: seq<Message>)
    requires msgs != [] && msgs[0].role.System?
    ensures Decayed(host, msgs)[0] == msgs[0]
  {
    hide LastRead, NewestSighting, HotBoundary;
    var b := HotBoundary(msgs);
    var m1 := AfterDuplicates(host, msgs, b);
    var m2 := AfterSuperseded(host, m1, b);
    assert m1[0] == DuplicateOne(host, msgs, b, 0) == msgs[0];
    assert m2[0] == SupersededOne(host, m1, b, 0) == msgs[0];
    assert AfterAge(host, m2, b)[0] == AgedOne(host, m2, b, 0) == msgs[0];
  }

  lemma BoundaryKeepsPrompt(cfg: Config, s: State, r: Round, reply: Reply, prompt: Message)
    requires Prompted(s, prompt)
    ensures Prompted(AtBoundary(cfg, s, r, reply).state, prompt)
  {
    hide AppendAll, MaybeCompact, SteerMessages;
    if r.boundary.Inject? {
      var rows := SteerMessages(s.pending) + r.boundary.messages;
      AppendKeepsPrompt(cfg, s.(pending := []), rows, prompt);
      CompactKeepsPrompt(cfg, AppendAll(cfg, s.(pending := []), rows), Closing, r.closing, prompt);
    }
  }

  lemma ReplyKeepsPrompt(cfg: Config, s: State, r: Round, reply: Reply, prompt: Message)
    requires Prompted(s, prompt)
    ensures Prompted(AfterReply(cfg, s, r, reply).state, prompt)
  {
    hide AtBoundary, MeasuredCalls, ResultRows, Numbered;
    var t := AppendAll(cfg, s, [ReplyMessage(reply)]);
    BoundaryKeepsPrompt(cfg, t, r, reply, prompt);
    BoundaryKeepsPrompt(cfg, AfterTools(cfg, t, reply.calls, r.finished), r, reply, prompt);
  }

  lemma RoundKeepsPrompt(cfg: Config, s: State, r: Round, prompt: Message)
    requires Prompted(s, prompt)
    ensures Prompted(RoundStep(cfg, s, r).state, prompt)
  {
    hide MaybeCompact, Compact, AfterReply, PreservedRows, AppendAll;
    CompactKeepsPrompt(cfg, s, Proactive, r.fold, prompt);
    var t := MaybeCompact(cfg, s, Proactive, r.fold).0;
    var u := Request(t, false, r.promptTokens).(pending := t.pending + r.steers);
    match r.stream
    case Replied(reply) => ReplyKeepsPrompt(cfg, u, r, reply, prompt);
    case Broke(partial, failure) =>
      AppendKeepsPrompt(cfg, u, PreservedRows(partial, failure), prompt);
      var kept := AppendAll(cfg, u, PreservedRows(partial, failure)).(retriedOverflow := true, compacted := true);
      CompactKeepsPrompt(cfg, kept, Overflow, r.retryFold, prompt);
  }

  lemma {:induction false} RoundsKeepPrompt(cfg: Config, s: State, t: TurnInput, done: nat, rounds: seq<Round>, prompt: Message)
    requires Prompted(s, prompt)
    ensures Prompted(Rounds(cfg, s, t, done, rounds).0, prompt)
    decreases |rounds|
  {
    hide RoundStep, PreservedRows, Numbered;
    if !(cfg.maxTurns > 0 && done >= cfg.maxTurns) && rounds != [] {
      RoundKeepsPrompt(cfg, s, rounds[0], prompt);
      match RoundStep(cfg, s, rounds[0])
      case Continue(u) => RoundsKeepPrompt(cfg, u, t, done + 1, rounds[1..], prompt);
      case Exit(_, _) =>
    }
  }

  lemma TurnKeepsPrompt(cfg: Config, s: State, t: TurnInput, prompt: Message)
    requires Prompted(s, prompt)
    ensures Prompted(RunTurn(cfg, s, t).0, prompt)
  {
    hide Rounds, Decayed, Numbered;
    match cfg.transform(t.input)
    case None =>
    case Some(shown) =>
      DecayKeepsPrompt(t.host, s.messages);
      RoundsKeepPrompt(cfg, Begin(cfg, s, t, shown), t, 0, t.rounds, prompt);
  }

  lemma {:induction false} SessionKeepsPrompt(cfg: Config, s: State, actions: seq<Action>, prompt: Message)
    requires Prompted(s, prompt)
    ensures Prompted(Session(cfg, s, actions), prompt)
    decreases |actions|
  {
    hide RunTurn, Compact;
    if actions != [] && !s.running {
      match actions[0] {
        case TakeTurn(t) => TurnKeepsPrompt(cfg, s, t, prompt);
        case CompactNow(outcome) => CompactKeepsPrompt(cfg, s, Manual, outcome, prompt);
      }
      SessionKeepsPrompt(cfg, Act(cfg, s, actions[0]), actions[1..], prompt);
    }
  }

  /** Every session of a new agent, at every point it can be looked at. */
  lemma EverySessionIsSound(cfg: Config, systemPrompt: string, actions: seq<Action>)
    requires Numbering(cfg) && HonestSession(actions)
    ensures var s := Session(cfg, Fresh(systemPrompt), actions);
            && Covers(cfg.transform, s.messages, s.log) && Ordered(s.log)
            && Prompted(s, Plain(System, systemPrompt))
            && Paired(s.messages)
            && HandedOn(s.trace) && Carries(s.messages, s.trace)
  {
    hide Covers, Paired, Session, Ordered, HandedOn, Carries;
    FreshIsSound(cfg, systemPrompt);
    SessionKeepsPrompt(cfg, Fresh(systemPrompt), actions, Plain(System, systemPrompt));
    SessionKeepsSound(cfg, Fresh(systemPrompt), actions);
    LogIsOrdered(cfg, Session(cfg, Fresh(systemPrompt), actions).log);
  }
}
