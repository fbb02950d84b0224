/** Folding old history into a summary, and what every fold keeps.

    The raw log holds every message ever recorded, under strictly increasing
    sequence numbers. The view is what the model is sent. */
module Folding {
  import opened Transcript
  import opened Numerals
  import opened Pairing
  import opened TailBoundary
  import opened Decay

  type Transform = string -> Option<string>

  // ----- The fold

  /** What a fold will do: keep the messages from `tailStart` on, behind the
      pinned message if there is one, and have `history` merged into `prior`. */
  datatype FoldPlan = FoldPlan(tailStart: nat, split: bool, prior: string, history: seq<Message>, pinned: seq<Message>)

  /** Orphan safety: a tail of more than four messages that begins with a tool
      result is extended back to the message before the results. Message 1 is
      never a result, so the walk ends there at the latest. */
  function WalkBack(view: seq<Message>, start: nat): (r: nat)
    requires 1 <= start <= |view|
    ensures 1 <= r <= start
  {
    if start > 1 && |view| - start > 4 && view[start].role.Tool? then WalkBack(view, start - 1) else start
  }

  /** The last user message before `end`, or 0. */
  function UserBefore(view: seq<Message>, end: nat): (r: nat)
    requires end <= |view|
    ensures 0 < end ==> r < end
    ensures r > 0 ==> r < end && view[r].role.User?
    ensures forall j :: 0 < j < end && j > r ==> !view[j].role.User?
  {
    if end <= 1 then 0 else if view[end - 1].role.User? then end - 1 else UserBefore(view, end - 1)
  }

  /** None: not enough history to compact. */
  function PlanFold(view: seq<Message>, budget: int): (r: Option<FoldPlan>)
    ensures r.Some? ==> 3 < |view| && 1 <= r.value.tailStart <= |view|
  {
    if |view| <= 3 then None
    else
      var (start, split) := TailStart(view, budget);
      TailStartIsBoundary(view, budget);
      var tailStart := WalkBack(view, if start <= 1 then 2 else start);
      var folded := view[1..tailStart];
      var merges := folded != [] && IsSummary(folded[0]);
      var prior := if merges then folded[0].content[|SUMMARY_PREFIX|..] else "";
      var history := if merges then folded[1..] else folded;
      var opening := UserBefore(view, tailStart);
      var pinned := if split && opening > 0 then [view[opening]] else [];
      if |history| - |pinned| <= 0 then None
      else Some(FoldPlan(tailStart, split, prior, history, pinned))
  }

  /** The highest sequence number before `cutoff`, 0 when there is none. */
  function RawCutoff(view: seq<Message>, cutoff: nat): int
    requires cutoff <= |view|
  {
    if cutoff == 0 then 0 else Max(RawCutoff(view, cutoff - 1), view[cutoff - 1].rawSequence)
  }

  function Folded(view: seq<Message>, plan: FoldPlan, summary: string): seq<Message>
    requires |view| > 0 && plan.tailStart <= |view|
  {
    [view[0], SummaryMessage(summary, RawCutoff(view, plan.tailStart))] + plan.pinned + view[plan.tailStart..]
  }

  // ----- Coverage of the raw log

  predicate HasSummary(view: seq<Message>) {
    |view| > 1 && view[1].role.System?
  }

  /** The last raw sequence number the summary stands for. */
  function Cutoff(view: seq<Message>): int {
    if HasSummary(view) then view[1].rawSequence else 0
  }

  predicate HasPin(view: seq<Message>) {
    HasSummary(view) && |view| > 2 && view[2].rawSequence <= Cutoff(view)
  }

  /** Where the messages that are neither prompt, nor summary, nor pin begin. */
  function TailIndex(view: seq<Message>): nat {
    if HasPin(view) then 3 else if HasSummary(view) then 2 else 1
  }

  /** The text is `text` with one placeholder for each of these images, and every
      text beside them, line by line. */
  ghost predicate ReadsWithNotes(content: string, text: string, parts: seq<ContentPart>) {
    exists notes: seq<string> ::
      |notes| == ImageCount(parts) && (forall n :: n in notes ==> IsDecayed(n)) && content == WithNotes(text, parts, notes)
  }

  /** The message shows these parts beside this text, or it had images among them
      and reads as text and placeholders instead. */
  ghost predicate Shows(m: Message, text: string, parts: seq<ContentPart>) {
    || (m.content == text && m.parts == parts)
    || (ImageCount(parts) > 0 && m.parts == [] && ReadsWithNotes(m.content, text, parts))
  }

  /** The view's message stands for this row of the raw log. What it shows may
      differ in three ways only: a tool result replaced by a placeholder, an input
      rewritten before the model saw it, or images replaced by placeholders. */
  ghost predicate Represents(transform: Transform, m: Message, row: Message) {
    && SameShape(m, row)
    && match row.role
       case Tool => m.parts == row.parts == [] && (m.content == row.content || IsDecayed(m.content))
       case User =>
         || Shows(m, row.content, row.parts)
         || (transform(row.content).Some? && Shows(m, transform(row.content).value, row.parts))
       case _ => Shows(m, row.content, row.parts)
  }

  ghost predicate Ordered(log: seq<Message>) {
    && (forall i :: 0 <= i < |log| ==> log[i].rawSequence > 0 && !log[i].role.System?)
    && (forall i, j :: 0 <= i < j < |log| ==> log[i].rawSequence < log[j].rawSequence)
  }

  /** The view from `start` on is exactly the rows numbered above `cutoff`, in
      order. View and log are compared from their ends. */
  ghost predicate ExactlyAbove(transform: Transform, view: seq<Message>, start: nat, log: seq<Message>, cutoff: int)
    requires start <= |view|
  {
    var shift := |log| - |view|;
    && 0 <= start + shift
    && (forall r :: 0 <= r < |log| ==> (log[r].rawSequence > cutoff <==> r >= start + shift))
    && (forall i :: start <= i < |view| ==> Represents(transform, view[i], log[i + shift]))
  }

  ghost predicate InLog(transform: Transform, m: Message, log: seq<Message>) {
    exists r :: 0 <= r < |log| && Represents(transform, m, log[r])
  }

  /** The view is the system prompt, at most one summary with a cutoff, at most
      one pinned user message from before the cutoff, then every row after it. */
  ghost predicate Covers(transform: Transform, view: seq<Message>, log: seq<Message>) {
    && |view| > 0
    && view[0].role.System? && view[0].rawSequence == 0 && view[0].parts == []
    && (|view| > 1 && !HasSummary(view) ==> view[1].role.User?)
    && (HasSummary(view) ==>
          && IsSummary(view[1]) && view[1].parts == []
          && exists r :: 0 <= r < |log| && log[r].rawSequence == Cutoff(view))
    && (HasPin(view) ==> view[2].role.User? && InLog(transform, view[2], log))
    && ExactlyAbove(transform, view, TailIndex(view), log, Cutoff(view))
  }

  /** Nothing but the pin stands in the view twice. */
  lemma CoverageHasNoRepeats(transform: Transform, view: seq<Message>, log: seq<Message>)
    requires Ordered(log) && Covers(transform, view, log)
    ensures forall i, j :: TailIndex(view) <= i < j < |view| ==> view[i].rawSequence < view[j].rawSequence
    ensures forall i :: TailIndex(view) <= i < |view| ==> view[i].rawSequence > Cutoff(view)
  {
    var shift := |log| - |view|;
    forall i, j | TailIndex(view) <= i < j < |view| ensures view[i].rawSequence < view[j].rawSequence {
      assert Represents(transform, view[i], log[i + shift]) && Represents(transform, view[j], log[j + shift]);
    }
    forall i | TailIndex(view) <= i < |view| ensures view[i].rawSequence > Cutoff(view) {
      assert Represents(transform, view[i], log[i + shift]);
    }
  }

  // ----- What a plan looks like in a covered, paired view

  /** The cut falls behind the summary and the pin and in front of a message that
      is no tool result, and something besides the pin leaves the view. */
  ghost predicate CutsCleanly(view: seq<Message>, plan: FoldPlan) {
    && TailIndex(view) <= plan.tailStart <= |view|
    && (plan.tailStart < |view| ==> !view[plan.tailStart].role.Tool?)
    && plan.history == view[(if HasSummary(view) then 2 else 1)..plan.tailStart]
    && plan.pinned == (if plan.split && UserBefore(view, plan.tailStart) > 0 then [view[UserBefore(view, plan.tailStart)]] else [])
    && |plan.history| > |plan.pinned|
    && (HasSummary(view) ==> SUMMARY_PREFIX <= view[1].content && plan.prior == view[1].content[|SUMMARY_PREFIX|..])
    && (!HasSummary(view) ==> plan.prior == "")
  }

  /** Every plan of a covered, paired view is clean; the walk-back of the orphan
      check has nothing to do, and only the clamp moves the boundary. */
  lemma PlanCutsCleanly(transform: Transform, view: seq<Message>, log: seq<Message>, budget: int, plan: FoldPlan)
    requires Covers(transform, view, log) && Paired(view)
    requires PlanFold(view, budget) == Some(plan)
    ensures CutsCleanly(view, plan)
    ensures plan.tailStart == Max(TailStart(view, budget).0, 2) && plan.split == TailStart(view, budget).1
  {
    hide TailStart, Weight, Represents;
    TailStartIsBoundary(view, budget);
    var (start, split) := TailStart(view, budget);
    if start <= 1 {
      assert forall p: nat :: !Owns(view, p, 2);
    }
  }

  /** The orphan walk goes down exactly as long as the tail is longer than four
      messages and begins with a tool result, and at most to message 1. */
  lemma {:induction false} WalkBackStops(view: seq<Message>, start: nat)
    requires 1 <= start <= |view|
    ensures var r := WalkBack(view, start);
            && (r == 1 || |view| - r <= 4 || !view[r].role.Tool?)
            && forall k :: r < k <= start ==> |view| - k > 4 && view[k].role.Tool?
  {
    if start > 1 && |view| - start > 4 && view[start].role.Tool? {
      WalkBackStops(view, start - 1);
    }
  }

  /** A covered, paired view is foldable if and only if it is longer than three
      messages and more than the summary and the pin stand before the cut: at least
      two messages if the newest turn is cut inside, one otherwise. */
  lemma FoldsExactlyWhenLongEnough(transform: Transform, view: seq<Message>, log: seq<Message>, budget: int)
    requires Covers(transform, view, log) && Paired(view)
    ensures var (start, split) := TailStart(view, budget);
            PlanFold(view, budget).Some? <==>
            && 3 < |view| && Max(start, 2) <= |view|
            && Max(start, 2) - (if HasSummary(view) then 2 else 1)
               > (if split && exists j :: 1 <= j < Max(start, 2) && view[j].role.User? then 1 else 0)
  {
    hide TailStart, Weight, Represents, InLog;
    TailStartIsBoundary(view, budget);
    var (start, split) := TailStart(view, budget);
    if |view| > 3 {
      NothingToWalkBack(transform, view, log, budget);
      var opening := UserBefore(view, Max(start, 2));
      assert opening > 0 <==> exists j :: 1 <= j < Max(start, 2) && view[j].role.User?;
    }
  }

  lemma NothingToWalkBack(transform: Transform, view: seq<Message>, log: seq<Message>, budget: int)
    requires Covers(transform, view, log) && Paired(view) && |view| > 3
    ensures var start := TailStart(view, budget).0;
            1 <= start <= |view| && WalkBack(view, if start <= 1 then 2 else start) == Max(start, 2)
  {
    hide TailStart, Weight, Represents;
    TailStartIsBoundary(view, budget);
    if TailStart(view, budget).0 <= 1 {
      assert forall p: nat :: !Owns(view, p, 2);
    }
  }

  lemma {:induction false} RawCutoffIsHighest(view: seq<Message>, cutoff: nat)
    requires cutoff <= |view|
    ensures forall i :: 0 <= i < cutoff ==> view[i].rawSequence <= RawCutoff(view, cutoff)
    ensures RawCutoff(view, cutoff) >= 0
    ensures RawCutoff(view, cutoff) == 0 || exists i :: 0 <= i < cutoff && view[i].rawSequence == RawCutoff(view, cutoff)
  {
    if cutoff > 0 {
      RawCutoffIsHighest(view, cutoff - 1);
      assert view[cutoff - 1].rawSequence <= RawCutoff(view, cutoff);
    }
  }

  /** The new cutoff is the number of the last row that leaves the tail, or the
      old cutoff when only the pin leaves. */
  lemma NewCutoff(transform: Transform, view: seq<Message>, log: seq<Message>, t: nat)
    requires Ordered(log) && Covers(transform, view, log)
    requires TailIndex(view) <= t <= |view|
    ensures RawCutoff(view, t) == if t > TailIndex(view) then view[t - 1].rawSequence else Cutoff(view)
  {
    RawCutoffIsHighest(view, t);
    CoverageHasNoRepeats(transform, view, log);
    var c := RawCutoff(view, t);
    if HasSummary(view) {
      assert view[1].rawSequence <= c;
    }
    if t > TailIndex(view) {
      assert view[t - 1].rawSequence <= c;
    }
  }

  // ----- What every fold keeps

  /** A folded view, message by message: the prompt, the summary under its heading and
      with the highest number it stands for, the pin if any, and the kept tail. */
  lemma FoldedReads(view: seq<Message>, plan: FoldPlan, summary: string)
    requires |view| > 0 && plan.tailStart <= |view|
    ensures var after, p := Folded(view, plan, summary), |plan.pinned|;
            && |after| == 2 + p + (|view| - plan.tailStart)
            && after[0] == view[0] && after[2..2 + p] == plan.pinned && after[2 + p..] == view[plan.tailStart..]
            && after[1].role == System && after[1].content == "Summary of the conversation so far:\n\n" + summary
            && after[1].parts == [] && after[1].toolCalls == [] && !after[1].authored
            && (forall i :: 0 <= i < plan.tailStart ==> view[i].rawSequence <= after[1].rawSequence)
            && (after[1].rawSequence == 0 || exists i :: 0 <= i < plan.tailStart && view[i].rawSequence == after[1].rawSequence)
  {
    RawCutoffIsHighest(view, plan.tailStart);
  }

  /** Where the messages of a folded view come from. */
  lemma FoldedTail(view: seq<Message>, plan: FoldPlan, summary: string)
    requires |view| > 0 && plan.tailStart <= |view|
    ensures var after := Folded(view, plan, summary);
            var moved := plan.tailStart - 2 - |plan.pinned|;
            && |after| == |view| - moved
            && (forall i :: 2 + |plan.pinned| <= i < |after| ==> after[i] == view[i + moved])
  {
  }

  lemma PinIsLogged(transform: Transform, view: seq<Message>, log: seq<Message>, plan: FoldPlan)
    requires Ordered(log) && Covers(transform, view, log) && CutsCleanly(view, plan)
    requires plan.pinned != []
    ensures plan.pinned[0].role.User? && InLog(transform, plan.pinned[0], log)
    ensures plan.pinned[0].rawSequence <= RawCutoff(view, plan.tailStart)
  {
    var u := UserBefore(view, plan.tailStart);
    RawCutoffIsHighest(view, plan.tailStart);
    if u >= TailIndex(view) {
      assert Represents(transform, view[u], log[u + (|log| - |view|)]);
    }
  }

  lemma FoldKeepsCoverage(transform: Transform, view: seq<Message>, log: seq<Message>, plan: FoldPlan, summary: string)
    requires Ordered(log) && Covers(transform, view, log) && CutsCleanly(view, plan)
    ensures var after := Folded(view, plan, summary);
            Covers(transform, after, log) && Cutoff(view) <= Cutoff(after) && (HasPin(after) <==> plan.pinned != [])
  {
    hide Ordered, RawCutoff, Represents, CutsCleanly, ExactlyAbove;
    CutIsInRange(view, plan);
    var after := Folded(view, plan, summary);
    RowsAboveNewCutoff(transform, view, log, plan.tailStart);
    FoldedTailIsExact(transform, view, log, plan, summary);
    if plan.pinned != [] {
      PinIsLogged(transform, view, log, plan);
    } else if |after| > 2 {
      FirstOfTail(transform, after, log, RawCutoff(view, plan.tailStart));
    }
  }

  lemma CutIsInRange(view: seq<Message>, plan: FoldPlan)
    requires CutsCleanly(view, plan)
    ensures TailIndex(view) <= plan.tailStart <= |view| && |plan.pinned| <= 1
    ensures HasSummary(view) || plan.tailStart > 1
  {
  }

  /** The first message of the tail is numbered above the cutoff. */
  lemma FirstOfTail(transform: Transform, view: seq<Message>, log: seq<Message>, cutoff: int)
    requires |view| > 2 && ExactlyAbove(transform, view, 2, log, cutoff)
    ensures view[2].rawSequence > cutoff
  {
    assert Represents(transform, view[2], log[2 + (|log| - |view|)]);
  }

  lemma FoldedTailIsExact(transform: Transform, view: seq<Message>, log: seq<Message>, plan: FoldPlan, summary: string)
    requires Ordered(log) && Covers(transform, view, log) && CutsCleanly(view, plan)
    ensures var after := Folded(view, plan, summary);
            2 + |plan.pinned| <= |after|
            && ExactlyAbove(transform, after, 2 + |plan.pinned|, log, RawCutoff(view, plan.tailStart))
  {
    hide Represents, Folded, Ordered, RawCutoff;
    var after := Folded(view, plan, summary);
    var moved := plan.tailStart - 2 - |plan.pinned|;
    RowsAboveNewCutoff(transform, view, log, plan.tailStart);
    FoldedTail(view, plan, summary);
    forall i | 2 + |plan.pinned| <= i < |after| ensures Represents(transform, after[i], log[i + (|log| - |after|)]) {
      assert Represents(transform, view[i + moved], log[i + moved + (|log| - |view|)]);
    }
  }

  lemma RowsAboveNewCutoff(transform: Transform, view: seq<Message>, log: seq<Message>, t: nat)
    requires Ordered(log) && Covers(transform, view, log)
    requires TailIndex(view) <= t <= |view|
    ensures var c := RawCutoff(view, t);
            && Cutoff(view) <= c
            && (forall r :: 0 <= r < |log| ==> (log[r].rawSequence > c <==> r >= t + (|log| - |view|)))
            && (HasSummary(view) || t > 1 ==> exists r :: 0 <= r < |log| && log[r].rawSequence == c)
  {
    NewCutoff(transform, view, log, t);
    if t > TailIndex(view) {
      assert Represents(transform, view[t - 1], log[t - 1 + (|log| - |view|)]);
    }
  }

  /** No row leaves the view unseen: the history handed to the summarizer is the
      old pin, if any, and then exactly the rows numbered above the old cutoff
      and up to the new one. */
  lemma SummarizerSeesEveryRow(transform: Transform, view: seq<Message>, log: seq<Message>, plan: FoldPlan, summary: string)
    requires Ordered(log) && Covers(transform, view, log) && CutsCleanly(view, plan)
    ensures var rows := if HasPin(view) then plan.history[1..] else plan.history;
            var first := |log| - |view| + TailIndex(view);
            && (HasPin(view) ==> plan.history[0] == view[2])
            && 0 <= first && first + |rows| <= |log|
            && (forall r :: 0 <= r < |log| ==>
                  (Cutoff(view) < log[r].rawSequence <= Cutoff(Folded(view, plan, summary)) <==> first <= r < first + |rows|))
            && (forall i :: 0 <= i < |rows| ==> Represents(transform, rows[i], log[first + i]))
  {
    hide Represents, Ordered, RawCutoff, InLog, IsSummary;
    RowsAboveNewCutoff(transform, view, log, plan.tailStart);
    var ti := TailIndex(view);
    var rows := if HasPin(view) then plan.history[1..] else plan.history;
    assert rows == view[ti..plan.tailStart];
    forall i | 0 <= i < |rows| ensures Represents(transform, rows[i], log[|log| - |view| + ti + i]) {
      assert Represents(transform, view[ti + i], log[ti + i + (|log| - |view|)]);
    }
  }

  lemma FoldKeepsPairing(view: seq<Message>, plan: FoldPlan, summary: string)
    requires |view| > 0 && view[0].role.System? && Paired(view) && CutsCleanly(view, plan)
    ensures Paired(Folded(view, plan, summary))
  {
    PairedCut(view, plan.tailStart);
    var head := [view[0], SummaryMessage(summary, RawCutoff(view, plan.tailStart))] + plan.pinned;
    PairedFlat(head);
    PairedConcat(head, view[plan.tailStart..]);
  }

  /** Messages other than the system prompt and the summary. */
  function BodyCount(view: seq<Message>): int {
    |view| - (if HasSummary(view) then 2 else 1)
  }

  /** A fold keeps the raw log covered and the calls paired, never lowers the
      cutoff, makes the body strictly smaller and the view no longer. */
  lemma FoldKeepsView(transform: Transform, view: seq<Message>, log: seq<Message>, budget: int, plan: FoldPlan, summary: string)
    requires Ordered(log) && Covers(transform, view, log) && Paired(view)
    requires PlanFold(view, budget) == Some(plan)
    ensures var after := Folded(view, plan, summary);
            && Covers(transform, after, log) && Paired(after)
            && Cutoff(view) <= Cutoff(after)
            && BodyCount(after) < BodyCount(view) && |after| <= |view|
            && (HasPin(after) <==> plan.pinned != [])
  {
    hide Paired, PlanFold, Represents, Ordered;
    PlanCutsCleanly(transform, view, log, budget, plan);
    FoldedTail(view, plan, summary);
    FoldKeepsCoverage(transform, view, log, plan, summary);
    FoldKeepsPairing(view, plan, summary);
  }

  /** The text handed to a fold as the running summary is exactly the summary
      that the fold before it returned. */
  lemma FoldHandsOnSummary(transform: Transform, view: seq<Message>, log: seq<Message>, budget: int, plan: FoldPlan, summary: string)
    requires Covers(transform, view, log) && Paired(view)
    requires PlanFold(view, budget) == Some(plan)
    requires HasSummary(view) && view[1].content == SUMMARY_PREFIX + summary
    ensures plan.prior == summary
  {
    PlanCutsCleanly(transform, view, log, budget, plan);
    assert (SUMMARY_PREFIX + summary)[|SUMMARY_PREFIX|..] == summary;
  }

  /** The newest user message, or 0 when there is none behind the prompt. */
  function NewestUser(view: seq<Message>): nat {
    UserBefore(view, |view|)
  }

  /** Whatever is a user message with none after it is the last one. */
  lemma UserBeforeIs(view: seq<Message>, end: nat, u: nat)
    requires u < end <= |view|
    requires u > 0 ==> view[u].role.User?
    requires forall j :: u < j < end ==> !view[j].role.User?
    ensures UserBefore(view, end) == u
  {
  }

  ghost predicate SameNewestUser(view: seq<Message>, after: seq<Message>)
    requires |view| > 0
  {
    NewestUser(after) > 0 && after[NewestUser(after)] == view[NewestUser(view)]
  }

  /** In terms of the plan: the newest user message is kept if and only if the fold
      cuts inside its turn or it is not the message right behind the prompt. */
  lemma PlanKeepsNewest(transform: Transform, view: seq<Message>, log: seq<Message>, budget: int, plan: FoldPlan, summary: string)
    requires Covers(transform, view, log) && Paired(view)
    requires PlanFold(view, budget) == Some(plan) && NewestUser(view) > 0
    ensures SameNewestUser(view, Folded(view, plan, summary)) <==> plan.split || NewestUser(view) >= 2
    ensures !SameNewestUser(view, Folded(view, plan, summary)) ==> NewestUser(Folded(view, plan, summary)) == 0
  {
    hide Covers, Paired, PlanFold, TailStart, Folded, Weight, RawCutoff;
    PlanCutsCleanly(transform, view, log, budget, plan);
    TailStartIsBoundary(view, budget);
    FoldedTail(view, plan, summary);
    var u := NewestUser(view);
    if plan.split {
      SplitKeepsNewest(view, plan, summary);
    } else {
      assert NoneFrom(view, User, u + 1);
      var start := TailStart(view, budget).0;
      assert start <= u;
      WholeKeepsNewest(view, plan, summary);
    }
  }

  lemma SplitKeepsNewest(view: seq<Message>, plan: FoldPlan, summary: string)
    requires |view| > 0 && CutsCleanly(view, plan) && plan.split
    requires NewestUser(view) > 0 && NoneFrom(view, User, plan.tailStart)
    ensures SameNewestUser(view, Folded(view, plan, summary))
  {
    FoldedTail(view, plan, summary);
    var after := Folded(view, plan, summary);
    UserBeforeIs(view, |view|, UserBefore(view, plan.tailStart));
    forall j | 2 < j < |after| ensures !after[j].role.User? {
      assert after[j] == view[j + (plan.tailStart - 3)];
    }
    UserBeforeIs(after, |after|, 2);
  }

  lemma WholeKeepsNewest(view: seq<Message>, plan: FoldPlan, summary: string)
    requires |view| > 0 && CutsCleanly(view, plan) && !plan.split
    requires NewestUser(view) > 0 && 2 <= plan.tailStart <= Max(NewestUser(view), 2)
    ensures NewestUser(Folded(view, plan, summary)) == if NewestUser(view) >= 2 then NewestUser(view) - plan.tailStart + 2 else 0
    ensures NewestUser(view) >= 2 ==> SameNewestUser(view, Folded(view, plan, summary))
  {
    FoldedTail(view, plan, summary);
    var after := Folded(view, plan, summary);
    var u := NewestUser(view);
    var moved := plan.tailStart - 2;
    var n := if u >= 2 then u - moved else 0;
    forall j | n < j < |after| ensures !after[j].role.User? {
      if j >= 2 { assert after[j] == view[j + moved]; }
    }
    UserBeforeIs(after, |after|, n);
  }

  /** Nothing but the prompt and the summary has the system role, so in a paired
      view something besides results follows a lone user message. */
  lemma SomethingIsAnswered(transform: Transform, view: seq<Message>, log: seq<Message>)
    requires Ordered(log) && Covers(transform, view, log) && Paired(view)
    requires NewestUser(view) == 1 && |view| > 2
    ensures !NoneFrom(view, Assistant, 2)
  {
    assert Represents(transform, view[2], log[2 + (|log| - |view|)]);
    assert forall p: nat :: !Owns(view, p, 2);
    assert view[2].role.Assistant?;
  }

  /** With one user message, behind the prompt, the fold cuts inside its turn if and
      only if that turn is over the budget. */
  lemma SplitsWhenOverBudget(transform: Transform, view: seq<Message>, log: seq<Message>, budget: int, plan: FoldPlan)
    requires Ordered(log) && Covers(transform, view, log) && Paired(view)
    requires PlanFold(view, budget) == Some(plan) && NewestUser(view) == 1
    ensures plan.split <==> Weight(view, 1) > budget
  {
    hide Covers, Paired, PlanFold, TailStart, Weight, Ordered;
    PlanCutsCleanly(transform, view, log, budget, plan);
    TailStartIsBoundary(view, budget);
    var start := TailStart(view, budget).0;
    if plan.split {
      var j :| 1 <= j <= start && OpensNewestTurn(view, j) && Weight(view, j) > budget;
      WeightShrinks(view, 1, j);
    } else {
      SomethingIsAnswered(transform, view, log);
      assert view[1].role.User? && start == 1;
    }
  }

  /** A fold keeps the newest user message, unchanged and still the newest, if and
      only if the message is not the one right behind the prompt, or everything
      behind the prompt is over the tail budget. Otherwise no user message is left. */
  lemma FoldKeepsNewestInstruction(transform: Transform, view: seq<Message>, log: seq<Message>, budget: int, plan: FoldPlan, summary: string)
    requires Ordered(log) && Covers(transform, view, log) && Paired(view)
    requires PlanFold(view, budget) == Some(plan) && NewestUser(view) > 0
    ensures SameNewestUser(view, Folded(view, plan, summary)) <==> NewestUser(view) >= 2 || Weight(view, 1) > budget
    ensures !SameNewestUser(view, Folded(view, plan, summary)) ==> NewestUser(Folded(view, plan, summary)) == 0
  {
    hide Covers, Paired, PlanFold, Folded, Weight, Ordered, SameNewestUser;
    PlanKeepsNewest(transform, view, log, budget, plan, summary);
    if NewestUser(view) == 1 {
      SplitsWhenOverBudget(transform, view, log, budget, plan);
    }
  }

  /** Once there is a summary the condition always holds: no later fold loses the
      newest instruction. */
  lemma SummaryProtectsNewestInstruction(transform: Transform, view: seq<Message>, log: seq<Message>, budget: int, plan: FoldPlan, summary: string)
    requires Covers(transform, view, log) && Paired(view)
    requires HasSummary(view)
    requires PlanFold(view, budget) == Some(plan) && NewestUser(view) > 0
    ensures SameNewestUser(view, Folded(view, plan, summary))
  {
    hide Paired, PlanFold, Represents, Folded, SameNewestUser;
    PlanKeepsNewest(transform, view, log, budget, plan, summary);
  }

  /** The first user message of a history, which stands right behind the prompt
      until the first fold, is kept by that fold if and only if it is the only user
      message and everything behind the prompt is over the tail budget. */
  lemma FirstUserMessageIsKept(transform: Transform, view: seq<Message>, log: seq<Message>, budget: int, plan: FoldPlan, summary: string)
    requires Ordered(log) && Covers(transform, view, log) && Paired(view)
    requires PlanFold(view, budget) == Some(plan) && !HasSummary(view)
    ensures view[1].role.User?
    ensures view[1] in Folded(view, plan, summary) <==> NewestUser(view) == 1 && Weight(view, 1) > budget
  {
    hide Paired, PlanFold, Weight, Represents, ExactlyAbove, RawCutoff, Ordered;
    PlanCutsCleanly(transform, view, log, budget, plan);
    if NewestUser(view) == 1 {
      SplitsWhenOverBudget(transform, view, log, budget, plan);
    }
    PinOfSplit(view, budget, plan);
    FirstIsNotRepeated(transform, view, log, plan.tailStart);
    MembersOfFolded(view, plan, summary, view[1]);
  }

  lemma MembersOfFolded(view: seq<Message>, plan: FoldPlan, summary: string, m: Message)
    requires |view| > 0 && plan.tailStart <= |view|
    ensures m in Folded(view, plan, summary) <==>
            || m == view[0] || m == SummaryMessage(summary, RawCutoff(view, plan.tailStart))
            || m in plan.pinned || m in view[plan.tailStart..]
  {
    hide RawCutoff;
  }

  /** What a fold that cuts inside a turn pins is the newest user message. */
  lemma PinOfSplit(view: seq<Message>, budget: int, plan: FoldPlan)
    requires |view| > 1 && view[1].role.User? && CutsCleanly(view, plan) && plan.tailStart >= 2
    requires plan.split == TailStart(view, budget).1 && plan.tailStart == Max(TailStart(view, budget).0, 2)
    ensures plan.pinned == if plan.split then [view[NewestUser(view)]] else []
    ensures NewestUser(view) >= 1
  {
    hide TailStart, Weight;
    TailStartIsBoundary(view, budget);
    var u := NewestUser(view);
    assert u >= 1;
    if plan.split {
      UserBeforeIs(view, plan.tailStart, u);
    }
  }

  lemma FirstIsNotRepeated(transform: Transform, view: seq<Message>, log: seq<Message>, t: nat)
    requires Ordered(log) && Covers(transform, view, log) && !HasSummary(view) && 2 <= t <= |view|
    ensures forall k :: 2 <= k < |view| ==> view[k] != view[1]
    ensures view[1] !in view[t..]
  {
    CoverageHasNoRepeats(transform, view, log);
    forall k | 2 <= k < |view| ensures view[k] != view[1] {
      assert view[1].rawSequence < view[k].rawSequence;
    }
  }

  // ----- Folding again and again

  /** Fold the view once per summary, stopping where there is nothing to fold. */
  ghost function FoldRepeatedly(view: seq<Message>, budget: int, summaries: seq<string>): seq<Message>
    decreases |summaries|
  {
    if summaries == [] || PlanFold(view, budget).None? then view
    else
      FoldRepeatedly(Folded(view, PlanFold(view, budget).value, summaries[0]), budget, summaries[1..])
  }

  /** After at most one fold per message in the body there is not enough history
      left to fold, and the view still covers the log and is still paired. */
  lemma {:induction false} RepeatedFoldsRunOut(transform: Transform, view: seq<Message>, log: seq<Message>, budget: int, summaries: seq<string>)
    requires Ordered(log) && Covers(transform, view, log) && Paired(view)
    requires |summaries| >= BodyCount(view)
    ensures var last := FoldRepeatedly(view, budget, summaries);
            && Covers(transform, last, log) && Paired(last)
            && PlanFold(last, budget).None?
            && Cutoff(view) <= Cutoff(last)
    decreases |summaries|
  {
    hide Covers, Paired, PlanFold, Ordered, Folded;
    if PlanFold(view, budget).Some? {
      var plan := PlanFold(view, budget).value;
      FoldKeepsView(transform, view, log, budget, plan, summaries[0]);
      RepeatedFoldsRunOut(transform, Folded(view, plan, summaries[0]), log, budget, summaries[1..]);
    }
  }
}
