# Verified model of whip's history, scheduling and authority logic

whip is a coding agent. This project models the parts of it whose correctness does not show in any one function, and proves what they promise over every input, every run and every interleaving:

- **Conversation history** (`Transcript`, `Pairing`, `TailBoundary`, `Folding`, `Turn`, `TurnLaws`, `TurnBounds`, `TurnRecords`, `TurnBehaviour`, `Agent`, `Counterexamples`). An agent records every message in a raw log under increasing sequence numbers and keeps a *view* of it, which is what the model is sent. Turns append to the view; folds replace old history by a summary; decay shortens old tool output. `Turn` states one turn as step functions over the message list, the pending steers, the prompt size, the three guard flags, the raw log and a trace of requests and folds. `Agent` is the object itself: methods and loops that update its fields, each proved to do exactly what the step functions say. `TurnLaws`, `TurnBounds` and `TurnRecords` hold the theorems over runs; `TurnBehaviour` says what each round does in terms of its inputs alone.
- **Context decay** (`Decay`, `DecayLaws`, `DuplicateReads`, `DecayBehaviour`). Four passes rewrite old tool results and old images in place while a hot window stays byte for byte the same.
- **Evaluation scheduling** (`TrialPool`, `TrialSchedule`). A pool admits trials against several resources at once and gives back only what a proven cleanup freed; a schedule lays out a counterbalanced experiment matrix.
- **Companions** (`PairedStatistics`, `SingleFlight`, `Attenuation`, `BaselineChain`). Paired statistics of an evaluation, fetching an icon once for many callers, authority along chains of child agents, and the compare-and-swap of the accepted baseline.

`Numerals` holds minimum, maximum and decimal numerals.

## How to read it

*Outside world.* The model provider, tools, cancellation, steers, callbacks, the random source, worker completion and the clock are inputs. A turn takes a list of rounds saying what each will meet and is followed for any finite number of them; a turn that is still going after the last one has the outcome `Running`. A pool run and a set of concurrent callers take lists of moves in the same way, and every theorem quantifies over all such lists.

*Assumptions about callers.* They are named predicates. `TurnLaws.Numbering`: the message recorder returns positive, strictly increasing numbers. `TurnLaws.HonestTurn`: prefix and boundary messages are user messages, and a request made without tools gets no tool calls back (`TurnLaws.FinalAnswerKeepsSound` shows that the second half is needed, exactly). `TrialPool.HonestWaits`: a wait only finds workers that are active. `DecayLaws.ToolsArePlain`: tool results carry no content parts; for an agent this is no assumption but a consequence of the invariant (`TurnLaws.SoundViewsArePlain`). `BaselineChain.Injective`: revisions are collision-free.

*The invariant of a history.* `TurnLaws.Sound` says: the view is the system prompt, at most one summary with a cutoff, at most one pinned user message from before the cutoff, and then exactly the raw rows numbered above the cutoff, in order (`Folding.Covers`), each shown as it was recorded but for a placeholder in place of a tool result, the rewriting of an input, and placeholders in place of images beside all of its texts (`Folding.Represents`); every assistant message with calls is followed at once by one result per call, in call order, and results stand nowhere else (`Pairing.Paired`); and every fold was handed exactly the summary the fold before it returned (`TurnLaws.HandedOn`).

*Where code and comment disagree.* Two promises do not hold as they stand; for each there is a run or history that breaks it and a theorem saying exactly when it does hold.

- The comments at internal/agent/agent.go:992 and 934-935 say that a fold never drops the first user message. It is kept by the first fold if and only if it is the only user message and everything behind the prompt is over the tail budget (`Folding.FirstUserMessageIsKept`); `Counterexamples.FirstUserMessageCanBeFolded` is a session that loses it. What a user relies on is the newest instruction: a fold keeps that one if and only if it is not the message right behind the prompt or everything behind the prompt is over the budget (`Folding.FoldKeepsNewestInstruction`).
- The notice that replaces a duplicate read (internal/agent/decay.go:93) says that its content stands at the first read above. That copy is still inline after the pass if and only if the result is small enough not to decay by age and everything that showed the file since the copy was itself a duplicate (`DuplicateReads.FirstCopyIsInlineExactly`); `Counterexamples.DuplicateNoticeCanMislead` is a history where it is not.

## Model

| member | source | states |
|---|---|---|
| Pairing.PairedConcat | internal/agent/agent.go:1070-1072 | joining two paired histories never separates a call from its result |
| Pairing.PairedCut | internal/agent/agent.go:995-1001 | cutting a paired history anywhere but in front of a tool result leaves both halves paired |
| Pairing.PairedBlock | internal/agent/agent.go:576-596 | an assistant message followed by one result per call, in call order and with matching IDs, is paired |
| Pairing.PairedLast | internal/agent/agent.go:1263-1266 | appending one message keeps a history paired if and only if it requests no tool |
| TailBoundary.TailStartIsBoundary | internal/agent/agent.go:921-962 | the boundary meets its promises, stated without the walk: whole turns as far as the budget reaches, inside the newest turn only when that turn alone is over budget, newest group always kept, no older boundary of the same kind fits |
| TailBoundary.TailBoundaryIsUnique | internal/agent/agent.go:921-962 | those promises leave exactly one boundary possible |
| TailBoundary.CompactTailStart | internal/agent/agent.go:936-962 | the backward loop over the history finds that boundary and says whether it splits a turn |
| Transcript.EstimateCounts | internal/llm/accounting.go:331-356 | the estimate is built up message by message: framing, text, continuation state, every call and every part at its price |
| TailBoundary.TailBudgetBounds | internal/agent/agent.go:809-834 | the tail budget lies between its two clamps, is the ceiling without a known window, and otherwise is a quarter of the usable window to within one token |
| Folding.PlanCutsCleanly | internal/agent/agent.go:983-1025 | in a covered, paired view every fold cuts behind summary and pin and in front of no tool result, takes the running summary from the right place, removes something besides the pin, and the orphan walk-back has nothing to do |
| Folding.WalkBackStops | internal/agent/agent.go:994-1001 | on any history the orphan walk goes down exactly while the tail is longer than four and begins with a tool result |
| Folding.FoldsExactlyWhenLongEnough | internal/agent/agent.go:983-1028 | a fold is possible if and only if there are more than three messages and something besides summary and pin stands before the cut |
| Folding.NewCutoff | internal/agent/agent.go:1097-1105 | the new cutoff is the number of the last row that leaves the tail, or the old cutoff when only the pin leaves |
| Folding.FoldedReads | internal/agent/agent.go:1065-1073 | a folded view message by message: prompt, summary under its heading with the highest number it stands for, pin, kept tail |
| Folding.FoldKeepsCoverage | internal/agent/agent.go:983-1079 | after a fold the view covers the raw log again: no row lost, none repeated except the pin, the cutoff no lower, a pin present exactly when one was planned |
| Folding.SummarizerSeesEveryRow | internal/agent/agent.go:1002-1031 | what is handed to the summarizer is the old pin and then exactly the rows between the old cutoff and the new one, so no row leaves the view unread |
| Folding.FoldKeepsPairing | internal/agent/agent.go:995-1072 | no fold separates a tool call from its results |
| Folding.FoldKeepsView | internal/agent/agent.go:983-1079 | every fold keeps coverage and pairing, strictly lowers the number of messages besides prompt and summary, and never lengthens the view |
| Folding.FoldHandsOnSummary | internal/agent/agent.go:1003-1012 | the prior text of a fold is exactly the summary the previous fold returned |
| Folding.SplitsWhenOverBudget | internal/agent/agent.go:936-962 | with one user message, right behind the prompt, a fold cuts inside its turn if and only if everything behind the prompt is over the tail budget |
| Folding.FoldKeepsNewestInstruction | internal/agent/agent.go:990-1024 | a fold keeps the newest user message, unchanged and still newest, if and only if it is not at index 1 or everything behind the prompt is over the tail budget; otherwise no user message is left |
| Folding.FirstUserMessageIsKept | internal/agent/agent.go:990-1024 | the first fold keeps the first user message if and only if it is the only one and everything behind the prompt is over the tail budget |
| Folding.SummaryProtectsNewestInstruction | internal/agent/agent.go:990-1024 | once there is a summary no fold loses the newest user message |
| Counterexamples.FirstUserMessageCanBeFolded | internal/agent/agent.go:990-993 | a session of a new agent (one instruction, an answer sent back, one accepted, an explicit compaction) that leaves no user message, against the comment there |
| Folding.CoverageHasNoRepeats | internal/agent/agent.go:1095-1105 | in a covered view the rows behind summary and pin are strictly ordered and all above the cutoff, so none is repeated |
| Folding.RepeatedFoldsRunOut | internal/agent/agent.go:392-394 | folding again and again reaches "not enough history" within as many folds as there are messages besides prompt and summary, keeping coverage and pairing |
| Decay.HotWindowFits | internal/agent/decay.go:280-295 | what is newer than the boundary fits the hot window, and together with the message at the boundary it would not, unless the boundary is 1 |
| Decay.BoundaryIsStable | internal/agent/decay.go:280-295 | the hot boundary is decided by the messages at and above it alone |
| DecayLaws.DecayFrame | internal/agent/decay.go:59-184 | roles, IDs, calls, names and sequence numbers never change; messages at or past the boundary are identical; below it a tool result is identical or a placeholder, and any other message is identical or exactly itself with its images stripped |
| DecayLaws.BoundarySurvives | internal/agent/decay.go:63-182 | rewriting leaves the hot boundary where it was |
| DecayLaws.SurvivingReadIsNewest | internal/agent/decay.go:107-150 | below the boundary a read that is still inline has no later write, edit or inline read of its path |
| DecayLaws.OneReadPerPath | internal/agent/decay.go:77-150 | below the boundary a path has at most one inline read |
| DecayLaws.SurvivorsAreSmall | internal/agent/decay.go:156-170 | below the boundary no inline tool result is over 8000 bytes |
| DecayLaws.NothingLeftToRewrite | internal/agent/decay.go:59-184 | after decay none of the four passes finds anything to pick |
| DecayLaws.DecayIsIdempotent | internal/agent/decay.go:59-184 | a second decay has the same boundary, changes nothing and returns 0, whatever names its spill files would get |
| DecayLaws.CountIsExact | internal/agent/decay.go:63-183 | the returned number is the number of tool results that changed plus the number of images removed: no result is rewritten twice |
| DecayLaws.DecayKeepsTexts | internal/agent/decay.go:180-232 | through a whole decay a message that is no tool result stays identical, or had images below the boundary and still reads its content first, every text part, and one placeholder per image |
| DecayBehaviour.LookupsFollowTheCall | internal/agent/decay.go:322-375 | path and arguments of a result are those of the first call with its ID in the nearest assistant message above, or none |
| DecayBehaviour.PairedCallIsFound | internal/agent/decay.go:322-353 | in a paired history with distinct IDs that is the call the result is paired with |
| DecayBehaviour.ResultGoesExactly | internal/agent/decay.go:59-171 | a tool result is replaced if and only if it stands below the boundary with its text and is longer than 8000 bytes, repeats the read of the same region above it, or is a read whose file something other than such a repeat shows further down; otherwise it is the same |
| DecayBehaviour.NoticesSayWhy | internal/agent/decay.go:92-170 | a repeated read gets the duplicate notice; a result that goes for its size alone gets the age notice with the number of messages a human typed since |
| DecayBehaviour.SupersededSaysWhy | internal/agent/decay.go:139-150 | a superseded read says what superseded it: a later write or edit, or a newer read and its number of lines |
| DecayBehaviour.ImagesAreCounted | internal/agent/decay.go:190-212 | the images of a message are counted one by one |
| DecayBehaviour.WindowCountsPartsAndText | internal/agent/decay.go:297-312 | the hot window counts four characters of text to a token and every part at its own price |
| DuplicateReads.InlineCopyIsFirst | internal/agent/decay.go:77-150 | a copy of a duplicate read that is still inline is the one the chain of repeats starts from, it is small, and nothing but duplicates showed the file since |
| DuplicateReads.FirstCopyIsInlineExactly | internal/agent/decay.go:77-170 | the copy a duplicate notice points at is still inline if and only if the result is at most 8000 bytes and everything that showed the file since was itself a duplicate |
| DuplicateReads.NoticeStays | internal/agent/decay.go:92-95 | the notice of a duplicate read is what remains of it after all passes |
| Counterexamples.DuplicateNoticeCanMislead | internal/agent/decay.go:77-150 | a paired history (read, same read, write of the file) whose duplicate notice points at a read with no content left |
| TurnLaws.AppendKeepsSound | internal/agent/agent.go:641-650 | recording rows and appending them keeps the invariant and the cutoff, also when the view shows a rewritten input |
| TurnLaws.RowTextIsShown | internal/agent/decay.go:172-232 | whatever stands in the view for a user or assistant row begins with the row's text, or what the input was rewritten to, and holds every text part of the row |
| TurnLaws.DecayKeepsSound | internal/agent/agent.go:484-490 | decay at the start of a turn keeps coverage, pairing and cutoff |
| TurnLaws.CompactKeepsSound | internal/agent/agent.go:983-1079 | a fold of any kind keeps the invariant whatever the summary call answers, and never lowers the cutoff |
| TurnLaws.PriorIsLastSummary | internal/agent/agent.go:1003-1012 | the prior text of the next fold is the summary last returned in the whole history, or empty if there was none |
| TurnLaws.RoundKeepsSound | internal/agent/agent.go:516-637 | whatever a round meets (calls or none, any worker order, overflow, partial response, cancellation, steers, failing folds), its end state covers the log and is paired |
| TurnLaws.FinalAnswerKeepsSound | internal/agent/agent.go:1239-1267 | the request at the round cap keeps the invariant if and only if the reply carries no tool calls |
| TurnLaws.TurnKeepsSound | internal/agent/agent.go:464-639 | every return of a turn leaves the invariant intact and the cutoff no lower |
| TurnLaws.SessionKeepsSound | internal/agent/agent.go:392-639 | so does any sequence of turns and explicit compactions |
| TurnLaws.SessionKeepsPrompt | internal/agent/agent.go:356-639 | no turn, decay or fold touches the system prompt |
| TurnLaws.EverySessionIsSound | internal/agent/agent.go:356-639 | from a new agent, every reachable state begins with its system prompt, covers the raw log, pairs every call, and has handed every summary on |
| TurnBounds.RoundIsWatched | internal/agent/agent.go:508-637 | a round makes at most one request and keeps the rules on folds and retries, with the guard flags knowing what happened |
| TurnBounds.RoundsAreWatched | internal/agent/agent.go:507-637 | with a positive cap a turn makes at most one request more than the cap and always ends |
| TurnBounds.TurnIsBounded | internal/agent/agent.go:464-722 | in every turn: at most one overflow retry, no proactive fold after a stall, no closing fold after an earlier fold, nothing after the final request, the request bound, and all guards down once it is over |
| TurnBounds.EveryTurnIsBounded | internal/agent/agent.go:464-722 | the same for every turn of every session of a new agent |
| TurnBounds.FreshFoldIsNotRefolded | internal/agent/agent.go:1073-1078 | after a fold, looking again without a request in between folds nothing, whatever the summary call would say |
| Turn.TrimmedText | internal/agent/agent.go:1065 | trimming the summary removes the blanks at both ends, all of them in the sense of Unicode, and nothing else |
| TurnRecords.RoundRecords | internal/agent/agent.go:516-615 | a round that made its request leaves in the raw log the reply, one result per call, and the steers and injected messages, in that order; steers of a broken request wait for the next boundary |
| TurnRecords.TurnRecordsEverything | internal/agent/agent.go:491-650 | the raw log after a turn is the log before it, the prefix, the input as submitted, and the rows of every round that asked, nothing lost or invented, whatever was folded on the way |
| TurnRecords.TurnAnswersWithLastRow | internal/agent/agent.go:616-637 | the text a turn returns is the text of the last row it recorded, an assistant message |
| TurnBehaviour.ToolsAnswerTheirCalls | internal/agent/agent.go:578-596 | in the log and in the view each call is answered by a row with its own ID and name and the last output its own worker reported (nothing if it never did); its duration and exit code come from that same report, 1 exactly for an output that begins "error" or "Error" |
| TurnBehaviour.RoundAnswersItsCalls | internal/agent/agent.go:572-596 | so in the log after a round |
| TurnBehaviour.TurnAnswersItsCalls | internal/agent/agent.go:507-596 | and in the log after a turn, for the calls of every answered round, at the place where its rows stand |
| TurnBehaviour.RowsOfAnsweredRound | internal/agent/agent.go:572-615 | the rows of an answered round, field by field: the reply, a row per call, every pending steer, every injected message |
| TurnBehaviour.RowsOfBrokenRound | internal/agent/agent.go:694-712 | what is kept of a broken response, field by field: nothing, or its text, marked unless it had arrived completely, and an unexecuted result per call |
| TurnBehaviour.RowsOfFinalRequest | internal/agent/agent.go:1257-1266 | the same for the request without tools |
| TurnBehaviour.TurnBegins | internal/agent/agent.go:478-506 | a turn begins with the decayed view, the prefix, and the input: recorded as submitted, shown as rewritten |
| TurnBehaviour.RefusedInput | internal/agent/agent.go:477-482 | a refused input changes nothing |
| TurnBehaviour.FoldsExactlyWhenDue | internal/agent/agent.go:842-900 | a fold inside a turn happens if and only if the window is known, the turn is not stalled, the reported size (or else the estimate) has reached the configured share of the window, there is history, and the summary call gives a text; then the turn is marked, stalled exactly if the estimate is still too large, and otherwise nothing changes; which errors end the turn |
| TurnBehaviour.BudgetFollowsThreshold | internal/agent/agent.go:829-834 | the tail budget goes by the same share, one half unless configured |
| TurnBehaviour.BrokenRoundEnds | internal/agent/agent.go:540-571 | a broken round goes on if and only if this is the first rejection for length of the turn, nobody cancelled, there is history and the summary is settled; each other overflow has its own reason; every other failure ends the turn as it came and nothing follows the request |
| TurnBehaviour.AnsweredRoundEnds | internal/agent/agent.go:572-637 | how an answered round ends: cancelled after tools, failed boundary, going on for calls, steers or injected messages, then the final check, then the closing fold; the reported size replaces the one before |
| TurnBehaviour.TurnIsItsRounds | internal/agent/agent.go:507-637 | a turn makes rounds while they go on; it ends as the last one says, or at exactly the cap with the final request, whose reply or failure is the outcome |
| TurnBehaviour.TurnLeavesItsRows | internal/agent/agent.go:491-650 | the raw log after a turn, message by message under the next numbers |
| TurnBehaviour.CompactNowFolds | internal/agent/agent.go:392-394 | an explicit compaction folds exactly when there is history and the summary call gives a text |
| TurnBehaviour.SessionGoesOn | internal/agent/agent.go:392-639 | one more action acts on what the session has come to |
| Agent.HotBoundaryOf | internal/agent/decay.go:285-295 | the loop that spends the budget finds the hot boundary, which lies within the history |
| Agent.FindCallOf | internal/agent/decay.go:328-375 | the two nested loops find the call a result answers: among the calls of the nearest assistant message before it, or none |
| Agent.RawCompactionCutoff | internal/agent/agent.go:1097-1105 | the loop returns the highest sequence number before a clamped cutoff |
| Agent.StripImageParts | internal/agent/decay.go:190-232 | the loop over the parts returns the stripped message and the number of its images |
| Agent.RunTools | internal/agent/agent.go:735-797 | results and measurements are laid out in call order whatever order workers report in; a worker that never reports leaves an empty result |
| Agent.Agent.constructor | internal/agent/agent.go:356-367 | a new agent holds the system prompt only |
| Agent.Agent.AppendTurnMessages | internal/agent/agent.go:641-650 | each message is recorded, gets the recorder's number, and is appended |
| Agent.Agent.CollapseDuplicates | internal/agent/decay.go:77-99 | the loop with its map of seen regions rewrites and counts exactly the live reads whose predecessor with the same arguments returned the same bytes |
| Agent.Agent.CollectSightings | internal/agent/decay.go:107-138 | the backward walk finds the newest evidence of every path and lists every inline read, newest first |
| Agent.Agent.CollapseSuperseded | internal/agent/decay.go:139-150 | exactly the reads below the boundary that are not their path's newest evidence are rewritten and counted |
| Agent.Agent.DecayByAge | internal/agent/decay.go:152-170 | exactly the big inline results below the boundary are rewritten, with the number of authored turns since |
| Agent.Agent.StripImages | internal/agent/decay.go:180-182 | every message below the boundary except the first loses its images, and the images are counted |
| Agent.Agent.Decay | internal/agent/decay.go:59-184 | the passes in order, and the number of rewrites |
| Agent.Agent.PlanCompaction | internal/agent/agent.go:983-1028 | boundary, clamp, orphan walk, prior summary and pin, or not enough history |
| Agent.Agent.CompactWithStart | internal/agent/agent.go:983-1079 | the fold replaces the view, clears the prompt size and reports unsettled accounting; a failed summary changes nothing |
| Agent.Agent.MaybeCompact | internal/agent/agent.go:842-900 | folds only over the threshold, and marks the turn compacted and, if still over it, stalled |
| Agent.Agent.CompactNow | internal/agent/agent.go:392-394 | an explicit fold |
| Agent.Agent.PreserveModelResponse | internal/agent/agent.go:694-712 | a partial response is kept with an interruption mark unless complete, and every requested tool gets an unexecuted result |
| Agent.Agent.HandleBreak | internal/agent/agent.go:541-573 | a context-limit rejection is retried once after a fold; every other failure ends the turn |
| Agent.Agent.ExecuteTools | internal/agent/agent.go:576-596 | measured calls replace those of the last message, then one result per call is appended |
| Agent.Agent.LoopBoundary | internal/agent/agent.go:600-637 | steers, then injected messages; then the final check and the closing fold |
| Agent.Agent.OneRound | internal/agent/agent.go:516-637 | one pass of the turn loop |
| Agent.Agent.FinalAnswer | internal/agent/agent.go:1239-1267 | one request without tools at the cap |
| Agent.Agent.FinishTurn | internal/agent/agent.go:714-722 | guards down, steers dropped |
| Agent.Agent.BeginTurn | internal/agent/agent.go:484-506 | decay, then prefix, then the input: recorded as submitted, shown as transformed |
| Agent.Agent.TakeTurn | internal/agent/agent.go:464-639 | the loop over rounds with its cap and its exits |
| TrialPool.AdmitConserves | evals/whip_evals/execution.py:58-68 | an admission keeps conservation: for every resource what is available, what active trials hold and what was never proven free add up to the capacity; nothing negative, never more than `jobs` active, the peak the true maximum |
| TrialPool.CollectConserves | evals/whip_evals/execution.py:72-87 | so does collecting a finished worker, also one that raised or was interrupted |
| TrialPool.AdmitsWhileItCan | evals/whip_evals/execution.py:58-68 | admission takes trials in order and stops only when none is left, the run is cancelled, all jobs are busy, or the next trial needs more of something than there is; the cancel event counts from the poll it is set at |
| TrialPool.AdmittedTrialFits | evals/whip_evals/execution.py:58-62 | what is admitted fits, under a free job |
| TrialPool.CollectingBreaksOff | evals/whip_evals/execution.py:72-93 | collecting breaks off exactly at the first worker that was interrupted or whose callback raised |
| TrialPool.BreakingOffCancels | evals/whip_evals/execution.py:90-93 | a run that is broken off cancels the others if told to |
| TrialPool.CollectAccounts | evals/whip_evals/execution.py:72-84 | collecting adds exactly this trial's result, as its worker reported it, and changes no other |
| TrialPool.ResultsAreReports | evals/whip_evals/execution.py:72-84 | every result of a run is what a worker of that very trial reported in one of the waits |
| TrialPool.RunKeeps | evals/whip_evals/execution.py:55-93 | conservation at every point of every run, and, unless it was broken off, every dispatched trial either active or with its one result |
| TrialPool.WhyItStopped | evals/whip_evals/execution.py:56-71 | a run of at least one job ends with trials pending only if it was cancelled or the next trial exceeds the capacity less what leaked |
| TrialPool.CancelStopsDispatch | evals/whip_evals/execution.py:58-71 | once cancelled no further trial is dispatched |
| TrialPool.EverythingRuns | evals/whip_evals/execution.py:41-99 | in a run that is not refused, with no cancel and every result's cleanup proven, every trial is dispatched |
| TrialPool.RunFinishes | evals/whip_evals/execution.py:56-89 | a run whose passes each find a worker done finishes within one pass per unfinished trial |
| TrialPool.ResultsAreComplete | evals/whip_evals/execution.py:94-99 | exactly one result per trial: the reported one for dispatched trials, a stop record for the others |
| TrialPool.EveryRun | evals/whip_evals/execution.py:41-99 | all of this for every run from the start |
| TrialPool.Coordinator.constructor | evals/whip_evals/execution.py:51-55 | the whole capacity is available, everything is pending |
| TrialPool.Coordinator.Reserve | evals/whip_evals/execution.py:63-64 | the loop takes a trial's need from every resource |
| TrialPool.Coordinator.Release | evals/whip_evals/execution.py:86-87 | the loop gives it back |
| TrialPool.Coordinator.Admit | evals/whip_evals/execution.py:58-68 | the inner loop admits first in, first out, until the head does not fit, jobs are used up or the run is cancelled |
| TrialPool.Coordinator.Harvest | evals/whip_evals/execution.py:71-89 | finished workers are collected one after the other until one raises |
| TrialPool.Coordinator.Accepts | evals/whip_evals/execution.py:48-55 | a run is refused exactly when there is no job or some trial exceeds the whole capacity |
| TrialPool.Coordinator.RunPool | evals/whip_evals/execution.py:41-99 | refusal, the outer loop with interrupts in the wait or behind any worker, and the final accounting |
| TrialSchedule.IdsAreDistinct | evals/whip_evals/execution.py:34 | trial IDs are distinct, also past the padding width |
| TrialSchedule.MatrixIsExact | evals/whip_evals/execution.py:26-38 | for any shuffles every task, candidate and repetition occurs together exactly once |
| TrialSchedule.EveryTrialInItsPlace | evals/whip_evals/execution.py:26-38 | the trial at every position: its repetition, its task from the shuffled order, its candidate, and the number in its ID |
| TrialSchedule.TrialIdReads | evals/whip_evals/execution.py:34 | an ID is "t" and its number in at least four digits |
| TrialSchedule.ArmsStandTogether | evals/whip_evals/execution.py:29-37 | the arms of a task in a repetition are adjacent, in counterbalanced order |
| TrialSchedule.ArmsAlternate | evals/whip_evals/execution.py:26-38 | in the schedule, with two candidates, the first trials of a task in consecutive repetitions are of different candidates |
| TrialSchedule.StartsAreBalanced | evals/whip_evals/execution.py:20-38 | in every repetition of the schedule the numbers of tasks whose first trial is of either candidate differ by at most one and add up to all tasks, whatever the shuffles |
| TrialSchedule.Schedule | evals/whip_evals/execution.py:20-38 | the loops build that matrix; with tasks but no candidate they fail |
| Numerals.PaddedValue | evals/whip_evals/execution.py:34 | a zero-padded numeral reads back as the number it was made from |
| PairedStatistics.Index | evals/whip_evals/report.py:292-299 | the index of an arm, or failure exactly when a task and repetition occur twice |
| PairedStatistics.CountPairs | evals/whip_evals/report.py:311-317 | the loop counts wins, losses and ties |
| PairedStatistics.TaskDeltas | evals/whip_evals/report.py:301-310 | the loop collects the pass-rate differences of fully graded tasks and whether all are |
| PairedStatistics.SharedTasksAreCommon | evals/whip_evals/report.py:300-301 | the tasks of a comparison are exactly those both arms have rows for, each once |
| PairedStatistics.TasksInBoth | evals/whip_evals/report.py:300-301 | they are found in ascending order |
| PairedStatistics.CompareTrials | evals/whip_evals/report.py:291-338 | the comparison as a whole: counts, delta and interval only when complete |
| PairedStatistics.CompleteMeans | evals/whip_evals/report.py:301-310 | a comparison is complete exactly when there is a common task and every row of one, on either side, is graded |
| PairedStatistics.KindOfPair | evals/whip_evals/report.py:311-317 | a pair is a win, loss or tie exactly if both sides are graded and only the candidate, only the control, or both or neither passed |
| PairedStatistics.DeltaOfTask | evals/whip_evals/report.py:304-310 | each task contributes the share of passed trials of the candidate less that of the control |
| PairedStatistics.PairsAddUp | evals/whip_evals/report.py:311-317 | wins, losses and ties add up to the pairs graded on both sides |
| PairedStatistics.DeltaIsNetWins | evals/whip_evals/report.py:304-333 | for fully graded arms over the same T tasks with R repetitions the mean of the per-task deltas is (wins - losses) / (T * R) |
| PairedStatistics.QuantileInRange | evals/whip_evals/report.py:19-26 | a quantile lies between the least and the greatest value |
| PairedStatistics.QuantileIsMonotone | evals/whip_evals/report.py:19-26 | a larger fraction never gives a smaller quantile |
| PairedStatistics.QuantileHitsRanks | evals/whip_evals/report.py:19-26 | the fraction k/n of n + 1 values gives the k-th of them in order |
| PairedStatistics.QuantileBetweenRanks | evals/whip_evals/report.py:19-26 | between two ranks the quantile lies on the line between their values |
| PairedStatistics.MeansFollowDraws | evals/whip_evals/report.py:323-324 | each bootstrap mean is the mean of exactly what its draws pick |
| PairedStatistics.OneTaskDrawn | evals/whip_evals/report.py:321-325 | if every draw picks the same task, both ends of the interval are its delta |
| PairedStatistics.IntervalIsSound | evals/whip_evals/report.py:321-325 | the bootstrap interval is ordered and lies within the range of the per-task deltas, for every resampling |
| PairedStatistics.ImprovementNeedsATask | evals/whip_evals/report.py:321-325 | an interval above zero needs a task that improved |
| SingleFlight.StepKeepsSound | internal/brandicon/brandicon.go:104-145 | every step of any caller keeps: a key is pending exactly when one live leader owns it, channels are closed once, every waiter waits on a closed channel or a live leader, slots are counted and at most four |
| SingleFlight.EveryInterleavingIsSound | internal/brandicon/brandicon.go:104-145 | so does every interleaving |
| SingleFlight.EveryReachableStateIsSound | internal/brandicon/brandicon.go:65-145 | so it holds in everything reachable from a new resolver |
| SingleFlight.OneFetchPerKey | internal/brandicon/brandicon.go:101-115 | at most one fetch per key is in progress |
| SingleFlight.FewFetches | internal/brandicon/brandicon.go:130-135 | at most four fetches over all keys |
| SingleFlight.StepMovesOneCall | internal/brandicon/brandicon.go:104-145 | what one step makes of a caller, by where it stands, and that it moves nobody else |
| SingleFlight.LeaderStartsWhenFree | internal/brandicon/brandicon.go:115-135 | a leader may fetch exactly while fewer than four slots are held; a waiter goes on exactly when its channel is closed |
| SingleFlight.WaiterWaits | internal/brandicon/brandicon.go:115-122 | on every run a waiter is still waiting, or its channel is closed, or it gave up |
| SingleFlight.NobodyAnswersEarly | internal/brandicon/brandicon.go:104-145 | on every run a call that missed the cache and did not give up ends only after fetching itself or after the channel it waited for is closed |
| SingleFlight.ClosedByItsLeader | internal/brandicon/brandicon.go:124-136 | on every run a channel is closed only after its own leader has fetched or given up |
| SingleFlight.SomebodyCanProceed | internal/brandicon/brandicon.go:115-135 | no deadlock: while a call is unfinished some call can proceed without any context ending |
| SingleFlight.RunsEnd | internal/brandicon/brandicon.go:104-145 | without new callers every run is bounded, and where nothing can proceed every call is finished |
| SingleFlight.Resolver.constructor | internal/brandicon/brandicon.go:56-74 | nothing pending, all slots free |
| SingleFlight.Resolver.JoinOrLead | internal/brandicon/brandicon.go:108-114 | under the mutex a caller becomes leader exactly when the key is not pending |
| SingleFlight.Resolver.Continue | internal/brandicon/brandicon.go:105-145 | every other step; a closing leader closes an open channel |
| SingleFlight.Resolver.Interleave | internal/brandicon/brandicon.go:104-145 | any interleaving through the shared object |
| Attenuation.NarrowingIsExact | internal/agentdef/definition.go:435-451 | narrowing grants exactly the names asked for, each once, and fails if and only if one is not inherited |
| Attenuation.FirstMissingIsFirst | internal/agentdef/definition.go:442-445 | the name in a refusal is the first one asked for that is missing |
| Attenuation.DeduplicatedKeepsOrder | internal/agentdef/definition.go:435-450 | the order follows the request |
| Attenuation.SelectedKeepsOrder | internal/agentdef/definition.go:413-423 | tools keep the order they are declared in |
| Attenuation.ChildIsExact | internal/agentdef/definition.go:369-464 | a spawn succeeds if and only if its name is declared and all that the named child and then the overrides ask for is available; the child then holds exactly the latest request of each kind, and each model default from the last place that sets it |
| Attenuation.ChildIsWithin | internal/agentdef/definition.go:366-411 | a child's modules, capabilities, tools and operations are within its parent's, and it declares no children |
| Attenuation.ChainAttenuates | internal/agentdef/definition.go:366-411 | along any chain of spawns every descendant is within every ancestor, operations included |
| Attenuation.NamedOnlyOnce | internal/agentdef/definition.go:369-380 | only the first definition of a chain has named children; asking a child for one fails |
| Attenuation.OperationsAreCanonical | internal/agentdef/operations.go:14-50 | operation lists are duplicate-free, in canonical order, and depend only on which capabilities are held |
| Attenuation.FilesAreGranted | internal/agentdef/operations.go:23-26 | "read" is granted exactly to "read" or "write", every other file operation exactly to "write" |
| Attenuation.ShellIsGranted | internal/agentdef/operations.go:27-32 | the shell operations exactly to "shell", the browser ones exactly to "browser", "computer_exec" exactly to "computer" |
| Attenuation.EveryOperationInOrder | internal/agentdef/operations.go:6-12 | whoever holds everything is granted every operation, in the stored order |
| Attenuation.ToolOperationsInOrder | internal/agentdef/operations.go:52-62 | distinct tool names map to their operations one by one |
| Attenuation.Narrow | internal/agentdef/definition.go:437-451 | the loop narrows or fails on the first missing name |
| Attenuation.NarrowTools | internal/agentdef/definition.go:413-433 | the loops select tools in declaration order or fail |
| Attenuation.Operations | internal/agentdef/operations.go:19-38 | the loop over capabilities gives file, shell and MCP operations |
| Attenuation.Ordered | internal/agentdef/operations.go:42-50 | the loop keeps the canonical operations that were requested |
| Attenuation.ToolOperations | internal/agentdef/operations.go:54-62 | the loop gives each tool name its operation once |
| BaselineChain.PublishKeepsSound | evals/whip_evals/baseline.py:100-132 | publishing keeps the chain, never collides with a history entry, and accepts if and only if the campaign is eligible, its launch pointer is current and it is not cut off |
| BaselineChain.OnlyAcceptanceMovesThePointer | evals/whip_evals/baseline.py:109-131 | a held, stale or crashed campaign leaves the current pointer alone |
| BaselineChain.PublicationHasItsCause | evals/whip_evals/baseline.py:107-131 | each of the five ways a publication can go has its exact cause, and everything it leaves behind is determined: the fields of the pointer, the history entry, the current pointer |
| BaselineChain.EventsDoOneThing | evals/whip_evals/baseline.py:100-132 | a launch fixes what is current then, a delivery publishes once, and other campaigns are left alone |
| BaselineChain.HappenKeeps | evals/whip_evals/baseline.py:100-132 | every launch and every publication keeps the chain, with each acceptance right behind the pointer it was launched against |
| BaselineChain.EveryInterleavingIsAChain | evals/whip_evals/baseline.py:100-132 | so does any interleaving of any number of campaigns |
| BaselineChain.OneAcceptancePerLaunch | evals/whip_evals/baseline.py:111-131 | at most one campaign is accepted per launch pointer |
| BaselineChain.EveryHistoryIsAChain | evals/whip_evals/baseline.py:100-132 | from an empty store, under any interleaving, the accepted pointers are one chain ending in the current one and no two accepted campaigns share a launch pointer |
| BaselineChain.Baseline.PublishCampaign | evals/whip_evals/baseline.py:109-131 | the locked section: compare, write history, swap |

## Left out

- Transcript: text is measured in characters, one per byte; `EstimateTokens` is given as its formula without 64-bit saturation, the vision price of an image is part of the image, and the opaque continuation state of a reply is kept as its length.
- Turn: token usage, prices, retries and streaming inside the client, ephemeral system text, tool definitions, presentation and time stamps are not modelled; a usage record that does not validate counts as no usage. Errors before a turn starts other than a refused input are left out.
- Turn: every turn has a message recorder. `AppendUser` and `ReplaceHistory` change the history without one and are not among the actions of a session; `ManualCompact` is the same fold followed by clearing the stall flag.
- Turn: steers are taken to arrive between the request and the next boundary of a round; one that arrives earlier or later in a round meets the same boundary.
- Turn: a turn is followed for as many rounds as the input gives, since rounds of an uncapped turn may go on forever.
- Folding: the text of the summary request and its model are not modelled; which rows it is built from is.
- Folding: the orphan walk-back stops at message 1; the original would go on if message 1 were a tool result, which no covered view has.
- Decay: wording of age and image placeholders, and the files they name, are inputs behind the marker; decoding a call's arguments is a function from the arguments to a path, empty when there is none.
- TrialPool: worker threads, queue times and phase seconds; a trial is named by its position in the input, resources are not negative, and a finished worker whose interrupt ends the run counts among the unproven ones. An interrupt in the middle of an admission is not modelled.
- TrialSchedule: engine, binary hash, runner and resources of a planned trial are copied unchanged and left out; the random source is given by its shuffles, of which only being shuffles is used.
- PairedStatistics: arithmetic is exact, without floating-point rounding; costs, latencies, `summarize` and `build_result` are left out; what the seeded source draws is an input.
- SingleFlight: cache contents, expiry, files and the HTTP fetch; a cache hit is a choice.
- Attenuation: `Validate`, `Normalize`, hook timeouts and registration rules would only add easy members; schemas are strings, a `null` output is none, and narrowing to nothing does not distinguish an empty tool list from an absent one.
- BaselineChain: `evaluate` and the retained evidence are reduced to whether a campaign is eligible; file hashes are given; the lock makes a publication one step, except that a crash may fall between the history entry and the pointer.
- Prompt text, commands, the daemon, sandboxes and front ends are not part of this model.
