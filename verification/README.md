# A verified model of Druppie's agent runtime

Druppie runs trees of LLM agents over one shared database. This project models the part of it where the
state lives (the plan, the spawned runs, the chat transcript, the tool calls with their approvals, the
session and the connection pool) and proves what holds over all runs, all inputs and all interleavings.
LLMs, tools, people and the passing of time are parameters: a function or a sequence of outcomes over which
every statement quantifies.

| Module | Part of the system |
|---|---|
| `Workflow` | the plan as a queue; when the scheduling loop must end |
| `RunTable` | the agent-run rows whose sequence numbers stand in for that queue |
| `ConnectionPool` | trees of agents on a bounded connection pool |
| `Subagents` | agents that spawn agents: pauses, depth, edges |
| `Join` | resuming parents after a subagent completes |
| `Transcript`, `Compaction`, `DoneRule`, `AgentLoop` | the loop that drives one agent |
| `AgentRuns` | what every run of that loop keeps |
| `MessageHistory`, `ToolCounts` | what is rebuilt from the database when a run is resumed |
| `JsonSchema`, `SchemaRefs`, `SchemaStrict` | the schema sent to the LLM and what its answers mean |
| `ApprovalGate`, `Injection`, `SessionClaim`, `Fallback` | the guards around execution |

`dafny verify dfyconfig.toml` checks the whole project.

## What turned out

Where a stated intention does not hold of the code, the code is modelled as it is, a lemma gives the failing
case, and another says exactly when the intention is met.

- **The cap on planner runs ends the loop only while nobody else may plan.** It counts planner runs and strikes planner
  steps from plans. When agents call the tools they hold, the scheduling loop ends on every choice of plans exactly
  when no agent but the planner may plan, neither by holding `make_plan` nor by spawning its way down, within the depth
  limit, to an agent that holds it: any other such agent can plan itself for ever. An agent that only lists the planner
  among its subagents is enough. The provider does not check who holds `make_plan`, so an agent that names a tool it
  was not given can plan as well. The docstring of `make_plan` promises a developer and a deployer step at the cap; the
  code adds a summarizer only.
- **`allowed_next_agents` has no effect in the agent loop.** The loop answers `done` itself
  (`druppie/agent_runtime/loop.py:554-581`) and never reads `next_agent`, so the route to the planner that the shipped
  `dev_orchestrator` has (`druppie/agents/definitions/coding/project/dev_orchestrator.yaml:259-260`) inserts nothing.
  The builtin `done` does insert a run, without asking the cap. Composed with that, the loop would end exactly when
  only the planner may plan, nobody routes to it, and routing has no cycle.
- **Connections are kept across awaits.** `continue_run` reads on a session whose transaction stays open until the run
  returns, against the stated invariant; several paused leaves each get a session of their own, and the task that waits
  for them may keep a further one. A tool call keeps a connection while it runs, since `_execute_mcp_tool` reads an
  expired row right before it awaits the server. Asking for a connection blocks the event loop, so one agent that waits
  for one stops all that could give one back. With at most k tool calls at once a pool is free of deadlock exactly when
  it is larger than k and the open sessions together. Nothing in the code bounds k, so no pool is large enough.
- **The depth limit forgets.** A resumed run counts its depth from 0, so the spawn tree of an agent that may spawn
  itself is bounded exactly when no run in it was resumed.
- **An LLM error in a child is reported as a success**, and a malformed entry in a subagents call pauses its parent.
- **The walk patches the latest open subagents call** of a parent, which is the one the child was spawned by
  exactly when the parent has made no later one; a completed call counts as open still.
- **Nested nulls.** Strict mode asks for optional properties of nested objects as well, but only top-level nulls are
  dropped before validation.
- **An optional parameter with an enum cannot be omitted.** Strict mode requires it and adds null to its type, but not
  to its enum. Whatever else the tool takes can be sent, with nulls for what is omitted, exactly when closed objects
  hold declared properties only, each omitted property can take null, and an enum or anyOf over a whole object takes
  what was filled in.
- **The fast rebuild does not strip `user_answer`**, although the full replay does, and the barrier before a resume
  counts open questions but not open approvals. The resume after an approval has no barrier at all.
- **Outcomes are matched to calls by position.** A call that left no row shifts the outcomes behind it to wrong ids; a
  rebuilt transcript with such a gap is never a legal one.
- **A refused `done` can complete a run**, since the check after the turn counts all calls of the message. In a message
  whose tools all answer this can happen exactly when some tool comes after the `done` or suspends; with rules that
  require `done` itself it can always happen. An accepted one can become refused: the first call under the exact name of
  a required tool hides all calls under prefixed names.

## Model

| member | source | states |
|---|---|---|
| Workflow.LoopEndsIffOnlyPlannerPlans | druppie/execution/orchestrator.py:355-445 | After a user message, the loop over runs that plan, themselves or through spawned runs, but do not route ends on every choice of plans if and only if no agent but the planner holds make_plan or can reach a holder through subagents lists within the depth limit |
| Workflow.MayPlanIff | druppie/agent_runtime/subagents.py:152-167 | A run can bring about a plan if and only if its agent holds make_plan or can spawn its way down to one that does |
| Workflow.SpawnedPlannerIsEndless | druppie/agent_runtime/compat.py:204-262 | An agent that only lists the planner among its subagents can have itself planned for ever |
| Workflow.UnroutedEnds | druppie/agents/builtin_tools.py:704-724 | While nobody routes and only the planner may plan, no choice of plans keeps the loop going, from any queue |
| Workflow.RoutedLoopEndsIffSafe | druppie/agents/builtin_tools.py:996-1039 | About make_plan composed with the routing of the builtin done of the runs in the plan, which the agent loop does not reach: every choice of plans and routes ends the loop if and only if only the planner may plan, nobody may route to it and allowed_next_agents has no cycle |
| Workflow.CompleteDrops | druppie/agents/builtin_tools.py:704-765 | Under the condition of RoutedLoopEndsIffSafe each completed run, with all plans and completed planners below it, lowers a lexicographic measure: planner runs left, pending planners, summed rank of pending runs |
| Workflow.SafeEnds | druppie/execution/orchestrator.py:367-443 | Under that condition no policy, with routes or without, keeps the loop going from any queue |
| Workflow.RouteToPlannerIsEndless | druppie/agents/builtin_tools.py:996-1039 | About the same composition: one agent allowed to route to the planner is enough to keep the loop going past the cap |
| Workflow.SecondPlannerIsEndless | druppie/agents/builtin_tools.py:704-724 | A second agent that may plan can plan itself for ever without any route, as the cap counts planner runs only |
| Workflow.PlanTells | druppie/agents/builtin_tools.py:717-770 | For every plan and planner count: the queue holds the jobs of all usable steps, in their order; only at the cap planner steps are struck, and one job follows, the forced summary, exactly when no step names the summarizer |
| Workflow.LastPlanWins | druppie/agents/builtin_tools.py:726-765 | The last plan that a run or a run below it makes is the queue, capped by the planners completed until then |
| Workflow.CompleteTells | druppie/agents/builtin_tools.py:1012-1039 | After a run the agent it routes to, if allowed and existing, is next and what was planned follows; the planner counts its own run and the spawned ones |
| RunTable.NextPending | druppie/repositories/execution_repository.py:92-103 | The pending row with the least sequence number, or none when no row is pending |
| RunTable.OrderIsUnique | druppie/repositories/execution_repository.py:92-103 | The rows determine the queue: there is one order by rising number |
| RunTable.PendingNumbersDistinct | druppie/agents/builtin_tools.py:726-765 | In a table that is in the order every method of the repository keeps, no two pending rows share a sequence number |
| RunTable.OrderFront | druppie/agents/builtin_tools.py:1021-1039 | A row numbered one below the least pending one is the new front of the queue, and all others keep their places |
| RunTable.ExecutionRepository.NextSequenceNumber | druppie/repositories/execution_repository.py:1017-1049 | Greater than every number used by runs and by messages |
| RunTable.ExecutionRepository.CancelPendingRuns | druppie/repositories/execution_repository.py:105-122 | Every pending row becomes cancelled, no other row changes, the queue is empty |
| RunTable.ExecutionRepository.MakePlan | druppie/agents/builtin_tools.py:665-795 | The queue becomes the plan, of which PlanTells says what it keeps; an empty plan changes nothing; rows that are not pending stay |
| RunTable.ExecutionRepository.Done | druppie/agents/builtin_tools.py:996-1039 | An allowed existing agent goes to the front of the queue, anything else leaves the queue alone |
| RunTable.ExecutionRepository.ProcessMessage | druppie/execution/orchestrator.py:242-272 | Router and planner are appended, in this order, behind everything pending |
| RunTable.ExecutionRepository.CreateMessage | druppie/agents/builtin_tools.py:797-866 | The message takes a number that no run has, and the queue stays as it is |
| RunTable.ExecutionRepository.Perform | druppie/agents/runtime_v2.py:449-483 | A plan made below a run replaces the queue of the session, and a spawned planner that completes counts towards the cap |
| RunTable.ExecutionRepository.RunAgent | druppie/execution/orchestrator.py:554-661 | The queue is replanned by the run and those below it and routed as the run chose, the row gets the status of its outcome, paused when its task is cancelled, and completed planners count |
| RunTable.ExecutionRepository.ExecutePendingRuns | druppie/execution/orchestrator.py:355-445 | The loop terminates whenever the queue machine is not endless from this table; after n completed runs the table reads as that machine after n steps; it ends drained, stopped, paused, raised or cancelled, with the queue the last run left and the session status that belongs to it |
| RunTable.PassAdvances | druppie/execution/orchestrator.py:367-443 | A pass that does not end the loop is exactly one step of the queue machine |
| RunTable.SessionWaitsForRun | druppie/execution/orchestrator.py:425-443 | The session waits for what its run waits for |
| ConnectionPool.DeadlockFreeIff | druppie/execution/tool_executor.py:1383-1416 | For every width and depth and with at most k tool calls at once, some step is always possible until all agents are finished if and only if nothing is started or the pool is larger than k and the sessions that stay open together; a checkout that waits stops the event loop |
| ConnectionPool.Progress | druppie/agent_runtime/compat.py:357-371 | While a connection is free some agent can act: work, return from the LLM, open a session, resume a group or join finished children |
| ConnectionPool.ExecKeepsInv | druppie/execution/orchestrator.py:1185-1329 | Over every interleaving no more connections are in use than the pool has, and no more are kept than sessions stay open and tool calls run |
| ConnectionPool.ParentsAlwaysWait | druppie/agent_runtime/subagents.py:331-361 | Over every interleaving an agent with unfinished children waits for them |
| ConnectionPool.SessionsStarve | druppie/db/database.py:22-31 | With as many open sessions and tool calls as connections a state is reached in which an agent waits for a connection and nobody can act |
| ConnectionPool.NoPoolIsEnough | druppie/agents/runtime_v2.py:175-195 | As nothing bounds the tool calls at once, every pool can be starved |
| Subagents.PauseReachesRoot | druppie/agent_runtime/subagents.py:253-281 | A stopped run anywhere below makes every ancestor stop, spawned ones and the root, and every subagents call on the way waits |
| Subagents.StopsIff | druppie/agent_runtime/subagents.py:331-361 | A spawned run stops if and only if the user stopped it, or its tree holds a tool that waits, a malformed request or a child the user stopped |
| Subagents.RootStopsIff | druppie/execution/orchestrator.py:584-635 | The run of the plan stops if and only if its loop was cancelled or its tree holds such a source |
| Subagents.EntryIff | druppie/agent_runtime/subagents.py:148-328 | Which children are not started, and, by the first turn that ends the child's loop, exactly when success, failure, pause and cancellation are reported and recorded: an LLM that fails is a success, a loop that raises a failure |
| Subagents.LoopEndIff | druppie/agent_runtime/loop.py:120-413 | A loop ends as the first turn that ends it says: cancelled, failed by its LLM, paused, or completed, in this order of precedence; without one it raises or runs out of turns |
| Subagents.CallsMade | druppie/agent_runtime/loop.py:330-373 | Its calls are those of all turns up to that one, in order, and of this one unless it ended before its tools |
| Subagents.UseWaitsIff | druppie/agent_runtime/subagents.py:331-361 | A call waits for a human, for a malformed request, or for a child that has stopped |
| Subagents.RootEndIff | druppie/agents/runtime_v2.py:549-590 | The same for a run of the plan, where an LLM that fails is an error |
| Subagents.TreeIsBounded | druppie/agent_runtime/subagents.py:152-167 | Within one execution every run is at most at max_subagent_depth, one deeper than its parent, and on its parent's list |
| Subagents.DepthHoldsIffNeverResumed | druppie/agents/runtime_v2.py:512-525 | The spawn tree of an agent that may spawn itself is bounded by the limit if and only if no run in it was resumed |
| Subagents.DepthAfterResumes | druppie/agents/runtime_v2.py:494-508 | With r resumed runs on a path the depth is at most (r + 1) times the limit |
| Subagents.Execute | druppie/agent_runtime/subagents.py:331-361 | One entry per request, in order, as EntryIff says, and pending if and only if one is paused or cancelled; a malformed request is a cancelled entry |
| Join.Orchestrator.WalkParentChain | druppie/execution/orchestrator.py:1082-1156 | Each resumed parent was paused, had all siblings of its child terminal, had its call patched, and was then continued from the table its child had left; the walk ends with the table the last one left, and ends unfinished exactly when a sibling is not done or the last resumed parent paused again |
| Join.Orchestrator.AllSiblingsCompleted | druppie/execution/orchestrator.py:663-706 | True if and only if every run with that parent and that spawning call is completed, failed or cancelled |
| Join.Orchestrator.PatchPausedSubagentsToolCall | druppie/execution/orchestrator.py:708-766 | The latest open subagents call of the parent is completed with one entry per child it spawned, and nothing else changes |
| Join.PatchTells | druppie/execution/orchestrator.py:730-766 | The patched call has one entry for each child it spawned, in order: the agent, success if and only if completed, the error of the row, and the summary of the child's latest done call or none; no other call changes |
| Join.OpenIff | druppie/execution/orchestrator.py:715-726 | Which subagents calls can be patched: all but failed ones and those that wait for a human or a sandbox, and so completed ones again |
| Join.AnswersSpawningCallIff | druppie/execution/orchestrator.py:715-726 | A resumed parent finds the call of its children answered, with what each came to, exactly when it has no later open subagents call |
| Join.LaterCallIsPatched | druppie/execution/orchestrator.py:715-740 | With a later open call that one is completed instead, with a failure for children that still wait, and the right one stays as it was |
| Join.SecondCallIsPatched | druppie/execution/orchestrator.py:715-726 | A case of this: two subagents calls in one message with one child each |
| Join.Orchestrator.ResumeParent | druppie/execution/orchestrator.py:1135-1151 | The parent is continued as running; its status and that of the session follow from its result |
| Join.SessionWaitsWithRun | druppie/execution/orchestrator.py:793-834 | A resumed run that pauses and its session wait for the same thing |
| Transcript.RepairIsLegalIff | druppie/agent_runtime/loop.py:357-373 | The cancellation exit leaves a legal transcript if and only if every interrupted call has an id that no earlier reply carries |
| Transcript.Repair | druppie/agent_runtime/loop.py:357-373 | One made up reply for each call with an unanswered id, in order, behind everything else |
| Transcript.LegalAfter | druppie/agent_runtime/loop.py:335-356 | Behind a legal transcript, what follows is legal exactly when the whole is |
| AgentLoop.Run | druppie/agent_runtime/loop.py:98-413 | Result, requests, final state and calibration are exactly those of the specified run, whose properties the AgentRuns rows state |
| AgentRuns.EveryRun | druppie/agent_runtime/loop.py:98-413 | All of the following for every run from a prompt and messages; there is no input exactly when both are empty |
| AgentRuns.RunEndsWell | druppie/agent_runtime/loop.py:120-413 | Every request is a legal transcript that begins with the original header; no fewer requests than turns and at most max_retries + 1 for each; turns within budget; never more than 7 turns in a row without a tool call; each end has its cause: an accepted done, 5 truncated or 3 plain texts since the last tool call, a call that waits, a tool that was interrupted |
| AgentRuns.RunChecks | druppie/agent_runtime/loop.py:121-391 | A run is cancelled exactly when one of its checks sees the token: the last one did and none before; in every other run no check did |
| AgentRuns.RunAttempts | druppie/agent_runtime/loop.py:486-523 | A failed attempt is followed by the same request again; a run ends with an error exactly when its last max_retries + 1 attempts were one request that failed each time, and in every other run the last attempt was answered |
| AgentRuns.RunLimits | druppie/agent_runtime/loop.py:133-154 | A run that ends at the compaction or the context limit was at just this limit by its own measure, and its last request was the messages with the notice that says so |
| AgentRuns.RunTurns | druppie/agent_runtime/loop.py:590-594 | The turns of a run follow the answers of the LLM one by one, each of the kind its answer makes it; the history at the end is the one it began with and the names of all calls of these turns, but for an interrupted one |
| AgentRuns.ToolTurnCounts | druppie/agent_runtime/loop.py:330-373 | Tool calls that were not interrupted raise the count of each name by the number of its calls, and each has its reply behind the message: what its tool says, or the verdict on done |
| AgentRuns.ToolTurnIff | druppie/agent_runtime/loop.py:357-395 | Tool calls end the run exactly when one was interrupted, the token is seen, one waits, or a done call is accepted, in this order, and otherwise lead to the next turn |
| AgentRuns.TextTurnIff | druppie/agent_runtime/loop.py:204-328 | A text ends the run exactly when its count is full or a limit was hit, and otherwise the nudge that fits it follows |
| AgentRuns.OpeningTells | druppie/agent_runtime/loop.py:98-104 | The prompt follows the given messages exactly when there is one and none of them is from the user |
| AgentRuns.LearntTells | druppie/agent_runtime/loop.py:176-183 | An answer that says how large the prompt was moves the ratio towards what it says, and any other changes nothing |
| AgentRuns.NextRequestExtends | druppie/agent_runtime/loop.py:120-395 | Unless the conversation is compacted, the next request is this one with the answer behind it, and more |
| AgentRuns.LimitHitIff | druppie/agent_runtime/loop.py:137-154 | The compaction limit is hit when the compactor has worked as often as it may, the context limit when it has not and the estimate is too high |
| AgentRuns.TextStepKeeps | druppie/agent_runtime/loop.py:204-328 | A reply without tool calls leads to a nudge, or to the end after 5 truncated or 3 plain texts since the last tool call, or at a limit |
| AgentRuns.ToolStepKeeps | druppie/agent_runtime/loop.py:330-395 | After tool calls the transcript is legal again, or repaired from a legal one; cancellation wins over waiting, waiting over done |
| AgentLoop.ExecuteCalls | druppie/agent_runtime/loop.py:335-356 | One reply per call, in order and with its id: the calls begin in order, done is judged by those that are counted when it begins, a tool that suspends is counted later |
| AgentLoop.AcceptedDoneIsFirst | druppie/agent_runtime/loop.py:628-661 | The run completes with the first done call that is accepted with all calls of the turn counted, or with none when all are refused |
| AgentLoop.RefusedCompletesIff | druppie/agent_runtime/loop.py:374-395 | For every message and every done call with a summary in it: under some rules that do not require done it is refused when made and accepted after the turn if and only if all tools answer and one of them comes after it or suspends |
| AgentLoop.RefusedCompletesRun | druppie/agent_runtime/loop.py:628-661 | Then its stored reply is a refusal and the run completes all the same, with it unless an earlier done call is accepted after the turn too |
| AgentRuns.RefusedTurnCompletes | druppie/agent_runtime/loop.py:374-395 | In the loop: a done call that was refused when made and is accepted after its turn has a refusal as its reply, and ends the run as completed |
| AgentLoop.DoneRequiresItself | druppie/agent_runtime/tools/done.py:105-141 | Rules that require done itself can always refuse a done call and then let it complete the run |
| DoneRule.DoneChangesNothing | druppie/agent_runtime/tools/done.py:134-141 | Further calls of done change no verdict of rules that do not require it |
| AgentLoop.CallLlmWithRetries | druppie/agent_runtime/loop.py:486-523 | The first success, or the last of max_retries + 1 failures, after waiting no less than the doubled delays and at most a tenth more |
| AgentLoop.AttemptsFail | druppie/agent_runtime/loop.py:486-523 | All attempts but the last one fail, and the last one only when all retries are used up |
| AgentLoop.WaitIsBounded | druppie/agent_runtime/loop.py:486-523 | The time spent is at most 1.1 * base * (2^max_retries - 1) |
| AgentLoop.PrepareRequest | druppie/agent_runtime/loop.py:133-154 | The compacted messages with the notice of the limit that was hit, and the compactor counts its work |
| AgentRuns.PreparedIsLegal | druppie/agent_runtime/loop.py:133-154 | They form a legal request that begins with the header |
| DoneRule.Validate | druppie/agent_runtime/tools/done.py:24-131 | done is accepted if and only if there is a summary, every done variable is there when required and of its type and enum, the summary has a required status, and every precondition that applies has its calls |
| DoneRule.RefusalTells | druppie/agent_runtime/tools/done.py:24-131 | A refusal names the first thing that is wrong: the summary, the variables in order, the status, the preconditions in order |
| DoneRule.CallsTell | druppie/agent_runtime/tools/done.py:134-141 | Calls under the exact name count, and those under a prefixed name just when there are none |
| DoneRule.PassesIff | druppie/agent_runtime/tools/done.py:143-155 | The type check is that of the schema, but for true and false as numbers and for types it does not know |
| DoneRule.AppliesIff | druppie/agent_runtime/tools/done.py:111-120 | A precondition is skipped exactly when its marker is missing from the summary or the marker that lifts it is there |
| DoneRule.CallLowersCountIff | druppie/agent_runtime/tools/done.py:134-141 | A further call lowers the count of a tool exactly when it is the first under the exact name and several prefixed ones had counted |
| DoneRule.LosesValidityIff | druppie/agent_runtime/tools/done.py:105-141 | An accepted done becomes a refused one through a further call if and only if this is the first call under the exact name of a tool that an applying precondition requires more than once, and several prefixed ones had counted |
| DoneRule.SchemaPassesIff | druppie/agent_runtime/definition.py:109-149 | Arguments that the schema of done accepts pass the check of the variables if and only if no required one is null |
| Compaction.EstimateBounds | druppie/agent_runtime/compaction.py:50-68 | For n messages the estimate lies above chars/ratio + 3n and at most at chars/ratio + 4n |
| Compaction.EstimateIsAdditive | druppie/agent_runtime/compaction.py:50-68 | The estimate of a concatenation is the sum of the estimates |
| Compaction.RatioInRange | druppie/agent_runtime/compaction.py:74-94 | Over every sequence of observations the ratio stays between 2.5 and 6 |
| Compaction.ErrorDecays | druppie/agent_runtime/compaction.py:74-94 | For a constant clamped observation the error after k updates is exactly 0.7^k times the first one |
| Compaction.MessageCompactor.Calibrate | druppie/agent_runtime/compaction.py:74-94 | The new ratio is seven tenths of the old and three of the clamped observation; small prompts are ignored |
| Compaction.CalibrateTells | druppie/agent_runtime/compaction.py:74-94 | Prompts below 100 tokens teach nothing; any other moves the ratio three tenths of the way to what it says |
| Compaction.MessageCompactor.Compress | druppie/agent_runtime/compaction.py:96-164 | Under pressure everything behind the header gives way to one summary and is counted, else nothing changes |
| Compaction.CompressTells | druppie/agent_runtime/compaction.py:96-164 | Above the threshold, and with something behind the leading messages, exactly these and one summary stay and a compaction is counted; in any other case nothing changes |
| Compaction.SummaryTells | druppie/agent_runtime/compaction.py:130-164 | The summary is in the message that stands for what was dropped |
| Compaction.CompactedIsLegal | druppie/agent_runtime/compaction.py:166-175 | Compacting a legal transcript gives a legal one that keeps its header |
| MessageHistory.FastIsReplayIff | druppie/agents/message_history.py:26-84 | When each stored request continues the one before, rebuilding from the last call alone equals replaying all calls if and only if its tool calls have ids and no reply is surplus or carries a display field |
| MessageHistory.ReconstructFromDb | druppie/agents/message_history.py:26-84 | The last stored request with that call rendered behind it, or the full replay when there is no such request |
| MessageHistory.FullReplay | druppie/agents/message_history.py:87-131 | The first request and every call rendered behind it, in order |
| MessageHistory.CallsTell | druppie/agents/message_history.py:49-62 | A rebuilt message has the calls of the response, under their names, with their arguments and ids |
| MessageHistory.RepliesTell | druppie/agents/message_history.py:63-76 | One reply for each row with an outcome, in order: its result, cleaned when asked to, or else its error |
| MessageHistory.StrippedIsClean | druppie/agents/message_history.py:8-23 | Stripping removes display fields for good, changes nothing else, and never empties a result |
| MessageHistory.RenderedIsLegalIff | druppie/agents/message_history.py:49-76 | The rebuilt transcript is legal if and only if every tool call of the last message has its outcome stored and nothing more |
| MessageHistory.BarrierSufficesIff | druppie/execution/orchestrator.py:1004-1026 | Once all questions are answered the resumed transcript is legal if and only if no call of the same message waits for an approval |
| MessageHistory.ApprovalSufficesIff | druppie/execution/orchestrator.py:836-926 | After an approval, where nothing is asked, it is legal if and only if no call of the message waits for anything |
| MessageHistory.AnswersOwnCallIff | druppie/agents/message_history.py:63-76 | A rebuilt reply goes to the call whose outcome it carries if and only if no call before that one went without a row |
| MessageHistory.LegalAnswersOwnCalls | druppie/agents/message_history.py:63-76 | The rebuilt transcript is legal if and only if every call left a row with an outcome, and then every reply goes to its own call |
| MessageHistory.MayResumeAfterAnswer | druppie/execution/orchestrator.py:1004-1026 | The run may go on if and only if none of its questions is open |
| ToolCounts.RejoinIff | druppie/agents/runtime_v2.py:186-193 | Splitting a tool name at its first underscore and joining it again gives the name, except for a nameless server or one called builtin |
| ToolCounts.StoredIff | druppie/agent_runtime/compat.py:204-328 | A call leaves no row exactly when its path is refused, it spawns nobody, or it names no tool |
| ToolCounts.CountsSurvive | druppie/agents/runtime_v2.py:186-193 | Over any chain of calls and resumes: rebuilt counts never exceed those in memory, these never the calls made, and all agree exactly when no call was lost before it was stored |
| ToolCounts.SameHistoryIff | druppie/agent_runtime/compat.py:307-328 | When every call is stored the rows give the same history if and only if no name is ambiguous |
| ToolCounts.ResumeIsTransparent | druppie/agents/runtime_v2.py:186-193 | Then pausing and resuming, however often, changes no verdict on done |
| ToolCounts.RebuildCounts | druppie/agents/runtime_v2.py:186-193 | The dictionary holds, for every name, the number of rows stored under it |
| SchemaRefs.InlineKeepsMeaning | druppie/domain/tool.py:204-236 | A value meets a schema with its definitions if and only if it meets the inlined schema without any |
| SchemaRefs.InlineResolves | druppie/domain/tool.py:204-236 | No reference to a known definition is left |
| SchemaRefs.InliningEndsIffAcyclic | druppie/domain/tool.py:204-236 | Inlining all definitions ends if and only if they can be ranked so that each refers to lower ones only |
| SchemaRefs.InlinesIffReachesAcyclic | druppie/domain/tool.py:93-97 | A schema inlines if and only if the definitions it reaches can be ranked so that each refers to lower ones only |
| SchemaRefs.AcyclicInlinesAll | druppie/domain/tool.py:93-97 | With acyclic definitions every schema inlines |
| SchemaStrict.StrictIsIdempotent | druppie/domain/tool.py:119-202 | A second strict rewrite changes nothing |
| SchemaStrict.StrictMeansNullsFit | druppie/domain/tool.py:119-202 | What the strict form accepts, the schema accepts if and only if no optional property holds a null it refuses and no object it reaches requires a property it does not declare |
| SchemaStrict.SentArguments | druppie/domain/tool.py:73-117 | For every schema that inlines: arguments accepted by the schema sent to the LLM are valid for the tool, after dropping top-level nulls, if and only if what is required is declared and not null, every nested null fits, and a top-level enum or anyOf takes them without the nulls |
| SchemaStrict.SentTakesIff | druppie/domain/tool.py:73-202 | For every schema that inlines: arguments valid for the tool, with a null for each omitted property, meet the schema sent to the LLM if and only if closed objects hold declared properties only, each omitted property can be made to take null, and a whole-value enum or anyOf takes what was filled in |
| SchemaStrict.SentTakesObjects | druppie/domain/tool.py:106-115 | The schema that is sent takes objects only, also where the tool's says nothing about the type |
| SchemaStrict.NullableTakesNullIff | druppie/domain/tool.py:167-202 | Which property schemas take null once they are made nullable: those without a reference left, whose enum lists null, and whose type and null alternative beside anyOf do take it |
| SchemaStrict.FilledThenDropped | druppie/domain/tool.py:379-389 | What was filled in at the top is dropped again, and the tool receives the arguments as they were |
| SchemaStrict.StrictIsSound | druppie/domain/tool.py:379-389 | Strict mode is sound when required parameters are declared and refuse null, nested objects have no optional property, and there is no enum or anyOf at the top |
| SchemaStrict.NestedNullIsRefused | druppie/domain/tool.py:379-389 | A family of arguments that the sent schema accepts and the tool refuses: a null for a nested optional property |
| SchemaStrict.EnumCannotBeOmitted | druppie/domain/tool.py:167-202 | An optional parameter with an enum: the tool does without it, the sent schema accepts no arguments without a value from the enum |
| SchemaStrict.CleanKeepsMeaning | druppie/domain/tool.py:238-265 | Dropping titles changes no verdict |
| ApprovalGate.OnlyApprovedCallsRun | druppie/execution/tool_executor.py:734-794 | Over every history a call with an approval reaches its tool only after a user with the required role has approved it, never when it is rejected |
| ApprovalGate.NothingRunsAfterSuccess | druppie/execution/tool_executor.py:776-783 | The tool of a call succeeds at most once and never runs after that, however often execution is asked for |
| ApprovalGate.RunKeeps | druppie/execution/tool_executor.py:1337-1476 | Running a permitted call keeps all invariants of the gate |
| ApprovalGate.ToolExecutor.Execute | druppie/execution/tool_executor.py:529-732 | A call that fails a check never runs; a gated one gets one open approval for the required role; any other runs at once |
| ApprovalGate.ToolExecutor.ExecuteAfterApproval | druppie/execution/tool_executor.py:734-794 | Without an approved approval the call fails and does not run; a completed call stays completed and does not run again |
| ApprovalGate.ToolExecutor.Decide | druppie/services/approval_service.py:88-229 | A decision is recorded if and only if the approval is open and the user is entitled to it |
| ApprovalGate.AuthorizedIff | druppie/services/approval_service.py:206-229 | Admins decide on everything, the owner on what is left to the session owner, others on what asks for a role they have |
| ApprovalGate.GatedIff | druppie/core/mcp_config.py:180-223 | The agent's override decides whether and whom to ask, even that nobody is; else the global configuration, for tools of a server only |
| ApprovalGate.AdmittedIff | druppie/execution/tool_executor.py:561-690 | Exactly what turns a call away before the gate |
| Injection.HiddenMakesNoDifferenceIff | druppie/execution/tool_executor.py:239-287 | What the LLM sends for hidden parameters makes no difference to the tool call if and only if the context resolves them |
| Injection.InjectedParam | druppie/execution/tool_executor.py:243-272 | Each parameter ends up with the worth its own rule gives it, and others stay as sent |
| Injection.WorthTells | druppie/execution/tool_executor.py:243-272 | A hidden parameter gets what the context knows, another what was given, each for want of this the other |
| Injection.ApplyInjectionRules | druppie/execution/tool_executor.py:219-287 | The rules are applied one after the other: hidden ones override, others only fill in, and what the context does not know is left alone |
| Injection.StrippedIsInjectedIff | druppie/core/mcp_config.py:311-328 | For every server and tool: the parameters stripped from the schema are exactly the hidden ones injected where the full name leads, if and only if the tool is listed there or hides nothing |
| Injection.SplitJoinedIff | druppie/core/mcp_config.py:322-326 | A full name leads to its own server and tool if and only if the server has no underscore in its name |
| Injection.GetHiddenParams | druppie/core/mcp_config.py:273-309 | For each listed tool the parameters of the hidden rules that hold for it |
| Injection.StripHiddenParams | druppie/core/mcp_config.py:331-371 | In place, each schema loses its hidden properties, and each of these once from the required ones |
| SessionClaim.ClaimIsExclusiveIff | druppie/core/background_tasks.py:88-163 | From every row and in every interleaving two tasks are separated by a write that moved the session out of ACTIVE, if and only if the session exists and all requests are guarded, or there is one at most |
| SessionClaim.NothingStartsBesideTask | druppie/core/background_tasks.py:120-145 | From an ACTIVE row, with a task in flight, guarded requests start nothing before a write has moved the session out of ACTIVE |
| SessionClaim.StepKeepsInv | druppie/core/background_tasks.py:120-145 | Each step of a guarded request keeps the claim exclusive |
| SessionClaim.CreateSessionTask | druppie/core/background_tasks.py:115-163 | A conflict if and only if the guarded row is ACTIVE; else the row is claimed, unless the guard is skipped or broken, and the background task starts |
| Fallback.GivenUpKeeps | druppie/llm/fallback.py:171-225 | No instance asks its primary again after an LLM error |
| Fallback.NoRetriesKeeps | druppie/llm/fallback.py:36-49 | An instance created while its session is degraded never asks its primary with retries |
| Fallback.AppendKeeps | druppie/llm/fallback.py:84-110 | Every event keeps these, the flags that reflect the history, and the retries of the primary as they were created |
| Fallback.FallbackLLM.Chat | druppie/llm/fallback.py:171-225 | Which provider is asked, in which mode, what is answered or raised, and what the instance remembers |
| Fallback.AnsweredTells | druppie/llm/fallback.py:171-225 | Only an LLM error of a primary that was asked gives it up and degrades; the provider that replied last is active |
| Fallback.FallbackLLM.Create | druppie/llm/fallback.py:38-44 | A new instance starts degraded if and only if its session is |
| Fallback.FallbackLLM.ClearSession | druppie/llm/fallback.py:46-49 | The session, and no other, is no longer degraded |

## Left out

- Network and process input and output, sandboxes, Git, Keycloak and sockets: an LLM, a tool or a person is an outcome.
- Translation, language detection, prompt texts, attachments, logging, events, token totals and the frontend.
- Redirect and zombie recovery; of retry and of the resume of several paused leaves only the sessions they keep open.
- Concurrency inside one message: its calls begin in their order and a tool may suspend before it is counted; effects of suspended tools on each other, and the interleaving of spawned agents, are not followed.
- Hard task cancellation inside the gather of subagents; the token is a flag that may flip between two checks.
- Two requests that decide on one approval, or execute it, at the same instant: each is one step here.
- Timeouts of the connection pool, which turn a deadlock into an error after a while, and threads beside the event loop that hold connections.
- Rows of the `Subagents` module are values in a tree, not rows written in place; `Join` has the rows.
- Foreign keys: a parent or a tool call that a row names exists, so the branches for missing rows are not modelled there.
- Workflow.Possible: that agents call only tools they hold is an assumption, the provider does not check it for make_plan; with every tool name open to every agent, all of them may plan.
- Workflow.RoutedLoopEndsIffSafe: only the done of a run in the plan is routed there, not that of spawned runs.
- RunTable.ExecutionRepository.Done: the loop answers done calls itself, so this routing is reached only through the executor of builtin tools under another tool name; the model composes the two as they are written.
- AgentLoop.Run: path constraints, expanded tools, truncation of tool results, the selection of result variables and exceptions out of a tool are not part of it.
- DoneRule.Validate: a summary that is not text reads as missing, and enum values are compared as JSON values, where Python takes true for 1.
- MessageHistory.Kept: the rows of one message are taken in the order of their calls; the query orders them by an index that is always 0.
- MessageHistory.FastIsReplayIff: that each stored request continues the one before is a premise; nudges, limit notices and compactions break it.
- SchemaStrict.SentArguments: the retry with normalized arguments, fractional numbers and keywords beyond type, properties, required, additionalProperties, items, enum, anyOf, $ref and title are not part of it; keywords beside a reference are ignored, as section 8.3 of JSON Schema Core draft-07 says and the inlining does; under the default draft of the validator they count.
- SchemaRefs.Inline: schemas are values, so sharing and in-place changes of the dictionaries are not modelled.
- ApprovalGate.ToolExecutor.Execute: the provider of the agent loop runs builtin tools other than questions itself (druppie/agent_runtime/compat.py:204-262) and never asks the executor, so an approval override on one of them is not enforced there; the validation tool that may run before the gate is an outcome; questions to people and their answers are not followed further.
- Injection.HiddenMakesNoDifferenceIff: the second call that writes a translated file is not part of it.
- Fallback.FallbackLLM.Chat: calls on one instance do not overlap, and each instance has a primary of its own.
- Compaction.MessageCompactor.Compress: the summary is what an LLM returns, or none.
