# Verification of plural-core

plural-core supervises a Claude CLI child process for each session, restarts it when it crashes, streams its
output to a consumer, routes permission prompts over pairs of channels, and drives git operations that report
their progress on a channel. This project models those protocols and algorithms in Dafny and proves what they
keep over every run, every interleaving and every input.

`dafny verify dfyconfig.toml` checks everything.

## The modules

| module | models | form |
|---|---|---|
| ProcessLifecycle | Start, Stop, monitorExit, handleExit, drainStderr, the watchdog, MarkSessionStarted, ResetRestartAttempts (claude/process_manager.go) | transition system: one action per lock section or channel operation, any number of threads |
| LifecycleSafety, StartCondition, RestartBudget, RestartReach | what every run of that system keeps, and what can still follow | invariants and theorems |
| LifecycleEffects, StopReturns | what its steps achieve: whom a Stop releases and what it has waited for, the watchdog, the fatal reports; that every Stop can return | invariants and theorems |
| ProcessManager | the same lock sections on an object with real channel objects | class, each method proved to carry out exactly one step of the transition system |
| ResponseStream | the Runner's response channel and stream flags (claude/claude.go, claude/runner_state.go) | class and transition system over the same specification functions |
| PromptShutdown | the nine channel pairs, Send*Response, *RequestChan, Stop | class and transition system |
| PromptPipeline | a prompt channel pair with timeouts and non-blocking answers (mcp/server.go, mcp/channel_pair.go, mcp/socket.go) | transition system |
| McpServer | the JSON-RPC loop and the allow list (mcp/server.go) | class |
| SocketServer | one connection of the socket server (mcp/socket.go, mcp/channel_pair.go) | class |
| Transcript, TokenTotals | stream folding: the transcript with its newline flags, the token accumulator | classes against whole-sequence definitions |
| GitOperations | the five git operations and EnsureCommitted, for every answer of every command | class with a monitor over its commands |
| RunnerRegistry | the SessionManager's map of runners | class and transition system; linearizability |
| LockOrder | the Runner's and the ProcessManager's mutex: the lock traces of the functions, their calls inlined | code, a checker proved sound, and a transition system over threads |
| ToolRollup, HistoryTrim, BranchNames | tool rollup, history trimming, branch names | class and methods against definitions |

In the transition systems a run is a sequence of actions; `Exec` gives the state after it, or none when an
action was not enabled. A statement about `Exec(INIT, acts)` for all `acts` is a statement about every run.

## Where the code does less than it seems to promise

* The test for a cancelled context in handleExit (claude/process_manager.go:840, 860) never succeeds:
  `StartCondition.CancelledTestIsDead`. A Stop prevents later restarts exactly when the youngest monitor is not on
  its way to one: `RestartReach.StopPreventsRestartExactlyWhen`, with a run in
  `RestartReach.StopInsideDelayIsOverrun`. A Stop that found the process running and has returned always does:
  `RestartReach.FinishedStopPreventsRestarts`.
* A Start is harmless exactly when nothing of an earlier process is left that may still act:
  `StartCondition.StartIsHarmlessExactlyWhen`. The Runner starts every ProcessManager successfully at most
  once, which is always safe.
* After a reset four restarts can follow, exactly when the reset falls inside a restart delay:
  `RestartReach.FourRestartsExactlyWhen`, with a run in `RestartReach.ResetInsideDelayGivesFour`. More than four
  never follow: `RestartBudget.AtMostThreeAttemptsPerReset`.
* A process exit after a completed response is answered with a restart unless the Runner was stopped, because Reset
  clears the flag that the comment relies on (claude/claude.go:1042, 1171, 1258-1264):
  `ResponseStream.ExitAfterResultRestarts`.
* A new request that is set up while a result line is being handled makes that line send on the wrong
  channel; `ResponseStream.FinishIsSafeExactlyWhen` gives the exact condition,
  `ResponseStream.LateResultPanics` a run.
* After a timeout the answers shift: the answer to one request is used for a later one. How far is
  `PromptPipeline.AnswerSkew`, exactly when not `PromptPipeline.AnswerMatchesExactlyWhen`.
* A read deadline in the middle of a line loses what was read of it: `SocketServer.CutLineLosesItsBeginning`, and
  exactly when, `SocketServer.LinesArriveExactlyWhenWhole`.
* An API call whose first positive count comes without its id, or with the id in force, goes unnoticed and loses the
  count of the call before it: `TokenTotals.UnnoticedCallLosesTheOneBefore`. How far the shown total is off, for all
  calls, is `TokenTotals.TotalIsConserved`; exactly when it is right is `TokenTotals.CallsAddUpExactlyWhen`.
* The two streaming modes order text differently when it follows a tool in the same message, and only then:
  `Transcript.MessageModesAgreeExactlyWhen`, `Transcript.ModesAgreeExactlyWhen`.
* A call that was loading messages during Shutdown registers a runner after it, exactly when there is such a call:
  `RunnerRegistry.LateCallRegistersExactlyWhen`; which runners are left running is
  `RunnerRegistry.RunnersAfterShutdown`. SetRunner over an existing entry loses a running runner, and nothing else
  does: `RunnerRegistry.NothingIsLostExactlyWhen`.
* "always" adds the tool to the allow list even when the same answer denies the request
  (mcp/server.go:416-420), and every notification other than "initialized" gets a reply. A closed answer channel
  counts as an answer to the questions of AskUserQuestion (mcp/server.go:514-521).

## Model

| member | source | states |
|---|---|---|
| LifecycleSafety.StepKeepsInv | claude/process_manager.go:302-979 | every step of Start, Stop, monitorExit, handleExit, drainStderr and the watchdog keeps the invariant: the guarded fields describe the youngest process, older monitors are spent, locals name the channels of their own process, close counts match program counters |
| LifecycleSafety.InvIsClean | claude/process_manager.go:449-541 | under the invariant no close panics, waitDone, stderrDone and containerReady are closed at most once, and cmd.Wait is called once for each process whose monitor has begun |
| LifecycleSafety.LaunchKeepsInv | claude/process_manager.go:392-446 | a launch keeps the invariant when no earlier monitor, drain or Stop can still touch the fields |
| LifecycleSafety.StopKeepsInv | claude/process_manager.go:449-541 | every lock section and wait of Stop keeps the invariant, also when several Stops overlap |
| LifecycleSafety.MonitorKeepsInv | claude/process_manager.go:780-821 | every step of monitorExit, on natural exit and on cancellation, keeps the invariant; waitDone is closed once, after Wait |
| LifecycleSafety.HandleExitKeepsInv | claude/process_manager.go:824-979 | every section of handleExit keeps the invariant, including the restart it starts itself |
| LifecycleSafety.HelperKeepsInv | claude/process_manager.go:731-777 | drainStderr, the watchdog and the reader keep the invariant; stderrDone is closed once |
| StartCondition.DisciplinedRunKeepsInv | claude/process_manager.go:302-979 | the invariant holds over every run whose outside Starts are made where MayStart holds |
| StartCondition.EveryDisciplinedRunIsClean | claude/process_manager.go:780-821 | in every interleaving of exits, Stop, cancellation and restarts: each process is waited for once, each channel is closed at most once, nothing panics |
| StartCondition.OneSuccessfulStartIsDisciplined | claude/claude.go:751-803 | a caller that starts each ProcessManager successfully at most once, as ensureProcessRunning does, is always disciplined |
| StartCondition.StartIsHarmlessExactlyWhen | claude/process_manager.go:302-446 | a launching Start leaves every continuation clean if and only if a process is running or no monitor, drain or Stop is left that may still act; otherwise some continuation closes twice or waits not once |
| StartCondition.LeftoverHarms | claude/process_manager.go:824-857 | each kind of leftover (a pending restart, a monitor about to clean up, an unstarted drain, a Stop about to clear cmd) has a continuation that goes wrong |
| StartCondition.MayStartAfterStopReturned | claude/process_manager.go:528-541 | once all goroutines have returned and no Stop is in flight, Start is allowed again |
| StartCondition.BlockedStopCanPass | claude/process_manager.go:480-493 | a Stop that blocks on waitDone always has a monitor that can still close it |
| StartCondition.CancelledTestIsDead | claude/process_manager.go:839-841 | the test for a cancelled context in handleExit never succeeds |
| RestartBudget.StepSpendsBudget | claude/process_manager.go:824-979 | restart measure: in every step but a reset, attempts announced plus the budget left never grow, and each restart is paid for by an announcement |
| RestartBudget.AtMostThreeAttemptsPerReset | claude/process_manager.go:603-607 | under any interleaving the counter stays at most 3, at most 3 attempts are announced between resets, and at most one restart more follows (an attempt announced before the reset) |
| RestartBudget.AttemptsAreNumberedInOrder | claude/process_manager.go:910-979 | after one Start and without a reset the attempts are numbered 1, 2, 3 in order, each restart follows its announcement, and OnFatalError comes at most once and last |
| RestartBudget.CrashesAreRetriedThreeTimesThenReported | claude/process_manager.go:824-979 | a process that only crashes: exactly attempts 1, 2, 3 with a restart each, then one OnFatalError, and no further Start |
| RestartReach.RestartFollowsExactlyWhen | claude/process_manager.go:824-953 | in every state that a disciplined run can reach, a restart can follow without an outside Start if and only if the process still runs without a recorded startup timeout, or the youngest monitor is in its delay, about to store its attempt, or before that with tries left, not interrupted and no startup timeout recorded |
| RestartReach.InterruptedExitIsNotRestarted | claude/process_manager.go:836-869 | an exit that finds the interrupt flag set is never followed by a restart, and handling it clears the flag |
| RestartReach.StopPreventsRestartExactlyWhen | claude/process_manager.go:449-478 | a Stop prevents every later restart if and only if no restart is pending: the youngest monitor is not in its delay or on its way to it |
| RestartReach.StopInsideDelayIsOverrun | claude/process_manager.go:930-953 | a run with a crash, a Stop inside the restart delay and then the restart: the Stop is overrun |
| RestartReach.FinishedStopPreventsRestarts | claude/process_manager.go:528-541 | a Stop that found the process running and has returned prevents every later restart, whatever follows but an outside Start |
| RestartReach.HaltedForGood | claude/process_manager.go:825-829 | from a state in which no restart is possible, no run without an outside Start ever restarts |
| RestartReach.FourRestartsExactlyWhen | claude/process_manager.go:603-607 | with a counter of zero, four restarts can follow without another reset if and only if the youngest monitor is in its restart delay |
| RestartReach.ResetInsideDelayGivesFour | claude/process_manager.go:910-931 | a run with a crash, a reset inside the delay and then four restarts |
| LifecycleEffects.StepKeepsContexts | claude/process_manager.go:402-407 | every step keeps: the contexts cancelled are exactly those of earlier processes and, once a Stop came, the current one |
| LifecycleEffects.ContextsEndExactlyWhen | claude/process_manager.go:453-457 | a context ends in exactly two ways: a Stop ends every one there is, a launch those of earlier processes |
| LifecycleEffects.MonitorCancelsExactlyWhen | claude/process_manager.go:810-813 | a monitor in its select may take the context branch if and only if its process was stopped |
| LifecycleEffects.StopReleasesWaiters | claude/process_manager.go:453-457 | after any Stop every context is cancelled, every monitor in its select may take the context branch and every watching watchdog may quit |
| LifecycleEffects.StopWaitsForTheProcess | claude/process_manager.go:476-493 | a Stop that finds the process running waits on the channel of the youngest process |
| LifecycleEffects.StopPassesAfterTheExit | claude/process_manager.go:480-493 | it passes that wait only when the process has exited |
| LifecycleEffects.FinalizingMeansGone | claude/process_manager.go:528-531 | past its waits every process has exited and every goroutine has returned |
| LifecycleEffects.ReturningStopLeftNothing | claude/process_manager.go:416-443 | over every disciplined run, when such a Stop is about to return: each started process exited, was waited for, had its output read and its stderr drained, and in a container was watched |
| LifecycleEffects.RunKeepsEffects | claude/process_manager.go:302-979 | the invariants behind these statements hold over every disciplined run |
| LifecycleEffects.LaunchIsWatched | claude/process_manager.go:1283-1346 | a launched process has a watchdog exactly in a container; it can time out, and cannot quit before the session was started, the process cleaned up, or a Stop came |
| LifecycleEffects.QuitWatchdogIsGone | claude/process_manager.go:1311-1328 | a watchdog that has quit does nothing more |
| LifecycleEffects.StartedReleasesTheWatchdog | claude/process_manager.go:618-633 | MarkSessionStarted and the cleanup close the channel of the youngest process, whose watchdog may then quit |
| LifecycleEffects.FatalErrorsAreConserved | claude/process_manager.go:871-979 | over every run, disciplined or not: OnFatalError is called once for each startup timeout, each crash after the last attempt and each failed restart, or is about to be; a Stop, an interrupt and a refusal by the Runner cause none |
| StopReturns.EveryStopCanReturn | claude/process_manager.go:476-541 | from every state that a disciplined run can reach, every Stop in progress can return: no interleaving leaves one stuck |
| ProcessManager.ProcessManager.constructor | claude/process_manager.go:198-204 | a new manager is in the initial state, which satisfies the invariant |
| ProcessManager.Process.CloseWaitDone | claude/process_manager.go:804-819 | close is only called on an open channel |
| ProcessManager.CancelContext | claude/process_manager.go:402-404 | cancelling a context, idempotent, as the model's CancelCtx |
| ProcessManager.CloseReadyOnce | claude/process_manager.go:1268-1277 | the guarded close of containerReady never closes twice |
| ProcessManager.SignalWaitDone | claude/process_manager.go:804-819 | the unguarded close of waitDone, on an open channel |
| ProcessManager.SignalStderrDone | claude/process_manager.go:732-732 | the deferred close of stderrDone, on an open channel |
| ProcessManager.ProcessManager.Launch | claude/process_manager.go:392-446 | a successful start performs the model's Launch: old context cancelled, new channels and context, every pointer replaced |
| ProcessManager.ProcessManager.Start | claude/process_manager.go:302-446 | a call of Start is exactly the Start step: no effect when running, error when the command fails, else a launch; the invariant survives when MayStart held |
| ProcessManager.ProcessManager.StopEnter | claude/process_manager.go:449-478 | the first section of Stop is exactly the StopEnter step and hands out the channel to wait for |
| ProcessManager.ProcessManager.StopFinal | claude/process_manager.go:533-540 | the last section of Stop is exactly the StopFinal step |
| ProcessManager.ProcessManager.FetchProcess | claude/process_manager.go:781-784 | the first section of monitorExit reads the process and the channel of its own number |
| ProcessManager.ProcessManager.BeginDrain | claude/process_manager.go:731-732 | drainStderr remembers the channel it will close |
| ProcessManager.ProcessManager.ReportTimeout | claude/process_manager.go:1342-1346 | the watchdog records the timeout |
| ProcessManager.ProcessManager.CheckTimeout | claude/process_manager.go:871-876 | the third section of handleExit decides between failing and asking the Runner |
| ProcessManager.ProcessManager.WaitReturned | claude/process_manager.go:802-820 | both branches of monitorExit close waitDone while it is open and then move on, as in the model |
| ProcessManager.ProcessManager.StderrDrained | claude/process_manager.go:731-732 | drainStderr closes the channel it read while it is open |
| ProcessManager.ProcessManager.HandleExit | claude/process_manager.go:825-841 | the first section of handleExit is exactly the HandleExit step; its locals are what the later sections use |
| ProcessManager.ProcessManager.CleanupLocked | claude/process_manager.go:1250-1277 | cleanupLocked clears the four fields and closes containerReady if it is open |
| ProcessManager.ProcessManager.Cleanup | claude/process_manager.go:845-866 | the second section of handleExit is exactly the Cleanup step and decides between reporting and restarting |
| ProcessManager.ProcessManager.StoreAttempt | claude/process_manager.go:911-924 | storing the attempt writes the local copy plus one |
| ProcessManager.ProcessManager.Restart | claude/process_manager.go:930-953 | Start called after the delay is exactly the Restart step |
| ProcessManager.ProcessManager.MarkSessionStarted | claude/process_manager.go:618-633 | closes containerReady if it is open, exactly the model's step |
| ProcessManager.ProcessManager.ResetRestartAttempts | claude/process_manager.go:603-607 | sets the counter to zero and nothing else |
| ProcessManager.ProcessManager.SetInterrupted | claude/process_manager.go:589-593 | sets the flag and nothing else |
| ResponseStream.Runner.Setup | claude/runner_state.go:158-162 | a new request installs an open channel and resets the flags |
| ResponseStream.Runner.CloseResponseChannel | claude/runner_state.go:165-173 | closes the current channel at most once |
| ResponseStream.Runner.HandleRestartAttempt | claude/claude.go:1285-1304 | sends on the channel only while it is open |
| ResponseStream.Runner.HandleFatalError | claude/claude.go:1312-1330 | sends the final chunk and closes, once; the stream is inactive |
| ResponseStream.Runner.HandleProcessExit | claude/claude.go:1247-1282 | answers restart unless stopped or complete; then the stream is inactive |
| ResponseStream.Runner.FinishResult | claude/claude.go:1051-1173 | sends the chunks of the result in order, then the final one, on the channel that its line was read for, closes the current one and resets the flags; a closed current channel stops all of it; no send on a closed channel as long as the line's own channel is open |
| ResponseStream.FinishIsSafeExactlyWhen | claude/claude.go:1161-1174 | the result branch keeps all promises if and only if no request was set up since its line was read, or the current channel is closed |
| ResponseStream.NextKeepsInv | claude/claude.go:1247-1330 | every handler keeps: no panic, closed at most once, closed exactly when one final chunk was sent, nothing after it |
| ResponseStream.OrderedRunsAreSound | claude/runner_state.go:158-173 | over any number of requests and lines and in any order of the handlers, when no request is set up between reading a line and finishing it as a result: no send on a closed channel, at most one final chunk and one close per channel |
| ResponseStream.FinalChunkCloses | claude/claude.go:1312-1330 | after handleFatalError or the result branch the channel is closed once and the stream inactive |
| ResponseStream.ResultIsDelivered | claude/claude.go:1064-1161 | a result is delivered whole: its error text, denials and statistics exactly when it has them, once and in this order, then the end without failure |
| ResponseStream.EndIsTold | claude/claude.go:1312-1330 | only a result or a fatal error ends a response, and its final chunk reports a failure exactly for the fatal error; before that only the notice of a restart is sent |
| ResponseStream.SetupIsReady | claude/runner_state.go:158-162 | a new request starts with an open, empty channel and an active stream, whatever became of the one before |
| ResponseStream.ClosedStaysClosed | claude/runner_state.go:165-173 | until the next request nothing more is sent and the stream stays inactive, whatever handlers run |
| ResponseStream.RefusalMeansResultInProgress | claude/claude.go:1247-1264 | a Runner that is not stopped refuses a restart only while a line is between the two sections of the result branch |
| ResponseStream.ExitAfterResultRestarts | claude/claude.go:1168-1172 | right after a completed response an exit is refused a restart if and only if the Runner was stopped |
| ResponseStream.LateResultPanics | claude/claude.go:1040-1051 | a request set up inside the result branch: the branch sends on a closed channel |
| PromptShutdown.Runner.SendResponse | claude/claude.go:337-354 | an answer is stored exactly when the Runner runs, the pair exists and there is room; the channel is open |
| PromptShutdown.Runner.RequestChannel | claude/claude.go:326-333 | nil after Stop; else the channel of the pair, which is open |
| PromptShutdown.Runner.EnableTools | claude/claude.go:423-430 | SetSupervisor and SetHostTools make three pairs unless they exist |
| PromptShutdown.Runner.CloseAll | claude/runner_state.go:58-68 | closes every channel that a pair holds; none is closed twice |
| PromptShutdown.Runner.StopRunner | claude/claude.go:1667-1717 | the closing section of Stop; a second call changes nothing |
| PromptShutdown.ClosePairKeeps | mcp/channel_pair.go:27-39 | closing one pair closes its two open channels and loses or shares none |
| PromptShutdown.EveryInterleavingIsSafe | claude/claude.go:337-354 | in every interleaving of answers, new pairs, reads and Stop: no send on a closed channel, no second close, and a request channel handed out is open |
| PromptShutdown.StopClosesEverything | claude/runner_state.go:58-68 | the first Stop closes every channel there is exactly once and keeps what is buffered |
| PromptShutdown.StoppedForGood | claude/claude.go:1682-1708 | after Stop, for ever: no request channel is handed out, no answer is accepted, another Stop does nothing |
| PromptShutdown.LeftoversDrain | claude/claude.go:340-353 | after Stop a channel's buffer only ever loses its oldest answers |
| PromptShutdown.RequestChanExactlyWhen | claude/claude.go:326-333 | in every run a request channel is handed out if and only if its pair was made, by New or by the setter of its group, and no Stop has come |
| PromptShutdown.AnswerIsStoredExactlyWhen | claude/claude.go:337-354 | in every reachable state an answer is stored, and changes nothing else, if and only if its channel is available and empty |
| PromptShutdown.AnswersAreConserved | claude/claude.go:337-354 | over every run, Stop included: the answers that a channel took in are, in order, those taken out of it and those it still holds |
| PromptPipeline.RequestsAreConserved | mcp/channel_pair.go:181-198 | sent requests equal queued plus held plus answered plus consumed plus dropped, and drops never outnumber receive timeouts |
| PromptPipeline.AnswerSkew | mcp/server.go:404-427 | the answer received for request k belongs to request j with j = k minus the timeouts plus the answers dropped before j, so k - t <= j <= k |
| PromptPipeline.AnswerMatchesExactlyWhen | mcp/server.go:404-427 | the answer received belongs to the request waited for if and only if as many answers before it were dropped as waits timed out |
| PromptPipeline.WithoutDropsSkewIsTimeouts | mcp/channel_pair.go:204-221 | a responder that waits for room lags behind by exactly the number of timeouts |
| PromptPipeline.AnswersArriveInOrder | mcp/channel_pair.go:190-198 | answers reach the server in the order of their requests, each at most once |
| PromptPipeline.WithoutTimeoutsAnswersMatch | mcp/server.go:404-427 | without a timeout every answer belongs to the request it is used for and none is dropped |
| PromptPipeline.OneTimeoutShiftsTheAnswers | mcp/server.go:404-427 | one timeout makes the answer to request 1 the answer to request 2 |
| PromptPipeline.RunKeepsInv | claude/claude.go:337-354 | the queue, the held requests and the delivered answers stay consecutive over every run |
| McpServer.Server.IsToolAllowed | mcp/server.go:724-744 | true exactly when some entry is the wildcard, the tool, or a pattern for the tool |
| McpServer.Server.AddAllowedTool | mcp/server.go:781-789 | appends the tool unless it is listed |
| McpServer.Server.HandleAskUserQuestion | mcp/server.go:431-530 | allowed exactly when there is a well-formed question and the receive came back in time, be it from a closed channel |
| McpServer.Server.HandleExitPlanMode | mcp/server.go:533-606 | allowed exactly when an approving answer arrived in time |
| McpServer.Server.HandlePermissionToolCall | mcp/server.go:332-428 | one reply, decided by the gate of the tool and the outcome; the list grows only by an always answer |
| McpServer.Server.HandleChannelTool | mcp/server.go:609-708 | one result, an error unless the tool is available, complete and answered well in time |
| McpServer.Server.HandleToolsCall | mcp/server.go:303-330 | one reply to every tool call, an error for bad parameters and unknown tools |
| McpServer.Server.HandleRequest | mcp/server.go:161-176 | one reply to every method but initialized |
| McpServer.Server.Run | mcp/server.go:129-159 | the output over all lines is the concatenation of the replies, the allow list what the lines made of it |
| McpServer.OneReplyPerRequest | mcp/server.go:129-176 | the replies carry, in order, exactly the id of every request but initialized, and a null id for every malformed line (section 5 of the JSON-RPC 2.0 specification), whatever the channels do |
| McpServer.AllowListGrows | mcp/server.go:781-789 | over any run the list only grows, at its end |
| McpServer.AllowListOrigin | mcp/server.go:414-420 | a tool is listed if and only if it was listed at first or was answered always |
| McpServer.AlwaysIsRemembered | mcp/server.go:383-387 | after an always answer every later request for the tool is allowed without a prompt |
| McpServer.InteractiveToolsNeedAnAnswer | mcp/server.go:365-375 | AskUserQuestion is allowed exactly by a receive on its channel (an answer, or the zero value of a closed channel) and ExitPlanMode exactly by an approving answer, also with the wildcard listed |
| McpServer.PermissionsHaveAReason | mcp/server.go:377-427 | any other tool is allowed if and only if it is the server's own, matches an initial or always-answered entry, or was allowed by the user just now |
| McpServer.EntryGrantsExactly | mcp/server.go:727-744 | an entry other than the wildcard grants a tool if and only if the tool is what stands before the entry's first parenthesis |
| McpServer.EntriesNameOneTool | mcp/server.go:735-741 | the wildcard, the bare name and a pattern for it match a tool, and no other entry matches two tools |
| McpServer.OwnToolsAreThoseOffered | mcp/server.go:746-779 | the server approves its own tools, by their CLI names, exactly when it offers them |
| McpServer.NoOtherToolIsOwn | mcp/server.go:764-779 | whatever it approves as its own is the CLI name of an offered tool |
| McpServer.PromptsAreDecidedByTheUser | mcp/server.go:389-427 | a tool neither own nor listed is allowed exactly by an allowing answer, and remembered exactly by an always answer; a missing name stands for Operation |
| McpServer.OfferedToolsWork | mcp/server.go:609-708 | a supervisor or host call succeeds if and only if the tool is offered, connected, given the argument it needs, and answered well in time |
| McpServer.RepliesAreOfTheirKind | mcp/server.go:129-176 | which kind of reply each line gets, both ways, with the error codes of section 5.1 of the JSON-RPC 2.0 specification |
| McpServer.Server.HandleToolsList | mcp/server.go:195-301 | the permission tool and the tools of the enabled groups, in order |
| SocketServer.Connection.HandleMessage | mcp/socket.go:475-516 | one reply of the message's kind: a refusal without request, channel or answer, else the answer itself |
| SocketServer.Connection.HandleConnection | mcp/socket.go:346-473 | the replies written are those to the lines read before an error or the closing of the server; the texts decoded are the lines seen, which are the lines sent if and only if no deadline passed inside one |
| SocketServer.OneReplyPerMessage | mcp/socket.go:397-470 | every message gets exactly one reply, of its own kind and in its turn, and nothing else is written |
| SocketServer.GrantsComeFromAnswers | mcp/channel_pair.go:64-88 | whatever is granted was granted by an answer that arrived, whose id the reply carries |
| SocketServer.AnswersArePassedOn | mcp/socket.go:475-516 | the k-th reply belongs to the k-th message: an answer that arrives is passed on with its own id and grant, a timeout is refused under the request's id, and what cannot be asked, or finds its channel closed, without one |
| SocketServer.MessagesAreExactly | mcp/socket.go:390-399 | the messages, counted in order, are exactly the lines read that decode to one |
| SocketServer.ServedExactly | mcp/socket.go:352-388 | a connection is served up to the first error or the closing of the server, whichever comes first |
| SocketServer.LinesArriveExactlyWhenWhole | mcp/socket.go:374-395 | the server sees the lines that were sent if and only if no read deadline passed inside a line |
| SocketServer.CutLineLosesItsBeginning | mcp/socket.go:366-381 | a line that a deadline cuts in two arrives without its beginning |
| Transcript.StreamingState.WriteText | claude/claude.go:887-900 | keeps the flags true and writes what the flagless renderer writes |
| Transcript.StreamingState.WriteToolUse | claude/claude.go:901-917 | a tool line as the flagless renderer puts it; the flags become exact |
| Transcript.StreamingState.WriteToolLine | claude/claude.go:906-914 | the pieces written one by one make up the tool line |
| Transcript.StreamingState.HandleChunks | claude/claude.go:884-923 | for every chunk sequence the flag-driven builder and the renderer that inspects the real suffix give the same text |
| Transcript.StreamingState.Reset | claude/runner_state.go:100-113 | an empty text with all flags down |
| Transcript.TextIsSetOff | claude/claude.go:888-892 | text after a tool line is always set off by exactly one blank line |
| Transcript.ToolStandsAlone | claude/claude.go:901-914 | a tool line starts on a new line and ends in exactly one newline |
| Transcript.ToolUseIsShown | claude/claude.go:906-914 | a tool use adds exactly a bullet, the word for the tool, its name, and its input when there is one |
| Transcript.InputsAreTold | claude/claude.go:910-913 | two uses of one tool with different inputs leave different texts |
| Transcript.ChunksTellTheMessage | claude/parsing.go:190-234 | the chunks of a message tell every tool with its input, every todo list that was understood, and every text not streamed already, each in order, and nothing else |
| Transcript.ParseAssistant | claude/parsing.go:190-234 | the chunks of an assistant message, block by block, with text skipped when it was streamed |
| Transcript.PiecesMerge | claude/parsing.go:296-306 | however text is split into deltas, the page is as if it had come in one piece |
| Transcript.MessageSplits | claude/parsing.go:190-234 | a whole message is its text followed by what remains of it when text is skipped |
| Transcript.ModesAgree | claude/parsing.go:190-306 | both streaming modes build the same transcript from any page, for messages whose text precedes their tools |
| Transcript.MessageModesAgreeExactlyWhen | claude/parsing.go:190-306 | on any page that can arise, a message gives the same transcript in both modes if and only if no text is shown after a tool in it |
| Transcript.ModesAgreeExactlyWhen | claude/parsing.go:190-306 | over a whole session the transcripts agree after every message if and only if no message shows text after a tool |
| Transcript.LateTextDiffers | claude/claude.go:886-917 | text after a tool always changes the transcript, whatever the texts are |
| Transcript.TextAfterToolDiffers | claude/parsing.go:190-234 | a message of a tool and a text after it, on which the modes differ |
| Transcript.ImitationHidesTheDifference | claude/claude.go:886-917 | the difference may vanish with the next message, when a text imitates a tool line |
| TokenTotals.TokenTracking.Update | claude/claude.go:984-1005 | keeps the accumulator equal to the definition over all reports |
| TokenTotals.TokenTracking.TrackAll | claude/claude.go:1180-1232 | for every sequence of reports the total is the sum over id segments of their last positive counts |
| TokenTotals.TokenTracking.FinalTotal | claude/claude.go:1114-1119 | the fallback total is the accumulated count plus the larger of the last streamed and the reported count, so at least the last streamed total |
| TokenTotals.TokenTracking.Reset | claude/runner_state.go:130-137 | starts from zero |
| TokenTotals.TotalAfter | claude/runner_state.go:140-142 | how one more report changes the declared total |
| TokenTotals.TotalNeverShrinks | claude/claude.go:984-1005 | with non-decreasing counts in a segment the displayed total never decreases |
| TokenTotals.CallChangesTotal | claude/claude.go:1206-1224 | what one more call does to the total, after any reports and however it is reported: its own count is added, the last one is lost unless the call is noticed from its first positive count on, and the count before a late name stays |
| TokenTotals.TotalIsConserved | claude/claude.go:984-1005 | for all sequences of calls: the total plus what unnoticed calls overwrite equals what the calls used plus what late names count twice |
| TokenTotals.NothingOverwrittenExactlyWhen | claude/claude.go:1206-1224 | nothing is overwritten if and only if at most one call counts, or the first names itself and every later one does at once, under another id than the call before; then nothing is counted twice |
| TokenTotals.CallsAddUp | claude/claude.go:984-1005 | of the reports that reach the tracker, with or without repeated ids: the total is the sum of the calls' last positive counts when at most one call has a positive count, or the first names itself and each later one announces itself with its first positive count under another id than the one before |
| TokenTotals.CallsAddUpExactlyWhen | claude/claude.go:984-1005 | for calls in which no named count follows an unnamed one, assistant messages included: the total never exceeds that sum, and equals it if and only if at most one call has a positive count, or every such call comes with its id at once and under another id than the one before |
| TokenTotals.StreamedCallsAddUpExactlyWhen | claude/claude.go:1188-1224 | for calls reported as one named count and unnamed ones the condition is that every call with a positive count starts with one, under another id than the one before |
| TokenTotals.UnnoticedCallLosesTheOneBefore | claude/claude.go:1206-1224 | such a call that does not announce itself replaces the last count before it, which is lost |
| TokenTotals.ZeroStartLosesTheCallBefore | claude/claude.go:1206-1224 | after any reports, such a call whose first positive count comes without the id loses exactly the count of the call before; its message_start then carried a zero count or no id |
| TokenTotals.LateNameShiftsTheTotal | claude/claude.go:984-1005 | a call named only with its last count: the count before it is overwritten and its own earlier count stays, so the total can be too small, too large or right by accident |
| GitOperations.Operation.EnsureCommitted | git/commit.go:160-201 | true exactly when no reply blocked it, and then the worktree is clean or committed; else one failure is sent |
| GitOperations.Operation.CommitAll | git/commit.go:22-36 | stages, then commits; nothing is committed unstaged |
| GitOperations.Operation.FindMessage | git/commit.go:178-190 | blocked only when both ways to find a message fail |
| GitOperations.Operation.SyncWithRemote | git/merge.go:38-100 | true exactly when no reply blocked it, and then nothing known about the remote stands against merging |
| GitOperations.Operation.CatchUp | git/merge.go:60-93 | stops at a divergence, fast-forwards a lag |
| GitOperations.Operation.ReportMergeFailure | git/merge.go:136-162 | one failure, with the conflicted files that were reported |
| GitOperations.Operation.PrepareMerge | git/merge.go:338-370 | true exactly when a merge is permitted; else one failure was sent |
| GitOperations.Operation.MergeToMain | git/merge.go:105-170 | for every oracle: one Done result, the last; every command permitted where it is issued; success exactly when nothing blocked, exactly when merged; a merge that fails is followed by the question for its conflicts, which the final result names exactly, and no other run names any; on success the last command was the merge |
| GitOperations.Operation.SquashMergeToMain | git/merge.go:338-411 | the same for the squash merge and its commit; a merge that fails is followed by the question for its conflicts, which the final result names exactly, and no other run names any; on success the last command was the commit of the squash, right after it |
| GitOperations.Operation.MergeToParent | git/merge.go:178-232 | the same in the parent's worktree; a merge that fails is followed by the question for its conflicts, which the final result names exactly, and no other run names any; on success the last command was the merge |
| GitOperations.Operation.PushUpdates | git/merge.go:418-444 | the same for a push of a committed worktree |
| GitOperations.Operation.CreatePR | git/merge.go:250-333 | the same for a pull request on a pushed branch |
| GitOperations.Operation.RunGh | git/merge.go:276-310 | success exactly when the pull request was created |
| GitOperations.Operation.OfferTranscript | git/merge.go:312-326 | the transcript upload only adds progress and never fails the operation |
| GitOperations.FinishedHasOneDone | git/merge.go:26-32 | one Done result, the last; errors and conflicts come with no other |
| GitOperations.LawfulMeansPermitted | git/merge.go:105-170 | in a lawful run every command was permitted by what had been observed before it |
| GitOperations.MergesAreSafe | git/merge.go:38-140 | before every merge into the default branch: the worktree clean or committed, the checkout done, the origin asked for and fetched from; a failed fetch excused only by a missing remote branch, a successful one compared, no divergence, every lag fast-forwarded |
| GitOperations.PushesAreSafe | git/commit.go:160-201 | only a committed worktree is pushed; a pull request is asked for only after a push, and awaited only once asked for |
| GitOperations.OutcomeWasDone | git/merge.go:174-250 | whatever counts as squashed, merged, pushed or published was done by the commands that it takes, a squash merge with its commit |
| GitOperations.ClashedExactlyWhen | git/merge.go:136-139 | the watch knows of a clash exactly when some merge was answered with an error |
| GitOperations.CleanMeansCommitted | git/commit.go:160-201 | a worktree that counts as clean was reported clean or committed after staging |
| GitOperations.LagStays | git/merge.go:60-93 | a reported lag blocks merging until a fast-forward succeeds, a divergence for good |
| GitOperations.FetchIsCompared | git/merge.go:58-64 | after a successful fetch nothing more is known of the remote before the divergence was asked |
| RunnerRegistry.SessionManager.FastLookup | manager/session_manager.go:277-283 | the section under the read lock |
| RunnerRegistry.SessionManager.LookupOrCreate | manager/session_manager.go:306-320 | the section under the write lock: looks again, creates only when there is no entry |
| RunnerRegistry.SessionManager.SetRunner | manager/session_manager.go:529-533 | overwrites the entry |
| RunnerRegistry.SessionManager.DeleteSession | manager/session_manager.go:487-498 | removes the entry and stops its runner |
| RunnerRegistry.SessionManager.ShutdownAll | manager/session_manager.go:538-549 | stops every registered runner, in any order, and empties the map |
| RunnerRegistry.EveryRunIsLinear | manager/session_manager.go:273-320 | linearizability for any number of calls: each takes effect once, between its start and its answer, with the answer of an indivisible registry |
| RunnerRegistry.SameRunner | manager/session_manager.go:273-320 | two calls between which the entry was not ended get the same runner |
| RunnerRegistry.CallersShareTheRunner | manager/session_manager.go:273-320 | the same for any two callers in a run of the protocol |
| RunnerRegistry.FactoryRunsOnce | manager/session_manager.go:308-319 | between two runs of the factory for a session the entry was ended |
| RunnerRegistry.FactoryMakesNew | manager/session_manager.go:308-319 | what the factory makes was never known before, is running and registered, so no two sessions share it, as long as SetRunner is given runners of its caller's own or known ones |
| RunnerRegistry.NextCallerGetsANewRunner | manager/session_manager.go:487-498 | after a deletion or a shutdown the next caller for a session gets a new runner that is running |
| RunnerRegistry.AnsweredAtOnceExactlyWhen | manager/session_manager.go:273-283 | a call is answered at once if and only if its session is registered; any other loads and can always be answered |
| RunnerRegistry.NothingIsLostExactlyWhen | manager/session_manager.go:487-549 | every runner that leaves the map is stopped, except exactly when SetRunner overwrites its only entry |
| RunnerRegistry.ShutdownStopsAll | manager/session_manager.go:538-549 | after a shutdown every runner that was ever registered is stopped, if SetRunner abandoned none |
| RunnerRegistry.HistorySince | manager/session_manager.go:487-549 | since any moment, a runner became known exactly by being handed out or set, and stopped exactly by a deletion or shutdown that found it registered |
| RunnerRegistry.RunsAfterShutdownExactlyWhen | manager/session_manager.go:538-549 | a runner is left running after a shutdown if and only if it was not stopped by then, was handed out or set since, and was not stopped since |
| RunnerRegistry.RunnersAfterShutdown | manager/session_manager.go:273-320 | the same at the end of any run of the protocol |
| RunnerRegistry.LateCallRegistersExactlyWhen | manager/session_manager.go:285-320 | calls made before the shutdown register a runner after it if and only if one of them is still loading |
| RunnerRegistry.LateCallOutlivesShutdown | manager/session_manager.go:285-320 | a call that loads messages during the shutdown registers a running runner after it |
| LockOrder.EveryTraceFlows | claude/claude.go:827-1176 | the check of the lock order is sound: on whatever path the code takes, every operation is permitted by what is held and the end is as computed |
| LockOrder.HandleContainerReady | claude/claude.go:1333-1342 | reads under the Runner's read lock, then calls back; ends as it began |
| LockOrder.MarkSessionStarted | claude/process_manager.go:618-639 | the callback comes after the unlock; nothing is asked for out of order |
| LockOrder.HandleStreamEventTokens | claude/claude.go:1180-1244 | the send comes after the unlock |
| LockOrder.HandleChunks | claude/claude.go:884-940 | each chunk is written under the lock and sent after it |
| LockOrder.HandleResult | claude/claude.go:1040-1174 | MarkSessionStarted and ResetRestartAttempts are called between two sections |
| LockOrder.HandleProcessLine | claude/claude.go:827-1176 | its whole lock trace, with the calls inlined, keeps the order |
| LockOrder.ReadOutput | claude/process_manager.go:642-694 | the reading goroutine with handleProcessLine inlined keeps the order |
| LockOrder.DrainStderr | claude/process_manager.go:731-777 | keeps the order; the pipe is read with nothing held |
| LockOrder.RestartOrReport | claude/process_manager.go:859-978 | the rest of handleExit with its callbacks inlined keeps the order; the delay is outside |
| LockOrder.HandleExit | claude/process_manager.go:824-979 | keeps the order; stderr is awaited with nothing held |
| LockOrder.MonitorExit | claude/process_manager.go:780-821 | keeps the order; the process is awaited with nothing held |
| LockOrder.StartupWatchdog | claude/process_manager.go:1283-1350 | keeps the order |
| LockOrder.StopManager | claude/process_manager.go:449-541 | waits for the process and its goroutines with nothing held |
| LockOrder.CloseServer | mcp/socket.go:649-682 | the only wait under the Runner's lock is for the accept loop |
| LockOrder.StopRunner | claude/claude.go:1667-1717 | with the ProcessManager's Stop and the server's Close inlined keeps the order |
| LockOrder.EnsureServerRunning | claude/mcp_config.go:27-117 | keeps the order, also where the new server is closed again |
| LockOrder.EnsureProcessRunning | claude/claude.go:751-812 | IsRunning and one or two Starts inside the Runner's lock keep the order |
| LockOrder.WriteMessage | claude/process_manager.go:551-566 | the write to the pipe comes after the unlock |
| LockOrder.SendContent | claude/claude.go:1507-1616 | the goroutine with all its error paths keeps the order; its blocking sends hold nothing |
| LockOrder.Interrupt | claude/claude.go:1485-1499 | keeps the order |
| LockOrder.ConnectToContainer | claude/claude.go:1351-1461 | dials and serves the connection with nothing held |
| LockOrder.LocksAreOrdered | claude/claude.go:853-864 | for any number of threads that run any paths of these functions, in every reachable state, readers that overtake a waiting writer included: a holder of the ProcessManager's lock does nothing but release it, no holder does what may block for long, a writer is alone |
| LockOrder.BlockedMeansAnotherMoves | claude/claude.go:1040-1051 | whenever a thread is blocked on a lock, be it behind a writer that waits, or in the close of the server, another can go on at once, whichever writers wait: the waits form no cycle |
| LockOrder.RunKeepsInv | claude/claude.go:1226-1242 | order and mutual exclusion over every schedule, whether a reader goes before or after a writer that is about to lock |
| LockOrder.CallbackUnderLockDeadlocks | claude/claude.go:858-861 | calling the container callback under the ProcessManager's lock is refused by the check, and after a schedule of two threads each waits for the lock that the other holds |
| ToolRollup.SessionState.AddToolUse | manager/session_state.go:258-273 | appends an incomplete item |
| ToolRollup.SessionState.MarkToolUseComplete | manager/session_state.go:279-305 | completes the first item with the id, else the first incomplete one, and nothing else |
| ToolRollup.SessionState.FlushToolUseRollup | manager/session_state.go:309-349 | the items are rendered in order on new lines and the rollup is cleared |
| ToolRollup.SessionState.ReplaceToolUseMarker | manager/session_state.go:802-829 | replaces the marker only where it really stands |
| ToolRollup.ReplacementIsUndone | manager/session_state.go:802-829 | a replacement that happened is undone by the swapped call at the same position |
| ToolRollup.ReplacedExactly | manager/session_state.go:802-829 | exactly where the marker stands it gives way to the new one; everything before and after stays |
| ToolRollup.LineTells | manager/session_state.go:321-341 | a line begins with the marker of the item's state, tells the tool and its input, and ends with the summary exactly when the item is complete and has one |
| ToolRollup.ItemsInOrder | manager/session_state.go:321-341 | the lines of several items stand one after the other |
| ToolRollup.NewLineFirst | manager/session_state.go:316-319 | the text is completed to whole lines, by at most one line break, and nothing of it is lost |
| ToolRollup.MarkingIsMonotone | manager/session_state.go:279-305 | order and identity are kept, nothing becomes incomplete, one call completes at most one item |
| ToolRollup.HistoryKeepsItems | manager/session_state.go:279-305 | the same over any sequence of results |
| ToolRollup.UnknownResultsCompleteInOrder | manager/session_state.go:297-304 | k results without a known id complete exactly the first k incomplete items, or all |
| ToolRollup.KnownResultsCompleteTheirItems | manager/session_state.go:287-295 | results in any order that name all of n distinct ids complete all n items |
| HistoryTrim.CountLines | config/messages.go:210-221 | one more than the newlines, zero for the empty string |
| HistoryTrim.Trim | config/messages.go:36-49 | the loop keeps what is left when the oldest messages are forgotten until the rest fits |
| HistoryTrim.TrimmedIsLongest | config/messages.go:36-49 | the longest suffix within the limit, or the last message alone |
| HistoryTrim.KeptIsWithinTheLimit | config/messages.go:36-49 | in lines: as many of the newest messages as fit, but at least one |
| HistoryTrim.CountsTheLines | config/messages.go:210-221 | what is counted is the number of lines that the text splits into |
| HistoryTrim.SplitJoins | config/messages.go:210-221 | those lines hold no newline and joined by newlines give the text |
| HistoryTrim.TrimmingIsIncremental | config/messages.go:36-49 | trimming after every turn keeps what trimming once at the end keeps |
| HistoryTrim.TrimmingIsIdempotent | config/messages.go:36-49 | trimming twice changes nothing |
| BranchNames.CollapseLoop | git/branch.go:308-312 | the double-hyphen loop ends and collapses every run of hyphens to one |
| BranchNames.SanitizeBranchName | git/branch.go:291-322 | the steps of the function, with the loop replaced by its meaning |
| BranchNames.SanitizedIsNormalForm | git/branch.go:291-322 | output: a-z, 0-9 and single inner hyphens, at most 50; the fixed names are exactly those |
| BranchNames.SanitizingIsIdempotent | git/branch.go:291-322 | sanitizing twice changes nothing |
| BranchNames.SanitizingKeepsLetters | git/branch.go:291-322 | letters and digits survive in order, all of them unless truncated |
| BranchNames.SanitizedIsWords | git/branch.go:291-322 | the result is the words of the lower-cased name, joined by single hyphens and cut at 50 characters, or at 49 where that would leave a hyphen |
| BranchNames.CharacterClasses | git/branch.go:299-306 | the letters, digits and separators by their character codes |
| BranchNames.ValidExactlyWhen | session/session.go:41-67 | a non-empty name is valid if and only if it has at most 100 characters, all of them allowed, the first a letter or digit, no double dot and no .lock at its end |
| BranchNames.SanitizedNamesAreValid | session/session.go:41-67 | every sanitized name passes ValidateBranchName |
| BranchNames.SlugifyIsCollapse | issues/asana.go:146-154 | replacing runs of other characters is replacing single ones and collapsing hyphens |
| BranchNames.TaskSlugIsWords | issues/asana.go:146-163 | the slug is the words of the title, joined by hyphens and cut at 40 characters, or 39 |
| BranchNames.NoWordsNoSlug | issues/asana.go:165-170 | without words there is no slug, and the task's own id stands in for it |
| BranchNames.TaskBranchIsValid | issues/asana.go:150-170 | a task branch with a non-empty slug is valid, in normal form and at most 45 long |

## Left out

* The operating system and Docker: a process is an event that may happen, starting a command may fail, and pipes, arguments, credentials and port discovery are not modelled.
* JSON: messages are decoded already and encoding never fails. Strings are sequences of characters; where the code looks at bytes it only asks for newlines.
* Real time: every timeout may happen at any moment. The watchdog may fire at any moment, although its second select reads a timer that was consumed before (claude/process_manager.go:1311-1328); no theorem needs it to fire.
* The unlocked sends of sendChunkWithTimeout and the direct sends and closes in SendContent's error paths (claude/claude.go:1464-1476, 1528-1608), and prompt handlers that send on request channels after Stop.
* ResponseStream: whether a non-blocking send finds room in the 100-element buffer; the sends are recorded in the order in which they are made.
* ProcessManager: channel operations of one process are methods of one object for that process; stdin, stdout and log fields are left out.
* PromptShutdown.Runner.CloseAll: the nine calls of Close are a loop over the nine pairs.
* PromptPipeline: the responder answers in order and one pair is looked at; ForwardRequests (mcp/channel_pair.go:204-221) waits for room, which is the case without dropped answers.
* McpServer: descriptions, texts and displayed arguments; the questions of a prompt are kept as far as they are well formed or not.
* GitOperations: texts, paths and the outputs of the commands; a command that is itself several git calls (the status, the generated messages, the transcript) is one call of the oracle. The default branch is a parameter that the model does not need.
* LockOrder: system calls inside a section are taken to return; the locks of sessions, of the session manager and those inside the socket server are left out. The wait for the accept loop is modelled as a wait for its remaining turns.
* RunnerRegistry: the fork set-up after the runner is registered, configuration, and what Stop does to a runner.
* ToolRollup: the result details are represented by the summary they are shown as.
* BranchNames: ToLower is an abstract function on characters that fixes a-z, 0-9 and the hyphen and never gives A-Z. A task branch with an empty slug falls back to the task's own id, which the code does not validate.
* Configuration, paths, logging, issue trackers, GitHub queries, container authentication, the mock runner and display formatting would only add easy members.
