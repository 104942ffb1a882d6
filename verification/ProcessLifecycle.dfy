/**
 The life of a supervised process as a transition system. Every lock section and every channel
 operation of Start, Stop, monitorExit, handleExit, drainStderr, the startup watchdog,
 MarkSessionStarted, ResetRestartAttempts and SetInterrupted is one atomic step, and any number of
 threads interleave. A started process is numbered by the order of starts; the channels and the
 context that Start creates carry the number of the process they were created for.
 */
module ProcessLifecycle {
  import opened Common

  const MAX_RESTART_ATTEMPTS := 3

  /** Program counter of one monitorExit goroutine, with the locals that are live at that point. */
  datatype MonitorPc =
    | Fetch                                                            // about to read cmd and waitDone
    | Waiting(cmd: nat, waitDone: Option<nat>)                         // Wait called, select not evaluated
    | Selecting(cmd: nat, waitDone: Option<nat>, ctx: Option<nat>)     // blocked in the select
    | Cancelled(waitCmd: nat, closing: Option<nat>)                    // context branch, consuming Wait
    | Enter                                                            // about to enter handleExit
    | Draining(interrupted: bool, cancelled: bool, attempts: nat, stderrDone: Option<nat>)
    | Decide(tries: nat)                                               // about to read containerTimeout
    | Callback(tries: nat)                                             // inside OnProcessExit
    | Bump(tries: nat)                                                 // about to store the counter
    | Delay                                                            // sleeping before Start
    | Reporting                                                        // telling the Runner, no restart
    | Failing                                                          // about to call OnFatalError
    | Finished

  datatype DrainPc = Begin | Reading(channel: Option<nat>) | Drained

  datatype WatchdogPc = Arming | Watching(ready: Option<nat>) | Quit

  datatype StopPc = Blocked(waitDone: Option<nat>) | Joining | Finalizing

  datatype Event = Started(byRestart: bool) | Attempt(number: nat) | Fatal

  /** The fields guarded by the ProcessManager's mutex. */
  datatype Fields = Fields(
    cmd: Option<nat>, waitDone: Option<nat>, stderrDone: Option<nat>,
    running: bool, interrupted: bool, restartAttempts: nat,
    ctx: Option<nat>, cancel: Option<nat>,
    containerReady: Option<nat>, containerTimeout: bool)

  /** One started process: its goroutines, its context and how often each of its channels was closed. */
  datatype Run = Run(
    monitor: MonitorPc, drain: DrainPc, watchdog: WatchdogPc, reading: bool,
    exited: bool, ctxCancelled: bool,
    waits: nat, waitDoneCloses: nat, stderrDoneCloses: nat, readyCloses: nat)

  /** log is history only: no step reads it. */
  datatype State = State(
    containerized: bool, pm: Fields, runs: seq<Run>, stops: map<nat, StopPc>,
    panicked: bool, log: seq<Event>)

  datatype Action =
    | Start(ok: bool)
    | StopEnter(t: nat) | StopPass(t: nat) | StopJoined(t: nat) | StopFinal(t: nat)
    | ProcessExit(i: nat)
    | MonitorFetch(i: nat) | MonitorSelect(i: nat) | MonitorDone(i: nat) | MonitorCancel(i: nat)
    | MonitorConsume(i: nat) | HandleExit(i: nat) | Cleanup(i: nat) | CheckTimeout(i: nat)
    | OnProcessExit(i: nat, restart: bool) | StoreAttempt(i: nat) | Restart(i: nat, ok: bool)
    | Report(i: nat)
    | DrainBegin(i: nat) | DrainClose(i: nat)
    | WatchdogArm(i: nat) | WatchdogQuit(i: nat) | WatchdogFire(i: nat)
    | ReaderExit(i: nat)
    | MarkSessionStarted | ResetRestartAttempts | SetInterrupted(value: bool)

  const NO_FIELDS := Fields(None, None, None, false, false, 0, None, None, None, false)

  function Init(containerized: bool): State {
    State(containerized, NO_FIELDS, [], map[], false, [])
  }

  // ---- The lock sections as functions of the guarded fields ----

  /** What a successful Start stores for process n (claude/process_manager.go:392-413). */
  function StartFields(f: Fields, containerized: bool, n: nat): Fields {
    f.(cmd := Some(n), waitDone := Some(n), stderrDone := Some(n), running := true,
       ctx := Some(n), cancel := Some(n),
       containerReady := if containerized then Some(n) else f.containerReady,
       containerTimeout := if containerized then false else f.containerTimeout)
  }

  /** The first lock section of Stop; running only changes when it was set. */
  function StopFields(f: Fields): Fields {
    f.(cancel := None, running := false)
  }

  /** The assignments of cleanupLocked. */
  function CleanupFields(f: Fields): Fields {
    f.(cmd := None, waitDone := None, stderrDone := None, running := false)
  }

  // ---- Channels and contexts ----

  function CancelCtx(runs: seq<Run>, c: Option<nat>): (r: seq<Run>)
    ensures |r| == |runs|
  {
    if c.Some? && c.value < |runs| then runs[c.value := runs[c.value].(ctxCancelled := true)] else runs
  }

  function CloseWaitDone(runs: seq<Run>, c: Option<nat>): (r: seq<Run>)
    ensures |r| == |runs|
  {
    if c.Some? && c.value < |runs|
    then runs[c.value := runs[c.value].(waitDoneCloses := runs[c.value].waitDoneCloses + 1)]
    else runs
  }

  /** close(containerReady) guarded by a non-blocking receive: a closed channel is left alone. */
  function CloseReady(runs: seq<Run>, c: Option<nat>): (r: seq<Run>)
    ensures |r| == |runs|
  {
    if c.Some? && c.value < |runs| && runs[c.value].readyCloses == 0
    then runs[c.value := runs[c.value].(readyCloses := 1)]
    else runs
  }

  predicate WaitDoneClosed(runs: seq<Run>, c: Option<nat>) {
    c.Some? && c.value < |runs| && runs[c.value].waitDoneCloses > 0
  }

  predicate StderrClosed(runs: seq<Run>, c: Option<nat>) {
    c.Some? && c.value < |runs| && runs[c.value].stderrDoneCloses > 0
  }

  predicate ReadyClosed(runs: seq<Run>, c: Option<nat>) {
    c.Some? && c.value < |runs| && runs[c.value].readyCloses > 0
  }

  predicate CtxDone(runs: seq<Run>, c: Option<nat>) {
    c.Some? && c.value < |runs| && runs[c.value].ctxCancelled
  }

  /** The WaitGroup counter is zero: every goroutine that Start launched has returned. */
  predicate AllQuiet(runs: seq<Run>) {
    forall i | 0 <= i < |runs| ::
      runs[i].monitor.Finished? && runs[i].drain.Drained? && runs[i].watchdog.Quit? && !runs[i].reading
  }

  // ---- Steps ----

  function SetMonitor(s: State, i: nat, pc: MonitorPc): State
    requires i < |s.runs|
  {
    s.(runs := s.runs[i := s.runs[i].(monitor := pc)])
  }

  function FreshRun(containerized: bool): Run {
    Run(Fetch, Begin, if containerized then Arming else Quit, true, false, false, 0, 0, 0, 0)
  }

  /** The part of Start after cmd.Start succeeded: new channels and context, goroutines launched. */
  function Launch(s: State, byRestart: bool): State {
    s.(pm := StartFields(s.pm, s.containerized, |s.runs|),
       runs := CancelCtx(s.runs, s.pm.cancel) + [FreshRun(s.containerized)],
       log := s.log + [Started(byRestart)])
  }

  predicate IsStopStep(a: Action) {
    a.StopEnter? || a.StopPass? || a.StopJoined? || a.StopFinal?
  }

  predicate IsMonitorStep(a: Action) {
    a.MonitorFetch? || a.MonitorSelect? || a.MonitorDone? || a.MonitorCancel? || a.MonitorConsume?
  }

  predicate IsHandleExitStep(a: Action) {
    a.HandleExit? || a.Cleanup? || a.CheckTimeout? || a.OnProcessExit? || a.StoreAttempt? || a.Restart? || a.Report?
  }

  predicate IsHelperStep(a: Action) {
    a.DrainBegin? || a.DrainClose? || a.WatchdogArm? || a.WatchdogQuit? || a.WatchdogFire? || a.ReaderExit?
    || a.ProcessExit?
  }

  function StepStop(s: State, a: Action): Option<State>
    requires IsStopStep(a)
  {
    match a
    case StopEnter(t) =>
      if t in s.stops then None
      else
        var s' := s.(runs := CancelCtx(s.runs, s.pm.cancel), pm := StopFields(s.pm));
        if !s.pm.running then Some(s')
        else Some(s'.(stops := s.stops[t := if s.pm.cmd.Some? && s.pm.waitDone.Some?
                                            then Blocked(s.pm.waitDone) else Joining]))
    case StopPass(t) =>
      if t in s.stops && s.stops[t].Blocked? && WaitDoneClosed(s.runs, s.stops[t].waitDone)
      then Some(s.(stops := s.stops[t := Joining])) else None
    case StopJoined(t) =>
      if t in s.stops && s.stops[t].Joining? && AllQuiet(s.runs)
      then Some(s.(stops := s.stops[t := Finalizing])) else None
    case StopFinal(t) =>
      if t in s.stops && s.stops[t].Finalizing?
      then Some(s.(stops := s.stops - {t}, pm := s.pm.(cmd := None))) else None
  }

  /** monitorExit up to and including the close of waitDone. */
  function StepMonitor(s: State, a: Action): Option<State>
    requires IsMonitorStep(a)
  {
    if a.i >= |s.runs| then None
    else
      var i, pc := a.i, s.runs[a.i].monitor;
      match a
      case MonitorFetch(_) =>
        if !pc.Fetch? then None
        else if s.pm.cmd.None? || s.pm.cmd.value >= |s.runs| then
          Some(SetMonitor(s.(runs := CloseWaitDone(s.runs, s.pm.waitDone)), i, Finished))
        else
          var c := s.pm.cmd.value;
          Some(SetMonitor(s.(runs := s.runs[c := s.runs[c].(waits := s.runs[c].waits + 1)]),
                          i, Waiting(c, s.pm.waitDone)))
      case MonitorSelect(_) =>
        if !pc.Waiting? then None else Some(SetMonitor(s, i, Selecting(pc.cmd, pc.waitDone, s.pm.ctx)))
      case MonitorDone(_) =>
        if pc.Selecting? && pc.cmd < |s.runs| && s.runs[pc.cmd].exited
        then Some(SetMonitor(s.(runs := CloseWaitDone(s.runs, pc.waitDone)), i, Enter)) else None
      case MonitorCancel(_) =>
        if pc.Selecting? && CtxDone(s.runs, pc.ctx)
        then Some(SetMonitor(s, i, Cancelled(pc.cmd, pc.waitDone))) else None
      case MonitorConsume(_) =>
        if pc.Cancelled? && pc.waitCmd < |s.runs| && s.runs[pc.waitCmd].exited
        then Some(SetMonitor(s.(runs := CloseWaitDone(s.runs, pc.closing)), i, Finished)) else None
  }

  /** handleExit, first lock section. */
  function DoHandleExit(s: State, i: nat): Option<State>
    requires i < |s.runs|
  {
    if !s.runs[i].monitor.Enter? then None
    else if !s.pm.running then Some(SetMonitor(s, i, Finished))
    else Some(SetMonitor(s.(pm := s.pm.(interrupted := false)), i,
                         Draining(s.pm.interrupted, CtxDone(s.runs, s.pm.ctx),
                                  s.pm.restartAttempts, s.pm.stderrDone)))
  }

  /** handleExit after stderr was drained: cleanupLocked, then the test for an interrupt or a Stop. */
  function DoCleanup(s: State, i: nat): Option<State>
    requires i < |s.runs|
  {
    var pc := s.runs[i].monitor;
    if pc.Draining? && (pc.stderrDone.None? || StderrClosed(s.runs, pc.stderrDone))
    then Some(SetMonitor(s.(pm := CleanupFields(s.pm), runs := CloseReady(s.runs, s.pm.containerReady)),
                         i, if pc.interrupted || pc.cancelled then Reporting else Decide(pc.attempts)))
    else None
  }

  function DoCheckTimeout(s: State, i: nat): Option<State>
    requires i < |s.runs|
  {
    var pc := s.runs[i].monitor;
    if !pc.Decide? then None
    else Some(SetMonitor(s, i, if s.pm.containerTimeout then Failing else Callback(pc.tries)))
  }

  /** The Runner answers OnProcessExit; the attempt limit is then tested on the local copy. */
  function DoOnProcessExit(s: State, i: nat, restart: bool): Option<State>
    requires i < |s.runs|
  {
    var pc := s.runs[i].monitor;
    if !pc.Callback? then None
    else Some(SetMonitor(s, i, if !restart then Finished
                               else if pc.tries < MAX_RESTART_ATTEMPTS then Bump(pc.tries)
                               else Failing))
  }

  function DoStoreAttempt(s: State, i: nat): Option<State>
    requires i < |s.runs|
  {
    var pc := s.runs[i].monitor;
    if !pc.Bump? then None
    else Some(SetMonitor(s.(pm := s.pm.(restartAttempts := pc.tries + 1),
                            log := s.log + [Attempt(pc.tries + 1)]), i, Delay))
  }

  /** Start called by handleExit after the restart delay. */
  function DoRestart(s: State, i: nat, ok: bool): Option<State>
    requires i < |s.runs|
  {
    if !s.runs[i].monitor.Delay? then None
    else if s.pm.running then Some(SetMonitor(s, i, Finished))
    else if !ok then Some(SetMonitor(s, i, Failing))
    else Some(SetMonitor(Launch(s, true), i, Finished))
  }

  function DoReport(s: State, i: nat): Option<State>
    requires i < |s.runs|
  {
    var pc := s.runs[i].monitor;
    if pc.Reporting? then Some(SetMonitor(s, i, Finished))
    else if pc.Failing? then Some(SetMonitor(s.(log := s.log + [Fatal]), i, Finished))
    else None
  }

  /** handleExit. */
  function StepHandleExit(s: State, a: Action): Option<State>
    requires IsHandleExitStep(a)
  {
    if a.i >= |s.runs| then None
    else
      match a
      case HandleExit(i) => DoHandleExit(s, i)
      case Cleanup(i) => DoCleanup(s, i)
      case CheckTimeout(i) => DoCheckTimeout(s, i)
      case OnProcessExit(i, restart) => DoOnProcessExit(s, i, restart)
      case StoreAttempt(i) => DoStoreAttempt(s, i)
      case Restart(i, ok) => DoRestart(s, i, ok)
      case Report(i) => DoReport(s, i)
  }

  /** drainStderr, the watchdog, readOutput and the exit of the operating-system process. */
  function StepHelper(s: State, a: Action): Option<State>
    requires IsHelperStep(a)
  {
    if a.i >= |s.runs| then None
    else
      var i, r := a.i, s.runs[a.i];
      match a
      case DrainBegin(_) =>
        if r.drain.Begin? then Some(s.(runs := s.runs[i := r.(drain := Reading(s.pm.stderrDone))])) else None
      case DrainClose(_) =>
        if !r.drain.Reading? then None
        else if r.drain.channel.None? || r.drain.channel.value >= |s.runs| then
          Some(s.(runs := s.runs[i := r.(drain := Drained)], panicked := true))
        else
          var c := r.drain.channel.value;
          var runs' := s.runs[c := s.runs[c].(stderrDoneCloses := s.runs[c].stderrDoneCloses + 1)];
          Some(s.(runs := runs'[i := runs'[i].(drain := Drained)]))
      case WatchdogArm(_) =>
        if r.watchdog.Arming?
        then Some(s.(runs := s.runs[i := r.(watchdog := if s.pm.containerReady.None? then Quit
                                                        else Watching(s.pm.containerReady))]))
        else None
      case WatchdogQuit(_) =>
        if r.watchdog.Watching? && (ReadyClosed(s.runs, r.watchdog.ready) || CtxDone(s.runs, s.pm.ctx))
        then Some(s.(runs := s.runs[i := r.(watchdog := Quit)])) else None
      case WatchdogFire(_) =>
        if r.watchdog.Watching?
        then Some(s.(pm := s.pm.(containerTimeout := true), runs := s.runs[i := r.(watchdog := Quit)])) else None
      case ReaderExit(_) => Some(s.(runs := s.runs[i := r.(reading := false)]))
      case ProcessExit(_) => Some(s.(runs := s.runs[i := r.(exited := true)]))
  }

  /** One atomic step; None when the step is not enabled. */
  function Next(s: State, a: Action): Option<State> {
    if IsStopStep(a) then StepStop(s, a)
    else if IsMonitorStep(a) then StepMonitor(s, a)
    else if IsHandleExitStep(a) then StepHandleExit(s, a)
    else if IsHelperStep(a) then StepHelper(s, a)
    else
      match a
      case Start(ok) => if s.pm.running || !ok then Some(s) else Some(Launch(s, false))
      case MarkSessionStarted => Some(s.(runs := CloseReady(s.runs, s.pm.containerReady)))
      case ResetRestartAttempts => Some(s.(pm := s.pm.(restartAttempts := 0)))
      case SetInterrupted(b) => Some(s.(pm := s.pm.(interrupted := b)))
  }

  /** The state after the steps acts, None when one of them was not enabled. */
  function Exec(s: State, acts: seq<Action>): Option<State> {
    if acts == [] then Some(s)
    else
      var before := Exec(s, acts[..|acts| - 1]);
      if before.None? then None else Next(before.value, acts[|acts| - 1])
  }
}
