/**
 What the steps of the lifecycle achieve: which contexts a Stop or a launch cancels and whom that releases, what a
 Stop has waited for when it returns, who ends the startup watchdog, and what OnFatalError is called for.
 */
module LifecycleEffects {
  import opened Common
  import opened ProcessLifecycle
  import opened LifecycleSafety
  import opened RestartBudget

  // ---- Contexts ----

  /** Exactly the contexts of earlier processes, and after a Stop the current one, are cancelled. */
  ghost predicate ContextsOk(s: State) {
    && (s.runs != [] ==> s.pm.ctx == Some(|s.runs| - 1))
    && forall i | 0 <= i < |s.runs| :: s.runs[i].ctxCancelled <==> i < |s.runs| - 1 || s.pm.cancel.None?
  }

  lemma StopKeepsContexts(s: State, a: Action)
    requires Inv(s) && ContextsOk(s) && IsStopStep(a) && Next(s, a).Some?
    ensures ContextsOk(Next(s, a).value)
  {
  }

  lemma LaunchKeepsContexts(s: State, byRestart: bool)
    requires Inv(s) && ContextsOk(s)
    ensures ContextsOk(Launch(s, byRestart))
  {
  }

  /** A step that keeps the two fields and every context. */
  predicate SameContexts(s: State, s': State) {
    && |s'.runs| == |s.runs| && s'.pm.ctx == s.pm.ctx && s'.pm.cancel == s.pm.cancel
    && forall i | 0 <= i < |s.runs| :: s'.runs[i].ctxCancelled == s.runs[i].ctxCancelled
  }

  lemma MonitorSameContexts(s: State, a: Action)
    requires IsMonitorStep(a) && StepMonitor(s, a).Some?
    ensures SameContexts(s, StepMonitor(s, a).value)
  {
  }

  lemma DrainSameContexts(s: State, a: Action)
    requires a.DrainClose? && StepHelper(s, a).Some?
    ensures SameContexts(s, StepHelper(s, a).value)
  {
  }

  lemma HelperSameContexts(s: State, a: Action)
    requires IsHelperStep(a) && StepHelper(s, a).Some?
    ensures SameContexts(s, StepHelper(s, a).value)
  {
    if a.DrainClose? { DrainSameContexts(s, a); }
  }

  lemma CleanupSameContexts(s: State, i: nat)
    requires i < |s.runs| && DoCleanup(s, i).Some?
    ensures SameContexts(s, DoCleanup(s, i).value)
  {
  }

  lemma HandlerSameContexts(s: State, a: Action)
    requires IsHandleExitStep(a) && !a.Restart? && StepHandleExit(s, a).Some?
    ensures SameContexts(s, StepHandleExit(s, a).value)
  {
    hide DoCleanup;
    if a.Cleanup? { CleanupSameContexts(s, a.i); }
  }

  lemma RestartKeepsContexts(s: State, i: nat, ok: bool)
    requires Inv(s) && ContextsOk(s) && i < |s.runs| && DoRestart(s, i, ok).Some?
    ensures ContextsOk(DoRestart(s, i, ok).value)
  {
    LaunchKeepsContexts(s, true);
  }

  lemma StepKeepsContexts(s: State, a: Action)
    requires Inv(s) && ContextsOk(s) && Next(s, a).Some?
    ensures ContextsOk(Next(s, a).value)
  {
    hide Inv, StepStop, StepMonitor, StepHelper, Launch, DoRestart;
    if IsStopStep(a) { StopKeepsContexts(s, a); }
    else if IsMonitorStep(a) { MonitorSameContexts(s, a); }
    else if IsHelperStep(a) { HelperSameContexts(s, a); }
    else if a.Start? { LaunchKeepsContexts(s, false); }
    else if a.Restart? { RestartKeepsContexts(s, a.i, a.ok); }
    else if IsHandleExitStep(a) { HandlerSameContexts(s, a); }
  }

  /** A context ends in exactly two ways: a Stop ends every one there is, a launch those of earlier processes. */
  lemma ContextsEndExactlyWhen(s: State, a: Action, i: nat)
    requires Inv(s) && ContextsOk(s) && Next(s, a).Some? && i < |s.runs|
    ensures i < |Next(s, a).value.runs|
    ensures Next(s, a).value.runs[i].ctxCancelled
            <==> s.runs[i].ctxCancelled || a.StopEnter? || |Next(s, a).value.runs| > |s.runs|
  {
    hide Inv, StepMonitor, StepHelper, ContextsOk;
    StepKeepsContexts(s, a);
    if IsMonitorStep(a) { MonitorSameContexts(s, a); }
    else if IsHelperStep(a) { HelperSameContexts(s, a); }
    else if IsHandleExitStep(a) && !a.Restart? { HandlerSameContexts(s, a); }
    else { OthersEndContexts(s, a, i); }
  }

  lemma OthersEndContexts(s: State, a: Action, i: nat)
    requires ContextsOk(s) && Next(s, a).Some? && ContextsOk(Next(s, a).value) && i < |s.runs|
    requires !IsMonitorStep(a) && !IsHelperStep(a) && (IsHandleExitStep(a) ==> a.Restart?)
    ensures i < |Next(s, a).value.runs|
    ensures Next(s, a).value.runs[i].ctxCancelled
            <==> s.runs[i].ctxCancelled || a.StopEnter? || |Next(s, a).value.runs| > |s.runs|
  {
  }

  /** A monitor in its select may take the context branch if and only if its process was stopped. */
  lemma MonitorCancelsExactlyWhen(s: State, i: nat)
    requires Inv(s) && ContextsOk(s) && i < |s.runs| && s.runs[i].monitor.Selecting?
    ensures Next(s, MonitorCancel(i)).Some? <==> s.pm.cancel.None?
  {
    assert RunOk(s.runs[i], i);
    assert i == |s.runs| - 1;
  }

  /** A Stop cancels every context and releases whoever waits for one. */
  lemma StopReleasesWaiters(s: State, t: nat, i: nat)
    requires Inv(s) && ContextsOk(s) && t !in s.stops && i < |s.runs|
    ensures Next(s, StopEnter(t)).Some?
    ensures var s' := Next(s, StopEnter(t)).value;
            && s'.pm.cancel.None? && |s'.runs| == |s.runs| && s'.runs[i].ctxCancelled
            && (s'.runs[i].monitor.Selecting? ==> Next(s', MonitorCancel(i)).Some?)
            && (s'.runs[i].watchdog.Watching? ==> Next(s', WatchdogQuit(i)).Some?)
  {
    var s' := Next(s, StopEnter(t)).value;
    StepKeepsInv(s, StopEnter(t));
    StepKeepsContexts(s, StopEnter(t));
    if s'.runs[i].monitor.Selecting? { MonitorCancelsExactlyWhen(s', i); }
  }

  // ---- What a Stop has waited for ----

  /** waitDone is closed only after the process has exited. */
  ghost predicate ExitsOk(s: State) {
    forall i | 0 <= i < |s.runs| && s.runs[i].waitDoneCloses > 0 :: s.runs[i].exited
  }

  lemma FetchKeepsExits(s: State, a: Action)
    requires ExitsOk(s) && a.MonitorFetch? && StepMonitor(s, a).Some? && s.pm.cmd.Some? && s.pm.cmd.value < |s.runs|
    ensures ExitsOk(StepMonitor(s, a).value)
  {
  }

  lemma SelectKeepsExits(s: State, a: Action)
    requires ExitsOk(s) && (a.MonitorSelect? || a.MonitorCancel?) && StepMonitor(s, a).Some?
    ensures ExitsOk(StepMonitor(s, a).value)
  {
  }

  lemma WaitKeepsExits(s: State, a: Action)
    requires ExitsOk(s) && (a.MonitorDone? || a.MonitorConsume?) && StepMonitor(s, a).Some?
    requires LocalsOk(s.runs[a.i].monitor, a.i)
    ensures ExitsOk(StepMonitor(s, a).value)
  {
  }

  lemma MonitorKeepsExits(s: State, a: Action)
    requires Inv(s) && ExitsOk(s) && IsMonitorStep(a) && StepMonitor(s, a).Some?
    ensures ExitsOk(StepMonitor(s, a).value)
  {
    assert a.i < |s.runs| && RunOk(s.runs[a.i], a.i);
    assert a.MonitorFetch? ==> s.pm.cmd == Some(a.i);
    hide Inv, ExitsOk, StepMonitor;
    if a.MonitorFetch? { FetchKeepsExits(s, a); }
    else if a.MonitorDone? || a.MonitorConsume? { WaitKeepsExits(s, a); }
    else { SelectKeepsExits(s, a); }
  }

  lemma HelperKeepsExits(s: State, a: Action)
    requires ExitsOk(s) && IsHelperStep(a) && StepHelper(s, a).Some?
    ensures ExitsOk(StepHelper(s, a).value)
  {
  }

  lemma HandlerKeepsExits(s: State, a: Action)
    requires ExitsOk(s) && IsHandleExitStep(a) && !a.Restart? && StepHandleExit(s, a).Some?
    ensures ExitsOk(StepHandleExit(s, a).value)
  {
  }

  lemma RestartKeepsExits(s: State, i: nat, ok: bool)
    requires ExitsOk(s) && i < |s.runs| && DoRestart(s, i, ok).Some?
    ensures ExitsOk(DoRestart(s, i, ok).value)
  {
  }

  lemma OthersKeepExits(s: State, a: Action)
    requires ExitsOk(s) && !IsMonitorStep(a) && !IsHelperStep(a) && !IsHandleExitStep(a) && Next(s, a).Some?
    ensures ExitsOk(Next(s, a).value)
  {
  }

  lemma StepKeepsExits(s: State, a: Action)
    requires Inv(s) && ExitsOk(s) && Next(s, a).Some?
    ensures ExitsOk(Next(s, a).value)
  {
    hide Inv, ExitsOk, StepMonitor, StepHelper, StepStop, Launch, DoRestart;
    if IsMonitorStep(a) { MonitorKeepsExits(s, a); }
    else if IsHelperStep(a) { HelperKeepsExits(s, a); }
    else if a.Restart? { RestartKeepsExits(s, a.i, a.ok); }
    else if IsHandleExitStep(a) { HandlerKeepsExits(s, a); }
    else { OthersKeepExits(s, a); }
  }

  /** A Stop that finds the process running waits for the exit of that process, the youngest. */
  lemma StopWaitsForTheProcess(s: State, t: nat)
    requires Inv(s) && t !in s.stops && s.pm.running
    ensures s.runs != [] && Next(s, StopEnter(t)).Some?
    ensures Next(s, StopEnter(t)).value.stops == s.stops[t := Blocked(Some(|s.runs| - 1))]
  {
  }

  lemma StopPassesAfterTheExit(s: State, t: nat)
    requires Inv(s) && ExitsOk(s) && t in s.stops && s.stops[t].Blocked? && Next(s, StopPass(t)).Some?
    ensures var w := s.stops[t].waitDone; w.Some? && w.value < |s.runs| && s.runs[w.value].exited
  {
  }

  /** When a Stop is past its waits, every process has exited and every goroutine has returned. */
  lemma FinalizingMeansGone(s: State, t: nat, i: nat)
    requires Inv(s) && ExitsOk(s) && t in s.stops && s.stops[t].Finalizing? && i < |s.runs|
    ensures var r := s.runs[i];
            r.exited && r.monitor.Finished? && r.drain.Drained? && r.watchdog.Quit? && !r.reading
  {
    assert RunOk(s.runs[i], i);
  }

  // ---- The startup watchdog ----

  /** In a containerized session containerReady belongs to the youngest process. */
  ghost predicate ReadyOk(s: State) {
    && s.pm.containerReady == (if s.containerized && s.runs != [] then Some(|s.runs| - 1) else None)
    && forall i | 0 <= i < |s.runs| && s.runs[i].watchdog.Watching? ::
         s.runs[i].watchdog.ready.Some? && i <= s.runs[i].watchdog.ready.value < |s.runs|
  }

  /** A step that leaves containerReady and the watchdogs alone. */
  predicate SameWatch(s: State, s': State) {
    && |s'.runs| == |s.runs| && s'.pm.containerReady == s.pm.containerReady && s'.containerized == s.containerized
    && forall i | 0 <= i < |s.runs| :: s'.runs[i].watchdog == s.runs[i].watchdog
  }

  lemma MonitorSameWatch(s: State, a: Action)
    requires IsMonitorStep(a) && StepMonitor(s, a).Some?
    ensures SameWatch(s, StepMonitor(s, a).value)
  {
  }

  lemma HandlerSameWatch(s: State, a: Action)
    requires IsHandleExitStep(a) && !a.Restart? && StepHandleExit(s, a).Some?
    ensures SameWatch(s, StepHandleExit(s, a).value)
  {
  }

  lemma DrainSameWatch(s: State, a: Action)
    requires (a.DrainBegin? || a.DrainClose?) && StepHelper(s, a).Some?
    ensures SameWatch(s, StepHelper(s, a).value)
  {
  }

  lemma HelperKeepsReady(s: State, a: Action)
    requires ReadyOk(s) && IsHelperStep(a) && StepHelper(s, a).Some?
    ensures ReadyOk(StepHelper(s, a).value)
  {
    if a.DrainBegin? || a.DrainClose? { DrainSameWatch(s, a); }
  }

  lemma LaunchKeepsReady(s: State, byRestart: bool)
    requires ReadyOk(s)
    ensures ReadyOk(Launch(s, byRestart))
  {
  }

  lemma RestartKeepsReady(s: State, i: nat, ok: bool)
    requires ReadyOk(s) && i < |s.runs| && DoRestart(s, i, ok).Some?
    ensures ReadyOk(DoRestart(s, i, ok).value)
  {
    LaunchKeepsReady(s, true);
  }

  lemma OthersKeepReady(s: State, a: Action)
    requires ReadyOk(s) && !IsMonitorStep(a) && !IsHelperStep(a) && !IsHandleExitStep(a) && Next(s, a).Some?
    ensures ReadyOk(Next(s, a).value)
  {
  }

  lemma StepKeepsReady(s: State, a: Action)
    requires ReadyOk(s) && Next(s, a).Some?
    ensures ReadyOk(Next(s, a).value)
  {
    hide StepMonitor, StepHelper, StepStop, Launch, CloseReady, DoRestart;
    if IsMonitorStep(a) { MonitorSameWatch(s, a); }
    else if IsHelperStep(a) { HelperKeepsReady(s, a); }
    else if a.Restart? { RestartKeepsReady(s, a.i, a.ok); }
    else if IsHandleExitStep(a) { HandlerSameWatch(s, a); }
    else { OthersKeepReady(s, a); }
  }

  /**
   The watchdog of a process that was just launched in a container can time out, and it cannot quit before the session
   was started, the process cleaned up, or a Stop came; other processes have none.
   */
  lemma LaunchIsWatched(s: State, byRestart: bool)
    requires Inv(s) && ContextsOk(s) && ReadyOk(s)
    ensures var m, n := Launch(s, byRestart), |s.runs|;
            && (Next(m, WatchdogArm(n)).Some? <==> s.containerized)
            && (s.containerized ==>
                  && Next(Next(m, WatchdogArm(n)).value, WatchdogQuit(n)).None?
                  && Next(Next(m, WatchdogArm(n)).value, WatchdogFire(n)).Some?
                  && Next(Next(m, WatchdogArm(n)).value, WatchdogFire(n)).value.pm.containerTimeout)
  {
    hide Inv;
    LaunchKeepsContexts(s, byRestart);
  }

  /** A watchdog that has quit neither times out nor quits again. */
  lemma QuitWatchdogIsGone(s: State, i: nat)
    requires i < |s.runs| && s.runs[i].watchdog.Quit?
    ensures Next(s, WatchdogArm(i)).None? && Next(s, WatchdogQuit(i)).None? && Next(s, WatchdogFire(i)).None?
  {
  }

  /** Once the session was started, or the process cleaned up, the youngest process's watchdog may quit. */
  lemma StartedReleasesTheWatchdog(s: State, a: Action)
    requires ReadyOk(s) && s.runs != [] && (a.MarkSessionStarted? || a.Cleanup?) && Next(s, a).Some?
    ensures var s', n := Next(s, a).value, |s.runs| - 1;
            && (s.containerized ==> s'.runs[n].readyCloses > 0)
            && (s'.runs[n].watchdog.Watching? ==> s.containerized ==> Next(s', WatchdogQuit(n)).Some?)
  {
    StepKeepsReady(s, a);
  }

  // ---- What OnFatalError is called for ----

  function Fatals(log: seq<Event>): nat {
    if log == [] then 0 else Fatals(log[..|log| - 1]) + (if log[|log| - 1].Fatal? then 1 else 0)
  }

  /** The monitors that are about to call OnFatalError. */
  function Failing(runs: seq<Run>): nat {
    if runs == [] then 0 else Failing(runs[..|runs| - 1]) + (if runs[|runs| - 1].monitor.Failing? then 1 else 0)
  }

  /** The step meets a reason to give up: a startup timeout, a crash after the last attempt, a failed restart. */
  predicate GivesUp(s: State, a: Action) {
    || (a.CheckTimeout? && s.pm.containerTimeout)
    || (a.OnProcessExit? && a.restart && a.i < |s.runs| && s.runs[a.i].monitor.Callback?
        && s.runs[a.i].monitor.tries >= MAX_RESTART_ATTEMPTS)
    || (a.Restart? && !a.ok && !s.pm.running)
  }

  function Reasons(s: State, acts: seq<Action>): nat {
    if acts == [] then 0
    else
      var before := acts[..|acts| - 1];
      Reasons(s, before)
      + (if Exec(s, before).Some? && GivesUp(Exec(s, before).value, acts[|acts| - 1]) then 1 else 0)
  }

  predicate Fails(runs: seq<Run>, i: nat)
    requires i < |runs|
  {
    runs[i].monitor.Failing?
  }

  lemma {:induction false} FailingBut(runs: seq<Run>, runs': seq<Run>, k: nat)
    requires |runs| == |runs'|
    requires forall i | 0 <= i < |runs| && i != k :: runs'[i].monitor == runs[i].monitor
    ensures Failing(runs') == Failing(runs)
              + (if k < |runs| && Fails(runs', k) then 1 else 0) - (if k < |runs| && Fails(runs, k) then 1 else 0)
  {
    if runs != [] {
      var n := |runs| - 1;
      FailingBut(runs[..n], runs'[..n], k);
    }
  }

  lemma FatalsSnoc(log: seq<Event>, e: Event)
    ensures Fatals(log + [e]) == Fatals(log) + (if e.Fatal? then 1 else 0)
  {
    assert (log + [e])[..|log|] == log;
  }

  lemma FailingSnoc(runs: seq<Run>, r: Run)
    ensures Failing(runs + [r]) == Failing(runs) + (if r.monitor.Failing? then 1 else 0)
  {
    assert (runs + [r])[..|runs|] == runs;
  }

  /** Reports made and reports due, before and after a step that meets a reason or not. */
  predicate Balanced(s: State, s': State, reason: bool) {
    Fatals(s'.log) + Failing(s'.runs) == Fatals(s.log) + Failing(s.runs) + (if reason then 1 else 0)
  }

  /** What a step of handleExit by monitor i does, as far as reports are concerned. */
  predicate ReportMoves(s: State, s': State, a: Action)
    requires IsHandleExitStep(a)
  {
    && SameMonitorsBut(s, s', a.i) && a.i < |s.runs|
    && s'.log == (if Fails(s.runs, a.i) then s.log + [Fatal] else if a.StoreAttempt? then
                    s.log + [Attempt(s'.pm.restartAttempts)] else s.log)
    && (Fails(s.runs, a.i) ==> a.Report?)
    && (Fails(s'.runs, a.i) <==> GivesUp(s, a))
  }

  lemma HandlerReports(s: State, a: Action)
    requires IsHandleExitStep(a) && !a.Restart? && StepHandleExit(s, a).Some?
    ensures ReportMoves(s, StepHandleExit(s, a).value, a)
  {
    HandleExitMovesOne(s, a);
  }

  lemma MovesBalance(s: State, s': State, a: Action)
    requires IsHandleExitStep(a) && ReportMoves(s, s', a)
    ensures Balanced(s, s', GivesUp(s, a))
  {
    hide GivesUp;
    FailingBut(s.runs, s'.runs, a.i);
    FatalsSnoc(s.log, Fatal);
    FatalsSnoc(s.log, Attempt(s'.pm.restartAttempts));
  }

  lemma LaunchBalances(s: State, byRestart: bool)
    ensures Balanced(s, Launch(s, byRestart), false)
  {
    FatalsSnoc(s.log, Started(byRestart));
    FailingBut(s.runs, CancelCtx(s.runs, s.pm.cancel), |s.runs|);
    FailingSnoc(CancelCtx(s.runs, s.pm.cancel), FreshRun(s.containerized));
  }

  lemma LaunchKeepsMonitor(s: State, i: nat)
    requires i < |s.runs|
    ensures i < |Launch(s, true).runs| && Launch(s, true).runs[i].monitor == s.runs[i].monitor
  {
  }

  lemma MoveBalances(s: State, i: nat, pc: MonitorPc)
    requires i < |s.runs| && !Fails(s.runs, i)
    ensures Balanced(s, SetMonitor(s, i, pc), pc.Failing?)
  {
    FailingBut(s.runs, SetMonitor(s, i, pc).runs, i);
  }

  lemma RestartBalances(s: State, i: nat, ok: bool)
    requires i < |s.runs| && DoRestart(s, i, ok).Some?
    ensures Balanced(s, DoRestart(s, i, ok).value, !ok && !s.pm.running)
  {
    hide Launch, SetMonitor;
    if s.pm.running || !ok {
      MoveBalances(s, i, if s.pm.running then Finished else MonitorPc.Failing);
    } else {
      LaunchBalances(s, true);
      LaunchKeepsMonitor(s, i);
      MoveBalances(Launch(s, true), i, Finished);
    }
  }

  lemma QuietBalances(s: State, s': State, k: nat)
    requires s'.log == s.log && SameMonitorsBut(s, s', k)
    requires k < |s.runs| ==> !Fails(s.runs, k) && !Fails(s'.runs, k)
    ensures Balanced(s, s', false)
  {
    FailingBut(s.runs, s'.runs, k);
  }

  lemma MonitorNeverFails(s: State, a: Action)
    requires IsMonitorStep(a) && StepMonitor(s, a).Some?
    ensures !Fails(s.runs, a.i) && a.i < |StepMonitor(s, a).value.runs| && !Fails(StepMonitor(s, a).value.runs, a.i)
  {
  }

  lemma QuietStepBalances(s: State, a: Action)
    requires (IsMonitorStep(a) || IsHelperStep(a) || IsStopStep(a)) && Next(s, a).Some?
    ensures Balanced(s, Next(s, a).value, false)
  {
    hide Balanced, StepMonitor, StepHelper, StepStop, SameMonitorsBut;
    var s' := Next(s, a).value;
    if IsMonitorStep(a) {
      MonitorStepIsNeutral(s, a);
      MonitorStepMovesOne(s, a);
      MonitorNeverFails(s, a);
      QuietBalances(s, s', a.i);
    } else if IsHelperStep(a) {
      HelperStepIsNeutral(s, a);
      HelperKeepsMonitors(s, a);
      QuietBalances(s, s', |s.runs|);
    } else {
      StopStepIsNeutral(s, a);
      StopKeepsMonitors(s, a);
      QuietBalances(s, s', |s.runs|);
    }
  }

  lemma StepBalances(s: State, a: Action)
    requires Next(s, a).Some?
    ensures Balanced(s, Next(s, a).value, GivesUp(s, a))
  {
    hide Balanced, StepMonitor, StepHelper, StepStop, Launch, DoRestart, CloseReady, SameMonitorsBut;
    var s' := Next(s, a).value;
    if IsMonitorStep(a) || IsHelperStep(a) || IsStopStep(a) {
      QuietStepBalances(s, a);
    } else if a.Restart? {
      RestartBalances(s, a.i, a.ok);
    } else if IsHandleExitStep(a) {
      HandlerReports(s, a);
      MovesBalance(s, s', a);
    } else {
      OthersBalance(s, a);
    }
  }

  lemma OthersBalance(s: State, a: Action)
    requires a.Start? || a.MarkSessionStarted? || a.ResetRestartAttempts? || a.SetInterrupted?
    requires Next(s, a).Some?
    ensures Balanced(s, Next(s, a).value, false)
  {
    hide Launch;
    if a.Start? {
      LaunchBalances(s, false);
    } else {
      ReadyKeepsMonitors(s);
      FailingBut(s.runs, Next(s, a).value.runs, |s.runs|);
    }
  }

  lemma ReadyKeepsMonitors(s: State)
    ensures var runs := CloseReady(s.runs, s.pm.containerReady);
            forall i | 0 <= i < |s.runs| :: runs[i].monitor == s.runs[i].monitor
  {
  }

  /**
   Over every run, disciplined or not: OnFatalError is called exactly once for each reason to give up, except for the
   reasons whose monitor is still about to call it; a Stop, an interrupt or a refusal by the Runner is no reason.
   */
  lemma {:induction false} FatalErrorsAreConserved(containerized: bool, acts: seq<Action>)
    requires Exec(Init(containerized), acts).Some?
    ensures var s := Exec(Init(containerized), acts).value;
            Fatals(s.log) + Failing(s.runs) == Reasons(Init(containerized), acts)
  {
    if acts != [] {
      hide Next, GivesUp;
      FatalErrorsAreConserved(containerized, acts[..|acts| - 1]);
      StepBalances(Exec(Init(containerized), acts[..|acts| - 1]).value, acts[|acts| - 1]);
    }
  }

  // ---- Whole runs ----

  ghost predicate EffectsOk(s: State) {
    Inv(s) && ContextsOk(s) && ExitsOk(s) && ReadyOk(s)
  }

  lemma {:induction false} RunKeepsEffects(containerized: bool, acts: seq<Action>)
    requires Exec(Init(containerized), acts).Some? && Disciplined(Init(containerized), acts)
    ensures EffectsOk(Exec(Init(containerized), acts).value)
  {
    hide Next, MayStart;
    if acts != [] {
      var n := |acts| - 1;
      DisciplinedPrefix(Init(containerized), acts, n);
      RunKeepsEffects(containerized, acts[..n]);
      var m := Exec(Init(containerized), acts[..n]).value;
      hide Inv, ContextsOk, ExitsOk, ReadyOk;
      StepKeepsInv(m, acts[n]);
      StepKeepsContexts(m, acts[n]);
      StepKeepsExits(m, acts[n]);
      StepKeepsReady(m, acts[n]);
    }
  }

  /** What was done by or for process i, an event of the run each. */
  predicate Happened(containerized: bool, r: Run, i: nat, acts: seq<Action>) {
    && (r.exited ==> ProcessExit(i) in acts)
    && (!r.reading ==> ReaderExit(i) in acts)
    && (r.drain.Drained? ==> DrainClose(i) in acts)
    && (!r.monitor.Fetch? ==> MonitorFetch(i) in acts)
    && (containerized && !r.watchdog.Arming? ==> WatchdogArm(i) in acts)
  }

  predicate RecordMoved(r: Run, r': Run, i: nat, a: Action) {
    && (r'.exited ==> r.exited || a == ProcessExit(i))
    && (!r'.reading ==> !r.reading || a == ReaderExit(i))
    && (r'.drain.Drained? ==> r.drain.Drained? || a == DrainClose(i))
    && (!r'.monitor.Fetch? ==> !r.monitor.Fetch? || a == MonitorFetch(i))
    && (!r'.watchdog.Arming? ==> !r.watchdog.Arming? || a == WatchdogArm(i))
  }

  /** A step does to record i only what its own action says; a new record starts afresh. */
  predicate Moved(s: State, s': State, a: Action) {
    && |s.runs| <= |s'.runs| && s'.containerized == s.containerized
    && (forall i | 0 <= i < |s.runs| :: RecordMoved(s.runs[i], s'.runs[i], i, a))
    && (forall i | |s.runs| <= i < |s'.runs| :: Happened(s.containerized, s'.runs[i], i, []))
  }

  lemma FetchMoves(s: State, a: Action)
    requires a.MonitorFetch? && StepMonitor(s, a).Some?
    ensures Moved(s, StepMonitor(s, a).value, a)
  {
  }

  lemma SelectMoves(s: State, a: Action)
    requires (a.MonitorSelect? || a.MonitorCancel?) && StepMonitor(s, a).Some?
    ensures Moved(s, StepMonitor(s, a).value, a)
  {
  }

  lemma WaitMoves(s: State, a: Action)
    requires (a.MonitorDone? || a.MonitorConsume?) && StepMonitor(s, a).Some?
    ensures Moved(s, StepMonitor(s, a).value, a)
  {
  }

  lemma MonitorMoves(s: State, a: Action)
    requires IsMonitorStep(a) && StepMonitor(s, a).Some?
    ensures Moved(s, StepMonitor(s, a).value, a)
  {
    hide Moved, StepMonitor;
    if a.MonitorFetch? { FetchMoves(s, a); }
    else if a.MonitorDone? || a.MonitorConsume? { WaitMoves(s, a); }
    else { SelectMoves(s, a); }
  }

  lemma DrainMoves(s: State, a: Action)
    requires a.DrainClose? && StepHelper(s, a).Some?
    ensures Moved(s, StepHelper(s, a).value, a)
  {
  }

  lemma HelperMoves(s: State, a: Action)
    requires IsHelperStep(a) && StepHelper(s, a).Some?
    ensures Moved(s, StepHelper(s, a).value, a)
  {
    if a.DrainClose? { DrainMoves(s, a); }
  }

  lemma CleanupMoved(s: State, i: nat)
    requires i < |s.runs| && DoCleanup(s, i).Some?
    ensures Moved(s, DoCleanup(s, i).value, Cleanup(i))
  {
  }

  lemma PcMoved(s: State, s': State, i: nat, a: Action)
    requires i < |s.runs| == |s'.runs| && !s.runs[i].monitor.Fetch? && s'.containerized == s.containerized
    requires s'.runs == s.runs[i := s.runs[i].(monitor := s'.runs[i].monitor)]
    ensures Moved(s, s', a)
  {
  }

  lemma ExitMoves(s: State, a: Action)
    requires IsHandleExitStep(a) && !a.Restart? && StepHandleExit(s, a).Some?
    ensures Moved(s, StepHandleExit(s, a).value, a)
  {
    hide Moved, DoCleanup;
    if a.Cleanup? { CleanupMoved(s, a.i); } else { PcMoved(s, StepHandleExit(s, a).value, a.i, a); }
  }

  lemma LaunchMoved(s: State, byRestart: bool, a: Action)
    ensures Moved(s, Launch(s, byRestart), a)
  {
  }

  lemma RestartLaunchMoves(s: State, i: nat, ok: bool)
    requires i < |s.runs| && DoRestart(s, i, ok).Some?
    ensures Moved(s, DoRestart(s, i, ok).value, Restart(i, ok))
  {
    hide Launch;
    LaunchMoved(s, true, Restart(i, ok));
  }

  lemma OthersMove(s: State, a: Action)
    requires !IsMonitorStep(a) && !IsHelperStep(a) && !IsHandleExitStep(a) && Next(s, a).Some?
    ensures Moved(s, Next(s, a).value, a)
  {
    hide Launch;
    LaunchMoved(s, false, a);
  }

  lemma StepMoves(s: State, a: Action)
    requires Next(s, a).Some?
    ensures Moved(s, Next(s, a).value, a)
  {
    hide Moved, StepMonitor, StepHelper, StepStop, Launch, DoRestart;
    if IsMonitorStep(a) { MonitorMoves(s, a); }
    else if IsHelperStep(a) { HelperMoves(s, a); }
    else if a.Restart? { RestartLaunchMoves(s, a.i, a.ok); }
    else if IsHandleExitStep(a) { ExitMoves(s, a); }
    else { OthersMove(s, a); }
  }

  lemma {:induction false} EverythingHappened(containerized: bool, acts: seq<Action>)
    requires Exec(Init(containerized), acts).Some?
    ensures var s := Exec(Init(containerized), acts).value;
            s.containerized == containerized
            && forall i | 0 <= i < |s.runs| :: Happened(containerized, s.runs[i], i, acts)
  {
    if acts != [] {
      hide Next;
      var n := |acts| - 1;
      EverythingHappened(containerized, acts[..n]);
      StepMoves(Exec(Init(containerized), acts[..n]).value, acts[n]);
      assert acts == acts[..n] + [acts[n]];
    }
  }

  /**
   In every disciplined run, when a Stop that found the process running is about to return: every process that was
   ever started has exited, was waited for, had its output read to the end and its stderr drained, and in a container
   its watchdog has come and gone.
   */
  lemma ReturningStopLeftNothing(containerized: bool, acts: seq<Action>, t: nat, i: nat)
    requires Exec(Init(containerized), acts).Some? && Disciplined(Init(containerized), acts)
    requires var s := Exec(Init(containerized), acts).value;
             t in s.stops && s.stops[t].Finalizing? && i < |s.runs|
    ensures ProcessExit(i) in acts && MonitorFetch(i) in acts && ReaderExit(i) in acts && DrainClose(i) in acts
    ensures containerized ==> WatchdogArm(i) in acts
  {
    RunKeepsEffects(containerized, acts);
    EverythingHappened(containerized, acts);
    hide Exec, ContextsOk, ReadyOk;
    FinalizingMeansGone(Exec(Init(containerized), acts).value, t, i);
  }
}
