/**
 How often a crashed process is restarted: the numbering of the attempts, the final report, and the
 budget that holds under any interleaving with ResetRestartAttempts.
 */
module RestartBudget {
  import opened Common
  import opened ProcessLifecycle
  import opened LifecycleSafety

  // ---- The budget between two resets ----

  function Attempts(log: seq<Event>): nat {
    if log == [] then 0
    else Attempts(log[..|log| - 1]) + (if log[|log| - 1].Attempt? then 1 else 0)
  }

  function Restarts(log: seq<Event>): nat {
    if log == [] then 0
    else Restarts(log[..|log| - 1]) + (if log[|log| - 1] == Started(true) then 1 else 0)
  }

  function Left(n: nat): nat {
    if n <= MAX_RESTART_ATTEMPTS then MAX_RESTART_ATTEMPTS - n else 0
  }

  /** The counter value that handleExit took with it before it stores a new one. */
  function Carried(pc: MonitorPc): Option<nat> {
    match pc
    case Draining(_, _, n, _) => Some(n)
    case Decide(n) => Some(n)
    case Callback(n) => Some(n)
    case Bump(n) => Some(n)
    case _ => None
  }

  function Youngest(s: State): MonitorPc {
    if s.runs == [] then Finished else s.runs[|s.runs| - 1].monitor
  }

  /** Attempts that may still be announced before the next reset. */
  function Budget(s: State): nat {
    var carried := Carried(Youngest(s));
    if carried.Some? && Left(carried.value) > Left(s.pm.restartAttempts) then Left(carried.value)
    else Left(s.pm.restartAttempts)
  }

  /** One announced attempt whose Start has not been called yet. */
  function Announced(s: State): nat {
    if Youngest(s).Delay? then 1 else 0
  }

  predicate Spends(s: State, s': State) {
    && Attempts(s'.log) + Budget(s') <= Attempts(s.log) + Budget(s)
    && Restarts(s'.log) + Announced(s') + Attempts(s.log) <= Restarts(s.log) + Announced(s) + Attempts(s'.log)
  }

  predicate Neutral(s: State, s': State) {
    && s'.log == s.log && s'.pm.restartAttempts == s.pm.restartAttempts
    && Carried(Youngest(s')) == Carried(Youngest(s)) && Announced(s') == Announced(s)
  }

  lemma StopStepIsNeutral(s: State, a: Action)
    requires IsStopStep(a) && Next(s, a).Some?
    ensures Neutral(s, Next(s, a).value)
  {
  }

  lemma HelperStepIsNeutral(s: State, a: Action)
    requires IsHelperStep(a) && Next(s, a).Some?
    ensures Neutral(s, Next(s, a).value)
  {
    var s' := Next(s, a).value;
    assert |s'.runs| == |s.runs|;
    assert s'.runs[|s.runs| - 1].monitor == s.runs[|s.runs| - 1].monitor;
  }

  lemma MonitorStepIsNeutral(s: State, a: Action)
    requires IsMonitorStep(a) && Next(s, a).Some?
    ensures Neutral(s, Next(s, a).value)
  {
  }

  lemma LogGrows(log: seq<Event>, e: Event)
    ensures Attempts(log + [e]) == Attempts(log) + (if e.Attempt? then 1 else 0)
    ensures Restarts(log + [e]) == Restarts(log) + (if e == Started(true) then 1 else 0)
  {
    assert (log + [e])[..|log|] == log;
  }

  lemma OlderHandlerIsNeutral(s: State, a: Action)
    requires IsHandleExitStep(a) && !a.Restart? && !a.Cleanup? && StepHandleExit(s, a).Some?
    requires a.i < |s.runs| - 1 && Spent(s.runs[a.i].monitor)
    ensures var s' := StepHandleExit(s, a).value;
            s'.pm.restartAttempts == s.pm.restartAttempts && Youngest(s') == Youngest(s)
            && (s'.log == s.log || s'.log == s.log + [Fatal])
  {
  }

  /** What a step of handleExit by the youngest monitor does to the counter, the log and its locals. */
  predicate HandlerMoves(s: State, s': State) {
    var pc, pc' := Youngest(s), Youngest(s');
    && !pc.Delay?
    && (if pc.Bump? then
          pc.tries < MAX_RESTART_ATTEMPTS && pc'.Delay? && s'.pm.restartAttempts == pc.tries + 1
          && s'.log == s.log + [Attempt(pc.tries + 1)]
        else
          && s'.pm.restartAttempts == s.pm.restartAttempts && !pc'.Delay?
          && s'.log == (if pc.Failing? then s.log + [Fatal] else s.log)
          && (pc.Failing? ==> pc'.Finished?) && !pc.Finished?
          && (Carried(pc').Some? ==> Carried(pc') == if pc.Enter? then Some(s.pm.restartAttempts) else Carried(pc)))
  }

  lemma CleanupMoves(s: State, i: nat)
    requires i == |s.runs| - 1 && DoCleanup(s, i).Some?
    ensures HandlerMoves(s, DoCleanup(s, i).value)
  {
  }

  lemma EntryMoves(s: State, i: nat)
    requires i == |s.runs| - 1 && DoHandleExit(s, i).Some?
    ensures HandlerMoves(s, DoHandleExit(s, i).value)
  {
  }

  lemma DecisionMoves(s: State, a: Action)
    requires (a.CheckTimeout? || a.OnProcessExit?) && StepHandleExit(s, a).Some? && a.i == |s.runs| - 1
    ensures HandlerMoves(s, StepHandleExit(s, a).value)
  {
  }

  lemma LogMoves(s: State, a: Action)
    requires (a.StoreAttempt? || a.Report?) && StepHandleExit(s, a).Some? && a.i == |s.runs| - 1
    requires LocalsOk(s.runs[a.i].monitor, a.i)
    ensures HandlerMoves(s, StepHandleExit(s, a).value)
  {
  }

  lemma YoungestHandlerMoves(s: State, a: Action)
    requires IsHandleExitStep(a) && !a.Restart? && StepHandleExit(s, a).Some?
    requires a.i == |s.runs| - 1 && LocalsOk(s.runs[a.i].monitor, a.i)
    ensures HandlerMoves(s, StepHandleExit(s, a).value)
  {
    hide HandlerMoves, DoHandleExit, DoCleanup, DoCheckTimeout, DoOnProcessExit, DoStoreAttempt, DoReport;
    match a
    case HandleExit(i) => EntryMoves(s, i);
    case Cleanup(i) => CleanupMoves(s, i);
    case CheckTimeout(_) => DecisionMoves(s, a);
    case OnProcessExit(_, _) => DecisionMoves(s, a);
    case _ => LogMoves(s, a);
  }

  lemma MovesSpend(s: State, s': State)
    requires HandlerMoves(s, s')
    ensures Spends(s, s')
  {
    LogGrows(s.log, Fatal);
    if Youngest(s).Bump? { LogGrows(s.log, Attempt(Youngest(s).tries + 1)); }
  }

  /** What Start after the restart delay does to the counter, the log and the youngest monitor. */
  predicate RestartMoves(s: State, s': State) {
    && Youngest(s).Delay? && s'.pm.restartAttempts == s.pm.restartAttempts
    && Carried(Youngest(s')).None? && !Youngest(s').Delay?
    && (s'.log == s.log || s'.log == s.log + [Started(true)])
  }

  lemma YoungestRestartMoves(s: State, i: nat, ok: bool)
    requires i == |s.runs| - 1 && DoRestart(s, i, ok).Some?
    ensures RestartMoves(s, DoRestart(s, i, ok).value)
  {
  }

  lemma RestartSpends(s: State, s': State)
    requires RestartMoves(s, s')
    ensures Spends(s, s')
  {
    LogGrows(s.log, Started(true));
  }

  lemma ReportSpends(s: State, s': State)
    requires s'.pm.restartAttempts == s.pm.restartAttempts && Youngest(s') == Youngest(s)
    requires s'.log == s.log || s'.log == s.log + [Fatal]
    ensures Spends(s, s')
  {
    LogGrows(s.log, Fatal);
  }

  lemma HandleExitSpends(s: State, a: Action)
    requires Inv(s) && IsHandleExitStep(a) && StepHandleExit(s, a).Some?
    ensures Spends(s, StepHandleExit(s, a).value)
  {
    assert RunOk(s.runs[a.i], a.i);
    assert a.i < |s.runs| - 1 ==> Spent(s.runs[a.i].monitor);
    hide Inv, Spends, HandlerMoves, RestartMoves;
    if a.Restart? {
      YoungestRestartMoves(s, a.i, a.ok);
      RestartSpends(s, DoRestart(s, a.i, a.ok).value);
    } else if a.i == |s.runs| - 1 {
      YoungestHandlerMoves(s, a);
      MovesSpend(s, StepHandleExit(s, a).value);
    } else {
      OlderHandlerIsNeutral(s, a);
      ReportSpends(s, StepHandleExit(s, a).value);
    }
  }

  lemma NeutralSpends(s: State, s': State)
    requires Neutral(s, s')
    ensures Spends(s, s')
  {
  }

  /** What a Start from outside does to the counter, the log and the youngest monitor. */
  predicate StartMoves(s: State, s': State) {
    && s'.pm.restartAttempts == s.pm.restartAttempts && s'.log == s.log + [Started(false)]
    && Carried(Youngest(s')).None? && !Youngest(s').Delay?
  }

  lemma LaunchMoves(s: State)
    ensures StartMoves(s, Launch(s, false))
  {
  }

  lemma StartMoveSpends(s: State, s': State)
    requires StartMoves(s, s')
    ensures Spends(s, s')
  {
    LogGrows(s.log, Started(false));
  }

  lemma StartSpends(s: State)
    ensures Spends(s, Launch(s, false))
  {
    hide StartMoves, Spends, Launch;
    LaunchMoves(s);
    StartMoveSpends(s, Launch(s, false));
  }

  lemma StepSpendsBudget(s: State, a: Action)
    requires Inv(s) && Next(s, a).Some? && !a.ResetRestartAttempts?
    ensures Spends(s, Next(s, a).value)
  {
    hide StepHandleExit, StepMonitor, StepStop, StepHelper, Spends, Launch;
    var s' := Next(s, a).value;
    if IsHandleExitStep(a) { HandleExitSpends(s, a); }
    else if a.Start? { StartSpends(s); NeutralSpends(s, s); }
    else {
      if IsMonitorStep(a) { MonitorStepIsNeutral(s, a); }
      else if IsStopStep(a) { StopStepIsNeutral(s, a); }
      else if IsHelperStep(a) { HelperStepIsNeutral(s, a); }
      NeutralSpends(s, s');
    }
  }

  lemma {:induction false} BudgetOverRun(s: State, acts: seq<Action>)
    requires Inv(s) && Exec(s, acts).Some? && Disciplined(s, acts)
    requires forall a | a in acts :: !a.ResetRestartAttempts?
    ensures var s' := Exec(s, acts).value;
            Inv(s') && Spends(s, s')
  {
    if acts != [] {
      var n := |acts| - 1;
      DisciplinedPrefix(s, acts, n);
      BudgetOverRun(s, acts[..n]);
      var m := Exec(s, acts[..n]).value;
      assert acts[n] in acts;
      StepSpendsBudget(m, acts[n]);
      StepKeepsInv(m, acts[n]);
    }
  }

  /**
   In any stretch without a reset, from any state a disciplined run can reach and under any
   interleaving, at most three restart attempts are announced; one more Start can follow, when the
   stretch begins inside the restart delay of an attempt announced before.
   */
  lemma {:induction false} AtMostThreeAttemptsPerReset(s: State, acts: seq<Action>)
    requires Inv(s) && Exec(s, acts).Some? && Disciplined(s, acts)
    requires forall a | a in acts :: !a.ResetRestartAttempts?
    ensures var s' := Exec(s, acts).value;
            && s'.pm.restartAttempts <= MAX_RESTART_ATTEMPTS
            && Attempts(s'.log) <= Attempts(s.log) + MAX_RESTART_ATTEMPTS
            && Restarts(s'.log) <= Restarts(s.log) + MAX_RESTART_ATTEMPTS + Announced(s)
  {
    BudgetOverRun(s, acts);
  }

  // ---- The story of one start ----

  /** One start and n restarts, each announced under its number. */
  function Story(n: nat): seq<Event> {
    if n == 0 then [Started(false)] else Story(n - 1) + [Attempt(n), Started(true)]
  }

  /** The story up to the announcement of attempt n, whose Start has not succeeded. */
  function Announcing(n: nat): seq<Event>
    requires n > 0
  {
    Story(n - 1) + [Attempt(n)]
  }

  /** The log tells the story that fits the state of the youngest monitor. */
  predicate Told(log: seq<Event>, n: nat, pc: MonitorPc) {
    if pc.Delay? then n > 0 && log == Announcing(n)
    else if pc.Failing? then log == Story(n) || (n > 0 && log == Announcing(n))
    else if pc.Finished? then
      log == Story(n) || log == Story(n) + [Fatal] || (n > 0 && log == Announcing(n) + [Fatal])
    else log == Story(n) && (Carried(pc).Some? ==> Carried(pc).value == n)
  }

  ghost predicate TellsStory(s: State) {
    && |s.runs| > 0
    && (forall i | 0 <= i < |s.runs| - 1 :: s.runs[i].monitor.Finished?)
    && Told(s.log, s.pm.restartAttempts, Youngest(s))
  }

  predicate SameMonitorsBut(s: State, s': State, k: nat) {
    && |s'.runs| == |s.runs|
    && forall i | 0 <= i < |s.runs| && i != k :: s'.runs[i].monitor == s.runs[i].monitor
  }

  lemma StopKeepsMonitors(s: State, a: Action)
    requires IsStopStep(a) && Next(s, a).Some?
    ensures SameMonitorsBut(s, Next(s, a).value, |s.runs|)
  {
  }

  lemma HelperKeepsMonitors(s: State, a: Action)
    requires IsHelperStep(a) && Next(s, a).Some?
    ensures SameMonitorsBut(s, Next(s, a).value, |s.runs|)
  {
    if a.DrainClose? { DrainKeepsMonitors(s, a); }
  }

  lemma DrainKeepsMonitors(s: State, a: Action)
    requires a.DrainClose? && StepHelper(s, a).Some?
    ensures SameMonitorsBut(s, StepHelper(s, a).value, |s.runs|)
  {
  }

  lemma MonitorStepMovesOne(s: State, a: Action)
    requires IsMonitorStep(a) && Next(s, a).Some?
    ensures SameMonitorsBut(s, Next(s, a).value, a.i) && !s.runs[a.i].monitor.Finished?
  {
  }

  lemma HandleExitMovesOne(s: State, a: Action)
    requires IsHandleExitStep(a) && !a.Restart? && StepHandleExit(s, a).Some?
    ensures SameMonitorsBut(s, StepHandleExit(s, a).value, a.i) && !s.runs[a.i].monitor.Finished?
  {
  }

  /** The select of the youngest monitor neither logs nor counts; it may end the monitor without a report. */
  lemma SelectKeepsStory(s: State, a: Action)
    requires Inv(s) && TellsStory(s) && IsMonitorStep(a) && Next(s, a).Some?
    ensures TellsStory(Next(s, a).value)
  {
    MonitorStepIsNeutral(s, a);
    MonitorStepMovesOne(s, a);
    assert RunOk(s.runs[a.i], a.i);
    var s' := Next(s, a).value;
    assert !Youngest(s).Failing? && !Youngest(s').Failing? && !Youngest(s').Delay?;
  }

  lemma RestartContinuesStory(s: State, i: nat, ok: bool)
    requires i == |s.runs| - 1 && !s.pm.running && TellsStory(s) && DoRestart(s, i, ok).Some?
    ensures TellsStory(DoRestart(s, i, ok).value)
  {
    var n := s.pm.restartAttempts;
    if ok { assert Announcing(n) + [Started(true)] == Story(n); }
  }

  lemma MovesContinueStory(s: State, s': State)
    requires TellsStory(s) && HandlerMoves(s, s') && SameMonitorsBut(s, s', |s.runs| - 1)
    ensures TellsStory(s')
  {
  }

  lemma HandleExitContinuesStory(s: State, a: Action)
    requires Inv(s) && TellsStory(s) && IsHandleExitStep(a) && StepHandleExit(s, a).Some?
    ensures TellsStory(StepHandleExit(s, a).value)
  {
    assert RunOk(s.runs[a.i], a.i);
    assert a.i < |s.runs| - 1 ==> s.runs[a.i].monitor.Finished?;
    assert a.Restart? ==> a.i == |s.runs| - 1 && !s.pm.running;
    hide Inv, TellsStory, HandlerMoves, SameMonitorsBut, StepHandleExit;
    if a.Restart? {
      RestartIsDoRestart(s, a);
      RestartContinuesStory(s, a.i, a.ok);
    } else {
      HandleExitMovesOne(s, a);
      YoungestHandlerMoves(s, a);
      MovesContinueStory(s, StepHandleExit(s, a).value);
    }
  }

  lemma RestartIsDoRestart(s: State, a: Action)
    requires a.Restart? && a.i < |s.runs|
    ensures StepHandleExit(s, a) == DoRestart(s, a.i, a.ok)
  {
  }

  lemma NeutralKeepsStory(s: State, s': State)
    requires TellsStory(s) && Neutral(s, s') && SameMonitorsBut(s, s', |s.runs|)
    ensures TellsStory(s')
  {
  }

  lemma StepContinuesStory(s: State, a: Action)
    requires Inv(s) && TellsStory(s) && Next(s, a).Some? && !a.ResetRestartAttempts? && !a.Start?
    ensures TellsStory(Next(s, a).value)
  {
    hide StepHandleExit, StepMonitor, StepStop, StepHelper, TellsStory;
    if IsHandleExitStep(a) { HandleExitContinuesStory(s, a); }
    else if IsMonitorStep(a) { SelectKeepsStory(s, a); }
    else {
      if IsStopStep(a) { StopStepIsNeutral(s, a); StopKeepsMonitors(s, a); }
      else if IsHelperStep(a) { HelperStepIsNeutral(s, a); HelperKeepsMonitors(s, a); }
      NeutralKeepsStory(s, Next(s, a).value);
    }
  }

  /** The state after the one successful Start. */
  function Launched(containerized: bool): State {
    Launch(Init(containerized), false)
  }

  lemma LaunchedTellsStory(containerized: bool)
    ensures Inv(Launched(containerized)) && TellsStory(Launched(containerized))
  {
    LaunchKeepsInv(Init(containerized), false);
  }

  lemma {:induction false} RunTellsStory(s: State, acts: seq<Action>)
    requires Inv(s) && TellsStory(s) && Exec(s, acts).Some?
    requires forall a | a in acts :: !a.ResetRestartAttempts? && !a.Start?
    ensures Inv(Exec(s, acts).value) && TellsStory(Exec(s, acts).value)
  {
    if acts != [] {
      var n := |acts| - 1;
      RunTellsStory(s, acts[..n]);
      assert acts[n] in acts;
      StepContinuesStory(Exec(s, acts[..n]).value, acts[n]);
      StepKeepsInv(Exec(s, acts[..n]).value, acts[n]);
    }
  }

  ghost predicate NumberedInOrder(s: State) {
    var n := s.pm.restartAttempts;
    && n <= MAX_RESTART_ATTEMPTS
    && (|| s.log == Story(n)
        || (n > 0 && s.log == Announcing(n))
        || ((s.log == Story(n) + [Fatal] || (n > 0 && s.log == Announcing(n) + [Fatal]))
            && forall i | 0 <= i < |s.runs| :: s.runs[i].monitor.Finished?))
  }

  lemma StoryIsInOrder(s: State)
    requires Inv(s) && TellsStory(s)
    ensures NumberedInOrder(s)
  {
  }

  /**
   After one Start and without resets, whatever else interleaves (Stop, interrupts, failing restarts,
   startup timeouts): the attempts carry the numbers 1, 2, 3 in order, each restart follows its
   announcement, and OnFatalError comes at most once, last, after every monitor has returned.
   */
  lemma {:induction false} AttemptsAreNumberedInOrder(containerized: bool, acts: seq<Action>)
    requires Exec(Launched(containerized), acts).Some?
    requires forall a | a in acts :: !a.ResetRestartAttempts? && !a.Start?
    ensures NumberedInOrder(Exec(Launched(containerized), acts).value)
  {
    LaunchedTellsStory(containerized);
    RunTellsStory(Launched(containerized), acts);
    StoryIsInOrder(Exec(Launched(containerized), acts).value);
  }

  // ---- Crashes only ----

  /** Steps of a run in which the process only crashes and the Runner always asks for a restart. */
  predicate CrashStep(a: Action) {
    && !a.Start? && !a.StopEnter? && !a.SetInterrupted? && !a.WatchdogFire? && !a.ResetRestartAttempts?
    && (a.OnProcessExit? ==> a.restart)
    && (a.Restart? ==> a.ok)
  }

  ghost predicate OnlyCrashes(s: State) {
    var y, n := Youngest(s), s.pm.restartAttempts;
    && !s.pm.interrupted && !s.pm.containerTimeout && s.stops == map[]
    && (s.pm.running <==> Holding(y))
    && !y.Reporting? && !y.Cancelled? && (y.Draining? ==> !y.interrupted)
    && (y.Failing? ==> n == MAX_RESTART_ATTEMPTS && s.log == Story(n))
    && (y.Finished? ==> n == MAX_RESTART_ATTEMPTS && s.log == Story(n) + [Fatal])
  }

  lemma CrashSelect(s: State, a: Action)
    requires Inv(s) && TellsStory(s) && OnlyCrashes(s) && IsMonitorStep(a) && Next(s, a).Some?
    ensures OnlyCrashes(Next(s, a).value)
  {
    MonitorStepIsNeutral(s, a);
    MonitorStepMovesOne(s, a);
    assert RunOk(s.runs[a.i], a.i);
  }

  lemma CrashEntersHandler(s: State, i: nat)
    requires OnlyCrashes(s) && i == |s.runs| - 1 && DoHandleExit(s, i).Some?
    ensures OnlyCrashes(DoHandleExit(s, i).value)
  {
  }

  lemma CrashCleansUp(s: State, i: nat)
    requires Inv(s) && OnlyCrashes(s) && i == |s.runs| - 1 && DoCleanup(s, i).Some?
    ensures OnlyCrashes(DoCleanup(s, i).value)
  {
    assert RunOk(s.runs[i], i);
  }

  lemma CrashRestarts(s: State, i: nat)
    requires OnlyCrashes(s) && i == |s.runs| - 1 && DoRestart(s, i, true).Some?
    ensures OnlyCrashes(DoRestart(s, i, true).value)
  {
  }

  lemma CrashDecides(s: State, a: Action)
    requires a.CheckTimeout? || a.OnProcessExit? || a.StoreAttempt? || a.Report?
    requires TellsStory(s) && OnlyCrashes(s) && a.i == |s.runs| - 1 && LocalsOk(s.runs[a.i].monitor, a.i)
    requires CrashStep(a) && StepHandleExit(s, a).Some?
    ensures OnlyCrashes(StepHandleExit(s, a).value)
  {
  }

  lemma CrashHandled(s: State, a: Action)
    requires Inv(s) && TellsStory(s) && OnlyCrashes(s)
    requires IsHandleExitStep(a) && CrashStep(a) && StepHandleExit(s, a).Some?
    ensures OnlyCrashes(StepHandleExit(s, a).value)
  {
    assert RunOk(s.runs[a.i], a.i);
    assert a.i == |s.runs| - 1;
    hide OnlyCrashes, TellsStory, DoCleanup, DoHandleExit, DoRestart;
    match a
    case HandleExit(i) => CrashEntersHandler(s, i);
    case Cleanup(i) => CrashCleansUp(s, i);
    case Restart(i, _) => CrashRestarts(s, i);
    case _ => CrashDecides(s, a);
  }

  lemma CrashHelped(s: State, a: Action)
    requires IsHelperStep(a) && CrashStep(a) && Next(s, a).Some?
    ensures var s' := Next(s, a).value;
            s'.pm == s.pm && s'.stops == s.stops && s'.log == s.log && Youngest(s') == Youngest(s)
  {
    HelperKeepsMonitors(s, a);
  }

  lemma StepOnlyCrashes(s: State, a: Action)
    requires Inv(s) && TellsStory(s) && OnlyCrashes(s) && CrashStep(a) && Next(s, a).Some?
    ensures OnlyCrashes(Next(s, a).value)
  {
    if IsMonitorStep(a) { CrashSelect(s, a); }
    else if IsHandleExitStep(a) { CrashHandled(s, a); }
    else if IsHelperStep(a) { CrashHelped(s, a); }
  }

  lemma {:induction false} CrashRun(s: State, acts: seq<Action>)
    requires Inv(s) && TellsStory(s) && OnlyCrashes(s) && Exec(s, acts).Some?
    requires forall a | a in acts :: CrashStep(a)
    ensures var s' := Exec(s, acts).value; Inv(s') && TellsStory(s') && OnlyCrashes(s')
  {
    if acts != [] {
      var n := |acts| - 1;
      CrashRun(s, acts[..n]);
      var m, a := Exec(s, acts[..n]).value, acts[n];
      assert a in acts;
      StepContinuesStory(m, a);
      StepKeepsInv(m, a);
      StepOnlyCrashes(m, a);
    }
  }

  /**
   A process that only crashes is restarted exactly three times, under the numbers 1, 2 and 3, and
   then reported exactly once: when the monitors have returned, that is the whole log, and four
   processes were started in all.
   */
  lemma {:induction false} CrashesAreRetriedThreeTimesThenReported(containerized: bool, acts: seq<Action>)
    requires Exec(Launched(containerized), acts).Some?
    requires forall a | a in acts :: CrashStep(a)
    requires Youngest(Exec(Launched(containerized), acts).value).Finished?
    ensures Exec(Launched(containerized), acts).value.log
            == [Started(false), Attempt(1), Started(true), Attempt(2), Started(true),
                Attempt(3), Started(true), Fatal]
  {
    LaunchedTellsStory(containerized);
    CrashRun(Launched(containerized), acts);
    StoryOfThree();
  }

  lemma StoryOfThree()
    ensures Story(MAX_RESTART_ATTEMPTS) == [Started(false), Attempt(1), Started(true), Attempt(2), Started(true),
                                            Attempt(3), Started(true)]
  {
    assert Story(1) == Story(0) + [Attempt(1), Started(true)];
    assert Story(2) == Story(1) + [Attempt(2), Started(true)];
    assert Story(3) == Story(2) + [Attempt(3), Started(true)];
  }
}
