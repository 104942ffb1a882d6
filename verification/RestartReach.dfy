/**
 Exactly when a restart can still come: after a Stop, and how many after a reset. Both are questions about all
 continuations in which nobody calls Start from outside.
 */
module RestartReach {
  import opened Common
  import opened ProcessLifecycle
  import opened LifecycleSafety
  import opened StartCondition
  import opened RestartBudget

  /** Neither an outside Start nor a reset of the counter. */
  predicate Silent(a: Action) {
    !a.Start? && !a.ResetRestartAttempts?
  }

  ghost predicate Leads(s: State, s': State) {
    exists acts: seq<Action> :: Exec(s, acts) == Some(s') && forall a | a in acts :: Silent(a)
  }

  lemma LeadsItself(s: State)
    ensures Leads(s, s)
  {
    assert Exec(s, []) == Some(s);
  }

  lemma LeadsIsReaching(s: State, s': State)
    requires Leads(s, s')
    ensures Reaches(s, s')
  {
    var acts: seq<Action> :| Exec(s, acts) == Some(s') && forall a | a in acts :: Silent(a);
  }

  /** One more step of a continuation. */
  lemma Step(s: State, m: State, a: Action) returns (s': State)
    requires Leads(s, m) && Inv(m) && Silent(a) && Next(m, a).Some?
    ensures Next(m, a) == Some(s') && Leads(s, s') && Inv(s')
  {
    hide Inv, Next;
    s' := Next(m, a).value;
    StepKeepsInv(m, a);
    var acts: seq<Action> :| Exec(s, acts) == Some(m) && forall b | b in acts :: Silent(b);
    assert (acts + [a])[..|acts|] == acts;
    assert Exec(s, acts + [a]) == Some(s');
  }

  lemma HandlerStep(s: State, m: State, a: Action) returns (s': State)
    requires Leads(s, m) && Inv(m) && IsHandleExitStep(a) && StepHandleExit(m, a).Some?
    ensures StepHandleExit(m, a) == Some(s') && Leads(s, s') && Inv(s')
  {
    hide Inv, Leads, StepHandleExit;
    s' := Step(s, m, a);
  }

  lemma MonitorStep(s: State, m: State, a: Action) returns (s': State)
    requires Leads(s, m) && Inv(m) && IsMonitorStep(a) && StepMonitor(m, a).Some?
    ensures StepMonitor(m, a) == Some(s') && Leads(s, s') && Inv(s')
  {
    hide Inv, Leads, StepMonitor;
    s' := Step(s, m, a);
  }

  lemma HelperStep(s: State, m: State, a: Action) returns (s': State)
    requires Leads(s, m) && Inv(m) && IsHelperStep(a) && StepHelper(m, a).Some?
    ensures StepHelper(m, a) == Some(s') && Leads(s, s') && Inv(s')
  {
    hide Inv, Leads, StepHelper;
    s' := Step(s, m, a);
  }

  // ---- From where a restart can still come ----

  /** What the youngest monitor needs, once nothing runs, to restart: it is past the tests, or they will pass. */
  predicate CanRestart(s: State) {
    match Youngest(s)
    case Delay => true
    case Bump(_) => true
    case Callback(n) => n < MAX_RESTART_ATTEMPTS
    case Decide(n) => n < MAX_RESTART_ATTEMPTS && !s.pm.containerTimeout
    case Draining(interrupted, _, n, _) =>
      !interrupted && n < MAX_RESTART_ATTEMPTS && !s.pm.containerTimeout
    case _ => false
  }

  /** The youngest process still runs, no startup timeout is recorded, and handleExit has not begun. */
  predicate CanCrash(s: State) {
    s.pm.running && Holding(Youngest(s)) && !Youngest(s).Draining? && !s.pm.containerTimeout
  }

  /** A restart is pending, or a crash may bring one about. */
  predicate RestartPossible(s: State) {
    CanRestart(s) || CanCrash(s)
  }

  /** The process was just launched. */
  predicate JustLaunched(s: State) {
    s.runs != [] && s.runs[|s.runs| - 1] == FreshRun(s.containerized) && s.pm.running
  }

  /** One restart more than in s. */
  predicate OneMore(s: State, s': State) {
    JustLaunched(s') && Restarts(s'.log) == Restarts(s.log) + 1
  }

  lemma RestartLaunches(m: State, n: nat)
    requires n == |m.runs| - 1 && Youngest(m).Delay? && !m.pm.running
    requires !m.containerized ==> !m.pm.containerTimeout
    ensures DoRestart(m, n, true).Some?
    ensures var m' := DoRestart(m, n, true).value;
            && JustLaunched(m') && m'.log == m.log + [Started(true)]
            && m'.pm.restartAttempts == m.pm.restartAttempts && !m'.pm.containerTimeout
  {
  }

  lemma DelayRestarts(s: State, m: State) returns (m': State)
    requires Leads(s, m) && Inv(m) && Youngest(m).Delay?
    ensures Leads(s, m') && Inv(m') && OneMore(m, m') && m'.pm.restartAttempts == m.pm.restartAttempts
    ensures !m'.pm.containerTimeout
  {
    assert !m.pm.running && (!m.containerized ==> !m.pm.containerTimeout);
    hide Inv, Leads, JustLaunched, DoRestart;
    RestartLaunches(m, |m.runs| - 1);
    m' := HandlerStep(s, m, Restart(|m.runs| - 1, true));
    LogGrows(m.log, Started(true));
  }

  lemma BumpDelays(s: State, m: State) returns (m': State)
    requires Leads(s, m) && Inv(m) && Youngest(m).Bump?
    ensures Leads(s, m') && Inv(m') && Youngest(m').Delay?
    ensures m'.pm.restartAttempts == Youngest(m).tries + 1 && Restarts(m'.log) == Restarts(m.log)
  {
    hide Inv, Leads;
    m' := HandlerStep(s, m, StoreAttempt(|m.runs| - 1));
    LogGrows(m.log, Attempt(Youngest(m).tries + 1));
  }

  lemma CallbackDelays(s: State, m: State) returns (m': State)
    requires Leads(s, m) && Inv(m) && Youngest(m).Callback? && Youngest(m).tries < MAX_RESTART_ATTEMPTS
    ensures Leads(s, m') && Inv(m') && Youngest(m').Delay?
    ensures m'.pm.restartAttempts == Youngest(m).tries + 1 && Restarts(m'.log) == Restarts(m.log)
  {
    hide Inv, Leads;
    var m1 := HandlerStep(s, m, OnProcessExit(|m.runs| - 1, true));
    m' := BumpDelays(s, m1);
  }

  lemma DecideDelays(s: State, m: State) returns (m': State)
    requires Leads(s, m) && Inv(m) && Youngest(m).Decide? && Youngest(m).tries < MAX_RESTART_ATTEMPTS
    requires !m.pm.containerTimeout
    ensures Leads(s, m') && Inv(m') && Youngest(m').Delay?
    ensures m'.pm.restartAttempts == Youngest(m).tries + 1 && Restarts(m'.log) == Restarts(m.log)
  {
    hide Inv, Leads;
    var m1 := HandlerStep(s, m, CheckTimeout(|m.runs| - 1));
    m' := CallbackDelays(s, m1);
  }

  /** Only the helpers of the processes have moved. */
  predicate OnlyHelpersMoved(s: State, s': State) {
    s'.pm == s.pm && s'.log == s.log && |s'.runs| == |s.runs| && Youngest(s') == Youngest(s)
  }

  lemma DrainOpens(s: State, m: State) returns (m': State)
    requires Leads(s, m) && Inv(m) && m.runs != []
    ensures Leads(s, m') && Inv(m') && OnlyHelpersMoved(m, m') && !m'.runs[|m.runs| - 1].drain.Begin?
  {
    hide Leads, Inv;
    m' := m;
    if m.runs[|m.runs| - 1].drain.Begin? { m' := HelperStep(s, m, DrainBegin(|m.runs| - 1)); }
  }

  lemma DrainCloses(m: State, n: nat)
    requires n == |m.runs| - 1 && m.runs[n].drain == Reading(Some(n))
    ensures StepHelper(m, DrainClose(n)).Some?
    ensures var m' := StepHelper(m, DrainClose(n)).value; OnlyHelpersMoved(m, m') && m'.runs[n].drain.Drained?
  {
  }

  lemma DrainEnds(s: State, m: State) returns (m': State)
    requires Leads(s, m) && Inv(m) && m.runs != [] && !m.runs[|m.runs| - 1].drain.Begin?
    ensures Leads(s, m') && Inv(m') && OnlyHelpersMoved(m, m') && m'.runs[|m.runs| - 1].drain.Drained?
  {
    var n := |m.runs| - 1;
    assert RunOk(m.runs[n], n);
    hide Leads, Inv, StepHelper;
    m' := m;
    if m.runs[n].drain.Reading? {
      DrainCloses(m, n);
      m' := HelperStep(s, m, DrainClose(n));
    }
  }

  lemma DrainedIsClosed(m: State)
    requires Inv(m) && Youngest(m).Draining? && m.runs[|m.runs| - 1].drain.Drained?
    ensures StderrClosed(m.runs, Youngest(m).stderrDone)
  {
    assert RunOk(m.runs[|m.runs| - 1], |m.runs| - 1);
  }

  /** The stderr of the youngest process can always be drained. */
  lemma Drains(s: State, m: State) returns (m': State)
    requires Leads(s, m) && Inv(m) && Youngest(m).Draining?
    ensures Leads(s, m') && Inv(m') && OnlyHelpersMoved(m, m') && StderrClosed(m'.runs, Youngest(m).stderrDone)
  {
    hide Leads, Inv, StderrClosed;
    var m1 := DrainOpens(s, m);
    m' := DrainEnds(s, m1);
    DrainedIsClosed(m');
  }

  lemma CleanupDecides(m: State, n: nat)
    requires n == |m.runs| - 1 && Youngest(m).Draining? && !Youngest(m).interrupted && !Youngest(m).cancelled
    requires StderrClosed(m.runs, Youngest(m).stderrDone)
    ensures DoCleanup(m, n).Some?
    ensures var m' := DoCleanup(m, n).value;
            Youngest(m') == Decide(Youngest(m).attempts) && m'.pm == CleanupFields(m.pm) && m'.log == m.log
  {
  }

  lemma DrainingDelays(s: State, m: State) returns (m': State)
    requires Leads(s, m) && Inv(m) && Youngest(m).Draining? && !Youngest(m).interrupted
    requires Youngest(m).attempts < MAX_RESTART_ATTEMPTS && !m.pm.containerTimeout
    ensures Leads(s, m') && Inv(m') && Youngest(m').Delay?
    ensures m'.pm.restartAttempts == Youngest(m).attempts + 1 && Restarts(m'.log) == Restarts(m.log)
  {
    var n := |m.runs| - 1;
    assert RunOk(m.runs[n], n);
    hide Inv, Leads, StderrClosed, DoCleanup;
    var m1 := Drains(s, m);
    CleanupDecides(m1, n);
    var m2 := HandlerStep(s, m1, Cleanup(n));
    m' := DecideDelays(s, m2);
  }

  lemma CanRestartDelays(s: State, m: State) returns (m': State)
    requires Leads(s, m) && Inv(m) && CanRestart(m)
    ensures Leads(s, m') && Inv(m') && Youngest(m').Delay? && Restarts(m'.log) == Restarts(m.log)
  {
    hide Inv, Leads;
    match Youngest(m)
    case Delay => m' := m;
    case Bump(_) => m' := BumpDelays(s, m);
    case Callback(_) => m' := CallbackDelays(s, m);
    case Decide(_) => m' := DecideDelays(s, m);
    case Draining(_, _, _, _) => m' := DrainingDelays(s, m);
  }

  // ---- After a Stop ----

  /** No monitor will restart. */
  ghost predicate Halted(s: State) {
    Inv(s) && !RestartPossible(s)
  }

  lemma HelperKeepsHalted(s: State, a: Action)
    requires Halted(s) && IsHelperStep(a) && Next(s, a).Some?
    ensures !RestartPossible(Next(s, a).value)
  {
    hide Inv, Leads;
    HelperKeepsMonitors(s, a);
    HelperStepIsNeutral(s, a);
  }

  lemma MonitorKeepsHalted(s: State, a: Action)
    requires Halted(s) && IsMonitorStep(a) && Next(s, a).Some?
    ensures !RestartPossible(Next(s, a).value)
  {
    hide Inv, Leads;
    MonitorStepIsNeutral(s, a);
  }

  lemma YoungestKeepsHalted(s: State, a: Action)
    requires IsHandleExitStep(a) && !a.Restart? && StepHandleExit(s, a).Some?
    requires a.i == |s.runs| - 1 && LocalsOk(s.runs[a.i].monitor, a.i) && !RestartPossible(s)
    ensures !RestartPossible(StepHandleExit(s, a).value)
  {
  }

  lemma OlderKeepsHalted(s: State, a: Action)
    requires IsHandleExitStep(a) && !a.Restart? && !a.Cleanup? && !a.HandleExit? && StepHandleExit(s, a).Some?
    requires a.i < |s.runs| - 1 && Spent(s.runs[a.i].monitor) && !RestartPossible(s)
    ensures !RestartPossible(StepHandleExit(s, a).value)
  {
  }

  /** The parts of Halted other than the invariant, and no restart. */
  ghost predicate StaysHalted(s: State, s': State) {
    !RestartPossible(s') && Restarts(s'.log) == Restarts(s.log)
  }

  lemma HandlerKeepsHalted(s: State, a: Action)
    requires Halted(s) && IsHandleExitStep(a) && StepHandleExit(s, a).Some?
    ensures StaysHalted(s, StepHandleExit(s, a).value)
  {
    assert RunOk(s.runs[a.i], a.i);
    assert a.i < |s.runs| - 1 ==> Spent(s.runs[a.i].monitor);
    hide Inv;
    LogGrows(s.log, Fatal);
    if a.i == |s.runs| - 1 {
      YoungestKeepsHalted(s, a);
      YoungestHandlerMoves(s, a);
    } else {
      OlderKeepsHalted(s, a);
      OlderHandlerIsNeutral(s, a);
    }
  }

  lemma StopKeepsHalted(s: State, a: Action)
    requires IsStopStep(a) && Next(s, a).Some?
    ensures var s' := Next(s, a).value;
            && (RestartPossible(s') ==> RestartPossible(s)) && (a.StopEnter? ==> !s'.pm.running)
            && CanRestart(s') == CanRestart(s) && s'.log == s.log
  {
  }

  lemma OtherKeepsHalted(s: State, a: Action)
    requires a.MarkSessionStarted? || a.ResetRestartAttempts? || a.SetInterrupted?
    requires !RestartPossible(s)
    ensures Next(s, a).Some? && StaysHalted(s, Next(s, a).value)
  {
  }

  lemma QuietStepKeepsHalted(s: State, a: Action)
    requires Halted(s) && (IsMonitorStep(a) || IsHelperStep(a) || IsStopStep(a)) && Next(s, a).Some?
    ensures StaysHalted(s, Next(s, a).value)
  {
    hide Inv, Next, RestartPossible;
    if IsMonitorStep(a) { MonitorKeepsHalted(s, a); MonitorStepIsNeutral(s, a); }
    else if IsHelperStep(a) { HelperKeepsHalted(s, a); HelperStepIsNeutral(s, a); }
    else { StopKeepsHalted(s, a); }
  }

  lemma StepKeepsHalted(s: State, a: Action)
    requires Halted(s) && !a.Start? && Next(s, a).Some?
    ensures Halted(Next(s, a).value) && Restarts(Next(s, a).value.log) == Restarts(s.log)
  {
    hide Inv, RestartPossible, StepHandleExit, StepMonitor, StepStop, StepHelper, CloseReady;
    StepKeepsInv(s, a);
    if IsHandleExitStep(a) { HandlerKeepsHalted(s, a); }
    else if IsMonitorStep(a) || IsHelperStep(a) || IsStopStep(a) { QuietStepKeepsHalted(s, a); }
    else { OtherKeepsHalted(s, a); }
  }

  lemma {:induction false} HaltedForGood(s: State, acts: seq<Action>)
    requires Halted(s) && Exec(s, acts).Some? && forall a | a in acts :: !a.Start?
    ensures Halted(Exec(s, acts).value) && Restarts(Exec(s, acts).value.log) == Restarts(s.log)
  {
    if acts != [] {
      hide Halted, Next;
      var n := |acts| - 1;
      HaltedForGood(s, acts[..n]);
      assert acts[n] in acts;
      StepKeepsHalted(Exec(s, acts[..n]).value, acts[n]);
    }
  }

  ghost predicate MoreRestartsFollow(s: State) {
    exists s' :: Reaches(s, s') && Restarts(s'.log) > Restarts(s.log)
  }

  lemma {:induction false} ExecFrom(s: State, a: Action, acts: seq<Action>)
    requires Next(s, a).Some?
    ensures Exec(s, [a] + acts) == Exec(Next(s, a).value, acts)
  {
    hide Next;
    if acts == [] {
      assert [a] + acts == [a] && [a][..0] == [];
      assert Exec(s, []) == Some(s);
    } else {
      var n := |acts| - 1;
      ExecFrom(s, a, acts[..n]);
      assert ([a] + acts)[..n + 1] == [a] + acts[..n];
    }
  }

  lemma ReachesAfter(s: State, a: Action, s': State)
    requires !a.Start? && Next(s, a).Some? && Leads(Next(s, a).value, s')
    ensures Reaches(s, s')
  {
    hide Next;
    var acts: seq<Action> :| Exec(Next(s, a).value, acts) == Some(s') && forall b | b in acts :: Silent(b);
    ExecFrom(s, a, acts);
  }

  /** A running process can crash and be restarted, once the counter was reset. */
  lemma CrashCanRestart(s: State) returns (s': State)
    requires Inv(s) && CanCrash(s) && s.pm.restartAttempts < MAX_RESTART_ATTEMPTS
    ensures Leads(s, s') && Restarts(s'.log) == Restarts(s.log) + 1
  {
    LeadsItself(s);
    hide Inv, Leads, JustLaunched;
    s' := Enters(s, s);
    s' := ForgetsInterrupt(s, s');
    s' := EnterDelays(s, s');
    s' := DelayRestarts(s, s');
  }

  lemma CrashFollows(s: State)
    requires Inv(s) && CanCrash(s)
    ensures MoreRestartsFollow(s)
  {
    var m := Next(s, ResetRestartAttempts).value;
    StepKeepsInv(s, ResetRestartAttempts);
    hide Inv, Leads;
    var s' := CrashCanRestart(m);
    ReachesAfter(s, ResetRestartAttempts, s');
  }

  /**
   From any state that a disciplined run can reach, a restart can follow without an outside Start if and only if one
   is pending, or the process still runs without a recorded startup timeout.
   */
  lemma RestartFollowsExactlyWhen(s: State)
    requires Inv(s)
    ensures MoreRestartsFollow(s) <==> RestartPossible(s)
  {
    if CanRestart(s) {
      LeadsItself(s);
      var m := CanRestartDelays(s, s);
      var m' := DelayRestarts(s, m);
      LeadsIsReaching(s, m');
    } else if CanCrash(s) {
      CrashFollows(s);
    } else if MoreRestartsFollow(s) {
      var s' :| Reaches(s, s') && Restarts(s'.log) > Restarts(s.log);
      var acts: seq<Action> :| Exec(s, acts) == Some(s') && forall a | a in acts :: !a.Start?;
      HaltedForGood(s, acts);
      assert false;
    }
  }

  /** An exit that finds the interrupt flag set is never followed by a restart. */
  lemma InterruptedExitIsNotRestarted(s: State, i: nat)
    requires Inv(s) && i < |s.runs| && s.runs[i].monitor.Enter?
    ensures var m := Next(s, SetInterrupted(true)).value;
            && Next(m, HandleExit(i)).Some?
            && !MoreRestartsFollow(Next(m, HandleExit(i)).value)
            && (Next(m, HandleExit(i)).value.pm.interrupted <==> !s.pm.running)
  {
    assert i == |s.runs| - 1;
    var m := Next(s, SetInterrupted(true)).value;
    StepKeepsInv(s, SetInterrupted(true));
    StepKeepsInv(m, HandleExit(i));
    hide Inv, RestartPossible;
    InterruptedEntry(m, i);
    RestartFollowsExactlyWhen(Next(m, HandleExit(i)).value);
  }

  lemma InterruptedEntry(m: State, i: nat)
    requires m.runs != [] && i == |m.runs| - 1 && m.runs[i].monitor.Enter? && m.pm.interrupted
    ensures Next(m, HandleExit(i)).Some? && !RestartPossible(Next(m, HandleExit(i)).value)
    ensures Next(m, HandleExit(i)).value.pm.interrupted <==> !m.pm.running
  {
  }

  /** A Stop prevents every later restart exactly when the youngest monitor is not on its way to one. */
  lemma StopPreventsRestartExactlyWhen(s: State, t: nat)
    requires Inv(s) && t !in s.stops
    ensures Next(s, StopEnter(t)).Some?
    ensures MoreRestartsFollow(Next(s, StopEnter(t)).value) <==> CanRestart(s)
  {
    var s' := Next(s, StopEnter(t)).value;
    StopKeepsHalted(s, StopEnter(t));
    StepKeepsInv(s, StopEnter(t));
    RestartFollowsExactlyWhen(s');
  }

  /** A Stop that found the process running and has returned does prevent them, whatever follows but a Start. */
  lemma FinishedStopPreventsRestarts(s: State, t: nat, acts: seq<Action>)
    requires Inv(s) && t in s.stops && s.stops[t].Finalizing?
    ensures Next(s, StopFinal(t)).Some? && Halted(Next(s, StopFinal(t)).value)
    ensures var s' := Next(s, StopFinal(t)).value;
            Exec(s', acts).Some? && (forall a | a in acts :: !a.Start?) ==>
              Restarts(Exec(s', acts).value.log) == Restarts(s.log)
  {
    StopKeepsInv(s, StopFinal(t));
    StopKeepsHalted(s, StopFinal(t));
    var s' := Next(s, StopFinal(t)).value;
    hide Inv, Next;
    if Exec(s', acts).Some? && forall a | a in acts :: !a.Start? { HaltedForGood(s', acts); }
  }

  // ---- After a reset ----

  /** A process that was just launched crashes and its restart is announced. */
  lemma CrashDelays(s: State, m: State) returns (m': State)
    requires Leads(s, m) && Inv(m) && JustLaunched(m) && !m.pm.containerTimeout
    requires m.pm.restartAttempts < MAX_RESTART_ATTEMPTS
    ensures Leads(s, m') && Inv(m') && Youngest(m').Delay?
    ensures m'.pm.restartAttempts == m.pm.restartAttempts + 1 && Restarts(m'.log) == Restarts(m.log)
  {
    hide Inv, Leads;
    var m1 := Enters(s, m);
    var m2 := ForgetsInterrupt(s, m1);
    m' := EnterDelays(s, m2);
  }

  /** From wherever a running process's monitor is, the process can exit and its handler be entered. */
  lemma Enters(s: State, m: State) returns (m': State)
    requires Leads(s, m) && Inv(m) && m.pm.running && Holding(Youngest(m)) && !Youngest(m).Draining?
    ensures Leads(s, m') && Inv(m') && Youngest(m').Enter? && |m'.runs| == |m.runs|
    ensures m'.log == m.log && m'.pm == m.pm
  {
    var n := |m.runs| - 1;
    assert RunOk(m.runs[n], n) && m.pm.cmd == Some(n);
    hide Inv, Leads;
    m' := m;
    if m'.runs[n].monitor.Fetch? { m' := MonitorStep(s, m', MonitorFetch(n)); }
    if m'.runs[n].monitor.Waiting? { m' := MonitorStep(s, m', MonitorSelect(n)); }
    if m'.runs[n].monitor.Selecting? { m' := Exits(s, m'); }
  }

  lemma Exits(s: State, m: State) returns (m': State)
    requires Leads(s, m) && Inv(m) && Youngest(m).Selecting? && Youngest(m).cmd == |m.runs| - 1
    ensures Leads(s, m') && Inv(m') && Youngest(m').Enter? && |m'.runs| == |m.runs| && m'.log == m.log
    ensures m'.pm == m.pm
  {
    hide Inv, Leads;
    var n := |m.runs| - 1;
    var m1 := HelperStep(s, m, ProcessExit(n));
    m' := MonitorStep(s, m1, MonitorDone(n));
  }

  lemma ForgetsInterrupt(s: State, m: State) returns (m': State)
    requires Leads(s, m) && Inv(m)
    ensures Leads(s, m') && Inv(m') && m' == m.(pm := m.pm.(interrupted := false))
  {
    hide Inv, Leads;
    m' := Step(s, m, SetInterrupted(false));
  }

  lemma EnterDelays(s: State, m: State) returns (m': State)
    requires Leads(s, m) && Inv(m) && Youngest(m).Enter? && m.pm.running
    requires !m.pm.interrupted && !m.pm.containerTimeout && m.pm.restartAttempts < MAX_RESTART_ATTEMPTS
    ensures Leads(s, m') && Inv(m') && Youngest(m').Delay?
    ensures m'.pm.restartAttempts == m.pm.restartAttempts + 1 && Restarts(m'.log) == Restarts(m.log)
  {
    hide Inv, Leads;
    var m1 := HandlerStep(s, m, HandleExit(|m.runs| - 1));
    m' := DrainingDelays(s, m1);
  }

  lemma CrashRestartsAgain(s: State, m: State) returns (m': State)
    requires Leads(s, m) && Inv(m) && JustLaunched(m) && !m.pm.containerTimeout
    requires m.pm.restartAttempts < MAX_RESTART_ATTEMPTS
    ensures Leads(s, m') && Inv(m') && OneMore(m, m') && !m'.pm.containerTimeout
    ensures m'.pm.restartAttempts == m.pm.restartAttempts + 1
  {
    hide Inv, Leads, JustLaunched;
    var m1 := CrashDelays(s, m);
    m' := DelayRestarts(s, m1);
  }

  lemma DelayGivesFour(s: State) returns (s': State)
    requires Inv(s) && s.pm.restartAttempts == 0 && Youngest(s).Delay?
    ensures Leads(s, s') && Restarts(s'.log) == Restarts(s.log) + 4
  {
    hide Inv, Leads, JustLaunched;
    LeadsItself(s);
    s' := DelayRestarts(s, s);
    s' := CrashRestartsAgain(s, s');
    s' := CrashRestartsAgain(s, s');
    s' := CrashRestartsAgain(s, s');
  }

  /**
   From a state with a fresh counter, four restarts can follow without another reset if and only if the state
   lies inside the restart delay of an attempt that was announced before.
   */
  lemma FourRestartsExactlyWhen(s: State)
    requires Inv(s) && s.pm.restartAttempts == 0
    ensures (exists s' :: Leads(s, s') && Restarts(s'.log) == Restarts(s.log) + 4) <==> Youngest(s).Delay?
  {
    if Youngest(s).Delay? {
      var s' := DelayGivesFour(s);
    } else if s' :| Leads(s, s') && Restarts(s'.log) == Restarts(s.log) + 4 {
      var acts: seq<Action> :| Exec(s, acts) == Some(s') && forall a | a in acts :: Silent(a);
      assert forall k | 0 <= k < |acts| :: acts[k] in acts;
      AtMostThreeAttemptsPerReset(s, acts);
      assert false;
    }
  }

  lemma ResetInDelay(m: State) returns (s: State)
    requires Inv(m) && Youngest(m).Delay?
    ensures Next(m, ResetRestartAttempts) == Some(s) && Inv(s) && Youngest(s).Delay? && s.pm.restartAttempts == 0
  {
    hide Inv;
    StepKeepsInv(m, ResetRestartAttempts);
    s := Next(m, ResetRestartAttempts).value;
  }

  /** Such a state is reached by one crash and a reset inside the delay: then four restarts do follow it. */
  lemma ResetInsideDelayGivesFour(containerized: bool) returns (before: seq<Action>, after: seq<Action>)
    ensures before != [] && before[|before| - 1].ResetRestartAttempts? && forall a | a in before :: !a.Start?
    ensures forall a | a in after :: Silent(a)
    ensures Exec(Launched(containerized), before).Some?
    ensures var s := Exec(Launched(containerized), before).value;
            Exec(s, after).Some? && Restarts(Exec(s, after).value.log) == Restarts(s.log) + 4
  {
    var s0 := Launched(containerized);
    LaunchedTellsStory(containerized);
    LeadsItself(s0);
    var m := CrashDelays(s0, s0);
    var acts: seq<Action> :| Exec(s0, acts) == Some(m) && forall a | a in acts :: Silent(a);
    hide Inv;
    var s := ResetInDelay(m);
    before := acts + [ResetRestartAttempts];
    assert before[..|acts|] == acts;
    assert Exec(s0, before) == Some(s);
    var s' := DelayGivesFour(s);
    after :| Exec(s, after) == Some(s') && forall a | a in after :: Silent(a);
  }

  // ---- A Stop inside the delay ----

  lemma StopInDelay(m: State) returns (t: nat, s: State)
    requires Inv(m) && Youngest(m).Delay?
    ensures t !in m.stops && Next(m, StopEnter(t)) == Some(s) && Inv(s) && Youngest(s).Delay?
  {
    hide Inv;
    t := FreshNat(m.stops.Keys);
    StepKeepsInv(m, StopEnter(t));
    StopKeepsHalted(m, StopEnter(t));
    s := Next(m, StopEnter(t)).value;
  }

  /** A Stop inside the restart delay does not prevent the restart: one crash, the Stop, and a process runs again. */
  lemma StopInsideDelayIsOverrun(containerized: bool) returns (before: seq<Action>, after: seq<Action>)
    ensures before != [] && before[|before| - 1].StopEnter? && forall a | a in before :: !a.Start?
    ensures forall a | a in after :: Silent(a)
    ensures Exec(Launched(containerized), before).Some?
    ensures var s := Exec(Launched(containerized), before).value;
            Exec(s, after).Some? && OneMore(s, Exec(s, after).value)
  {
    var s0 := Launched(containerized);
    LaunchedTellsStory(containerized);
    LeadsItself(s0);
    var m := CrashDelays(s0, s0);
    var acts: seq<Action> :| Exec(s0, acts) == Some(m) && forall a | a in acts :: Silent(a);
    hide Inv;
    var t, s := StopInDelay(m);
    before := acts + [StopEnter(t)];
    assert before[..|acts|] == acts;
    assert Exec(s0, before) == Some(s);
    LeadsItself(s);
    var s' := DelayRestarts(s, s);
    after :| Exec(s, after) == Some(s') && forall a | a in after :: Silent(a);
  }
}
