/**
 Safety of the process lifecycle over every interleaving, and the exact condition under which a
 further Start keeps it.
 */
module LifecycleSafety {
  import opened Common
  import opened ProcessLifecycle

  // ---- What is promised ----

  /** No close panics, every channel is closed at most once, every watched process is waited exactly once. */
  ghost predicate Clean(s: State) {
    && !s.panicked
    && forall i | 0 <= i < |s.runs| ::
         && s.runs[i].waitDoneCloses <= 1
         && s.runs[i].stderrDoneCloses <= 1
         && s.runs[i].readyCloses <= 1
         && s.runs[i].waits == (if s.runs[i].monitor.Fetch? then 0 else 1)
  }

  /** The monitor will neither write a guarded field nor restart any more. */
  predicate Spent(pc: MonitorPc) {
    || pc.Finished? || pc.Reporting? || pc.Failing? || pc.Cancelled?
    || (pc.Decide? && pc.tries >= MAX_RESTART_ATTEMPTS)
    || (pc.Callback? && pc.tries >= MAX_RESTART_ATTEMPTS)
  }

  /** The monitor still relies on the guarded fields describing its own process. */
  predicate Holding(pc: MonitorPc) {
    pc.Fetch? || pc.Waiting? || pc.Selecting? || pc.Enter? || pc.Draining?
  }

  predicate MayRestart(pc: MonitorPc) {
    !Holding(pc) && !Spent(pc)
  }

  /** A caller may Start: a process is running (the call does nothing), or nothing is left over. */
  ghost predicate MayStart(s: State) {
    s.pm.running ||
    ((forall i | 0 <= i < |s.runs| :: Spent(s.runs[i].monitor) && !s.runs[i].drain.Begin?)
     && (forall t | t in s.stops :: !s.stops[t].Finalizing?))
  }

  /** Every call of Start in the run is made where MayStart holds. */
  ghost predicate Disciplined(s: State, acts: seq<Action>) {
    forall k | 0 <= k < |acts| && acts[k].Start? ::
      Exec(s, acts[..k]).Some? ==> MayStart(Exec(s, acts[..k]).value)
  }

  lemma DisciplinedPrefix(s: State, acts: seq<Action>, n: nat)
    requires Disciplined(s, acts) && n <= |acts|
    ensures Disciplined(s, acts[..n])
  {
    forall k | 0 <= k < n && acts[..n][k].Start? && Exec(s, acts[..n][..k]).Some?
      ensures MayStart(Exec(s, acts[..n][..k]).value)
    {
      assert acts[..n][..k] == acts[..k];
    }
  }

  // ---- Inductive invariant ----

  predicate BeforeClose(pc: MonitorPc) {
    pc.Fetch? || pc.Waiting? || pc.Selecting? || pc.Cancelled?
  }

  predicate LocalsOk(pc: MonitorPc, i: nat) {
    match pc
    case Waiting(c, w) => c == i && w == Some(i)
    case Selecting(c, w, x) => c == i && w == Some(i) && x == Some(i)
    case Cancelled(c, w) => c == i && w == Some(i)
    case Draining(_, cancelled, n, d) => d == Some(i) && !cancelled && n <= MAX_RESTART_ATTEMPTS
    case Decide(n) => n <= MAX_RESTART_ATTEMPTS
    case Callback(n) => n <= MAX_RESTART_ATTEMPTS
    case Bump(n) => n < MAX_RESTART_ATTEMPTS
    case _ => true
  }

  predicate RunOk(r: Run, i: nat) {
    && LocalsOk(r.monitor, i)
    && r.waits == (if r.monitor.Fetch? then 0 else 1)
    && r.waitDoneCloses == (if BeforeClose(r.monitor) then 0 else 1)
    && r.stderrDoneCloses == (if r.drain.Drained? then 1 else 0)
    && r.readyCloses <= 1
    && (r.drain.Reading? ==> r.drain.channel == Some(i))
    && (MayRestart(r.monitor) ==> r.drain.Drained?)
  }

  /** How the guarded fields relate to the youngest process r, number n. */
  predicate YoungestOk(f: Fields, r: Run, n: nat) {
    && (f.cancel.Some? ==> f.cancel == Some(n))
    && (f.running ==> f.cancel == Some(n) && !r.ctxCancelled && Holding(r.monitor))
    && (Holding(r.monitor) ==>
          f.cmd == Some(n) && f.waitDone == Some(n) && f.stderrDone == Some(n) && f.ctx == Some(n))
    && (r.drain.Begin? ==> f.stderrDone == Some(n))
  }

  ghost predicate Inv(s: State) {
    && !s.panicked
    && s.pm.restartAttempts <= MAX_RESTART_ATTEMPTS
    && (!s.containerized ==> !s.pm.containerTimeout && forall i | 0 <= i < |s.runs| :: s.runs[i].watchdog.Quit?)
    && (forall i | 0 <= i < |s.runs| :: RunOk(s.runs[i], i))
    && (forall i | 0 <= i < |s.runs| - 1 :: Spent(s.runs[i].monitor) && !s.runs[i].drain.Begin?)
    && (|s.runs| > 0 ==> YoungestOk(s.pm, s.runs[|s.runs| - 1], |s.runs| - 1))
    && (|s.runs| == 0 ==> s.stops == map[] && !s.pm.running && s.pm.cancel.None?)
    && (forall t | t in s.stops ::
          && (s.stops[t].Blocked? ==> s.stops[t].waitDone.Some? && s.stops[t].waitDone.value < |s.runs|)
          && (s.stops[t].Finalizing? ==> AllQuiet(s.runs)))
  }

  lemma InvIsClean(s: State)
    requires Inv(s)
    ensures Clean(s)
  {
    forall i | 0 <= i < |s.runs|
      ensures s.runs[i].waitDoneCloses <= 1 && s.runs[i].stderrDoneCloses <= 1 && s.runs[i].readyCloses <= 1
              && s.runs[i].waits == (if s.runs[i].monitor.Fetch? then 0 else 1)
    {
      assert RunOk(s.runs[i], i);
    }
  }

  // ---- Preservation, one lemma per family of steps ----

  lemma LaunchKeepsInv(s: State, byRestart: bool)
    requires Inv(s) && !s.pm.running
    requires forall i | 0 <= i < |s.runs| :: Spent(s.runs[i].monitor) && !s.runs[i].drain.Begin?
    requires forall t | t in s.stops :: !s.stops[t].Finalizing?
    ensures Inv(Launch(s, byRestart))
  {
    var s' := Launch(s, byRestart);
    forall i | 0 <= i < |s'.runs| ensures RunOk(s'.runs[i], i) {
      if i < |s.runs| { assert RunOk(s.runs[i], i); }
    }
  }

  lemma StopEnterKeepsInv(s: State, t: nat)
    requires Inv(s) && StepStop(s, StopEnter(t)).Some?
    ensures Inv(StepStop(s, StopEnter(t)).value)
  {
    assert forall i | 0 <= i < |s.runs| :: RunOk(s.runs[i], i);
  }

  lemma StopKeepsInv(s: State, a: Action)
    requires Inv(s) && IsStopStep(a) && StepStop(s, a).Some?
    ensures Inv(StepStop(s, a).value)
  {
    if a.StopEnter? { StopEnterKeepsInv(s, a.t); }
    if a.StopFinal? && |s.runs| > 0 {
      assert s.runs[|s.runs| - 1].monitor.Finished?;
    }
  }

  predicate Quiet(r: Run) {
    r.monitor.Finished? && r.drain.Drained? && r.watchdog.Quit? && !r.reading
  }

  /** Replacing one process record keeps the invariant when the record and its relations are fine. */
  lemma UpdateKeepsInv(s: State, s': State, i: nat, r: Run)
    requires Inv(s) && i < |s.runs| && RunOk(r, i)
    requires s' == s.(runs := s.runs[i := r], pm := s'.pm, log := s'.log)
    requires s'.pm.restartAttempts <= MAX_RESTART_ATTEMPTS
    requires !s.containerized ==> !s'.pm.containerTimeout && r.watchdog.Quit?
    requires i < |s.runs| - 1 ==> Spent(r.monitor) && !r.drain.Begin?
    requires YoungestOk(s'.pm, s'.runs[|s.runs| - 1], |s.runs| - 1)
    requires Quiet(s.runs[i]) ==> Quiet(r)
    ensures Inv(s')
  {
    forall t | t in s'.stops && s'.stops[t].Finalizing? ensures AllQuiet(s'.runs) {
      assert AllQuiet(s.runs) && Quiet(s.runs[i]);
    }
  }

  lemma FetchKeepsInv(s: State, a: Action)
    requires Inv(s) && a.MonitorFetch? && StepMonitor(s, a).Some?
    ensures Inv(StepMonitor(s, a).value)
  {
    var s' := StepMonitor(s, a).value;
    assert RunOk(s.runs[a.i], a.i);
    UpdateKeepsInv(s, s', a.i, s'.runs[a.i]);
  }

  lemma MonitorKeepsInv(s: State, a: Action)
    requires Inv(s) && IsMonitorStep(a) && StepMonitor(s, a).Some?
    ensures Inv(StepMonitor(s, a).value)
  {
    if a.MonitorFetch? {
      FetchKeepsInv(s, a);
    } else {
      var s' := StepMonitor(s, a).value;
      assert RunOk(s.runs[a.i], a.i);
      UpdateKeepsInv(s, s', a.i, s'.runs[a.i]);
    }
  }

  lemma EntryKeepsInv(s: State, i: nat)
    requires Inv(s) && i < |s.runs| && DoHandleExit(s, i).Some?
    ensures Inv(DoHandleExit(s, i).value)
  {
    var s' := DoHandleExit(s, i).value;
    assert RunOk(s.runs[i], i);
    UpdateKeepsInv(s, s', i, s'.runs[i]);
  }

  lemma CheckTimeoutKeepsInv(s: State, i: nat)
    requires Inv(s) && i < |s.runs| && DoCheckTimeout(s, i).Some?
    ensures Inv(DoCheckTimeout(s, i).value)
  {
    var s' := DoCheckTimeout(s, i).value;
    assert RunOk(s.runs[i], i);
    UpdateKeepsInv(s, s', i, s'.runs[i]);
  }

  lemma OnProcessExitKeepsInv(s: State, i: nat, restart: bool)
    requires Inv(s) && i < |s.runs| && DoOnProcessExit(s, i, restart).Some?
    ensures Inv(DoOnProcessExit(s, i, restart).value)
  {
    var s' := DoOnProcessExit(s, i, restart).value;
    assert RunOk(s.runs[i], i);
    UpdateKeepsInv(s, s', i, s'.runs[i]);
  }

  lemma StoreAttemptKeepsInv(s: State, i: nat)
    requires Inv(s) && i < |s.runs| && DoStoreAttempt(s, i).Some?
    ensures Inv(DoStoreAttempt(s, i).value)
  {
    var s' := DoStoreAttempt(s, i).value;
    assert RunOk(s.runs[i], i);
    UpdateKeepsInv(s, s', i, s'.runs[i]);
  }

  lemma ReportKeepsInv(s: State, i: nat)
    requires Inv(s) && i < |s.runs| && DoReport(s, i).Some?
    ensures Inv(DoReport(s, i).value)
  {
    var s' := DoReport(s, i).value;
    assert RunOk(s.runs[i], i);
    UpdateKeepsInv(s, s', i, s'.runs[i]);
  }

  lemma ReadyKeepsInv(s: State, c: Option<nat>)
    requires Inv(s)
    ensures Inv(s.(runs := CloseReady(s.runs, c)))
  {
    if c.Some? && c.value < |s.runs| && s.runs[c.value].readyCloses == 0 {
      var i := c.value;
      assert RunOk(s.runs[i], i);
      UpdateKeepsInv(s, s.(runs := CloseReady(s.runs, c)), i, s.runs[i].(readyCloses := 1));
    }
  }

  lemma CleanupKeepsInv(s: State, i: nat)
    requires Inv(s) && i < |s.runs| && DoCleanup(s, i).Some?
    ensures Inv(DoCleanup(s, i).value)
  {
    var m := s.(runs := CloseReady(s.runs, s.pm.containerReady));
    ReadyKeepsInv(s, s.pm.containerReady);
    var s' := DoCleanup(s, i).value;
    assert RunOk(m.runs[i], i);
    UpdateKeepsInv(m, s', i, s'.runs[i]);
  }

  lemma RestartKeepsInv(s: State, i: nat, ok: bool)
    requires Inv(s) && i < |s.runs| && DoRestart(s, i, ok).Some?
    ensures Inv(DoRestart(s, i, ok).value)
  {
    var s' := DoRestart(s, i, ok).value;
    assert RunOk(s.runs[i], i);
    if s.pm.running || !ok {
      UpdateKeepsInv(s, s', i, s'.runs[i]);
    } else {
      // Finishing the restarting monitor first gives the same state as finishing it last.
      var m := SetMonitor(s, i, Finished);
      UpdateKeepsInv(s, m, i, m.runs[i]);
      LaunchKeepsInv(m, true);
      assert s'.runs == Launch(m, true).runs;
    }
  }

  lemma HandleExitKeepsInv(s: State, a: Action)
    requires Inv(s) && IsHandleExitStep(a) && StepHandleExit(s, a).Some?
    ensures Inv(StepHandleExit(s, a).value)
  {
    match a
    case HandleExit(i) => EntryKeepsInv(s, i);
    case Cleanup(i) => CleanupKeepsInv(s, i);
    case CheckTimeout(i) => CheckTimeoutKeepsInv(s, i);
    case OnProcessExit(i, restart) => OnProcessExitKeepsInv(s, i, restart);
    case StoreAttempt(i) => StoreAttemptKeepsInv(s, i);
    case Restart(i, ok) => RestartKeepsInv(s, i, ok);
    case Report(i) => ReportKeepsInv(s, i);
  }

  lemma HelperKeepsInv(s: State, a: Action)
    requires Inv(s) && IsHelperStep(a) && StepHelper(s, a).Some?
    ensures Inv(StepHelper(s, a).value)
  {
    var s' := StepHelper(s, a).value;
    assert RunOk(s.runs[a.i], a.i);
    UpdateKeepsInv(s, s', a.i, s'.runs[a.i]);
  }

  lemma StepKeepsInv(s: State, a: Action)
    requires Inv(s) && Next(s, a).Some?
    requires a.Start? ==> MayStart(s)
    ensures Inv(Next(s, a).value)
  {
    if IsStopStep(a) { StopKeepsInv(s, a); }
    else if IsMonitorStep(a) { MonitorKeepsInv(s, a); }
    else if IsHandleExitStep(a) { HandleExitKeepsInv(s, a); }
    else if IsHelperStep(a) { HelperKeepsInv(s, a); }
    else if a.Start? { if !s.pm.running && a.ok { LaunchKeepsInv(s, false); } }
    else if a.MarkSessionStarted? { ReadyKeepsInv(s, s.pm.containerReady); }
  }
}
