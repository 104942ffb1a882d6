/** A Stop is never stuck: whatever the goroutines are doing, they can all return, and then so can the Stop. */
module StopReturns {
  import opened Common
  import opened ProcessLifecycle
  import opened LifecycleSafety
  import opened StartCondition
  import opened RestartBudget

  /** The goroutines of a process other than its monitor have returned. */
  predicate HelpersDone(r: Run) {
    r.drain.Drained? && r.watchdog.Quit? && !r.reading
  }

  /** Only process i has moved on: other monitors stand where they stood, and who has returned stays away. */
  predicate Kept(m: State, m': State, i: nat) {
    && SameMonitorsBut(m, m', i) && m'.stops == m.stops
    && forall j | 0 <= j < |m.runs| :: HelpersDone(m.runs[j]) ==> HelpersDone(m'.runs[j])
  }

  lemma MonitorKeeps(m: State, a: Action)
    requires IsMonitorStep(a) && StepMonitor(m, a).Some?
    ensures Kept(m, StepMonitor(m, a).value, a.i)
  {
    MonitorStepMovesOne(m, a);
  }

  lemma HelperKeeps(m: State, a: Action)
    requires IsHelperStep(a) && StepHelper(m, a).Some?
    ensures Kept(m, StepHelper(m, a).value, a.i)
    ensures a.i < |m.runs| && StepHelper(m, a).value.runs[a.i].monitor == m.runs[a.i].monitor
  {
    HelperKeepsMonitors(m, a);
  }

  lemma HandlerKeeps(m: State, a: Action)
    requires IsHandleExitStep(a) && !a.Restart? && StepHandleExit(m, a).Some?
    ensures Kept(m, StepHandleExit(m, a).value, a.i)
  {
    HandleExitMovesOne(m, a);
  }

  lemma FailedRestartKeeps(m: State, i: nat)
    requires i < |m.runs| && DoRestart(m, i, false).Some?
    ensures Kept(m, DoRestart(m, i, false).value, i)
  {
  }

  /** A step of process i, towards its end. */
  lemma Advance(s: State, m: State, a: Action, i: nat) returns (m': State)
    requires Reaches(s, m) && Inv(m) && Next(m, a).Some?
    requires (IsMonitorStep(a) || IsHelperStep(a) || IsHandleExitStep(a)) && a.i == i && (a.Restart? ==> !a.ok)
    ensures Next(m, a) == Some(m') && Reaches(s, m') && Inv(m') && i < |m.runs| && Kept(m, m', i)
    ensures IsHelperStep(a) ==> m'.runs[i].monitor == m.runs[i].monitor
  {
    hide Inv, Reaches, Kept, StepMonitor, StepHelper, DoRestart;
    m' := Go(s, m, a);
    StepKeepsInv(m, a);
    if IsMonitorStep(a) { MonitorKeeps(m, a); MonitorStepMovesOne(m, a); InRange(m, a); }
    else if IsHelperStep(a) { HelperKeeps(m, a); }
    else if a.Restart? { FailedRestartKeeps(m, i); }
    else { HandlerKeeps(m, a); }
  }

  lemma InRange(m: State, a: Action)
    requires IsMonitorStep(a) && StepMonitor(m, a).Some?
    ensures a.i < |m.runs|
  {
  }

  /** From m the monitor of process i can end in m', and nothing else is disturbed. */
  ghost predicate Ends(s: State, m: State, m': State, i: nat) {
    Reaches(s, m') && Inv(m') && Kept(m, m', i) && i < |m'.runs| && m'.runs[i].monitor.Finished?
  }

  lemma EndsAfter(s: State, m: State, m1: State, m': State, i: nat)
    requires Kept(m, m1, i) && Ends(s, m1, m', i)
    ensures Ends(s, m, m', i)
  {
  }

  lemma ReportEnds(s: State, m: State, i: nat) returns (m': State)
    requires Reaches(s, m) && Inv(m) && i < |m.runs| && (m.runs[i].monitor.Reporting? || m.runs[i].monitor.Failing?)
    ensures Ends(s, m, m', i)
  {
    hide Inv, Reaches, Kept;
    m' := Advance(s, m, Report(i), i);
  }

  lemma DelayEnds(s: State, m: State, i: nat) returns (m': State)
    requires Reaches(s, m) && Inv(m) && i < |m.runs| && m.runs[i].monitor.Delay?
    ensures Ends(s, m, m', i)
  {
    hide Inv, Reaches, Kept;
    m' := Advance(s, m, Restart(i, false), i);
    if m'.runs[i].monitor.Failing? {
      var m1 := m';
      m' := ReportEnds(s, m1, i);
      EndsAfter(s, m, m1, m', i);
    }
  }

  lemma CallbackEnds(s: State, m: State, i: nat) returns (m': State)
    requires Reaches(s, m) && Inv(m) && i < |m.runs| && m.runs[i].monitor.Callback?
    ensures Ends(s, m, m', i)
  {
    hide Inv, Reaches, Kept;
    m' := Advance(s, m, OnProcessExit(i, false), i);
  }

  lemma DecideEnds(s: State, m: State, i: nat) returns (m': State)
    requires Reaches(s, m) && Inv(m) && i < |m.runs| && m.runs[i].monitor.Decide?
    ensures Ends(s, m, m', i)
  {
    hide Inv, Reaches, Kept, Ends;
    var m1 := Advance(s, m, CheckTimeout(i), i);
    if m1.runs[i].monitor.Failing? { m' := ReportEnds(s, m1, i); } else { m' := CallbackEnds(s, m1, i); }
    EndsAfter(s, m, m1, m', i);
  }

  lemma BumpEnds(s: State, m: State, i: nat) returns (m': State)
    requires Reaches(s, m) && Inv(m) && i < |m.runs| && m.runs[i].monitor.Bump?
    ensures Ends(s, m, m', i)
  {
    hide Inv, Reaches, Kept, Ends;
    var m1 := Advance(s, m, StoreAttempt(i), i);
    m' := DelayEnds(s, m1, i);
    EndsAfter(s, m, m1, m', i);
  }

  lemma DrainingEnds(s: State, m: State, i: nat) returns (m': State)
    requires Reaches(s, m) && Inv(m) && i < |m.runs| && m.runs[i].monitor.Draining? && m.runs[i].drain.Drained?
    ensures Ends(s, m, m', i)
  {
    assert RunOk(m.runs[i], i);
    hide Inv, Reaches, Kept, Ends;
    var m1 := Advance(s, m, Cleanup(i), i);
    if m1.runs[i].monitor.Reporting? { m' := ReportEnds(s, m1, i); } else { m' := DecideEnds(s, m1, i); }
    EndsAfter(s, m, m1, m', i);
  }

  lemma EnterEnds(s: State, m: State, i: nat) returns (m': State)
    requires Reaches(s, m) && Inv(m) && i < |m.runs| && m.runs[i].monitor.Enter? && HelpersDone(m.runs[i])
    ensures Ends(s, m, m', i)
  {
    hide Inv, Reaches;
    m' := Advance(s, m, HandleExit(i), i);
    if m'.runs[i].monitor.Draining? {
      var m1 := m';
      assert HelpersDone(m1.runs[i]);
      hide Ends, Kept;
      m' := DrainingEnds(s, m1, i);
      EndsAfter(s, m, m1, m', i);
    }
  }

  /** The exit of the process lets a monitor in its select, or one that was cancelled, go on. */
  lemma ExitEnds(s: State, m: State, i: nat) returns (m': State)
    requires Reaches(s, m) && Inv(m) && i < |m.runs| && HelpersDone(m.runs[i])
    requires m.runs[i].monitor.Selecting? || m.runs[i].monitor.Cancelled?
    ensures Ends(s, m, m', i)
  {
    assert RunOk(m.runs[i], i);
    hide Inv, Reaches;
    var m1 := Advance(s, m, ProcessExit(i), i);
    assert HelpersDone(m1.runs[i]);
    if m.runs[i].monitor.Selecting? {
      var m2 := Advance(s, m1, MonitorDone(i), i);
      assert HelpersDone(m2.runs[i]);
      hide Ends, Kept;
      m' := EnterEnds(s, m2, i);
      EndsAfter(s, m1, m2, m', i);
    } else {
      m' := Advance(s, m1, MonitorConsume(i), i);
    }
    EndsAfter(s, m, m1, m', i);
  }

  lemma WaitingEnds(s: State, m: State, i: nat) returns (m': State)
    requires Reaches(s, m) && Inv(m) && i < |m.runs| && HelpersDone(m.runs[i]) && m.runs[i].monitor.Waiting?
    ensures Ends(s, m, m', i)
  {
    hide Inv, Reaches;
    var m1 := Advance(s, m, MonitorSelect(i), i);
    assert HelpersDone(m1.runs[i]);
    hide Ends, Kept;
    m' := ExitEnds(s, m1, i);
    EndsAfter(s, m, m1, m', i);
  }

  lemma FetchEnds(s: State, m: State, i: nat) returns (m': State)
    requires Reaches(s, m) && Inv(m) && i < |m.runs| && HelpersDone(m.runs[i]) && m.runs[i].monitor.Fetch?
    ensures Ends(s, m, m', i)
  {
    assert m.pm.cmd == Some(i);
    hide Inv, Reaches;
    var m1 := Advance(s, m, MonitorFetch(i), i);
    assert HelpersDone(m1.runs[i]);
    hide Ends, Kept;
    m' := WaitingEnds(s, m1, i);
    EndsAfter(s, m, m1, m', i);
  }

  lemma MonitorEnds(s: State, m: State, i: nat) returns (m': State)
    requires Reaches(s, m) && Inv(m) && i < |m.runs| && HelpersDone(m.runs[i])
    ensures Ends(s, m, m', i)
  {
    match m.runs[i].monitor
    case Fetch => m' := FetchEnds(s, m, i);
    case Waiting(_, _) => m' := WaitingEnds(s, m, i);
    case Selecting(_, _, _) => m' := ExitEnds(s, m, i);
    case Cancelled(_, _) => m' := ExitEnds(s, m, i);
    case Enter => m' := EnterEnds(s, m, i);
    case Draining(_, _, _, _) => m' := DrainingEnds(s, m, i);
    case Decide(_) => m' := DecideEnds(s, m, i);
    case Callback(_) => m' := CallbackEnds(s, m, i);
    case Bump(_) => m' := BumpEnds(s, m, i);
    case Delay => m' := DelayEnds(s, m, i);
    case Reporting => m' := ReportEnds(s, m, i);
    case Failing => m' := ReportEnds(s, m, i);
    case Finished => m' := m;
  }

  /** The other goroutines of process i: its stderr is drained, its output read, its watchdog gone. */
  lemma HelpersEnd(s: State, m: State, i: nat) returns (m': State)
    requires Reaches(s, m) && Inv(m) && i < |m.runs|
    ensures Reaches(s, m') && Inv(m') && Kept(m, m', i) && i < |m'.runs| && HelpersDone(m'.runs[i])
    ensures m'.runs[i].monitor == m.runs[i].monitor
  {
    hide Inv, Reaches, Kept;
    var m1 := DrainEnds(s, m, i);
    var m2 := WatchdogEnds(s, m1, i);
    m' := Advance(s, m2, ReaderExit(i), i);
    KeptAfter(m, m1, m2, i);
    KeptAfter(m, m2, m', i);
  }

  lemma WatchdogEnds(s: State, m: State, i: nat) returns (m': State)
    requires Reaches(s, m) && Inv(m) && i < |m.runs|
    ensures Reaches(s, m') && Inv(m') && Kept(m, m', i) && i < |m'.runs| && m'.runs[i].watchdog.Quit?
    ensures m'.runs[i].monitor == m.runs[i].monitor && m'.runs[i].drain == m.runs[i].drain
  {
    hide Inv, Reaches, Kept;
    var m1 := m;
    if m.runs[i].watchdog.Arming? { m1 := Advance(s, m, WatchdogArm(i), i); } else { KeptItself(m, i); }
    m' := m1;
    if m1.runs[i].watchdog.Watching? { m' := Advance(s, m1, WatchdogFire(i), i); } else { KeptItself(m1, i); }
    KeptAfter(m, m1, m', i);
  }

  lemma KeptItself(m: State, i: nat)
    ensures Kept(m, m, i)
  {
  }

  lemma KeptAfter(m: State, m1: State, m': State, i: nat)
    requires Kept(m, m1, i) && Kept(m1, m', i)
    ensures Kept(m, m', i)
  {
  }

  lemma DrainEnds(s: State, m: State, i: nat) returns (m': State)
    requires Reaches(s, m) && Inv(m) && i < |m.runs|
    ensures Reaches(s, m') && Inv(m') && Kept(m, m', i) && i < |m'.runs| && m'.runs[i].drain.Drained?
    ensures m'.runs[i].monitor == m.runs[i].monitor
  {
    hide Reaches, Kept;
    var m1 := m;
    if m.runs[i].drain.Begin? { m1 := Advance(s, m, DrainBegin(i), i); } else { KeptItself(m, i); }
    assert RunOk(m1.runs[i], i);
    m' := m1;
    if m1.runs[i].drain.Reading? { m' := Advance(s, m1, DrainClose(i), i); } else { KeptItself(m1, i); }
    KeptAfter(m, m1, m', i);
  }

  predicate QuietBelow(m: State, n: nat) {
    forall j | 0 <= j < n && j < |m.runs| :: HelpersDone(m.runs[j]) && m.runs[j].monitor.Finished?
  }

  lemma {:induction false} AllEnd(s: State, m: State, n: nat) returns (m': State)
    requires Reaches(s, m) && Inv(m) && n <= |m.runs|
    ensures Reaches(s, m') && Inv(m') && |m'.runs| == |m.runs| && m'.stops == m.stops && QuietBelow(m', n)
  {
    if n == 0 {
      m' := m;
    } else {
      hide Inv, Reaches;
      var i := n - 1;
      var m1 := AllEnd(s, m, i);
      var m2 := HelpersEnd(s, m1, i);
      m' := MonitorEnds(s, m2, i);
      assert HelpersDone(m'.runs[i]);
    }
  }

  /** From any state that a disciplined run can reach, every Stop in progress can return. */
  lemma EveryStopCanReturn(s: State, t: nat)
    requires Inv(s) && t in s.stops
    ensures exists s' :: Reaches(s, s') && t !in s'.stops
  {
    var m := s;
    ReachesItself(s);
    if s.stops[t].Blocked? {
      BlockedStopCanPass(s, t);
      m :| Reaches(s, m) && t in m.stops && m.stops[t].Joining?;
      ReachedKeepsInv(s, m);
    }
    if !m.stops[t].Finalizing? {
      m := AllEnd(s, m, |m.runs|);
      m := Go(s, m, StopJoined(t));
    }
    m := Go(s, m, StopFinal(t));
  }
}
