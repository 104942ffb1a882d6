/**
 Theorems about whole runs: safety of every disciplined run, the exact condition under which a call
 of Start is harmless, and that a blocked Stop can always be released.
 */
module StartCondition {
  import opened Common
  import opened ProcessLifecycle
  import opened LifecycleSafety

  // ---- Safety of whole runs ----

  lemma {:induction false} DisciplinedRunKeepsInv(s: State, acts: seq<Action>)
    requires Inv(s) && Exec(s, acts).Some? && Disciplined(s, acts)
    ensures Inv(Exec(s, acts).value)
  {
    if acts != [] {
      var n := |acts| - 1;
      DisciplinedPrefix(s, acts, n);
      DisciplinedRunKeepsInv(s, acts[..n]);
      StepKeepsInv(Exec(s, acts[..n]).value, acts[n]);
    }
  }

  /** Under every interleaving of Stop, exits, restarts and the helpers, a disciplined run stays clean. */
  lemma {:induction false} EveryDisciplinedRunIsClean(containerized: bool, acts: seq<Action>)
    requires Exec(Init(containerized), acts).Some? && Disciplined(Init(containerized), acts)
    ensures Clean(Exec(Init(containerized), acts).value)
  {
    DisciplinedRunKeepsInv(Init(containerized), acts);
    InvIsClean(Exec(Init(containerized), acts).value);
  }

  lemma {:induction false} NothingBeforeTheFirstLaunch(s: State, acts: seq<Action>)
    requires Inv(s) && s.runs == [] && Exec(s, acts).Some?
    requires forall k | 0 <= k < |acts| :: acts[k].Start? ==> !acts[k].ok
    ensures Inv(Exec(s, acts).value) && Exec(s, acts).value.runs == []
  {
    if acts != [] {
      var n := |acts| - 1;
      NothingBeforeTheFirstLaunch(s, acts[..n]);
      var m := Exec(s, acts[..n]).value;
      assert !m.pm.running && MayStart(m);
      StepKeepsInv(m, acts[n]);
    }
  }

  /** The Runner starts each ProcessManager successfully at most once: that is always disciplined. */
  lemma {:induction false} OneSuccessfulStartIsDisciplined(containerized: bool, acts: seq<Action>)
    requires forall j, k | 0 <= j < k < |acts| && acts[j].Start? && acts[j].ok :: !acts[k].Start?
    ensures Disciplined(Init(containerized), acts)
  {
    var s0 := Init(containerized);
    forall k | 0 <= k < |acts| && acts[k].Start? && Exec(s0, acts[..k]).Some?
      ensures MayStart(Exec(s0, acts[..k]).value)
    {
      NothingBeforeTheFirstLaunch(s0, acts[..k]);
    }
  }

  // ---- A further Start: exactly when it is harmless ----

  ghost predicate Reaches(s: State, s': State) {
    exists acts: seq<Action> :: Exec(s, acts) == Some(s') && forall a | a in acts :: !a.Start?
  }

  /** Whatever happens after this call of Start, short of another call, stays clean. */
  ghost predicate StartIsHarmless(s: State) {
    forall s' | Reaches(Next(s, Start(true)).value, s') :: Clean(s')
  }

  lemma ReachesItself(s: State)
    ensures Reaches(s, s)
  {
    assert Exec(s, []) == Some(s);
  }

  lemma ReachesNext(s: State, m: State, a: Action, s': State)
    requires Reaches(s, m) && !a.Start? && Next(m, a) == Some(s')
    ensures Reaches(s, s')
  {
    hide Next;
    var acts: seq<Action> :| Exec(s, acts) == Some(m) && forall b | b in acts :: !b.Start?;
    assert (acts + [a])[..|acts|] == acts;
    assert Exec(s, acts + [a]) == Some(s');
  }

  lemma ReachedKeepsInv(s: State, s': State)
    requires Inv(s) && Reaches(s, s')
    ensures Inv(s')
  {
    var acts: seq<Action> :| Exec(s, acts) == Some(s') && forall a | a in acts :: !a.Start?;
    assert forall k | 0 <= k < |acts| :: !acts[k].Start? by {
      assert forall k | 0 <= k < |acts| :: acts[k] in acts;
    }
    DisciplinedRunKeepsInv(s, acts);
  }

  /** One step of a run that leads to harm. */
  lemma Go(s: State, m: State, a: Action) returns (s': State)
    requires Reaches(s, m) && !a.Start? && Next(m, a).Some?
    ensures Next(m, a) == Some(s') && Reaches(s, s')
  {
    s' := Next(m, a).value;
    ReachesNext(s, m, a, s');
  }

  /** Once the newest process n has lost its cmd field, its monitor never waits for it. */
  lemma LostCmdHarms(s: State, m: State, n: nat)
    requires Reaches(s, m) && n < |m.runs| && m.runs[n].monitor.Fetch? && m.runs[n].waits == 0
    requires m.pm.cmd.None? && (m.pm.waitDone.Some? ==> m.pm.waitDone.value < |m.runs|)
    ensures exists s' :: Reaches(s, s') && !Clean(s')
  {
    var s' := Go(s, m, MonitorFetch(n));
    assert s'.runs[n].waits == 0 && s'.runs[n].monitor.Finished?;
  }

  /** The drain goroutine of process n reads its channel field and closes that channel. */
  lemma DrainRuns(s: State, m: State, n: nat, c: nat) returns (m': State)
    requires Reaches(s, m) && n < |m.runs| && c < |m.runs| && m.runs[n].drain.Begin? && m.pm.stderrDone == Some(c)
    ensures Reaches(s, m') && |m'.runs| == |m.runs| && m'.pm == m.pm
    ensures m'.runs[c].stderrDoneCloses == m.runs[c].stderrDoneCloses + 1
    ensures forall k | 0 <= k < |m.runs| ::
              m'.runs[k].monitor == m.runs[k].monitor && m'.runs[k].waits == m.runs[k].waits
              && (k != n ==> m'.runs[k].drain == m.runs[k].drain)
  {
    var m1 := Go(s, m, DrainBegin(n));
    m' := Go(s, m1, DrainClose(n));
  }

  /** An older monitor that enters handleExit while process n runs wipes n's fields. */
  lemma OldHandlerHarms(s: State, m: State, i: nat, n: nat)
    requires Reaches(s, m) && i < n < |m.runs|
    requires m.runs[i].monitor.Enter? && m.pm.running && m.pm.stderrDone == Some(n)
    requires m.runs[n].monitor.Fetch? && m.runs[n].waits == 0 && m.runs[n].drain.Begin?
    ensures exists s' :: Reaches(s, s') && !Clean(s')
  {
    var m1 := Go(s, m, HandleExit(i));
    var m3 := DrainRuns(s, m1, n, n);
    var m4 := Go(s, m3, Cleanup(i));
    LostCmdHarms(s, m4, n);
  }

  /** Two monitors fetch the same process. */
  lemma TwoFetchesHarm(s: State, m: State, i: nat, n: nat)
    requires Reaches(s, m) && i < n < |m.runs| && m.pm.cmd == Some(n)
    requires m.runs[i].monitor.Fetch? && m.runs[n].monitor.Fetch? && m.runs[n].waits == 0
    ensures exists s' :: Reaches(s, s') && !Clean(s')
  {
    var m1 := Go(s, m, MonitorFetch(i));
    var m2 := Go(s, m1, MonitorFetch(n));
    assert m2.runs[n].waits == 2;
  }

  lemma RestartAfterStopHarms(s: State, m: State, i: nat, n: nat)
    requires Reaches(s, m) && i < n && |m.runs| == n + 1
    requires m.runs[i].monitor.Delay? && !m.pm.running && m.runs[n].monitor.Fetch?
    ensures exists s' :: Reaches(s, s') && !Clean(s')
  {
    hide Reaches, Clean;
    var m1 := Go(s, m, Restart(i, true));
    TwoFetchesHarm(s, m1, n, n + 1);
  }

  /** A monitor that may restart launches behind the back of process n once n was stopped. */
  lemma DelayedRestartHarms(s: State, m: State, i: nat, n: nat)
    requires Reaches(s, m) && i < n && |m.runs| == n + 1
    requires m.runs[i].monitor.Delay? && m.pm.running && m.runs[n].monitor.Fetch?
    ensures exists s' :: Reaches(s, s') && !Clean(s')
  {
    var t := FreshNat(m.stops.Keys);
    var m1 := Go(s, m, StopEnter(t));
    RestartAfterStopHarms(s, m1, i, n);
  }

  predicate Behind(m: State, i: nat, n: nat) {
    && i < n && |m.runs| == n + 1 && m.pm.running && !m.pm.containerTimeout && m.runs[n].monitor.Fetch?
  }

  lemma PendingBumpHarms(s: State, m: State, i: nat, n: nat)
    requires Reaches(s, m) && Behind(m, i, n) && m.runs[i].monitor.Bump?
    ensures exists s' :: Reaches(s, s') && !Clean(s')
  {
    var m1 := Go(s, m, StoreAttempt(i));
    DelayedRestartHarms(s, m1, i, n);
  }

  lemma PendingCallbackHarms(s: State, m: State, i: nat, n: nat)
    requires Reaches(s, m) && Behind(m, i, n)
    requires m.runs[i].monitor.Callback? && m.runs[i].monitor.tries < MAX_RESTART_ATTEMPTS
    ensures exists s' :: Reaches(s, s') && !Clean(s')
  {
    var m1 := Go(s, m, OnProcessExit(i, true));
    PendingBumpHarms(s, m1, i, n);
  }

  lemma PendingRestartHarms(s: State, m: State, i: nat, n: nat)
    requires Reaches(s, m) && Behind(m, i, n) && MayRestart(m.runs[i].monitor)
    ensures exists s' :: Reaches(s, s') && !Clean(s')
  {
    match m.runs[i].monitor
    case Decide(_) =>
      var m1 := Go(s, m, CheckTimeout(i));
      PendingCallbackHarms(s, m1, i, n);
    case Callback(_) => PendingCallbackHarms(s, m, i, n);
    case Bump(_) => PendingBumpHarms(s, m, i, n);
    case Delay => DelayedRestartHarms(s, m, i, n);
  }

  /** An unspent monitor of an earlier process breaks a continuation. */
  lemma UnspentMonitorHarms(s: State, i: nat)
    requires Inv(s) && !s.pm.running && i < |s.runs| && !Spent(s.runs[i].monitor) && !s.runs[i].drain.Begin?
    ensures exists s' :: Reaches(Launch(s, false), s') && !Clean(s')
  {
    var m, n := Launch(s, false), |s.runs|;
    ReachesItself(m);
    assert RunOk(s.runs[i], i);
    var r, r' := s.runs[i], m.runs[i];
    assert r' == r.(ctxCancelled := r'.ctxCancelled);
    if MayRestart(r.monitor) {
      PendingRestartHarms(m, m, i, n);
    } else {
      LeftoverMonitorHarms(m, i, n);
    }
  }

  /** Every leftover that MayStart excludes really breaks a continuation. */
  lemma LeftoverHarms(s: State)
    requires Inv(s) && !MayStart(s)
    ensures !StartIsHarmless(s)
  {
    hide Reaches, Clean;
    var m, n := Launch(s, false), |s.runs|;
    ReachesItself(m);
    if t :| t in s.stops && s.stops[t].Finalizing? {
      var m1 := Go(m, m, StopFinal(t));
      LostCmdHarms(m, m1, n);
    } else if i :| 0 <= i < n && s.runs[i].drain.Begin? {
      LeftoverDrainHarms(m, i, n);
    } else {
      var i :| 0 <= i < n && !Spent(s.runs[i].monitor);
      UnspentMonitorHarms(s, i);
    }
  }

  /** A drain that has not yet looked up its channel closes the channel of process n, which n closes too. */
  lemma LeftoverDrainHarms(m: State, i: nat, n: nat)
    requires i < n < |m.runs| && m.pm.stderrDone == Some(n)
    requires m.runs[i].drain.Begin? && m.runs[n].drain.Begin? && m.runs[n].stderrDoneCloses == 0
    ensures exists s' :: Reaches(m, s') && !Clean(s')
  {
    ReachesItself(m);
    var m1 := DrainRuns(m, m, i, n);
    var m2 := DrainRuns(m, m1, n, n);
    assert m2.runs[n].stderrDoneCloses == 2;
  }

  lemma OldSelectHarms(s: State, m: State, i: nat, n: nat)
    requires Reaches(s, m) && i < n < |m.runs|
    requires m.runs[i].monitor.Selecting? && m.runs[i].monitor.cmd == i && m.runs[i].monitor.waitDone == Some(i)
    requires m.pm.running && m.pm.stderrDone == Some(n)
    requires m.runs[n].monitor.Fetch? && m.runs[n].waits == 0 && m.runs[n].drain.Begin?
    ensures exists s' :: Reaches(s, s') && !Clean(s')
  {
    var m1 := Go(s, m, ProcessExit(i));
    var m2 := Go(s, m1, MonitorDone(i));
    OldHandlerHarms(s, m2, i, n);
  }

  lemma OldCleanupHarms(m: State, i: nat, n: nat)
    requires i < n < |m.runs| && m.runs[n].monitor.Fetch? && m.runs[n].waits == 0
    requires m.runs[i].monitor.Draining? && m.runs[i].monitor.stderrDone == Some(i)
    requires m.runs[i].drain == Reading(Some(i)) || m.runs[i].stderrDoneCloses > 0
    ensures exists s' :: Reaches(m, s') && !Clean(s')
  {
    ReachesItself(m);
    var m1 := m;
    if m.runs[i].stderrDoneCloses == 0 { m1 := Go(m, m, DrainClose(i)); }
    var m2 := Go(m, m1, Cleanup(i));
    LostCmdHarms(m, m2, n);
  }

  lemma LeftoverMonitorHarms(m: State, i: nat, n: nat)
    requires i < n && |m.runs| == n + 1 && Holding(m.runs[i].monitor) && LocalsOk(m.runs[i].monitor, i)
    requires m.pm.running && m.pm.cmd == Some(n) && m.pm.stderrDone == Some(n)
    requires m.runs[n].monitor.Fetch? && m.runs[n].waits == 0 && m.runs[n].drain.Begin?
    requires m.runs[i].drain == Reading(Some(i)) || m.runs[i].stderrDoneCloses > 0
    ensures exists s' :: Reaches(m, s') && !Clean(s')
  {
    ReachesItself(m);
    match m.runs[i].monitor
    case Fetch => TwoFetchesHarm(m, m, i, n);
    case Waiting(_, _) =>
      var m1 := Go(m, m, MonitorSelect(i));
      OldSelectHarms(m, m1, i, n);
    case Selecting(_, _, _) => OldSelectHarms(m, m, i, n);
    case Enter => OldHandlerHarms(m, m, i, n);
    case Draining(_, _, _, _) => OldCleanupHarms(m, i, n);
  }

  /**
   The exact condition: in any state a disciplined run can reach, a call of Start that launches a
   process is harmless if and only if MayStart holds.
   */
  lemma StartIsHarmlessExactlyWhen(s: State)
    requires Inv(s)
    ensures StartIsHarmless(s) <==> MayStart(s)
  {
    if MayStart(s) {
      var m := Next(s, Start(true)).value;
      StepKeepsInv(s, Start(true));
      forall s' | Reaches(m, s') ensures Clean(s') {
        ReachedKeepsInv(m, s');
        InvIsClean(s');
      }
    } else {
      LeftoverHarms(s);
    }
  }

  /** In particular Start may follow a Stop that has returned: all goroutines are gone, no Stop is in flight. */
  lemma MayStartAfterStopReturned(s: State)
    requires AllQuiet(s.runs) && s.stops == map[]
    ensures MayStart(s)
  {
    forall i | 0 <= i < |s.runs| ensures Spent(s.runs[i].monitor) && !s.runs[i].drain.Begin? {
      assert s.runs[i].monitor.Finished?;
    }
  }

  // ---- A blocked Stop is never abandoned ----

  /** The channel waitDone of process w can be closed from m by steps that leave the Stop threads alone. */
  ghost predicate CanClose(s: State, m: State, w: nat) {
    exists m' :: Reaches(s, m') && m'.stops == m.stops && WaitDoneClosed(m'.runs, Some(w))
  }

  lemma ExitedMonitorCloses(s: State, m: State, w: nat)
    requires Reaches(s, m) && w < |m.runs| && m.runs[w].exited && LocalsOk(m.runs[w].monitor, w)
    requires m.runs[w].monitor.Selecting? || m.runs[w].monitor.Cancelled?
    ensures CanClose(s, m, w)
  {
    if m.runs[w].monitor.Selecting? {
      var m1 := Go(s, m, MonitorDone(w));
      assert WaitDoneClosed(m1.runs, Some(w));
    } else {
      var m1 := Go(s, m, MonitorConsume(w));
      assert WaitDoneClosed(m1.runs, Some(w));
    }
  }

  lemma SelectedMonitorCloses(s: State, m: State, w: nat)
    requires Reaches(s, m) && w < |m.runs| && LocalsOk(m.runs[w].monitor, w)
    requires m.runs[w].monitor.Selecting? || m.runs[w].monitor.Cancelled?
    ensures CanClose(s, m, w)
  {
    var m1 := Go(s, m, ProcessExit(w));
    ExitedMonitorCloses(s, m1, w);
  }

  lemma WaitingMonitorCloses(s: State, m: State, w: nat)
    requires Reaches(s, m) && w < |m.runs| && m.pm.ctx == Some(w)
    requires m.runs[w].monitor.Waiting? && LocalsOk(m.runs[w].monitor, w)
    ensures CanClose(s, m, w)
  {
    var m1 := Go(s, m, MonitorSelect(w));
    SelectedMonitorCloses(s, m1, w);
  }

  lemma FetchingMonitorCloses(s: State, m: State, w: nat)
    requires Reaches(s, m) && w < |m.runs| && m.runs[w].monitor.Fetch?
    requires m.pm.cmd == Some(w) && m.pm.waitDone == Some(w) && m.pm.ctx == Some(w)
    ensures CanClose(s, m, w)
  {
    var m1 := Go(s, m, MonitorFetch(w));
    WaitingMonitorCloses(s, m1, w);
  }

  /**
   Wherever a Stop blocks on waitDone, the monitor of that process can still close it, so the Stop
   can pass: no interleaving leaves a Stop blocked for good.
   */
  lemma BlockedStopCanPass(s: State, t: nat)
    requires Inv(s) && t in s.stops && s.stops[t].Blocked?
    ensures exists s' :: Reaches(s, s') && t in s'.stops && s'.stops[t].Joining?
  {
    ReachesItself(s);
    var w := s.stops[t].waitDone.value;
    assert RunOk(s.runs[w], w);
    if s.runs[w].monitor.Fetch? { FetchingMonitorCloses(s, s, w); }
    else if s.runs[w].monitor.Waiting? { WaitingMonitorCloses(s, s, w); }
    else if BeforeClose(s.runs[w].monitor) { SelectedMonitorCloses(s, s, w); }
    else { assert WaitDoneClosed(s.runs, Some(w)); }
    assert CanClose(s, s, w);
    var m :| Reaches(s, m) && m.stops == s.stops && WaitDoneClosed(m.runs, Some(w));
    m := Go(s, m, StopPass(t));
  }

  /**
   handleExit's test for a cancelled context never succeeds: while running is set, Stop has not
   cancelled, and it clears both under one lock. RestartReach says exactly when a Stop prevents a restart.
   */
  lemma CancelledTestIsDead(s: State, i: nat)
    requires Inv(s) && i < |s.runs| && s.runs[i].monitor.Enter? && s.pm.running
    ensures Next(s, HandleExit(i)).Some?
    ensures !Next(s, HandleExit(i)).value.runs[i].monitor.cancelled
  {
    assert RunOk(s.runs[i], i);
    StepKeepsInv(s, HandleExit(i));
    assert RunOk(Next(s, HandleExit(i)).value.runs[i], i);
  }
}
