/**
 The ProcessManager object: the fields that its mutex guards, and the channels and the context that Start
 creates for each process. Every method is one lock section or one channel operation, performed on real
 objects; closing a channel requires that it is still open. Each of them carries out exactly the step of
 ProcessLifecycle that models it. The steps that only wait or move a goroutine on without touching the object
 have no method.
 */
module ProcessManager {
  import opened Common
  import opened ProcessLifecycle
  import opened LifecycleSafety

  /** What Start creates for one process: three channels that are only ever closed, and a context. */
  class Process {
    const number: nat
    var waitDone: bool               // closed
    var stderrDone: bool             // closed
    var ready: bool                  // closed
    var cancelled: bool

    constructor (number: nat)
      ensures this.number == number && !waitDone && !stderrDone && !ready && !cancelled
    {
      this.number, waitDone, stderrDone, ready, cancelled := number, false, false, false, false;
    }

    /** close panics on a closed channel. */
    method CloseWaitDone()
      requires !waitDone
      modifies this`waitDone
      ensures waitDone
    {
      waitDone := true;
    }

    method CloseStderrDone()
      requires !stderrDone
      modifies this`stderrDone
      ensures stderrDone
    {
      stderrDone := true;
    }

    method CloseReady()
      requires !ready
      modifies this`ready
      ensures ready
    {
      ready := true;
    }

    ghost predicate Tracks(n: nat, r: Run)
      reads this
    {
      && number == n
      && waitDone == (r.waitDoneCloses > 0) && stderrDone == (r.stderrDoneCloses > 0)
      && ready == (r.readyCloses > 0) && cancelled == r.ctxCancelled
    }
  }

  ghost predicate Tracked(ps: seq<Process>, runs: seq<Run>)
    requires |ps| == |runs|
    reads ps
  {
    forall i | 0 <= i < |ps| :: ps[i].Tracks(i, runs[i])
  }

  predicate Known(p: Process?, ps: seq<Process>) {
    p != null ==> p.number < |ps| && p == ps[p.number]
  }

  // ---- Channel operations on real objects and on their records ----

  /** A cancel function may be called any number of times. */
  method CancelContext(p: Process?, ps: seq<Process>, ghost runs: seq<Run>)
    requires |ps| == |runs| && Tracked(ps, runs) && Known(p, ps)
    modifies ps
    ensures Tracked(ps, CancelCtx(runs, Number(p))) && (p != null ==> p.cancelled)
  {
    if p != null { p.cancelled := true; }
  }

  /** The guarded close of containerReady. */
  method CloseReadyOnce(p: Process?, ps: seq<Process>, ghost runs: seq<Run>)
    requires |ps| == |runs| && Tracked(ps, runs) && Known(p, ps)
    modifies ps
    ensures Tracked(ps, CloseReady(runs, Number(p))) && (p != null ==> p.ready)
  {
    if p != null {
      assert p.Tracks(p.number, runs[p.number]);
      if !p.ready { p.CloseReady(); }
    }
  }

  /** monitorExit's unguarded close. */
  method SignalWaitDone(p: Process?, ps: seq<Process>, ghost runs: seq<Run>)
    requires |ps| == |runs| && Tracked(ps, runs) && Known(p, ps)
    requires p != null ==> runs[p.number].waitDoneCloses == 0
    modifies ps
    ensures Tracked(ps, CloseWaitDone(runs, Number(p)))
  {
    if p != null {
      assert p.Tracks(p.number, runs[p.number]);
      p.CloseWaitDone();
    }
  }

  /** drainStderr's deferred close. */
  method SignalStderrDone(p: Process, ps: seq<Process>, ghost runs: seq<Run>)
    requires |ps| == |runs| && Tracked(ps, runs) && Known(p, ps) && runs[p.number].stderrDoneCloses == 0
    modifies ps
    ensures Tracked(ps, runs[p.number := runs[p.number].(stderrDoneCloses := 1)])
  {
    assert p.Tracks(p.number, runs[p.number]);
    p.CloseStderrDone();
  }

  function Number(p: Process?): Option<nat> {
    if p == null then None else Some(p.number)
  }

  class ProcessManager {
    const containerized: bool
    var cmd: Process?
    var waitDone: Process?
    var stderrDone: Process?
    var running: bool
    var interrupted: bool
    var restartAttempts: nat
    var ctx: Process?
    var cancel: Process?
    var containerReady: Process?
    var containerTimeout: bool
    var processes: seq<Process>      // in the order of their starts
    ghost var model: State

    /** The guarded fields, with every pointer replaced by the number of the process it was created for. */
    ghost function Snapshot(): Fields
      reads this
    {
      Fields(Number(cmd), Number(waitDone), Number(stderrDone), running, interrupted, restartAttempts,
             Number(ctx), Number(cancel), Number(containerReady), containerTimeout)
    }

    ghost predicate Valid()
      reads this, processes
    {
      && model.containerized == containerized && model.pm == Snapshot()
      && |processes| == |model.runs| && Tracked(processes, model.runs)
      && Known(cmd, processes) && Known(waitDone, processes) && Known(stderrDone, processes)
      && Known(containerReady, processes) && Known(ctx, processes) && Known(cancel, processes)
    }

    constructor (containerized: bool)
      ensures Valid() && processes == [] && model == Init(containerized) && Inv(model)
    {
      this.containerized := containerized;
      cmd, waitDone, stderrDone, running, interrupted, restartAttempts := null, null, null, false, false, 0;
      ctx, cancel, containerReady, containerTimeout := null, null, null, false;
      processes, model := [], Init(containerized);
    }

    /** cmd.Start succeeded: new channels and a new context, four goroutines. */
    method Create(ghost byRestart: bool)
      requires Valid()
      modifies this
      ensures Valid() && |processes| == |old(processes)| + 1 && processes[..|old(processes)|] == old(processes)
      ensures fresh(processes[|old(processes)|])
      ensures model == old(model).(pm := StartFields(old(model).pm, containerized, |old(model).runs|),
                                   runs := old(model).runs + [FreshRun(containerized)],
                                   log := old(model).log + [Started(byRestart)])
    {
      hide Tracked;
      var p := new Process(|processes|);
      Register(p, byRestart);
      Point(p);
    }

    /** Every pointer of the new process. */
    method Point(p: Process)
      requires Valid() && |processes| > 0 && p == processes[|processes| - 1]
      requires p.number == |processes| - 1
      modifies this`cmd, this`stderrDone, this`waitDone, this`running, this`ctx, this`cancel,
               this`containerReady, this`containerTimeout, this`model
      ensures Valid() && model == old(model).(pm := StartFields(old(model).pm, containerized, p.number))
    {
      hide Tracked, Valid, Snapshot;
      PointChannels(p);
      PointContext(p);
      PointReady(p);
    }

    method PointChannels(p: Process)
      requires Valid() && Known(p, processes)
      modifies this`cmd, this`stderrDone, this`waitDone, this`running, this`model
      ensures Valid()
      ensures model == old(model).(pm := old(model).pm.(cmd := Some(p.number), stderrDone := Some(p.number),
                                                        waitDone := Some(p.number), running := true))
    {
      hide Tracked;
      cmd, stderrDone, waitDone, running := p, p, p, true;
      model := model.(pm := model.pm.(cmd := Some(p.number), stderrDone := Some(p.number),
                                      waitDone := Some(p.number), running := true));
    }

    method PointContext(p: Process)
      requires Valid() && Known(p, processes)
      modifies this`ctx, this`cancel, this`model
      ensures Valid()
      ensures model == old(model).(pm := old(model).pm.(ctx := Some(p.number), cancel := Some(p.number)))
    {
      hide Tracked;
      ctx, cancel := p, p;
      model := model.(pm := model.pm.(ctx := Some(p.number), cancel := Some(p.number)));
    }

    method PointReady(p: Process)
      requires Valid() && Known(p, processes)
      modifies this`containerReady, this`containerTimeout, this`model
      ensures Valid()
      ensures model == if !containerized then old(model)
                       else old(model).(pm := old(model).pm.(containerReady := Some(p.number),
                                                             containerTimeout := false))
    {
      hide Tracked;
      if containerized {
        containerReady, containerTimeout := p, false;
        model := model.(pm := model.pm.(containerReady := Some(p.number), containerTimeout := false));
      }
    }

    method Register(p: Process, ghost byRestart: bool)
      requires Valid() && p !in processes && p.Tracks(|processes|, FreshRun(containerized))
      modifies this`processes, this`model
      ensures Valid() && processes == old(processes) + [p]
      ensures model == old(model).(runs := old(model).runs + [FreshRun(containerized)],
                                   log := old(model).log + [Started(byRestart)])
    {
      processes := processes + [p];
      model := model.(runs := model.runs + [FreshRun(containerized)], log := model.log + [Started(byRestart)]);
    }

    method Launch(ghost byRestart: bool)
      requires Valid()
      modifies this, processes
      ensures Valid() && model == ProcessLifecycle.Launch(old(model), byRestart)
      ensures old(cancel) != null ==> old(cancel).cancelled
      ensures |processes| == |old(processes)| + 1 && fresh(processes[|old(processes)|])
              && processes[..|old(processes)|] == old(processes)
    {
      hide Tracked, StartFields, CancelCtx;
      CancelContext(cancel, processes, model.runs);
      model := model.(runs := CancelCtx(model.runs, Number(cancel)));
      Create(byRestart);
    }

    /**
     A caller's Start; ok is the outcome of the operating system's part. The invariant survives when MayStart
     held, which is exactly when the call is harmless.
     */
    method Start(ok: bool) returns (err: bool)
      requires Valid() && Inv(model)
      modifies this, processes
      ensures Valid() && Some(model) == Next(old(model), ProcessLifecycle.Start(ok))
      ensures old(MayStart(model)) ==> Inv(model)
      ensures err <==> !old(running) && !ok
      ensures running <==> old(running) || ok
    {
      hide Inv, MayStart, Tracked, Next;
      StartStep(model, ok);
      if running { return false; }
      if !ok { return true; }
      Launch(false);
      return false;
    }

    /** Stop up to the wait: cancel the context and, when running, claim the shutdown. */
    method StopEnter(ghost t: nat) returns (wasRunning: bool, wait: Process?)
      requires Valid() && Inv(model) && t !in model.stops
      modifies this, processes
      ensures Valid() && Inv(model) && Some(model) == Next(old(model), ProcessLifecycle.StopEnter(t))
      ensures wasRunning == old(running) && !running && cancel == null
      ensures old(cancel) != null ==> old(cancel).cancelled
      ensures wasRunning ==> wait == old(waitDone)
    {
      hide Inv, Tracked, Next, CancelCtx;
      StopEnterStep(model, t);
      CancelContext(cancel, processes, model.runs);
      wasRunning, wait := running, waitDone;
      cancel, running := null, false;
      model := model.(runs := CancelCtx(model.runs, model.pm.cancel), pm := StopFields(model.pm),
                      stops := if wasRunning then model.stops[t := Stopping(model.pm)] else model.stops);
    }

    /** The last lock section of Stop. */
    method StopFinal(ghost t: nat)
      requires Valid() && Inv(model) && t in model.stops && model.stops[t].Finalizing?
      modifies this`cmd, this`model
      ensures Valid() && Inv(model) && Some(model) == Next(old(model), ProcessLifecycle.StopFinal(t))
      ensures cmd == null
    {
      hide Inv, Tracked, Next;
      StopFinalStep(model, t);
      cmd := null;
      model := model.(pm := model.pm.(cmd := None), stops := model.stops - {t});
    }

    method ResetRestartAttempts()
      requires Valid() && Inv(model)
      modifies this`restartAttempts, this`model
      ensures Valid() && Inv(model) && Some(model) == Next(old(model), ProcessLifecycle.ResetRestartAttempts)
      ensures restartAttempts == 0
    {
      hide Inv, Tracked, Next;
      ResetStep(model);
      restartAttempts := 0;
      model := model.(pm := model.pm.(restartAttempts := 0));
    }

    method SetInterrupted(value: bool)
      requires Valid() && Inv(model)
      modifies this`interrupted, this`model
      ensures Valid() && Inv(model) && Some(model) == Next(old(model), ProcessLifecycle.SetInterrupted(value))
      ensures interrupted == value
    {
      hide Inv, Tracked, Next;
      InterruptStep(model, value);
      interrupted := value;
      model := model.(pm := model.pm.(interrupted := value));
    }

    method MarkSessionStarted()
      requires Valid() && Inv(model)
      modifies processes, this`model
      ensures Valid() && Inv(model) && Some(model) == Next(old(model), ProcessLifecycle.MarkSessionStarted)
      ensures containerReady != null ==> containerReady.ready
    {
      hide Inv, Tracked, CloseReady, Next;
      MarkStep(model);
      CloseReadyOnce(containerReady, processes, model.runs);
      model := model.(runs := CloseReady(model.runs, model.pm.containerReady));
    }

    /** monitorExit, first section: the process to wait for and the channel to signal. */
    method FetchProcess(ghost i: nat) returns (process: Process?, done: Process?)
      requires Valid() && Inv(model) && i < |model.runs| && model.runs[i].monitor.Fetch?
      modifies this`model
      ensures Valid() && Inv(model) && Some(model) == Next(old(model), MonitorFetch(i))
      ensures Number(process) == Some(i) && Number(done) == Some(i) && Known(done, processes)
      ensures model.runs[i].monitor == Waiting(i, Number(done))
    {
      hide Inv, Tracked, Next;
      FetchStep(model, i);
      process, done := cmd, waitDone;
      ghost var r := model.runs[i].(waits := model.runs[i].waits + 1, monitor := Waiting(i, Some(i)));
      Untouched(processes, model.runs, i, r);
      model := model.(runs := model.runs[i := r]);
    }

    /** drainStderr when it begins: the channel it is going to close. */
    method BeginDrain(ghost i: nat) returns (channel: Process?)
      requires Valid() && Inv(model) && i < |model.runs| && model.runs[i].drain.Begin?
      modifies this`model
      ensures Valid() && Inv(model) && Some(model) == Next(old(model), DrainBegin(i))
      ensures Known(channel, processes) && model.runs[i].drain == Reading(Number(channel))
    {
      hide Inv, Tracked, Next;
      DrainBeginStep(model, i);
      channel := stderrDone;
      ghost var r := model.runs[i].(drain := Reading(Number(stderrDone)));
      Untouched(processes, model.runs, i, r);
      model := model.(runs := model.runs[i := r]);
    }

    /** The startup watchdog fires. */
    method ReportTimeout(ghost i: nat)
      requires Valid() && Inv(model) && i < |model.runs| && model.runs[i].watchdog.Watching?
      modifies this`containerTimeout, this`model
      ensures Valid() && Inv(model) && Some(model) == Next(old(model), WatchdogFire(i))
      ensures containerTimeout
    {
      hide Inv, Tracked, Next;
      WatchdogStep(model, i);
      containerTimeout := true;
      ghost var r := model.runs[i].(watchdog := Quit);
      Untouched(processes, model.runs, i, r);
      model := model.(pm := model.pm.(containerTimeout := true), runs := model.runs[i := r]);
    }

    /** handleExit, third section: whether the startup timed out. */
    method CheckTimeout(ghost i: nat, tries: nat) returns (timedOut: bool)
      requires Valid() && Inv(model) && i < |model.runs| && model.runs[i].monitor == Decide(tries)
      modifies this`model
      ensures Valid() && Inv(model) && Some(model) == Next(old(model), ProcessLifecycle.CheckTimeout(i))
      ensures timedOut == containerTimeout && model.runs[i].monitor == if timedOut then Failing else Callback(tries)
    {
      hide Inv, Tracked, Next;
      TimeoutStep(model, i);
      timedOut := containerTimeout;
      ghost var pc := if timedOut then Failing else Callback(tries);
      MonitorMoved(processes, model.runs, i, pc);
      model := SetMonitor(model, i, pc);
    }

    /** monitorExit after cmd.Wait: signal waitDone, then go on to handleExit or, when cancelled, end. */
    method WaitReturned(ghost a: Action, done: Process?)
      requires Valid() && Inv(model) && (a.MonitorDone? || a.MonitorConsume?) && Next(model, a).Some?
      requires Known(done, processes) && Number(done) == Held(model.runs[a.i].monitor)
      modifies processes, this`model
      ensures Valid() && Inv(model) && Some(model) == Next(old(model), a)
    {
      hide Inv, Tracked, Next;
      WaitReturnedStep(model, a);
      SignalWaitDone(done, processes, model.runs);
      model := model.(runs := CloseWaitDone(model.runs, Number(done)));
      MonitorMoved(processes, model.runs, a.i, if a.MonitorDone? then Enter else Finished);
      model := SetMonitor(model, a.i, if a.MonitorDone? then Enter else Finished);
    }

    /** The deferred close of drainStderr, on the channel it read when it began. */
    method StderrDrained(ghost i: nat, channel: Process)
      requires Valid() && Inv(model) && i < |model.runs| && model.runs[i].drain == Reading(Some(channel.number))
      requires Known(channel, processes)
      modifies processes, this`model
      ensures Valid() && Inv(model) && Some(model) == Next(old(model), DrainClose(i))
    {
      hide Inv, Tracked, Next;
      DrainStep(model, i);
      SignalStderrDone(channel, processes, model.runs);
      ghost var before := model.runs[i := model.runs[i].(stderrDoneCloses := 1)];
      DrainMoved(processes, before, i);
      model := model.(runs := before[i := before[i].(drain := Drained)]);
    }

    /** What the first section of handleExit reads, and the one field it writes. */
    method TakeLocals()
      returns (proceed: bool, wasInterrupted: bool, ctxCancelled: bool, attempts: nat, stderr: Process?)
      requires Valid()
      modifies this`interrupted, this`model
      ensures Valid() && proceed == old(running) && Known(stderr, processes)
      ensures ctxCancelled == CtxDone(old(model).runs, old(model).pm.ctx)
      ensures wasInterrupted == old(model).pm.interrupted && attempts == old(model).pm.restartAttempts
      ensures interrupted == (old(interrupted) && !proceed) && stderr == stderrDone
      ensures Number(stderr) == old(model).pm.stderrDone
      ensures model == if proceed then old(model).(pm := old(model).pm.(interrupted := false)) else old(model)
    {
      hide Tracked, CtxDone;
      ContextRead(ctx, processes, model.runs);
      proceed, wasInterrupted, attempts, stderr := running, interrupted, restartAttempts, stderrDone;
      ctxCancelled := ctx != null && ctx.cancelled;
      if running {
        interrupted := false;
        model := model.(pm := model.pm.(interrupted := false));
      }
    }

    /** handleExit, first lock section: nothing to do when Stop came first, else the locals for the rest. */
    method HandleExit(ghost i: nat)
      returns (proceed: bool, wasInterrupted: bool, ctxCancelled: bool, attempts: nat, stderr: Process?)
      requires Valid() && Inv(model) && i < |model.runs| && model.runs[i].monitor.Enter?
      modifies this`interrupted, this`model
      ensures Valid() && Inv(model) && Some(model) == Next(old(model), ProcessLifecycle.HandleExit(i))
      ensures proceed == old(running) && Known(stderr, processes)
      ensures wasInterrupted == old(interrupted) && interrupted == (old(interrupted) && !proceed)
      ensures attempts == restartAttempts && stderr == stderrDone
      ensures proceed ==>
                model.runs[i].monitor == Draining(wasInterrupted, ctxCancelled, attempts, Number(stderr))
    {
      hide Inv, Tracked, Next, CtxDone;
      EntryStep(model, i);
      proceed, wasInterrupted, ctxCancelled, attempts, stderr := TakeLocals();
      ghost var pc := if proceed then Draining(wasInterrupted, ctxCancelled, attempts, Number(stderr)) else Finished;
      MonitorMoved(processes, model.runs, i, pc);
      model := SetMonitor(model, i, pc);
    }

    method CleanupLocked()
      requires Valid()
      modifies this, processes
      ensures Valid() && processes == old(processes)
      ensures cmd == null && stderrDone == null && waitDone == null && !running
      ensures containerReady == old(containerReady) && (containerReady != null ==> containerReady.ready)
      ensures model == old(model).(pm := CleanupFields(old(model).pm),
                                   runs := CloseReady(old(model).runs, old(model).pm.containerReady))
    {
      hide Tracked, CloseReady;
      cmd, stderrDone, waitDone, running := null, null, null, false;
      CloseReadyOnce(containerReady, processes, model.runs);
      model := model.(pm := CleanupFields(model.pm), runs := CloseReady(model.runs, model.pm.containerReady));
    }

    /** handleExit once stderr was drained. */
    method Cleanup(ghost i: nat, wasInterrupted: bool, ctxCancelled: bool, attempts: nat, stderr: Process?)
      returns (report: bool)
      requires Valid() && Inv(model) && i < |model.runs| && Known(stderr, processes)
      requires model.runs[i].monitor == Draining(wasInterrupted, ctxCancelled, attempts, Number(stderr))
      requires stderr != null ==> stderr.stderrDone
      modifies this, processes
      ensures Valid() && Inv(model) && Some(model) == Next(old(model), ProcessLifecycle.Cleanup(i))
      ensures processes == old(processes) && report == (wasInterrupted || ctxCancelled)
      ensures cmd == null && stderrDone == null && waitDone == null && !running
    {
      hide Inv, Tracked, Next, CloseReady, CleanupFields, StderrClosed;
      StderrRead(stderr, processes, model.runs);
      CleanupStep(model, i);
      report := wasInterrupted || ctxCancelled;
      CleanupLocked();
      ghost var pc := if report then Reporting else Decide(attempts);
      MonitorMoved(processes, model.runs, i, pc);
      model := SetMonitor(model, i, pc);
    }

    method StoreAttempt(ghost i: nat, tries: nat)
      requires Valid() && Inv(model) && i < |model.runs| && model.runs[i].monitor == Bump(tries)
      modifies this`restartAttempts, this`model
      ensures Valid() && Inv(model) && Some(model) == Next(old(model), ProcessLifecycle.StoreAttempt(i))
      ensures restartAttempts == tries + 1
    {
      hide Inv, Tracked, Next;
      AttemptStep(model, i);
      restartAttempts := tries + 1;
      MonitorMoved(processes, model.runs, i, Delay);
      model := SetMonitor(model.(pm := model.pm.(restartAttempts := tries + 1),
                                 log := model.log + [Attempt(tries + 1)]), i, Delay);
    }

    /** Start called by handleExit after the delay. */
    method Restart(ghost i: nat, ok: bool) returns (err: bool)
      requires Valid() && Inv(model) && i < |model.runs| && model.runs[i].monitor.Delay?
      modifies this, processes
      ensures Valid() && Inv(model) && Some(model) == Next(old(model), ProcessLifecycle.Restart(i, ok))
      ensures err <==> !old(running) && !ok
      ensures running <==> old(running) || ok
    {
      hide Inv, Tracked, Next;
      RestartStep(model, i, ok);
      err := !running && !ok;
      if !running && ok { Launch(true); }
      hide ProcessLifecycle.Launch;
      ghost var pc := if err then Failing else Finished;
      MonitorMoved(processes, model.runs, i, pc);
      model := SetMonitor(model, i, pc);
    }
  }

  // ---- The steps that the methods carry out ----

  lemma StartStep(s: State, ok: bool)
    requires Inv(s)
    ensures var s' := if s.pm.running || !ok then s else ProcessLifecycle.Launch(s, false);
            Next(s, ProcessLifecycle.Start(ok)) == Some(s') && (MayStart(s) ==> Inv(s'))
  {
    hide Inv, MayStart;
    if MayStart(s) { StepKeepsInv(s, ProcessLifecycle.Start(ok)); }
  }

  function Stopping(f: Fields): StopPc {
    if f.cmd.Some? && f.waitDone.Some? then Blocked(f.waitDone) else Joining
  }

  lemma StopEnterStep(s: State, t: nat)
    requires Inv(s) && t !in s.stops
    ensures var s' := s.(runs := CancelCtx(s.runs, s.pm.cancel), pm := StopFields(s.pm),
                         stops := if s.pm.running then s.stops[t := Stopping(s.pm)] else s.stops);
            Next(s, ProcessLifecycle.StopEnter(t)) == Some(s') && Inv(s')
  {
    hide Inv;
    StepKeepsInv(s, ProcessLifecycle.StopEnter(t));
  }

  lemma StopFinalStep(s: State, t: nat)
    requires Inv(s) && t in s.stops && s.stops[t].Finalizing?
    ensures var s' := s.(pm := s.pm.(cmd := None), stops := s.stops - {t});
            Next(s, ProcessLifecycle.StopFinal(t)) == Some(s') && Inv(s')
  {
    hide Inv;
    StepKeepsInv(s, ProcessLifecycle.StopFinal(t));
  }

  lemma ResetStep(s: State)
    requires Inv(s)
    ensures var s' := s.(pm := s.pm.(restartAttempts := 0));
            Next(s, ProcessLifecycle.ResetRestartAttempts) == Some(s') && Inv(s')
  {
    hide Inv;
    StepKeepsInv(s, ProcessLifecycle.ResetRestartAttempts);
  }

  lemma InterruptStep(s: State, value: bool)
    requires Inv(s)
    ensures var s' := s.(pm := s.pm.(interrupted := value));
            Next(s, ProcessLifecycle.SetInterrupted(value)) == Some(s') && Inv(s')
  {
    hide Inv;
    StepKeepsInv(s, ProcessLifecycle.SetInterrupted(value));
  }

  lemma MarkStep(s: State)
    requires Inv(s)
    ensures var s' := s.(runs := CloseReady(s.runs, s.pm.containerReady));
            Next(s, ProcessLifecycle.MarkSessionStarted) == Some(s') && Inv(s')
  {
    hide Inv;
    StepKeepsInv(s, ProcessLifecycle.MarkSessionStarted);
  }

  lemma FetchStep(s: State, i: nat)
    requires Inv(s) && i < |s.runs| && s.runs[i].monitor.Fetch?
    ensures s.pm.cmd == Some(i) && s.pm.waitDone == Some(i)
    ensures var r := s.runs[i].(waits := s.runs[i].waits + 1, monitor := Waiting(i, Some(i)));
            var s' := s.(runs := s.runs[i := r]);
            Next(s, MonitorFetch(i)) == Some(s') && Inv(s')
  {
    assert i < |s.runs| - 1 ==> Spent(s.runs[i].monitor);
    assert s.pm.cmd == Some(i) && s.pm.waitDone == Some(i);
    hide Inv;
    var waited := s.runs[i].(waits := s.runs[i].waits + 1);
    var r := waited.(monitor := Waiting(i, Some(i)));
    assert s.runs[i := waited][i := r] == s.runs[i := r];
    StepKeepsInv(s, MonitorFetch(i));
  }

  lemma DrainBeginStep(s: State, i: nat)
    requires Inv(s) && i < |s.runs| && s.runs[i].drain.Begin?
    ensures var s' := s.(runs := s.runs[i := s.runs[i].(drain := Reading(s.pm.stderrDone))]);
            Next(s, DrainBegin(i)) == Some(s') && Inv(s')
  {
    hide Inv;
    StepKeepsInv(s, DrainBegin(i));
  }

  lemma WatchdogStep(s: State, i: nat)
    requires Inv(s) && i < |s.runs| && s.runs[i].watchdog.Watching?
    ensures var s' := s.(pm := s.pm.(containerTimeout := true), runs := s.runs[i := s.runs[i].(watchdog := Quit)]);
            Next(s, WatchdogFire(i)) == Some(s') && Inv(s')
  {
    hide Inv;
    StepKeepsInv(s, WatchdogFire(i));
  }

  lemma TimeoutStep(s: State, i: nat)
    requires Inv(s) && i < |s.runs| && s.runs[i].monitor.Decide?
    ensures var s' := SetMonitor(s, i, if s.pm.containerTimeout then Failing else Callback(s.runs[i].monitor.tries));
            Next(s, ProcessLifecycle.CheckTimeout(i)) == Some(s') && Inv(s')
  {
    hide Inv;
    StepKeepsInv(s, ProcessLifecycle.CheckTimeout(i));
  }

  /** The channel that monitorExit is going to close. */
  function Held(pc: MonitorPc): Option<nat> {
    if pc.Selecting? then pc.waitDone else if pc.Cancelled? then pc.closing else None
  }

  lemma WaitReturnedStep(s: State, a: Action)
    requires Inv(s) && (a.MonitorDone? || a.MonitorConsume?) && Next(s, a).Some?
    ensures a.i < |s.runs|
    ensures var w := Held(s.runs[a.i].monitor);
            && w == Some(a.i) && s.runs[a.i].waitDoneCloses == 0
            && var s' := SetMonitor(s.(runs := CloseWaitDone(s.runs, w)), a.i,
                                    if a.MonitorDone? then Enter else Finished);
               Next(s, a) == Some(s') && Inv(s')
  {
    assert RunOk(s.runs[a.i], a.i);
    hide Inv;
    StepKeepsInv(s, a);
  }

  lemma DrainStep(s: State, i: nat)
    requires Inv(s) && i < |s.runs| && s.runs[i].drain.Reading?
    ensures s.runs[i].drain.channel == Some(i) && s.runs[i].stderrDoneCloses == 0
    ensures var before := s.runs[i := s.runs[i].(stderrDoneCloses := 1)];
            var s' := s.(runs := before[i := before[i].(drain := Drained)]);
            Next(s, DrainClose(i)) == Some(s') && Inv(s')
  {
    assert RunOk(s.runs[i], i);
    hide Inv;
    StepKeepsInv(s, DrainClose(i));
  }

  lemma EntryStep(s: State, i: nat)
    requires Inv(s) && i < |s.runs| && s.runs[i].monitor.Enter?
    ensures var s' := if !s.pm.running then SetMonitor(s, i, Finished)
                      else SetMonitor(s.(pm := s.pm.(interrupted := false)), i,
                                      Draining(s.pm.interrupted, CtxDone(s.runs, s.pm.ctx),
                                               s.pm.restartAttempts, s.pm.stderrDone));
            Next(s, ProcessLifecycle.HandleExit(i)) == Some(s') && Inv(s')
  {
    hide Inv;
    StepKeepsInv(s, ProcessLifecycle.HandleExit(i));
  }

  lemma CleanupStep(s: State, i: nat)
    requires Inv(s) && i < |s.runs| && s.runs[i].monitor.Draining?
    requires s.runs[i].monitor.stderrDone.None? || StderrClosed(s.runs, s.runs[i].monitor.stderrDone)
    ensures var pc := s.runs[i].monitor;
            var s' := SetMonitor(s.(pm := CleanupFields(s.pm), runs := CloseReady(s.runs, s.pm.containerReady)),
                                 i, if pc.interrupted || pc.cancelled then Reporting else Decide(pc.attempts));
            Next(s, ProcessLifecycle.Cleanup(i)) == Some(s') && Inv(s')
  {
    hide Inv;
    StepKeepsInv(s, ProcessLifecycle.Cleanup(i));
  }

  lemma AttemptStep(s: State, i: nat)
    requires Inv(s) && i < |s.runs| && s.runs[i].monitor.Bump?
    ensures var n := s.runs[i].monitor.tries + 1;
            var s' := SetMonitor(s.(pm := s.pm.(restartAttempts := n), log := s.log + [Attempt(n)]), i, Delay);
            Next(s, ProcessLifecycle.StoreAttempt(i)) == Some(s') && Inv(s')
  {
    hide Inv;
    StepKeepsInv(s, ProcessLifecycle.StoreAttempt(i));
  }

  lemma RestartStep(s: State, i: nat, ok: bool)
    requires Inv(s) && i < |s.runs| && s.runs[i].monitor.Delay?
    ensures var s' := if s.pm.running then SetMonitor(s, i, Finished)
                      else if !ok then SetMonitor(s, i, Failing)
                      else SetMonitor(ProcessLifecycle.Launch(s, true), i, Finished);
            Next(s, ProcessLifecycle.Restart(i, ok)) == Some(s') && Inv(s')
  {
    hide Inv;
    StepKeepsInv(s, ProcessLifecycle.Restart(i, ok));
  }

  // ---- What the real channels say about the records ----

  lemma Untouched(ps: seq<Process>, runs: seq<Run>, i: nat, r: Run)
    requires |ps| == |runs| && Tracked(ps, runs) && i < |runs|
    requires r.waitDoneCloses == runs[i].waitDoneCloses && r.stderrDoneCloses == runs[i].stderrDoneCloses
    requires r.readyCloses == runs[i].readyCloses && r.ctxCancelled == runs[i].ctxCancelled
    ensures Tracked(ps, runs[i := r])
  {
  }

  lemma MonitorMoved(ps: seq<Process>, runs: seq<Run>, i: nat, pc: MonitorPc)
    requires |ps| == |runs| && Tracked(ps, runs) && i < |runs|
    ensures Tracked(ps, runs[i := runs[i].(monitor := pc)])
  {
  }

  lemma DrainMoved(ps: seq<Process>, runs: seq<Run>, i: nat)
    requires |ps| == |runs| && Tracked(ps, runs) && i < |runs|
    ensures Tracked(ps, runs[i := runs[i].(drain := Drained)])
  {
  }

  lemma ContextRead(p: Process?, ps: seq<Process>, runs: seq<Run>)
    requires |ps| == |runs| && Tracked(ps, runs) && Known(p, ps)
    ensures CtxDone(runs, Number(p)) <==> p != null && p.cancelled
  {
    if p != null { assert p.Tracks(p.number, runs[p.number]); }
  }

  lemma StderrRead(p: Process?, ps: seq<Process>, runs: seq<Run>)
    requires |ps| == |runs| && Tracked(ps, runs) && Known(p, ps)
    ensures StderrClosed(runs, Number(p)) <==> p != null && p.stderrDone
  {
    if p != null { assert p.Tracks(p.number, runs[p.number]); }
  }
}
