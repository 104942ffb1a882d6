/**
 The two mutexes of a session: the Runner's (a readers-writer lock) and the ProcessManager's. The lock trace of
 each function is written out with its calls inlined; a check of the traces' order is proved sound, every function
 passes it, and any number of threads that run them can then form no wait cycle.
 */
module LockOrder {
  import opened Common

  /**
   Pause stands for whatever may take arbitrarily long: a blocking send, a wait for the process or for a goroutine,
   a read, a delay, a callback into other code. AwaitAccept is the wait for the socket server's accept loop inside
   its Close, AcceptTurn a turn of that loop, which takes neither lock (mcp/socket.go:308-343, 649-682).
   */
  datatype Op =
    | LockRunner | ReadRunner | UnlockRunner | LockManager | UnlockManager | Pause | AwaitAccept | AcceptTurn

  datatype Share = Nothing | Reading | Writing

  datatype Held = Held(runner: Share, manager: bool)

  const IDLE := Held(Nothing, false)
  const WRITER := Held(Writing, false)

  // ---- Code and its traces ----

  /** What a function does to the locks: operations in order, a branch, a loop. */
  datatype Code =
    | Do(ops: seq<Op>)
    | Then(first: Code, second: Code)
    | Either(one: Code, other: Code)
    | Repeat(body: Code)

  ghost predicate Trace(c: Code, ops: seq<Op>)
    decreases c, 0
  {
    match c
    case Do(done) => ops == done
    case Then(a, b) => exists i | 0 <= i <= |ops| :: Trace(a, ops[..i]) && Trace(b, ops[i..])
    case Either(a, b) => Trace(a, ops) || Trace(b, ops)
    case Repeat(body) => exists n: nat :: Turns(body, n, ops)
  }

  ghost predicate Turns(body: Code, n: nat, ops: seq<Op>)
    decreases body, n + 1
  {
    if n == 0 then ops == []
    else exists i | 0 <= i <= |ops| :: Trace(body, ops[..i]) && Turns(body, n - 1, ops[i..])
  }

  // ---- The order of the locks ----

  /** The Runner's lock comes first, the ProcessManager's is innermost; only the accept loop is awaited under a lock. */
  predicate Permits(h: Held, op: Op) {
    && (h.manager ==> op.UnlockManager?)
    && match op
       case LockRunner => h == IDLE
       case ReadRunner => h == IDLE
       case UnlockRunner => !h.runner.Nothing?
       case LockManager => true
       case UnlockManager => h.manager
       case Pause => h == IDLE
       case AwaitAccept => true
       case AcceptTurn => false
  }

  function After(h: Held, op: Op): Held {
    match op
    case LockRunner => h.(runner := Writing)
    case ReadRunner => h.(runner := Reading)
    case UnlockRunner => h.(runner := Nothing)
    case LockManager => h.(manager := true)
    case UnlockManager => h.(manager := false)
    case _ => h
  }

  /** What is held after permitted operations; None when one of them is not permitted. */
  function Flow(h: Held, ops: seq<Op>): Option<Held>
    decreases |ops|
  {
    if ops == [] then Some(h)
    else if Permits(h, ops[0]) then Flow(After(h, ops[0]), ops[1..])
    else None
  }

  /** The same for code: every branch has to end alike, and every turn of a loop as it began. */
  function Effect(h: Held, c: Code): Option<Held>
    decreases c
  {
    match c
    case Do(ops) => Flow(h, ops)
    case Then(a, b) =>
      var mid := Effect(h, a);
      if mid.None? then None else Effect(mid.value, b)
    case Either(a, b) => if Effect(h, a) == Effect(h, b) then Effect(h, a) else None
    case Repeat(body) => if Effect(h, body) == Some(h) then Some(h) else None
  }

  predicate Keeps(h: Held, c: Code) {
    Effect(h, c) == Some(h)
  }

  lemma {:induction false} FlowAppends(h: Held, a: seq<Op>, b: seq<Op>)
    requires Flow(h, a).Some?
    ensures Flow(h, a + b) == Flow(Flow(h, a).value, b)
    decreases |a|
  {
    if a == [] {
      assert a + b == b;
    } else {
      assert (a + b)[1..] == a[1..] + b;
      FlowAppends(After(h, a[0]), a[1..], b);
    }
  }

  /** The check is sound: whatever path the code takes, its operations are permitted and end as computed. */
  lemma {:induction false} EveryTraceFlows(h: Held, c: Code, ops: seq<Op>)
    requires Effect(h, c).Some? && Trace(c, ops)
    ensures Flow(h, ops) == Effect(h, c)
    decreases c, 0
  {
    match c
    case Do(_) =>
    case Then(a, b) =>
      var i :| 0 <= i <= |ops| && Trace(a, ops[..i]) && Trace(b, ops[i..]);
      EveryTraceFlows(h, a, ops[..i]);
      EveryTraceFlows(Effect(h, a).value, b, ops[i..]);
      FlowAppends(h, ops[..i], ops[i..]);
      assert ops == ops[..i] + ops[i..];
    case Either(a, b) => if Trace(a, ops) { EveryTraceFlows(h, a, ops); } else { EveryTraceFlows(h, b, ops); }
    case Repeat(body) =>
      var n: nat :| Turns(body, n, ops);
      EveryTurnFlows(h, body, n, ops);
  }

  lemma {:induction false} EveryTurnFlows(h: Held, body: Code, n: nat, ops: seq<Op>)
    requires Keeps(h, body) && Turns(body, n, ops)
    ensures Flow(h, ops) == Some(h)
    decreases body, n + 1
  {
    hide Trace, Effect;
    if n > 0 {
      var i :| 0 <= i <= |ops| && Trace(body, ops[..i]) && Turns(body, n - 1, ops[i..]);
      EveryTraceFlows(h, body, ops[..i]);
      EveryTurnFlows(h, body, n - 1, ops[i..]);
      FlowAppends(h, ops[..i], ops[i..]);
      assert ops == ops[..i] + ops[i..];
    }
  }

  // ---- Ways to put code together ----

  const SKIP := Do([])
  const PAUSE := Do([Pause])

  function Maybe(c: Code): (r: Code)
    ensures forall h | Keeps(h, c) :: Keeps(h, r)
  {
    assert forall h :: Effect(h, SKIP) == Some(h);
    Either(c, SKIP)
  }

  predicate KeepsAll(h: Held, codes: seq<Code>) {
    forall i | 0 <= i < |codes| :: Keeps(h, codes[i])
  }

  /** One after the other. */
  function Chain(codes: seq<Code>): (r: Code)
    ensures forall h | KeepsAll(h, codes) :: Keeps(h, r)
  {
    if codes == [] then
      assert forall h :: Effect(h, SKIP) == Some(h);
      SKIP
    else
      assert forall h | KeepsAll(h, codes) :: Keeps(h, codes[0]) && KeepsAll(h, codes[1..]);
      Then(codes[0], Chain(codes[1..]))
  }

  /** A section under the Runner's write lock, with what is called in it. */
  function Write(inner: Code): (r: Code)
    requires Keeps(WRITER, inner)
    ensures Keeps(IDLE, r)
  {
    assert Flow(WRITER, [UnlockRunner]) == Some(IDLE) && Flow(IDLE, [LockRunner]) == Some(WRITER);
    assert Effect(WRITER, Then(inner, Do([UnlockRunner]))) == Effect(WRITER, Do([UnlockRunner]));
    Then(Do([LockRunner]), Then(inner, Do([UnlockRunner])))
  }

  function Read(): (r: Code)
    ensures Keeps(IDLE, r)
  {
    assert Flow(Held(Reading, false), [UnlockRunner]) == Some(IDLE);
    Do([ReadRunner, UnlockRunner])
  }

  /** A section of the ProcessManager; it may be entered with or without the Runner's lock. */
  function Manage(): (r: Code)
    ensures Keeps(IDLE, r) && Keeps(WRITER, r)
  {
    assert Flow(Held(Nothing, true), [UnlockManager]) == Some(IDLE);
    assert Flow(Held(Writing, true), [UnlockManager]) == Some(WRITER);
    Do([LockManager, UnlockManager])
  }

  /** A section under the write lock that calls nothing that locks. */
  function Set(): (r: Code)
    ensures Keeps(IDLE, r)
  {
    assert Effect(WRITER, SKIP) == Some(WRITER);
    Write(SKIP)
  }

  /** Something that may block, with nothing held. */
  function Block(): (r: Code)
    ensures Keeps(IDLE, r)
  {
    assert Flow(IDLE, [Pause]) == Some(IDLE);
    PAUSE
  }

  /** One way or the other. */
  function Choose(a: Code, b: Code): (r: Code)
    ensures forall h | Keeps(h, a) && Keeps(h, b) :: Keeps(h, r)
  {
    Either(a, b)
  }

  function Loop(body: Code): (r: Code)
    ensures forall h | Keeps(h, body) :: Keeps(h, r)
  {
    Repeat(body)
  }

  // ---- The functions, their calls inlined ----

  /** handleContainerReady, with the callback it was given. */
  function HandleContainerReady(): (r: Code)
    ensures Keeps(IDLE, r)
  {
    Chain([Read(), Maybe(Block())])
  }

  /** MarkSessionStarted: the callback comes after the unlock. */
  function MarkSessionStarted(): (r: Code)
    ensures Keeps(IDLE, r)
  {
    Chain([Manage(), Maybe(HandleContainerReady())])
  }

  /** handleStreamEventTokens: the send comes after the unlock. */
  function HandleStreamEventTokens(): (r: Code)
    ensures Keeps(IDLE, r)
  {
    Maybe(Chain([Set(), Maybe(Block())]))
  }

  /** The chunk loop of handleProcessLine, and its early return. */
  function HandleChunks(): (r: Code)
    ensures Keeps(IDLE, r)
  {
    Loop(Chain([Set(), Maybe(Chain([Block(), Maybe(Block())]))]))
  }

  /** The result branch: MarkSessionStarted and ResetRestartAttempts between two sections. */
  function HandleResult(): (r: Code)
    ensures Keeps(IDLE, r)
  {
    Chain([Set(), Maybe(Chain([MarkSessionStarted(), Manage()])), Set()])
  }

  function HandleProcessLine(): (r: Code)
    ensures Keeps(IDLE, r)
  {
    var init := Maybe(Chain([Set(), Maybe(MarkSessionStarted())]));
    var subagent := Maybe(Chain([Set(), Maybe(Block())]));
    var tokens := Maybe(Chain([Set(), Maybe(Block())]));
    var rest := Chain([HandleStreamEventTokens(), subagent, tokens, Maybe(HandleResult())]);
    Chain([Read(), init, Read(), Read(), HandleChunks(), Maybe(rest)])
  }

  /** readOutput: read a line, hand it to the Runner. */
  function ReadOutput(): (r: Code)
    ensures Keeps(IDLE, r)
  {
    Loop(Maybe(Chain([Manage(), Maybe(Chain([Block(), Maybe(HandleProcessLine())]))])))
  }

  function DrainStderr(): (r: Code)
    ensures Keeps(IDLE, r)
  {
    Chain([Manage(), Maybe(Chain([Block(), Maybe(Manage())]))])
  }

  /** handleExit after the cleanup: handleProcessExit, handleRestartAttempt and handleFatalError each lock once. */
  function RestartOrReport(): (r: Code)
    ensures Keeps(IDLE, r)
  {
    var processExit, restartAttempt, fatalError := Set(), Set(), Set();
    var restart := Chain([Manage(), restartAttempt, Block(), Manage(), Maybe(fatalError)]);
    Choose(processExit, Chain([Manage(), Choose(fatalError, Chain([processExit, Maybe(Choose(restart, fatalError))]))]))
  }

  function HandleExit(): (r: Code)
    ensures Keeps(IDLE, r)
  {
    Chain([Manage(), Maybe(Chain([Maybe(Block()), Manage(), RestartOrReport()]))])
  }

  function MonitorExit(): (r: Code)
    ensures Keeps(IDLE, r)
  {
    Chain([Manage(), Maybe(Chain([Block(), Choose(HandleExit(), Block())]))])
  }

  function StartupWatchdog(): (r: Code)
    ensures Keeps(IDLE, r)
  {
    Chain([Manage(), Maybe(Chain([Loop(Block()), Maybe(Chain([Block(), Manage()]))]))])
  }

  /** ProcessManager.Stop: it waits for the process and for its goroutines between its sections. */
  function StopManager(): (r: Code)
    ensures Keeps(IDLE, r)
  {
    var container := Maybe(Chain([Manage(), Block()]));
    Chain([Manage(), Maybe(Chain([Maybe(Block()), container, Block(), Manage()]))])
  }

  /** Close of the socket server, under the Runner's lock: it waits for the accept loop. */
  function CloseServer(): (r: Code)
    ensures Keeps(WRITER, r)
  {
    assert Flow(WRITER, [AwaitAccept]) == Some(WRITER);
    Do([AwaitAccept])
  }

  /** Runner.Stop: a second caller waits in the sync.Once for the first. */
  function StopRunner(): (r: Code)
    ensures Keeps(IDLE, r)
  {
    Choose(Block(), Chain([Set(), Maybe(StopManager()), Write(Maybe(CloseServer()))]))
  }

  /** ensureServerRunning: when the configuration cannot be written the new server is closed again. */
  function EnsureServerRunning(): (r: Code)
    ensures Keeps(IDLE, r)
  {
    Write(Maybe(CloseServer()))
  }

  /** ensureProcessRunning: IsRunning, then Start, and a second Start when resuming fails. */
  function EnsureProcessRunning(): (r: Code)
    ensures Keeps(IDLE, r)
  {
    Write(Chain([Maybe(Manage()), Maybe(Chain([Manage(), Maybe(Manage())]))]))
  }

  /** WriteMessage: the write to the pipe comes after the unlock. */
  function WriteMessage(): (r: Code)
    ensures Keeps(IDLE, r)
  {
    Chain([Manage(), Maybe(Block())])
  }

  /** The goroutine of SendContent, with its error paths. */
  function SendContent(): (r: Code)
    ensures Keeps(IDLE, r)
  {
    var deliver := Choose(Block(), Chain([Set(), Choose(Block(), Chain([WriteMessage(), Maybe(Block())]))]));
    var setup := Write(Maybe(Manage()));
    Chain([Set(), EnsureServerRunning(),
           Choose(Block(), Chain([setup, EnsureProcessRunning(), Choose(Chain([Block(), Set()]), deliver)]))])
  }

  function Interrupt(): (r: Code)
    ensures Keeps(IDLE, r)
  {
    Chain([Set(), Maybe(Chain([Manage(), Manage()]))])
  }

  /** connectToContainerMCP: it dials and serves the connection with nothing held. */
  function ConnectToContainer(): (r: Code)
    ensures Keeps(IDLE, r)
  {
    Chain([Read(), Loop(Chain([Read(), Maybe(Block())])),
           Maybe(Loop(Chain([Read(), Maybe(Chain([Block(), Maybe(Chain([Read(), Block()]))]))])))])
  }

  /** Whatever goroutines and callers do, one thing after the other; Read, Set and Manage are the other methods. */
  function Service(): (r: Code)
    ensures Keeps(IDLE, r)
  {
    var runner := Choose(SendContent(), Choose(StopRunner(), Choose(Interrupt(), ConnectToContainer())));
    var manager := Choose(ReadOutput(), Choose(DrainStderr(), Choose(MonitorExit(), StartupWatchdog())));
    Loop(Choose(runner, Choose(manager, Choose(Read(), Choose(Set(), Manage())))))
  }

  // ---- Threads ----

  /** What a thread holds, and what it has still to do. */
  datatype Thread = Thread(held: Held, rest: seq<Op>)

  /** The thread whose next operation is this waits to write. */
  predicate WantsToWrite(t: Thread) {
    t.rest != [] && t.rest[0].LockRunner?
  }

  predicate Accepting(t: Thread) {
    t.rest != [] && t.rest[0].AcceptTurn?
  }

  /**
   What surely keeps thread i from its next operation: a writer waits for every holder, a reader for a holder that
   writes, the close of the server for the accept loop.
   */
  ghost predicate Stuck(ts: seq<Thread>, i: nat)
    requires i < |ts| && ts[i].rest != []
  {
    match ts[i].rest[0]
    case LockRunner => exists j | 0 <= j < |ts| :: !ts[j].held.runner.Nothing?
    case ReadRunner => exists j | 0 <= j < |ts| :: ts[j].held.runner.Writing?
    case LockManager => exists j | 0 <= j < |ts| :: ts[j].held.manager
    case AwaitAccept => exists j | 0 <= j < |ts| :: Accepting(ts[j])
    case _ => false
  }

  /**
   What may keep it: a reader also waits for a writer that is waiting itself. Whether a thread that is about to lock
   has called Lock already is left open, so a run allows whatever is not stuck and progress is shown without
   whatever is blocked.
   */
  ghost predicate Blocked(ts: seq<Thread>, i: nat)
    requires i < |ts| && ts[i].rest != []
  {
    Stuck(ts, i) || (ts[i].rest[0].ReadRunner? && exists j | 0 <= j < |ts| :: WantsToWrite(ts[j]))
  }

  /** Thread i does its next operation; None when it has none or is stuck. */
  ghost function Next(ts: seq<Thread>, i: nat): Option<seq<Thread>> {
    if i >= |ts| || ts[i].rest == [] || Stuck(ts, i) then None
    else Some(ts[i := Thread(After(ts[i].held, ts[i].rest[0]), ts[i].rest[1..])])
  }

  ghost function Exec(ts: seq<Thread>, schedule: seq<nat>): Option<seq<Thread>> {
    if schedule == [] then Some(ts)
    else
      var before := Exec(ts, schedule[..|schedule| - 1]);
      if before.None? then None else Next(before.value, schedule[|schedule| - 1])
  }

  predicate OnlyTurns(ops: seq<Op>) {
    forall i | 0 <= i < |ops| :: ops[i].AcceptTurn?
  }

  /** Every thread starts without a lock: it runs some path of the functions, or it is an accept loop. */
  ghost predicate Start(ts: seq<Thread>) {
    forall i | 0 <= i < |ts| :: ts[i].held == IDLE && (Trace(Service(), ts[i].rest) || OnlyTurns(ts[i].rest))
  }

  // ---- Safety ----

  predicate Disciplined(t: Thread) {
    Flow(t.held, t.rest) == Some(IDLE) || (t.held == IDLE && OnlyTurns(t.rest))
  }

  /** Discipline, and mutual exclusion on both locks. */
  ghost predicate Inv(ts: seq<Thread>) {
    && (forall i | 0 <= i < |ts| :: Disciplined(ts[i]))
    && (forall i, j | 0 <= i < |ts| && 0 <= j < |ts| && i != j ::
          !(ts[i].held.manager && ts[j].held.manager)
          && (ts[i].held.runner.Writing? ==> ts[j].held.runner.Nothing?))
  }

  lemma StepKeepsInv(ts: seq<Thread>, i: nat, ts': seq<Thread>)
    requires Inv(ts) && Next(ts, i) == Some(ts')
    ensures Inv(ts')
  {
    assert Disciplined(ts[i]);
    assert Disciplined(ts'[i]);
  }

  lemma CodeIsDisciplined(c: Code, ops: seq<Op>)
    requires Keeps(IDLE, c) && Trace(c, ops)
    ensures Disciplined(Thread(IDLE, ops))
  {
    hide Trace, Flow;
    EveryTraceFlows(IDLE, c, ops);
  }

  lemma StartInv(ts: seq<Thread>)
    requires Start(ts)
    ensures Inv(ts)
  {
    hide Trace, Service, Flow, Effect, Keeps, OnlyTurns;
    forall i | 0 <= i < |ts| ensures Disciplined(ts[i]) {
      assert ts[i] == Thread(IDLE, ts[i].rest);
      if Trace(Service(), ts[i].rest) { CodeIsDisciplined(Service(), ts[i].rest); }
    }
  }

  lemma {:induction false} RunKeepsInv(ts: seq<Thread>, schedule: seq<nat>)
    requires Start(ts) && Exec(ts, schedule).Some?
    ensures Inv(Exec(ts, schedule).value)
  {
    hide Inv, Next, Start;
    if schedule == [] {
      StartInv(ts);
    } else {
      RunKeepsInv(ts, schedule[..|schedule| - 1]);
      StepKeepsInv(Exec(ts, schedule[..|schedule| - 1]).value, schedule[|schedule| - 1], Exec(ts, schedule).value);
    }
  }

  /**
   In every reachable state: a thread that holds the ProcessManager's lock does nothing but release it, so it never
   asks for the Runner's; a thread that holds a lock does nothing that may block for long, and waits for nothing but
   a lock or the accept loop; a writer is alone, and the ProcessManager's lock has one holder.
   */
  lemma LocksAreOrdered(start: seq<Thread>, schedule: seq<nat>, i: nat, j: nat)
    requires Start(start) && Exec(start, schedule).Some?
    requires i < |Exec(start, schedule).value| && j < |Exec(start, schedule).value|
    ensures var ts := Exec(start, schedule).value;
            && (ts[i].held.manager ==> ts[i].rest != [] && ts[i].rest[0].UnlockManager?)
            && (ts[i].held != IDLE ==> ts[i].rest != [] && !ts[i].rest[0].Pause?)
            && (i != j ==> !(ts[i].held.manager && ts[j].held.manager)
                           && (ts[i].held.runner.Writing? ==> ts[j].held.runner.Nothing?))
  {
    RunKeepsInv(start, schedule);
    hide Start, Exec;
    var ts := Exec(start, schedule).value;
    assert Disciplined(ts[i]);
  }

  // ---- No wait cycle ----

  /** Thread i can go on at once, whether or not the threads that are about to lock have called Lock already. */
  ghost predicate Moves(ts: seq<Thread>, i: nat) {
    i < |ts| && ts[i].rest != [] && !ts[i].rest[0].Pause? && !Blocked(ts, i)
  }

  /** Some server is being closed. */
  ghost predicate Closing(ts: seq<Thread>) {
    exists k | 0 <= k < |ts| :: ts[k].rest != [] && ts[k].rest[0].AwaitAccept?
  }

  lemma ManagerHolderMoves(ts: seq<Thread>, j: nat)
    requires Inv(ts) && j < |ts| && ts[j].held.manager
    ensures Moves(ts, j) && !Accepting(ts[j])
  {
    assert Disciplined(ts[j]);
  }

  lemma RunnerHolderMoves(ts: seq<Thread>, j: nat) returns (m: nat)
    requires Inv(ts) && j < |ts| && !ts[j].held.runner.Nothing?
    ensures Moves(ts, m) && (Accepting(ts[m]) ==> Closing(ts))
  {
    m := j;
    assert Disciplined(ts[j]);
    if Blocked(ts, j) {
      if ts[j].rest[0].AwaitAccept? {
        m :| 0 <= m < |ts| && Accepting(ts[m]);
      } else {
        m :| 0 <= m < |ts| && ts[m].held.manager;
        ManagerHolderMoves(ts, m);
      }
    }
  }

  lemma WriterMoves(ts: seq<Thread>, i: nat) returns (m: nat)
    requires Inv(ts) && i < |ts| && WantsToWrite(ts[i])
    ensures Moves(ts, m) && (Accepting(ts[m]) ==> Closing(ts))
  {
    m := i;
    if Blocked(ts, i) {
      var j: nat :| j < |ts| && !ts[j].held.runner.Nothing?;
      m := RunnerHolderMoves(ts, j);
    }
  }

  /**
   Whenever a thread is blocked, on a lock or in the close of the server, some thread can go on at once: the waits
   form no cycle. A turn of the accept loop counts as such only while its server is being closed, when Accept fails.
   */
  lemma BlockedMeansAnotherMoves(start: seq<Thread>, schedule: seq<nat>, i: nat) returns (m: nat)
    requires Start(start) && Exec(start, schedule).Some? && i < |Exec(start, schedule).value|
    requires var ts := Exec(start, schedule).value; ts[i].rest != [] && Blocked(ts, i)
    ensures Moves(Exec(start, schedule).value, m) && m != i
    ensures Accepting(Exec(start, schedule).value[m]) ==> Closing(Exec(start, schedule).value)
  {
    RunKeepsInv(start, schedule);
    m := AnotherMoves(Exec(start, schedule).value, i);
  }

  lemma AnotherMoves(ts: seq<Thread>, i: nat) returns (m: nat)
    requires Inv(ts) && i < |ts| && ts[i].rest != [] && Blocked(ts, i)
    ensures Moves(ts, m) && m != i && (Accepting(ts[m]) ==> Closing(ts))
  {
    hide Inv;
    match ts[i].rest[0]
    case LockRunner => m := WriterMoves(ts, i);
    case ReadRunner =>
      var j: nat :| j < |ts| && (ts[j].held.runner.Writing? || WantsToWrite(ts[j]));
      if WantsToWrite(ts[j]) { m := WriterMoves(ts, j); } else { m := RunnerHolderMoves(ts, j); }
    case LockManager =>
      m :| 0 <= m < |ts| && ts[m].held.manager;
      ManagerHolderMoves(ts, m);
    case AwaitAccept => m :| 0 <= m < |ts| && Accepting(ts[m]);
  }

  // ---- Why the callback has to wait for the unlock ----

  /** MarkSessionStarted with the container callback inside its section. */
  function MarkUnderLock(): Code {
    Chain([Do([LockManager]), HandleContainerReady(), Do([UnlockManager])])
  }

  /** The check refuses it, for good reason: with a writer that calls the ProcessManager it can deadlock. */
  lemma CallbackUnderLockDeadlocks()
    ensures Effect(IDLE, MarkUnderLock()).None?
    ensures var start := [Thread(IDLE, [LockRunner, LockManager, UnlockManager, UnlockRunner]),
                          Thread(IDLE, [LockManager, ReadRunner, UnlockRunner, UnlockManager])];
            var end := Exec(start, [0, 1]);
            && end.Some? && |end.value| == 2 && end.value[0].rest != [] && end.value[1].rest != []
            && Stuck(end.value, 0) && Stuck(end.value, 1)
  {
    RefusesMarkUnderLock();
    hide MarkUnderLock;
    var start := [Thread(IDLE, [LockRunner, LockManager, UnlockManager, UnlockRunner]),
                  Thread(IDLE, [LockManager, ReadRunner, UnlockRunner, UnlockManager])];
    assert [0, 1][..1] == [0] && [0][..0] == [];
    assert Exec(start, []) == Some(start) && !Stuck(start, 0);
    var mid := start[0 := Thread(WRITER, [LockManager, UnlockManager, UnlockRunner])];
    assert start[0].rest[1..] == [LockManager, UnlockManager, UnlockRunner];
    assert Exec(start, [0]) == Some(mid) && !Stuck(mid, 1);
    var end := mid[1 := Thread(Held(Nothing, true), mid[1].rest[1..])];
    assert Exec(start, [0, 1]) == Some(end);
    assert end[0].held.runner.Writing? && end[1].held.manager;
  }

  lemma RefusesMarkUnderLock()
    ensures Effect(IDLE, MarkUnderLock()).None?
  {
    var h := Held(Nothing, true);
    assert Flow(IDLE, [LockManager]) == Some(h) && Flow(h, [ReadRunner, UnlockRunner]) == None;
    assert Effect(h, Read()) == None;
    var tail := [HandleContainerReady(), Do([UnlockManager])];
    assert [Do([LockManager]), HandleContainerReady(), Do([UnlockManager])][1..] == tail;
    assert Effect(h, HandleContainerReady()) == None;
  }
}
