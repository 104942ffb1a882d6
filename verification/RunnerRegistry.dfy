/**
 The SessionManager's map of runners. GetOrCreateRunner looks under the read lock, loads messages without a
 lock and looks again under the write lock; any number of calls interleave with deletions and a shutdown.
 The protocol is shown linearizable: it behaves like a registry whose operations are indivisible.
 */
module RunnerRegistry {
  import opened Common

  type Session = string

  /** A runner made by the factory, numbered in order of creation, or one handed in by SetRunner. */
  datatype Runner = Made(n: nat) | Given(n: nat)

  // ---- The indivisible registry ----

  /** known: every runner that was ever registered; it is history only. */
  datatype Registry = Registry(
    runners: map<Session, Runner>, made: nat, stopped: set<Runner>, known: set<Runner>)

  const EMPTY := Registry(map[], 0, {}, {})

  /** Get carries the number of the call and its answer. */
  datatype Op = Get(call: nat, session: Session, answer: Runner) | Set(session: Session, runner: Runner)
              | Delete(session: Session) | Shutdown

  function Register(g: Registry, x: Session, r: Runner): Registry {
    g.(runners := g.runners[x := r], known := g.known + {r})
  }

  function Lookup(g: Registry, x: Session): Runner {
    if x in g.runners then g.runners[x] else Made(g.made)
  }

  /** An entry is created exactly when there is none. */
  function Ensure(g: Registry, x: Session): Registry {
    if x in g.runners then g else Register(g, x, Made(g.made)).(made := g.made + 1)
  }

  function Remove(g: Registry, x: Session): Registry {
    if x !in g.runners then g
    else g.(runners := g.runners - {x}, stopped := g.stopped + {g.runners[x]})
  }

  function Apply(g: Registry, op: Op): Registry {
    match op
    case Get(_, x, _) => Ensure(g, x)
    case Set(x, r) => Register(g, x, r)
    case Delete(x) => Remove(g, x)
    case Shutdown => g.(runners := map[], stopped := g.stopped + g.runners.Values)
  }

  predicate Legal(g: Registry, op: Op) {
    op.Get? ==> op.answer == Lookup(g, op.session)
  }

  function Replay(ops: seq<Op>): Registry {
    if ops == [] then EMPTY else Apply(Replay(ops[..|ops| - 1]), ops[|ops| - 1])
  }

  predicate AllLegal(ops: seq<Op>) {
    forall k | 0 <= k < |ops| :: Legal(Replay(ops[..k]), ops[k])
  }

  // ---- The protocol ----

  /** since: how many operations had taken effect when the call was made. */
  datatype Call = Loading(session: Session, since: nat) | Answered(session: Session, since: nat, answer: Runner)

  datatype State = State(registry: Registry, calls: map<nat, Call>, log: seq<Op>)

  datatype Action = FastPath(call: nat, session: Session) | SlowPath(call: nat) | Atomic(op: Op)

  const INIT := State(EMPTY, map[], [])

  /** Each path that answers takes effect under its lock, and is logged there. */
  function Answer(s: State, call: nat, x: Session, since: nat): State {
    var r := Lookup(s.registry, x);
    State(Ensure(s.registry, x), s.calls[call := Answered(x, since, r)], s.log + [Get(call, x, r)])
  }

  function Next(s: State, a: Action): Option<State> {
    match a
    case FastPath(call, x) =>
      if call in s.calls then None
      else if x in s.registry.runners then Some(Answer(s, call, x, |s.log|))
      else Some(s.(calls := s.calls[call := Loading(x, |s.log|)]))
    case SlowPath(call) =>
      if call in s.calls && s.calls[call].Loading?
      then Some(Answer(s, call, s.calls[call].session, s.calls[call].since)) else None
    case Atomic(op) =>
      if op.Get? then None else Some(s.(registry := Apply(s.registry, op), log := s.log + [op]))
  }

  function Exec(s: State, acts: seq<Action>): Option<State> {
    if acts == [] then Some(s)
    else
      var before := Exec(s, acts[..|acts| - 1]);
      if before.None? then None else Next(before.value, acts[|acts| - 1])
  }

  // ---- The methods ----

  class SessionManager {
    var runners: map<Session, Runner>
    var made: nat
    ghost var stopped: set<Runner>
    ghost var known: set<Runner>

    ghost function View(): Registry
      reads this
    {
      Registry(runners, made, stopped, known)
    }

    constructor ()
      ensures View() == EMPTY
    {
      runners, made, stopped, known := map[], 0, {}, {};
    }

    /** The section under the read lock. */
    method FastLookup(x: Session) returns (r: Option<Runner>)
      ensures r == if x in runners then Some(Lookup(View(), x)) else None
    {
      if x in runners { return Some(runners[x]); }
      return None;
    }

    /** The section under the write lock: look again before creating. */
    method LookupOrCreate(x: Session) returns (r: Runner)
      modifies this
      ensures r == Lookup(old(View()), x) && View() == Ensure(old(View()), x)
    {
      if x in runners { return runners[x]; }
      r := Made(made);
      made := made + 1;
      runners, known := runners[x := r], known + {r};
    }

    method SetRunner(x: Session, r: Runner)
      modifies this`runners, this`known
      ensures View() == Apply(old(View()), Set(x, r))
    {
      runners, known := runners[x := r], known + {r};
    }

    method DeleteSession(x: Session) returns (r: Option<Runner>)
      modifies this`runners, this`stopped
      ensures View() == Apply(old(View()), Delete(x))
      ensures r == if x in old(runners) then Some(old(runners)[x]) else None
    {
      if x !in runners { return None; }
      r := Some(runners[x]);
      stopped := stopped + {runners[x]};
      runners := runners - {x};
    }

    /** Every runner is stopped, in whatever order the map yields them. */
    method ShutdownAll()
      modifies this`runners, this`stopped
      ensures View() == Apply(old(View()), Shutdown)
    {
      var todo := runners.Keys;
      while todo != {}
        invariant todo <= runners.Keys && runners == old(runners)
        invariant stopped == old(stopped) + set x | x in runners.Keys - todo :: runners[x]
        decreases todo
      {
        var x :| x in todo;
        stopped := stopped + {runners[x]};
        todo := todo - {x};
      }
      assert runners.Values == set x | x in runners.Keys :: runners[x];
      runners := map[];
    }
  }

  // ---- Linearizability ----

  /** Call c is answered by operation k, which took effect after the call was made. */
  predicate AnsweredBy(calls: map<nat, Call>, log: seq<Op>, c: nat, k: nat) {
    c in calls && calls[c].Answered? && calls[c].since <= k < |log|
    && log[k] == Get(c, calls[c].session, calls[c].answer)
  }

  ghost predicate HasAnswer(calls: map<nat, Call>, log: seq<Op>, c: nat) {
    exists k: nat :: AnsweredBy(calls, log, c, k)
  }

  /** The answered calls and the logged lookups are the same, one to one. */
  ghost predicate Matched(calls: map<nat, Call>, log: seq<Op>) {
    && (forall c | c in calls :: calls[c].since <= |log| && (calls[c].Answered? ==> HasAnswer(calls, log, c)))
    && (forall k: nat | k < |log| && log[k].Get? :: AnsweredBy(calls, log, log[k].call, k))
    && (forall j, k | 0 <= j < k < |log| && log[j].Get? && log[k].Get? :: log[j].call != log[k].call)
  }

  ghost predicate Linear(s: State) {
    AllLegal(s.log) && s.registry == Replay(s.log) && Matched(s.calls, s.log)
  }

  lemma Extended(ops: seq<Op>, op: Op)
    requires AllLegal(ops) && Legal(Replay(ops), op)
    ensures AllLegal(ops + [op]) && Replay(ops + [op]) == Apply(Replay(ops), op)
  {
    var all := ops + [op];
    assert all[..|ops|] == ops;
    forall k | 0 <= k < |all| ensures Legal(Replay(all[..k]), all[k]) {
      if k < |ops| { assert all[..k] == ops[..k]; }
    }
  }

  lemma AnswerStays(calls: map<nat, Call>, log: seq<Op>, calls': map<nat, Call>, log': seq<Op>, c: nat)
    requires HasAnswer(calls, log, c) && c in calls && c in calls' && calls'[c] == calls[c] && log <= log'
    ensures HasAnswer(calls', log', c)
  {
    var k: nat :| AnsweredBy(calls, log, c, k);
    assert AnsweredBy(calls', log', c, k);
  }

  lemma AnswerMatches(calls: map<nat, Call>, log: seq<Op>, c: nat, x: Session, since: nat, r: Runner)
    requires Matched(calls, log) && since <= |log| && (c in calls ==> calls[c].Loading?)
    ensures Matched(calls[c := Answered(x, since, r)], log + [Get(c, x, r)])
  {
    var calls', log' := calls[c := Answered(x, since, r)], log + [Get(c, x, r)];
    assert AnsweredBy(calls', log', c, |log|);
    forall d | d in calls' && calls'[d].Answered? ensures HasAnswer(calls', log', d) {
      if d != c { AnswerStays(calls, log, calls', log', d); }
    }
    forall k: nat | k < |log'| && log'[k].Get? ensures AnsweredBy(calls', log', log'[k].call, k) {
      if k < |log| { assert AnsweredBy(calls, log, log[k].call, k); }
    }
  }

  lemma OtherMatches(calls: map<nat, Call>, log: seq<Op>, op: Op)
    requires Matched(calls, log) && !op.Get?
    ensures Matched(calls, log + [op])
  {
    var log' := log + [op];
    forall d | d in calls && calls[d].Answered? ensures HasAnswer(calls, log', d) {
      AnswerStays(calls, log, calls, log', d);
    }
    forall k: nat | k < |log'| && log'[k].Get? ensures AnsweredBy(calls, log', log'[k].call, k) {
      assert AnsweredBy(calls, log, log[k].call, k);
    }
  }

  lemma CallMatches(calls: map<nat, Call>, log: seq<Op>, c: nat, x: Session)
    requires Matched(calls, log) && c !in calls
    ensures Matched(calls[c := Loading(x, |log|)], log)
  {
    var calls' := calls[c := Loading(x, |log|)];
    forall d | d in calls' && calls'[d].Answered? ensures HasAnswer(calls', log, d) {
      AnswerStays(calls, log, calls', log, d);
    }
    forall k: nat | k < |log| && log[k].Get? ensures AnsweredBy(calls', log, log[k].call, k) {
      assert AnsweredBy(calls, log, log[k].call, k);
    }
  }

  lemma AnswerKeepsLinear(s: State, c: nat, x: Session, since: nat)
    requires Linear(s) && since <= |s.log| && (c in s.calls ==> s.calls[c].Loading?)
    ensures Linear(Answer(s, c, x, since))
  {
    var r := Lookup(s.registry, x);
    Extended(s.log, Get(c, x, r));
    hide AllLegal, Replay, Matched;
    AnswerMatches(s.calls, s.log, c, x, since, r);
  }

  lemma NextKeepsLinear(s: State, a: Action)
    requires Linear(s) && Next(s, a).Some?
    ensures Linear(Next(s, a).value)
  {
    match a
    case FastPath(c, x) =>
      if x in s.registry.runners { AnswerKeepsLinear(s, c, x, |s.log|); } else { CallMatches(s.calls, s.log, c, x); }
    case SlowPath(c) => AnswerKeepsLinear(s, c, s.calls[c].session, s.calls[c].since);
    case Atomic(op) => Extended(s.log, op); OtherMatches(s.calls, s.log, op);
  }

  /**
   In every run the calls take effect one at a time, each at a moment between its start and its answer, with
   the answer that the indivisible registry gives at that moment.
   */
  lemma {:induction false} EveryRunIsLinear(acts: seq<Action>)
    requires Exec(INIT, acts).Some?
    ensures Linear(Exec(INIT, acts).value)
  {
    if acts != [] {
      EveryRunIsLinear(acts[..|acts| - 1]);
      hide Linear, Next;
      NextKeepsLinear(Exec(INIT, acts[..|acts| - 1]).value, acts[|acts| - 1]);
    }
  }

  // ---- What the indivisible registry promises ----

  /** The operation ends the life of x's entry. */
  predicate Ends(op: Op, x: Session) {
    op.Shutdown? || (op.Delete? && op.session == x) || (op.Set? && op.session == x)
  }

  /** An entry that nothing ends stays what it is. */
  lemma {:induction false} EntryStays(ops: seq<Op>, j: nat, x: Session)
    requires j <= |ops| && x in Replay(ops[..j]).runners
    requires forall i | j <= i < |ops| :: !Ends(ops[i], x)
    ensures x in Replay(ops).runners && Replay(ops).runners[x] == Replay(ops[..j]).runners[x]
  {
    var n := |ops| - 1;
    if j <= n {
      assert ops[..n][..j] == ops[..j];
      EntryStays(ops[..n], j, x);
    } else {
      assert ops[..j] == ops;
    }
  }

  /** Two calls for a session between which it was neither deleted nor set get the same runner. */
  lemma SameRunner(ops: seq<Op>, j: nat, k: nat)
    requires AllLegal(ops) && j < k < |ops| && ops[j].Get? && ops[k].Get? && ops[j].session == ops[k].session
    requires forall i | j < i < k :: !Ends(ops[i], ops[j].session)
    ensures ops[j].answer == ops[k].answer && ops[j].session in Replay(ops[..k]).runners
  {
    var x := ops[j].session;
    assert ops[..j + 1][..j] == ops[..j] && Legal(Replay(ops[..j]), ops[j]) && Legal(Replay(ops[..k]), ops[k]);
    assert ops[..k][..j + 1] == ops[..j + 1];
    EntryStays(ops[..k], j + 1, x);
  }

  /** So do two callers in a run of the protocol, when nothing ended the entry between their answers. */
  lemma CallersShareTheRunner(acts: seq<Action>, c: nat, j: nat, d: nat, k: nat)
    requires Exec(INIT, acts).Some?
    requires var s := Exec(INIT, acts).value;
             AnsweredBy(s.calls, s.log, c, j) && AnsweredBy(s.calls, s.log, d, k) && j < k
             && s.calls[c].session == s.calls[d].session
             && forall i | j < i < k :: !Ends(s.log[i], s.calls[c].session)
    ensures var s := Exec(INIT, acts).value; s.calls[c].answer == s.calls[d].answer
  {
    EveryRunIsLinear(acts);
    SameRunner(Exec(INIT, acts).value.log, j, k);
  }

  /** Operation k called the factory for session x. */
  predicate Creates(ops: seq<Op>, k: nat, x: Session)
    requires k < |ops|
  {
    ops[k].Get? && ops[k].session == x && x !in Replay(ops[..k]).runners
  }

  /** The factory is called at most once for a session between two ends of its entry. */
  lemma FactoryRunsOnce(ops: seq<Op>, j: nat, k: nat, x: Session) returns (i: nat)
    requires AllLegal(ops) && j < k < |ops| && Creates(ops, j, x) && Creates(ops, k, x)
    ensures j < i < k && Ends(ops[i], x)
  {
    if i' :| j < i' < k && Ends(ops[i'], x) {
      i := i';
    } else {
      SameRunner(ops, j, k);
      assert false;
    }
  }

  ghost predicate Registered(g: Registry, r: Runner) {
    exists x :: x in g.runners && g.runners[x] == r
  }

  /** Every runner that was ever registered is registered still or was stopped. */
  ghost predicate Accounted(g: Registry) {
    forall r | r in g.known :: r in g.stopped || Registered(g, r)
  }

  /** The operation overwrites the only entry of a runner that was not stopped. */
  ghost predicate Abandons(g: Registry, op: Op) {
    && op.Set? && op.session in g.runners && g.runners[op.session] in g.known
    && var r := g.runners[op.session];
       r != op.runner && r !in g.stopped && forall y | y in g.runners && y != op.session :: g.runners[y] != r
  }

  /** No operation loses a running runner, except exactly a SetRunner that overwrites its only entry. */
  lemma NothingIsLostExactlyWhen(g: Registry, op: Op)
    requires Accounted(g)
    ensures Accounted(Apply(g, op)) <==> !Abandons(g, op)
  {
    var g' := Apply(g, op);
    if Abandons(g, op) {
      var r := g.runners[op.session];
      assert r in g'.known && r !in g'.stopped && !Registered(g', r);
    } else {
      forall r | r in g'.known ensures r in g'.stopped || Registered(g', r) {
        StillAccounted(g, op, r);
      }
    }
  }

  lemma StillAccounted(g: Registry, op: Op, r: Runner)
    requires Accounted(g) && !Abandons(g, op) && r in Apply(g, op).known
    ensures r in Apply(g, op).stopped || Registered(Apply(g, op), r)
  {
    match op
    case Get(_, x, _) => GetAccounts(g, x, r);
    case Set(x, s) => SetAccounts(g, x, s, r);
    case Delete(x) => DeleteAccounts(g, x, r);
    case Shutdown =>
      if r !in g.stopped {
        var x :| x in g.runners && g.runners[x] == r;
        assert r in g.runners.Values;
      }
  }

  lemma GetAccounts(g: Registry, x: Session, r: Runner)
    requires Accounted(g) && r in Ensure(g, x).known
    ensures r in Ensure(g, x).stopped || Registered(Ensure(g, x), r)
  {
    var g' := Ensure(g, x);
    if r !in g.known {
      assert x in g'.runners && g'.runners[x] == r;
    } else if r !in g.stopped {
      var y :| y in g.runners && g.runners[y] == r;
      assert y in g'.runners && g'.runners[y] == r;
    }
  }

  lemma SetAccounts(g: Registry, x: Session, s: Runner, r: Runner)
    requires Accounted(g) && !Abandons(g, Set(x, s)) && r in Register(g, x, s).known
    ensures r in Register(g, x, s).stopped || Registered(Register(g, x, s), r)
  {
    var g' := Register(g, x, s);
    if r == s {
      assert x in g'.runners && g'.runners[x] == r;
    } else if r !in g.stopped {
      var y :| y in g.runners && g.runners[y] == r;
      if y == x {
        assert !(forall z | z in g.runners && z != x :: g.runners[z] != r);
        y :| y in g.runners && y != x && g.runners[y] == r;
      }
      assert y in g'.runners && g'.runners[y] == r;
    }
  }

  lemma DeleteAccounts(g: Registry, x: Session, r: Runner)
    requires Accounted(g) && r in Remove(g, x).known
    ensures r in Remove(g, x).stopped || Registered(Remove(g, x), r)
  {
    var g' := Remove(g, x);
    if r !in g'.stopped {
      var y :| y in g.runners && g.runners[y] == r;
      assert y in g'.runners && g'.runners[y] == r;
    }
  }

  /** After a shutdown every known runner was stopped, unless some SetRunner abandoned one. */
  lemma {:induction false} ShutdownStopsAll(ops: seq<Op>)
    requires forall k | 0 <= k < |ops| :: !Abandons(Replay(ops[..k]), ops[k])
    ensures Accounted(Replay(ops)) && Replay(ops + [Shutdown]).known <= Replay(ops + [Shutdown]).stopped
  {
    if ops != [] {
      var n := |ops| - 1;
      assert forall k | 0 <= k < n :: ops[..n][..k] == ops[..k];
      ShutdownStopsAll(ops[..n]);
      NothingIsLostExactlyWhen(Replay(ops[..n]), ops[n]);
    }
    var g := Replay(ops);
    assert (ops + [Shutdown])[..|ops|] == ops;
    forall r | r in g.known ensures r in g.stopped + g.runners.Values {
      if r !in g.stopped {
        var x :| x in g.runners && g.runners[x] == r;
      }
    }
  }

  // ---- What the factory hands out ----

  /** SetRunner is given runners of its caller's own making, or ones that are known already. */
  predicate SetsKnownOrGiven(ops: seq<Op>) {
    forall k | 0 <= k < |ops| && ops[k].Set? :: ops[k].runner.Given? || ops[k].runner in Replay(ops[..k]).known
  }

  /** The runners made so far are numbered below the next one; whatever is registered or stopped is known. */
  predicate Numbered(g: Registry) {
    && (forall r | r in g.known && r.Made? :: r.n < g.made)
    && (forall x | x in g.runners :: g.runners[x] in g.known) && g.stopped <= g.known
  }

  lemma {:induction false} FactoryNumbers(ops: seq<Op>)
    requires SetsKnownOrGiven(ops)
    ensures Numbered(Replay(ops))
  {
    if ops != [] {
      var n := |ops| - 1;
      assert forall k | 0 <= k < n :: ops[..n][..k] == ops[..k];
      FactoryNumbers(ops[..n]);
      assert ops[n].Set? ==> ops[n].runner.Given? || ops[n].runner in Replay(ops[..n]).known;
    }
  }

  lemma PrefixSets(ops: seq<Op>, k: nat)
    requires SetsKnownOrGiven(ops) && k <= |ops|
    ensures SetsKnownOrGiven(ops[..k])
  {
    assert forall j | 0 <= j < k :: ops[..k][..j] == ops[..j];
  }

  /** What the factory makes is new: no session had it before, nobody stopped it, and it is running and registered. */
  lemma FactoryMakesNew(ops: seq<Op>, k: nat, x: Session)
    requires AllLegal(ops) && SetsKnownOrGiven(ops) && k < |ops| && Creates(ops, k, x)
    ensures ops[k].answer !in Replay(ops[..k]).known && Running(Replay(ops[..k + 1]), ops[k].answer)
    ensures x in Replay(ops[..k + 1]).runners && Replay(ops[..k + 1]).runners[x] == ops[k].answer
  {
    PrefixSets(ops, k);
    FactoryNumbers(ops[..k]);
    assert Legal(Replay(ops[..k]), ops[k]);
    assert ops[..k + 1][..k] == ops[..k];
  }

  /** A call is answered at once exactly when its session is registered; else it loads, and can always be answered. */
  lemma AnsweredAtOnceExactlyWhen(s: State, c: nat, x: Session)
    requires c !in s.calls
    ensures Next(s, FastPath(c, x)).Some?
    ensures var s' := Next(s, FastPath(c, x)).value;
            && c in s'.calls && s'.calls[c].session == x && s'.registry == s.registry
            && (s'.calls[c].Answered? <==> x in s.registry.runners)
            && (s'.calls[c].Answered? ==> s'.calls[c].answer == s.registry.runners[x])
            && (s'.calls[c].Loading? ==> Next(s', SlowPath(c)).Some? && Next(s', SlowPath(c)).value.calls[c].Answered?)
  {
  }

  /** The operation deletes x's entry, or every entry. */
  predicate Removes(op: Op, x: Session) {
    op.Shutdown? || (op.Delete? && op.session == x)
  }

  lemma {:induction false} GoneStaysGone(ops: seq<Op>, j: nat, x: Session)
    requires j < |ops| && Removes(ops[j], x)
    requires forall i | j < i < |ops| :: !(ops[i].Get? && ops[i].session == x) && !(ops[i].Set? && ops[i].session == x)
    ensures x !in Replay(ops).runners
  {
    var n := |ops| - 1;
    if j < n { GoneStaysGone(ops[..n], j, x); }
  }

  /** After a deletion or a shutdown the next caller gets a runner that is new and running. */
  lemma NextCallerGetsANewRunner(ops: seq<Op>, j: nat, k: nat, x: Session)
    requires AllLegal(ops) && SetsKnownOrGiven(ops) && j < k < |ops| && Removes(ops[j], x)
    requires ops[k].Get? && ops[k].session == x
    requires forall i | j < i < k :: !(ops[i].Get? && ops[i].session == x) && !(ops[i].Set? && ops[i].session == x)
    ensures ops[k].answer !in Replay(ops[..k]).known && Running(Replay(ops[..k + 1]), ops[k].answer)
  {
    GoneStaysGone(ops[..k], j, x);
    FactoryMakesNew(ops, k, x);
  }

  // ---- Runners after a shutdown, exactly ----

  /** The operation hands out or registers r. */
  predicate Hands(op: Op, r: Runner) {
    (op.Get? && op.answer == r) || (op.Set? && op.runner == r)
  }

  /** The operation ends an entry of r and stops it. */
  ghost predicate Stops(g: Registry, op: Op, r: Runner) {
    || (op.Shutdown? && Registered(g, r))
    || (op.Delete? && op.session in g.runners && g.runners[op.session] == r)
  }

  predicate Running(g: Registry, r: Runner) {
    r in g.known && r !in g.stopped
  }

  predicate EntriesKnown(g: Registry) {
    forall x | x in g.runners :: g.runners[x] in g.known
  }

  lemma ApplyRuns(g: Registry, op: Op, r: Runner)
    requires EntriesKnown(g) && Legal(g, op)
    ensures EntriesKnown(Apply(g, op))
    ensures r in Apply(g, op).known <==> r in g.known || Hands(op, r)
    ensures r in Apply(g, op).stopped <==> r in g.stopped || Stops(g, op, r)
  {
    match op
    case Get(_, x, answer) => assert x in g.runners ==> g.runners[x] in g.known;
    case Set(_, _) =>
    case Delete(_) =>
    case Shutdown => assert r in g.runners.Values <==> Registered(g, r);
  }

  ghost predicate HandedSince(ops: seq<Op>, n: nat, r: Runner) {
    exists k: nat | n <= k < |ops| :: Hands(ops[k], r)
  }

  ghost predicate StopsAt(ops: seq<Op>, k: nat, r: Runner)
    requires k < |ops|
  {
    Stops(Replay(ops[..k]), ops[k], r)
  }

  ghost predicate StoppedSince(ops: seq<Op>, n: nat, r: Runner) {
    exists k: nat | n <= k < |ops| :: StopsAt(ops, k, r)
  }

  lemma {:induction false} EntriesAreKnown(ops: seq<Op>)
    ensures EntriesKnown(Replay(ops))
  {
    if ops != [] { EntriesAreKnown(ops[..|ops| - 1]); }
  }

  /** Since operation n a runner became known exactly by being handed out, and stopped exactly by a stop. */
  lemma {:induction false} HistorySince(ops: seq<Op>, n: nat, r: Runner)
    requires AllLegal(ops) && n <= |ops|
    ensures r in Replay(ops).known <==> r in Replay(ops[..n]).known || HandedSince(ops, n, r)
    ensures r in Replay(ops).stopped <==> r in Replay(ops[..n]).stopped || StoppedSince(ops, n, r)
    decreases |ops|
  {
    if n == |ops| {
      assert ops[..n] == ops;
    } else {
      var m := |ops| - 1;
      var before := ops[..m];
      assert before[..n] == ops[..n];
      PrefixLegal(ops, m);
      HistorySince(before, n, r);
      EntriesAreKnown(before);
      assert Legal(Replay(ops[..m]), ops[m]);
      ApplyRuns(Replay(before), ops[m], r);
      HandedSnoc(ops, n, r);
      StoppedSnoc(ops, n, r);
      hide Hands, Stops, Apply, HandedSince, StoppedSince;
    }
  }

  lemma PrefixLegal(ops: seq<Op>, m: nat)
    requires AllLegal(ops) && m <= |ops|
    ensures AllLegal(ops[..m])
  {
    forall k | 0 <= k < m ensures Legal(Replay(ops[..m][..k]), ops[..m][k]) {
      assert ops[..m][..k] == ops[..k];
    }
  }

  lemma HandedSnoc(ops: seq<Op>, n: nat, r: Runner)
    requires n < |ops|
    ensures HandedSince(ops, n, r) <==> HandedSince(ops[..|ops| - 1], n, r) || Hands(ops[|ops| - 1], r)
  {
    hide Hands;
    var m := |ops| - 1;
    if HandedSince(ops[..m], n, r) {
      var k: nat :| n <= k < m && Hands(ops[..m][k], r);
      assert Hands(ops[k], r);
    }
    if k: nat :| n <= k < m && Hands(ops[k], r) { assert Hands(ops[..m][k], r); }
  }

  lemma StoppedSnoc(ops: seq<Op>, n: nat, r: Runner)
    requires n < |ops|
    ensures var m := |ops| - 1;
            StoppedSince(ops, n, r) <==> StoppedSince(ops[..m], n, r) || StopsAt(ops, m, r)
  {
    hide StopsAt;
    var m := |ops| - 1;
    if StoppedSince(ops[..m], n, r) {
      var k: nat :| n <= k < m && StopsAt(ops[..m], k, r);
      PrefixStops(ops, m, k, r);
    }
    if k: nat :| n <= k < m && StopsAt(ops, k, r) { PrefixStops(ops, m, k, r); }
  }

  lemma PrefixStops(ops: seq<Op>, m: nat, k: nat, r: Runner)
    requires k < m <= |ops|
    ensures StopsAt(ops[..m], k, r) <==> StopsAt(ops, k, r)
  {
    hide Stops, Replay;
    assert ops[..m][..k] == ops[..k];
  }

  /**
   After a shutdown with nothing abandoned before it, a runner is left running if and only if it was not stopped
   by then, a Get or Set has handed it out since, and no operation has stopped it since.
   */
  lemma RunsAfterShutdownExactlyWhen(ops: seq<Op>, n: nat, r: Runner)
    requires AllLegal(ops) && n < |ops| && ops[n].Shutdown?
    requires forall k | 0 <= k < n :: !Abandons(Replay(ops[..k]), ops[k])
    ensures Running(Replay(ops), r)
            <==> r !in Replay(ops[..n + 1]).stopped && HandedSince(ops, n + 1, r) && !StoppedSince(ops, n + 1, r)
  {
    hide Abandons, Replay, HandedSince, StoppedSince, AllLegal;
    assert ops[..n + 1] == ops[..n] + [Shutdown];
    assert forall k | 0 <= k < n :: ops[..n][..k] == ops[..k] && ops[..n][k] == ops[k];
    ShutdownStopsAll(ops[..n]);
    HistorySince(ops, n + 1, r);
  }

  /** The same for the registry at the end of any run of the protocol. */
  lemma RunnersAfterShutdown(acts: seq<Action>, n: nat, r: Runner)
    requires Exec(INIT, acts).Some?
    requires var log := Exec(INIT, acts).value.log;
             n < |log| && log[n].Shutdown? && forall k | 0 <= k < n :: !Abandons(Replay(log[..k]), log[k])
    ensures var s := Exec(INIT, acts).value;
            Running(s.registry, r)
            <==> r !in Replay(s.log[..n + 1]).stopped
                 && HandedSince(s.log, n + 1, r) && !StoppedSince(s.log, n + 1, r)
  {
    EveryRunIsLinear(acts);
    RunsAfterShutdownExactlyWhen(Exec(INIT, acts).value.log, n, r);
  }

  /** s' follows from s by answers of calls that are loading already. */
  ghost predicate Finishes(s: State, s': State) {
    exists acts: seq<Action> :: Exec(s, acts) == Some(s') && forall a | a in acts :: a.SlowPath?
  }

  lemma {:induction false} SomeLoading(s: State, acts: seq<Action>) returns (c: nat)
    requires acts != [] && Exec(s, acts).Some? && forall a | a in acts :: a.SlowPath?
    ensures c in s.calls && s.calls[c].Loading?
  {
    var n := |acts| - 1;
    assert acts[n] in acts;
    if n == 0 {
      assert acts[..0] == [];
      c := acts[0].call;
    } else {
      c := SomeLoading(s, acts[..n]);
    }
  }

  /** Calls made before the shutdown register a runner after it if and only if one of them is still loading. */
  lemma LateCallRegistersExactlyWhen(s: State)
    requires s.registry.runners == map[]
    ensures (exists s' :: Finishes(s, s') && s'.registry.runners != map[])
            <==> exists c :: c in s.calls && s.calls[c].Loading?
  {
    if c :| c in s.calls && s.calls[c].Loading? {
      var x, acts := s.calls[c].session, [SlowPath(c)];
      var s' := Answer(s, c, x, s.calls[c].since);
      assert acts[..0] == [] && Exec(s, acts[..0]) == Some(s) && Exec(s, acts) == Some(s');
      assert x in s'.registry.runners && Finishes(s, s');
    } else if s' :| Finishes(s, s') && s'.registry.runners != map[] {
      var acts: seq<Action> :| Exec(s, acts) == Some(s') && forall a | a in acts :: a.SlowPath?;
      if acts != [] { var d := SomeLoading(s, acts); }
    }
  }

  /** A call that was loading messages during the shutdown registers a new runner after it. */
  lemma LateCallOutlivesShutdown(x: Session)
    ensures var end := Exec(INIT, [FastPath(0, x), Atomic(Shutdown), SlowPath(0)]);
            end.Some? && end.value.registry.runners == map[x := Made(0)] && Made(0) !in end.value.registry.stopped
  {
    var run: seq<Action> := [];
    var s := INIT;
    run, s := Then(run, s, FastPath(0, x));
    run, s := Then(run, s, Atomic(Shutdown));
    run, s := Then(run, s, SlowPath(0));
    assert run == [FastPath(0, x), Atomic(Shutdown), SlowPath(0)];
  }

  lemma Then(run: seq<Action>, s: State, a: Action) returns (run': seq<Action>, s': State)
    requires Exec(INIT, run) == Some(s) && Next(s, a).Some?
    ensures run' == run + [a] && Some(s') == Next(s, a) == Exec(INIT, run')
  {
    run', s' := run + [a], Next(s, a).value;
    assert run'[..|run|] == run;
  }
}
