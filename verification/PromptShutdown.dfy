/**
 The nine request/response channel pairs of a Runner and their shutdown: answers are sent, channels are
 created and closed under the Runner's mutex, in any order and by any number of callers.
 */
module PromptShutdown {
  import opened Common

  /** Permission, question and plan approval; then three supervisor pairs; then three host-tool pairs. */
  const PAIRS := 9
  const SUPERVISOR := 3
  const HOST_TOOLS := 6
  const BUFFER := 1

  /** Messages are numbered; closes counts the calls of close. */
  datatype Chan = Chan(buffer: seq<nat>, closes: nat)

  const EMPTY := Chan([], 0)

  /** The two fields of a ChannelPair: numbers of a request and of a response channel. Close makes both nil. */
  datatype Pair = Pair(req: Option<nat>, resp: Option<nat>)

  datatype State = State(
    reqs: seq<Chan>, resps: seq<Chan>, pairs: seq<Option<Pair>>, stopped: bool, panicked: bool)

  // ---- The lock sections as functions ----

  const INIT := State([EMPTY, EMPTY, EMPTY], [EMPTY, EMPTY, EMPTY],
                      [Some(Pair(Some(0), Some(0))), Some(Pair(Some(1), Some(1))), Some(Pair(Some(2), Some(2))),
                       None, None, None, None, None, None], false, false)

  function Create(s: State, p: nat): State
    requires p < |s.pairs|
  {
    s.(reqs := s.reqs + [EMPTY], resps := s.resps + [EMPTY],
       pairs := s.pairs[p := Some(Pair(Some(|s.reqs|), Some(|s.resps|)))])
  }

  /** SetSupervisor(true) and SetHostTools(true): three pairs are made unless the first of them exists. */
  function Enable(s: State, first: nat): State
    requires first + 2 < |s.pairs|
  {
    if s.pairs[first].Some? then s else Create(Create(Create(s, first), first + 1), first + 2)
  }

  function CloseChan(cs: seq<Chan>, c: Option<nat>): (r: seq<Chan>)
    ensures |r| == |cs|
  {
    if c.Some? && c.value < |cs| then cs[c.value := cs[c.value].(closes := cs[c.value].closes + 1)] else cs
  }

  /** ChannelPair.Close, which may be called on a pair that does not exist. */
  function ClosePair(s: State, p: nat): (r: State)
    requires p < |s.pairs|
    ensures |r.pairs| == |s.pairs|
  {
    match s.pairs[p]
    case None => s
    case Some(pair) => s.(reqs := CloseChan(s.reqs, pair.req), resps := CloseChan(s.resps, pair.resp),
                          pairs := s.pairs[p := Some(Pair(None, None))])
  }

  /** MCPChannels.Close: the first n pairs. */
  function CloseFirst(s: State, n: nat): (r: State)
    requires n <= |s.pairs|
    ensures |r.pairs| == |s.pairs|
  {
    if n == 0 then s else ClosePair(CloseFirst(s, n - 1), n - 1)
  }

  function Stop(s: State): State {
    if s.stopped then s else CloseFirst(s, |s.pairs|).(stopped := true)
  }

  /** Send*Response: dropped when stopped, without channel, or full; a send on a closed channel panics. */
  function Send(s: State, p: nat, x: nat): State {
    if s.stopped || p >= |s.pairs| || s.pairs[p].None? || s.pairs[p].value.resp.None? then s
    else
      var c := s.pairs[p].value.resp.value;
      if c >= |s.resps| || s.resps[c].closes > 0 then s.(panicked := true)
      else if |s.resps[c].buffer| >= BUFFER then s
      else s.(resps := s.resps[c := s.resps[c].(buffer := s.resps[c].buffer + [x])])
  }

  function RequestChan(s: State, p: nat): Option<nat> {
    if s.stopped || p >= |s.pairs| || s.pairs[p].None? then None else s.pairs[p].value.req
  }

  /** A prompt handler takes the oldest answer of response channel c. */
  function Receive(s: State, c: nat): State {
    if c >= |s.resps| || s.resps[c].buffer == [] then s
    else s.(resps := s.resps[c := s.resps[c].(buffer := s.resps[c].buffer[1..])])
  }

  // ---- The Runner as an object ----

  class Runner {
    var reqs: seq<Chan>
    var resps: seq<Chan>
    var pairs: seq<Option<Pair>>
    var stopped: bool

    ghost function View(): State
      reads this
    {
      State(reqs, resps, pairs, stopped, false)
    }

    ghost predicate Valid()
      reads this
    {
      Inv(View()) && Grouped(View())
    }

    constructor ()
      ensures Valid() && View() == INIT
    {
      InitInv();
      reqs, resps, stopped := INIT.reqs, INIT.resps, false;
      pairs := INIT.pairs;
    }

    method CloseRequests(c: nat)
      requires c < |reqs| && reqs[c].closes == 0
      modifies this`reqs
      ensures reqs == CloseChan(old(reqs), Some(c))
    {
      reqs := reqs[c := Chan(reqs[c].buffer, 1)];
    }

    method CloseResponses(c: nat)
      requires c < |resps| && resps[c].closes == 0
      modifies this`resps
      ensures resps == CloseChan(old(resps), Some(c))
    {
      resps := resps[c := Chan(resps[c].buffer, 1)];
    }

    /** Send*Response. */
    method SendResponse(p: nat, x: nat)
      requires Valid() && p < PAIRS
      modifies this`resps
      ensures Valid() && View() == Send(old(View()), p, x)
    {
      SendKeepsInv(View(), p, x);
      if stopped || pairs[p].None? { return; }
      var ch := pairs[p].value.resp;
      if ch.Some? {
        var c := ch.value;
        assert Points(View(), p);
        if |resps[c].buffer| < BUFFER { resps := resps[c := resps[c].(buffer := resps[c].buffer + [x])]; }
      }
    }

    /** *RequestChan: what is handed out is open. */
    method RequestChannel(p: nat) returns (c: Option<nat>)
      requires Valid() && p < PAIRS
      ensures c == RequestChan(View(), p)
      ensures stopped ==> c.None?
      ensures c.Some? ==> c.value < |reqs| && reqs[c.value].closes == 0
    {
      assert Points(View(), p);
      if stopped || pairs[p].None? { return None; }
      c := pairs[p].value.req;
    }

    /** SetSupervisor(true) and SetHostTools(true). */
    method EnableTools(first: nat)
      requires Valid() && (first == SUPERVISOR || first == HOST_TOOLS)
      modifies this`reqs, this`resps, this`pairs
      ensures Valid() && View() == Enable(old(View()), first)
    {
      EnableKeepsInv(View(), first);
      if pairs[first].None? {
        var p := first;
        while p < first + 3
          invariant first <= p <= first + 3 && |pairs| == PAIRS && |reqs| == |resps|
          invariant View() == if p == first then old(View())
                              else if p == first + 1 then Create(old(View()), first)
                              else if p == first + 2 then Create(Create(old(View()), first), first + 1)
                              else Enable(old(View()), first)
        {
          pairs := pairs[p := Some(Pair(Some(|reqs|), Some(|resps|)))];
          reqs, resps := reqs + [EMPTY], resps + [EMPTY];
          p := p + 1;
        }
      }
    }

    /** MCPChannels.Close; no channel is closed twice. */
    method CloseAll()
      requires Inv(View()) && !stopped
      modifies this`reqs, this`resps, this`pairs
      ensures View() == CloseFirst(old(View()), PAIRS)
    {
      var p := 0;
      while p < PAIRS
        invariant 0 <= p <= PAIRS && |pairs| == PAIRS && !stopped
        invariant View() == CloseFirst(old(View()), p) && Closing(View(), p)
      {
        assert Points(View(), p);
        ClosePairKeeps(View(), p);
        if pairs[p].Some? {
          var pair := pairs[p].value;
          if pair.req.Some? { CloseRequests(pair.req.value); }
          if pair.resp.Some? { CloseResponses(pair.resp.value); }
          pairs := pairs[p := Some(Pair(None, None))];
        }
        p := p + 1;
      }
    }

    /** The closing section of Stop; sync.Once lets it run once. */
    method StopRunner()
      requires Valid()
      modifies this
      ensures Valid() && View() == Stop(old(View()))
    {
      NextKeepsInv(View(), Event.StopRunner);
      if stopped { return; }
      CloseAll();
      stopped := true;
    }
  }

  // ---- Invariant ----

  /** What pair p holds exists and is open. */
  predicate Points(s: State, p: nat)
    requires p < |s.pairs|
  {
    s.pairs[p].Some? ==>
      && (s.pairs[p].value.req.Some? <==> s.pairs[p].value.resp.Some?)
      && (s.pairs[p].value.req.Some? ==>
            var r, a := s.pairs[p].value.req.value, s.pairs[p].value.resp.value;
            r == a && r < |s.reqs| && r < |s.resps| && s.reqs[r].closes == 0 && s.resps[r].closes == 0)
  }

  /** Pair p holds channels number c. */
  predicate Holds(s: State, p: nat, c: nat) {
    p < |s.pairs| && s.pairs[p].Some? && s.pairs[p].value.req == Some(c)
  }

  ghost predicate HeldFrom(s: State, n: nat, c: nat) {
    exists p: nat :: n <= p && Holds(s, p, c)
  }

  /** The pairs below n are closed, the others hold open channels, and no channel is lost or shared. */
  ghost predicate Closing(s: State, n: nat) {
    && |s.pairs| == PAIRS && |s.reqs| == |s.resps| && !s.panicked
    && (forall p: nat | p < PAIRS :: Points(s, p))
    && (forall p, q, c | Holds(s, p, c) && Holds(s, q, c) :: p == q)
    && (forall c | 0 <= c < |s.reqs| :: s.reqs[c].closes == s.resps[c].closes <= 1)
    && (!s.stopped ==> forall c | 0 <= c < |s.reqs| && s.reqs[c].closes == 0 :: HeldFrom(s, n, c))
  }

  /** Between the lock sections: before Stop nothing is closed. */
  ghost predicate Inv(s: State) {
    && Closing(s, 0)
    && (!s.stopped ==> forall c | 0 <= c < |s.reqs| :: s.reqs[c].closes == 0)
  }

  lemma InitInv()
    ensures Inv(INIT)
  {
    assert Holds(INIT, 0, 0) && Holds(INIT, 1, 1) && Holds(INIT, 2, 2);
  }

  lemma SendKeepsInv(s: State, p: nat, x: nat)
    requires Inv(s)
    ensures Inv(Send(s, p, x))
  {
    var s' := Send(s, p, x);
    assert p < PAIRS ==> Points(s, p);
    forall q: nat | q < PAIRS ensures Points(s', q) { assert Points(s, q); }
    assert forall q, c :: Holds(s', q, c) <==> Holds(s, q, c);
  }

  lemma ReceiveKeepsInv(s: State, c: nat)
    requires Inv(s)
    ensures Inv(Receive(s, c))
  {
    var s' := Receive(s, c);
    forall q: nat | q < PAIRS ensures Points(s', q) { assert Points(s, q); }
    assert forall q, d :: Holds(s', q, d) <==> Holds(s, q, d);
  }

  lemma CreateKeepsInv(s: State, p: nat)
    requires Inv(s) && p < PAIRS && s.pairs[p].None?
    ensures Inv(Create(s, p))
  {
    var s' := Create(s, p);
    forall q: nat | q < PAIRS ensures Points(s', q) { assert Points(s, q); }
    assert Holds(s', p, |s.reqs|);
    forall q: nat, d: nat | Holds(s', q, d) ensures if q == p then d == |s.reqs| else d < |s.reqs| && Holds(s, q, d) {
      assert q != p ==> Points(s, q);
    }
    if !s.stopped {
      forall c: nat | c < |s'.reqs| ensures HeldFrom(s', 0, c) {
        if c < |s.reqs| {
          assert HeldFrom(s, 0, c);
          var q: nat :| Holds(s, q, c);
          assert Holds(s', q, c);
        }
      }
    }
  }

  lemma ClosePairKeeps(s: State, p: nat)
    requires Closing(s, p) && p < PAIRS && !s.stopped
    ensures Closing(ClosePair(s, p), p + 1)
  {
    var s' := ClosePair(s, p);
    assert Points(s, p);
    forall q, d | Holds(s', q, d) ensures q != p && Holds(s, q, d) && !Holds(s, p, d) {}
    forall q: nat | q < PAIRS ensures Points(s', q) {
      assert Points(s, q);
      if s'.pairs[q].Some? && s'.pairs[q].value.req.Some? {
        assert Holds(s', q, s'.pairs[q].value.req.value);
      }
    }
    forall c: nat | c < |s'.reqs| && s'.reqs[c].closes == 0 ensures HeldFrom(s', p + 1, c) {
      assert HeldFrom(s, p, c);
      var q: nat :| p <= q && Holds(s, q, c);
      assert Holds(s', q, c);
    }
  }

  lemma {:induction false} CloseFirstKeeps(s: State, n: nat)
    requires Inv(s) && !s.stopped && n <= PAIRS
    ensures var s' := CloseFirst(s, n);
            Closing(s', n) && !s'.stopped && |s'.reqs| == |s.reqs| && SameBuffers(s, s')
  {
    if n > 0 {
      CloseFirstKeeps(s, n - 1);
      ClosePairKeeps(CloseFirst(s, n - 1), n - 1);
    }
  }

  predicate SameBuffers(s: State, s': State) {
    |s.resps| == |s'.resps| && forall c | 0 <= c < |s.resps| :: s'.resps[c].buffer == s.resps[c].buffer
  }

  /** The first Stop closes every channel there is, exactly once, and leaves what is buffered in them. */
  lemma StopClosesEverything(s: State, c: nat)
    requires Inv(s) && !s.stopped && c < |s.reqs|
    ensures s.reqs[c].closes == s.resps[c].closes == 0
    ensures var s' := Stop(s);
            && |s'.reqs| == |s'.resps| == |s.reqs| && SameBuffers(s, s')
            && s'.reqs[c].closes == s'.resps[c].closes == 1
  {
    CloseFirstKeeps(s, PAIRS);
    assert !HeldFrom(CloseFirst(s, PAIRS), PAIRS, c);
  }

  lemma StopKeepsInv(s: State)
    requires Inv(s)
    ensures Inv(Stop(s))
  {
    if !s.stopped {
      CloseFirstKeeps(s, PAIRS);
      var s' := CloseFirst(s, PAIRS);
      forall q: nat | q < PAIRS ensures Points(Stop(s), q) { assert Points(s', q); }
      assert forall q, d :: Holds(Stop(s), q, d) <==> Holds(s', q, d);
    }
  }

  // ---- Every interleaving ----

  datatype Event = SendResponse(p: nat, x: nat) | TakeResponse(c: nat) | SetSupervisor | SetHostTools | StopRunner

  function Next(s: State, e: Event): State
    requires |s.pairs| == PAIRS
  {
    match e
    case SendResponse(p, x) => Send(s, p, x)
    case TakeResponse(c) => Receive(s, c)
    case SetSupervisor => Enable(s, SUPERVISOR)
    case SetHostTools => Enable(s, HOST_TOOLS)
    case StopRunner => Stop(s)
  }

  function Exec(s: State, events: seq<Event>): (r: State)
    requires |s.pairs| == PAIRS
    ensures |r.pairs| == PAIRS
  {
    if events == [] then s else Next(Exec(s, events[..|events| - 1]), events[|events| - 1])
  }

  lemma EnableKeepsInv(s: State, first: nat)
    requires Inv(s) && (first == SUPERVISOR || first == HOST_TOOLS) && Grouped(s)
    ensures Inv(Enable(s, first)) && Grouped(Enable(s, first))
  {
    if s.pairs[first].None? {
      CreateKeepsInv(s, first);
      CreateKeepsInv(Create(s, first), first + 1);
      CreateKeepsInv(Create(Create(s, first), first + 1), first + 2);
    }
  }

  /** Three pairs are always made together. */
  predicate Grouped(s: State)
    requires |s.pairs| == PAIRS
  {
    && (s.pairs[3].None? <==> s.pairs[4].None?) && (s.pairs[3].None? <==> s.pairs[5].None?)
    && (s.pairs[6].None? <==> s.pairs[7].None?) && (s.pairs[6].None? <==> s.pairs[8].None?)
  }

  lemma {:induction false} CloseKeepsGroups(s: State, n: nat, p: nat)
    requires |s.pairs| == PAIRS && n <= PAIRS && p < PAIRS
    ensures CloseFirst(s, n).pairs[p].None? <==> s.pairs[p].None?
  {
    if n > 0 { CloseKeepsGroups(s, n - 1, p); }
  }

  lemma NextKeepsInv(s: State, e: Event)
    requires Inv(s) && Grouped(s)
    ensures Inv(Next(s, e)) && Grouped(Next(s, e))
  {
    match e
    case SendResponse(p, x) => SendKeepsInv(s, p, x);
    case TakeResponse(c) => ReceiveKeepsInv(s, c);
    case SetSupervisor => EnableKeepsInv(s, SUPERVISOR);
    case SetHostTools => EnableKeepsInv(s, HOST_TOOLS);
    case StopRunner =>
      StopKeepsInv(s);
      forall p: nat | p < PAIRS ensures Stop(s).pairs[p].None? <==> s.pairs[p].None? {
        CloseKeepsGroups(s, PAIRS, p);
      }
  }

  /**
   In every interleaving no send finds its channel closed, no channel is closed twice, and a request channel
   that is handed out is open.
   */
  lemma {:induction false} EveryInterleavingIsSafe(events: seq<Event>, p: nat)
    ensures var s := Exec(INIT, events);
            && Inv(s) && Grouped(s) && !s.panicked
            && (forall c | 0 <= c < |s.reqs| :: s.reqs[c].closes <= 1 && s.resps[c].closes <= 1)
            && var r := RequestChan(s, p);
               r.Some? ==> r.value < |s.reqs| && s.reqs[r.value].closes == 0
  {
    if events == [] {
      InitInv();
    } else {
      EveryInterleavingIsSafe(events[..|events| - 1], p);
      NextKeepsInv(Exec(INIT, events[..|events| - 1]), events[|events| - 1]);
    }
    var s := Exec(INIT, events);
    if p < PAIRS { assert Points(s, p); }
  }

  /** After Stop: no request channel is handed out, no answer is accepted, a second Stop changes nothing. */
  lemma {:induction false} StoppedForGood(s: State, events: seq<Event>, p: nat, x: nat)
    requires |s.pairs| == PAIRS && s.stopped
    ensures var s' := Exec(s, events);
            s'.stopped && RequestChan(s', p).None? && Send(s', p, x) == s' && Stop(s') == s'
  {
    if events != [] { StoppedForGood(s, events[..|events| - 1], p, x); }
  }

  /** After Stop the answers left in a channel are only ever taken out, oldest first. */
  lemma {:induction false} LeftoversDrain(s: State, events: seq<Event>, c: nat) returns (k: nat)
    requires |s.pairs| == PAIRS && s.stopped && c < |s.resps|
    ensures var s' := Exec(s, events);
            c < |s'.resps| && k <= |s.resps[c].buffer| && s'.resps[c].buffer == s.resps[c].buffer[k..]
  {
    k := 0;
    if events != [] {
      var before := events[..|events| - 1];
      k := LeftoversDrain(s, before, c);
      StoppedForGood(s, before, 0, 0);
      var m, e := Exec(s, before), events[|events| - 1];
      if e == TakeResponse(c) && m.resps[c].buffer != [] { k := k + 1; }
    }
  }

  // ---- What is available, and what becomes of the answers ----

  /** Before Stop every pair that exists has its channels. */
  predicate Usable(s: State)
    requires |s.pairs| == PAIRS
  {
    !s.stopped ==> forall p | 0 <= p < PAIRS && s.pairs[p].Some? :: s.pairs[p].value.req.Some?
  }

  /** Pair p was made: the first three with the Runner, the others by SetSupervisor and SetHostTools. */
  predicate Made(events: seq<Event>, p: nat) {
    p < 3 || (3 <= p < 6 && SetSupervisor in events) || (6 <= p < 9 && SetHostTools in events)
  }

  ghost predicate Agrees(s: State, events: seq<Event>)
    requires |s.pairs| == PAIRS
  {
    && Usable(s) && (s.stopped <==> StopRunner in events)
    && (!s.stopped ==> forall p | 0 <= p < PAIRS :: s.pairs[p].Some? <==> Made(events, p))
  }

  lemma StepAgrees(s: State, events: seq<Event>, e: Event)
    requires |s.pairs| == PAIRS && Grouped(s) && Agrees(s, events)
    ensures Agrees(Next(s, e), events + [e])
  {
    assert forall x :: x in events + [e] <==> x in events || x == e;
    match e
    case SetSupervisor => MadeMore(s, events, e, SUPERVISOR);
    case SetHostTools => MadeMore(s, events, e, HOST_TOOLS);
    case _ =>
  }

  lemma MadeMore(s: State, events: seq<Event>, e: Event, first: nat)
    requires |s.pairs| == PAIRS && Grouped(s) && Agrees(s, events)
    requires (e.SetSupervisor? && first == SUPERVISOR) || (e.SetHostTools? && first == HOST_TOOLS)
    ensures Agrees(Enable(s, first), events + [e])
  {
    assert forall x :: x in events + [e] <==> x in events || x == e;
    var s' := Enable(s, first);
    if !s.stopped {
      forall p | 0 <= p < PAIRS ensures s'.pairs[p].Some? <==> Made(events + [e], p) {
        assert s.pairs[p].Some? <==> Made(events, p);
      }
    }
  }

  lemma {:induction false} RunAgrees(events: seq<Event>)
    ensures Agrees(Exec(INIT, events), events)
  {
    if events != [] {
      hide Agrees, Next;
      var n := |events| - 1;
      RunAgrees(events[..n]);
      EveryInterleavingIsSafe(events[..n], 0);
      StepAgrees(Exec(INIT, events[..n]), events[..n], events[n]);
      assert events[..n] + [events[n]] == events;
    }
  }

  /** In every run a request channel is handed out exactly when its pair was made and no Stop has come. */
  lemma RequestChanExactlyWhen(events: seq<Event>, p: nat)
    ensures RequestChan(Exec(INIT, events), p).Some? <==> Made(events, p) && StopRunner !in events
  {
    RunAgrees(events);
  }

  /** An answer is stored, and changes nothing else, exactly when its channel is available and empty. */
  lemma AnswerIsStoredExactlyWhen(events: seq<Event>, p: nat, x: nat)
    ensures var s := Exec(INIT, events);
            var c := RequestChan(s, p);
            && (c.Some? ==> c.value < |s.resps|)
            && Send(s, p, x) == if c.Some? && s.resps[c.value].buffer == []
                                then s.(resps := s.resps[c.value := s.resps[c.value].(buffer := [x])]) else s
  {
    EveryInterleavingIsSafe(events, p);
    RunAgrees(events);
    var s := Exec(INIT, events);
    if p < PAIRS { assert Points(s, p); }
    assert forall c | 0 <= c < |s.resps| :: s.resps[c].buffer == [] ==> s.resps[c].buffer + [x] == [x];
  }

  /** What response channel c takes in with an event, and what is taken out of it. */
  function TakenIn(s: State, e: Event, c: nat): seq<nat> {
    if e.SendResponse? && RequestChan(s, e.p) == Some(c) && c < |s.resps| && s.resps[c].buffer == [] then [e.x] else []
  }

  function TakenOut(s: State, e: Event, c: nat): seq<nat> {
    if e == TakeResponse(c) && c < |s.resps| && s.resps[c].buffer != [] then [s.resps[c].buffer[0]] else []
  }

  function Accepted(events: seq<Event>, c: nat): seq<nat> {
    if events == [] then []
    else
      var before := events[..|events| - 1];
      Accepted(before, c) + TakenIn(Exec(INIT, before), events[|events| - 1], c)
  }

  function Received(events: seq<Event>, c: nat): seq<nat> {
    if events == [] then []
    else
      var before := events[..|events| - 1];
      Received(before, c) + TakenOut(Exec(INIT, before), events[|events| - 1], c)
  }

  function Buffered(s: State, c: nat): seq<nat> {
    if c < |s.resps| then s.resps[c].buffer else []
  }

  lemma StopKeepsBuffer(s: State, c: nat)
    requires Inv(s)
    ensures Buffered(Stop(s), c) == Buffered(s, c)
  {
    if !s.stopped { CloseFirstKeeps(s, PAIRS); }
  }

  lemma EnableKeepsBuffer(s: State, first: nat, c: nat)
    requires |s.pairs| == PAIRS && first + 2 < PAIRS
    ensures Buffered(Enable(s, first), c) == Buffered(s, c)
  {
  }

  lemma SendKeepsBuffers(events: seq<Event>, p: nat, x: nat, c: nat)
    ensures var s := Exec(INIT, events);
            Buffered(Send(s, p, x), c) == Buffered(s, c) + TakenIn(s, SendResponse(p, x), c)
  {
    var s := Exec(INIT, events);
    AnswerIsStoredExactlyWhen(events, p, x);
    assert Buffered(s, c) + [] == Buffered(s, c) && [] + [x] == [x];
    hide Exec, Send;
  }

  lemma ReceiveKeepsBuffers(s: State, d: nat, c: nat)
    ensures Buffered(s, c) == TakenOut(s, TakeResponse(d), c) + Buffered(Receive(s, d), c)
  {
    var b := Buffered(s, c);
    assert [] + b == b && (b != [] ==> [b[0]] + b[1..] == b);
  }

  lemma StepConserves(events: seq<Event>, e: Event, c: nat)
    ensures var s := Exec(INIT, events);
            Buffered(s, c) + TakenIn(s, e, c) == TakenOut(s, e, c) + Buffered(Next(s, e), c)
  {
    var s := Exec(INIT, events);
    EveryInterleavingIsSafe(events, 0);
    var b := Buffered(s, c);
    assert b + [] == b && [] + Buffered(Next(s, e), c) == Buffered(Next(s, e), c);
    hide Exec, Send, Receive, Enable, Stop, Buffered, Inv;
    match e
    case SendResponse(p, x) => SendKeepsBuffers(events, p, x, c);
    case TakeResponse(d) => ReceiveKeepsBuffers(s, d, c);
    case SetSupervisor => EnableKeepsBuffer(s, SUPERVISOR, c);
    case SetHostTools => EnableKeepsBuffer(s, HOST_TOOLS, c);
    case StopRunner => StopKeepsBuffer(s, c);
  }

  lemma NothingYet(c: nat)
    ensures Buffered(INIT, c) == []
  {
    assert c < 3 ==> INIT.resps[c] == EMPTY;
  }

  lemma Reassociate(r: seq<nat>, b: seq<nat>, taken: seq<nat>, out: seq<nat>, b': seq<nat>)
    requires b + taken == out + b'
    ensures (r + b) + taken == (r + out) + b'
  {
    assert (r + b) + taken == r + (b + taken) && r + (out + b') == (r + out) + b';
  }

  /** In every run, Stop included: what a channel took in is what was taken out of it and what it still holds. */
  lemma {:induction false} AnswersAreConserved(events: seq<Event>, c: nat)
    ensures Accepted(events, c) == Received(events, c) + Buffered(Exec(INIT, events), c)
  {
    hide Next, Buffered, TakenIn, TakenOut;
    if events == [] {
      NothingYet(c);
    } else {
      var n := |events| - 1;
      var s, e := Exec(INIT, events[..n]), events[n];
      AnswersAreConserved(events[..n], c);
      StepConserves(events[..n], e, c);
      Reassociate(Received(events[..n], c), Buffered(s, c), TakenIn(s, e, c), TakenOut(s, e, c),
                  Buffered(Next(s, e), c));
    }
  }
}
