/**
 The prompt pipeline over one pair of 1-buffered channels: a server that sends a request and then
 waits for an answer, giving up on either after a timeout, and a responder that takes requests in
 order and answers with a non-blocking send. Requests are numbered 1, 2, 3, ... in the order in which
 they entered the request channel; an answer carries the number of the request it was given for.
 */
module PromptPipeline {
  import opened Common

  const BUFFER: nat := 1

  /** What became of an answer when the responder sent it. */
  datatype Fate = Delivered | Dropped

  /**
   sent counts the requests that entered the channel, fates records the answers in order (the i-th
   answer is the answer to request i + 1), consumed the answers the server received, in order.
   */
  datatype State = State(
    awaiting: bool, sent: nat, timeouts: nat,
    requests: seq<nat>, held: seq<nat>, answers: seq<nat>,
    fates: seq<Fate>, consumed: seq<nat>)

  datatype Action =
    | Send              // the request enters the channel
    | SendTimeout       // the request is denied unsent
    | Take              // the responder takes the next request
    | Answer            // the responder answers its oldest request
    | Receive           // the server receives an answer
    | ReceiveTimeout    // the server gives up waiting

  const INIT := State(false, 0, 0, [], [], [], [], [])

  function Next(s: State, a: Action): Option<State> {
    match a
    case Send =>
      if s.awaiting || |s.requests| >= BUFFER then None
      else Some(s.(awaiting := true, sent := s.sent + 1, requests := s.requests + [s.sent + 1]))
    case SendTimeout => if s.awaiting then None else Some(s)
    case Take =>
      if s.requests == [] then None
      else Some(s.(requests := s.requests[1..], held := s.held + [s.requests[0]]))
    case Answer =>
      if s.held == [] then None
      else if |s.answers| < BUFFER then
        Some(s.(held := s.held[1..], answers := s.answers + [s.held[0]], fates := s.fates + [Delivered]))
      else Some(s.(held := s.held[1..], fates := s.fates + [Dropped]))
    case Receive =>
      if !s.awaiting || s.answers == [] then None
      else Some(s.(awaiting := false, answers := s.answers[1..], consumed := s.consumed + [s.answers[0]]))
    case ReceiveTimeout =>
      if !s.awaiting then None else Some(s.(awaiting := false, timeouts := s.timeouts + 1))
  }

  function Exec(s: State, acts: seq<Action>): Option<State> {
    if acts == [] then Some(s)
    else
      var before := Exec(s, acts[..|acts| - 1]);
      if before.None? then None else Next(before.value, acts[|acts| - 1])
  }

  // ---- Invariant ----

  function Count(fates: seq<Fate>, f: Fate): nat {
    if fates == [] then 0
    else Count(fates[..|fates| - 1], f) + (if fates[|fates| - 1] == f then 1 else 0)
  }

  lemma {:induction false} CountsAddUp(fates: seq<Fate>)
    ensures Count(fates, Delivered) + Count(fates, Dropped) == |fates|
  {
    if fates != [] { CountsAddUp(fates[..|fates| - 1]); }
  }

  /** The numbers from lo up to hi. */
  function Range(lo: nat, hi: nat): (r: seq<nat>)
    requires lo <= hi + 1
    ensures |r| == hi + 1 - lo
    ensures forall i | 0 <= i < |r| :: r[i] == lo + i
  {
    seq(hi + 1 - lo, i requires 0 <= i => lo + i)
  }

  /** j is the number of an answer that was delivered, after which every answer up to now was dropped. */
  predicate LastDelivered(fates: seq<Fate>, j: nat) {
    && 1 <= j <= |fates|
    && fates[j - 1] == Delivered
    && forall i | j <= i < |fates| :: fates[i] == Dropped
  }

  /** Strictly increasing numbers of answers already given. */
  predicate InOrder(numbers: seq<nat>, given: nat) {
    && (forall i, j | 0 <= i < j < |numbers| :: numbers[i] < numbers[j])
    && (forall i | 0 <= i < |numbers| :: 1 <= numbers[i] <= given)
  }

  predicate Inv(s: State) {
    && InOrder(s.consumed + s.answers, |s.fates|)
    && |s.requests| <= BUFFER
    && |s.fates| <= s.sent
    && s.held + s.requests == Range(|s.fates| + 1, s.sent)
    && |s.answers| <= BUFFER
    && |s.consumed| + |s.answers| == Count(s.fates, Delivered)
    && (s.answers != [] ==> LastDelivered(s.fates, s.answers[0]))
    && |s.consumed| + s.timeouts + (if s.awaiting then 1 else 0) == s.sent
    && Count(s.fates, Dropped) <= s.timeouts
  }

  lemma CountSnoc(fates: seq<Fate>, f: Fate, g: Fate)
    ensures Count(fates + [f], g) == Count(fates, g) + (if f == g then 1 else 0)
  {
    assert (fates + [f])[..|fates|] == fates;
  }

  /** Dropped answers after position j add nothing to the deliveries. */
  lemma {:induction false} DropsAfter(fates: seq<Fate>, j: nat)
    requires j <= |fates| && forall i | j <= i < |fates| :: fates[i] == Dropped
    ensures Count(fates, Delivered) == Count(fates[..j], Delivered)
  {
    if j < |fates| {
      var n := |fates| - 1;
      assert fates[..n][..j] == fates[..j];
      DropsAfter(fates[..n], j);
    } else {
      assert fates[..j] == fates;
    }
  }

  lemma QueueTail(held: seq<nat>, requests: seq<nat>, lo: nat, hi: nat)
    requires held != [] && lo <= hi + 1 && held + requests == Range(lo, hi)
    ensures lo <= hi && held[0] == lo && held[1..] + requests == Range(lo + 1, hi)
  {
    assert |held + requests| > 0 && (held + requests)[0] == lo;
    assert held[1..] + requests == (held + requests)[1..];
  }

  lemma InOrderSnoc(numbers: seq<nat>, given: nat)
    requires InOrder(numbers, given)
    ensures InOrder(numbers + [given + 1], given + 1)
  {
  }

  lemma DeliveredAnswerKeepsInv(s: State)
    requires Inv(s) && s.held != [] && s.answers == []
    ensures Inv(Next(s, Answer).value)
  {
    var s' := Next(s, Answer).value;
    QueueTail(s.held, s.requests, |s.fates| + 1, s.sent);
    InOrderSnoc(s.consumed + s.answers, |s.fates|);
    assert s'.consumed + s'.answers == (s.consumed + s.answers) + [|s.fates| + 1];
    CountSnoc(s.fates, Delivered, Delivered);
    CountSnoc(s.fates, Delivered, Dropped);
  }

  lemma DroppedAnswerKeepsInv(s: State)
    requires Inv(s) && s.held != [] && s.answers != []
    ensures Inv(Next(s, Answer).value)
  {
    hide Count, Range;
    QueueTail(s.held, s.requests, |s.fates| + 1, s.sent);
    CountsAddUp(s.fates);
    CountSnoc(s.fates, Dropped, Delivered);
    CountSnoc(s.fates, Dropped, Dropped);
  }

  lemma RequestMovesKeepInv(s: State, a: Action)
    requires Inv(s) && (a.Send? || a.Take?) && Next(s, a).Some?
    ensures Inv(Next(s, a).value)
  {
    var s' := Next(s, a).value;
    if a.Send? {
      assert s'.held + s'.requests == (s.held + s.requests) + [s.sent + 1];
    } else {
      assert s'.held + s'.requests == s.held + s.requests;
    }
  }

  lemma ReceiveKeepsInv(s: State)
    requires Inv(s) && Next(s, Receive).Some?
    ensures Inv(Next(s, Receive).value)
  {
    var s' := Next(s, Receive).value;
    assert s'.consumed + s'.answers == s.consumed + s.answers;
  }

  lemma StepKeepsInv(s: State, a: Action)
    requires Inv(s) && Next(s, a).Some?
    ensures Inv(Next(s, a).value)
  {
    match a
    case Send => RequestMovesKeepInv(s, a);
    case Take => RequestMovesKeepInv(s, a);
    case Answer => if s.answers == [] { DeliveredAnswerKeepsInv(s); } else { DroppedAnswerKeepsInv(s); }
    case Receive => ReceiveKeepsInv(s);
    case _ =>
  }

  lemma {:induction false} RunKeepsInv(acts: seq<Action>)
    requires Exec(INIT, acts).Some?
    ensures Inv(Exec(INIT, acts).value)
  {
    if acts != [] {
      RunKeepsInv(acts[..|acts| - 1]);
      StepKeepsInv(Exec(INIT, acts[..|acts| - 1]).value, acts[|acts| - 1]);
    }
  }

  // ---- Results ----

  /**
   Conservation: at every moment each request that was sent is queued, held by the responder, answered
   in the channel, consumed, or its answer was dropped; and drops never outnumber receive timeouts.
   */
  lemma {:induction false} RequestsAreConserved(acts: seq<Action>)
    requires Exec(INIT, acts).Some?
    ensures var s := Exec(INIT, acts).value;
            && s.sent == |s.requests| + |s.held| + |s.answers| + |s.consumed| + Count(s.fates, Dropped)
            && Count(s.fates, Dropped) <= s.timeouts
  {
    RunKeepsInv(acts);
    var s := Exec(INIT, acts).value;
    CountsAddUp(s.fates);
    assert |s.held + s.requests| == s.sent - |s.fates|;
  }

  /** The last delivered answer j is preceded by one delivery fewer than there are in all. */
  lemma DeliveriesBefore(fates: seq<Fate>, j: nat)
    requires LastDelivered(fates, j)
    ensures Count(fates, Delivered) + Count(fates[..j - 1], Dropped) == j
  {
    assert fates[..j] == fates[..j - 1] + [Delivered];
    DropsAfter(fates, j);
    CountSnoc(fates[..j - 1], Delivered, Delivered);
    CountsAddUp(fates[..j - 1]);
  }

  /** j answers request k after t timeouts, d answers before j having been dropped. */
  predicate Skewed(s: State) {
    s.answers != [] &&
    var j, k := s.answers[0], s.sent;
    && 1 <= j <= |s.fates|
    && j + s.timeouts == k + Count(s.fates[..j - 1], Dropped)
    && k <= j + s.timeouts
    && j <= k
  }

  lemma InvImpliesSkew(s: State)
    requires Inv(s) && s.awaiting && s.answers != []
    ensures Skewed(s)
  {
    DeliveriesBefore(s.fates, s.answers[0]);
  }

  /**
   The exact skew: when the server, waiting with its k-th request, receives the answer to request j,
   then j is k minus the timeouts so far plus the answers dropped before j. So k - t <= j <= k.
   */
  lemma {:induction false} AnswerSkew(acts: seq<Action>)
    requires Exec(INIT, acts).Some? && Next(Exec(INIT, acts).value, Receive).Some?
    ensures Skewed(Exec(INIT, acts).value)
  {
    RunKeepsInv(acts);
    InvImpliesSkew(Exec(INIT, acts).value);
  }

  /** The answer received is the one waited for exactly when every timed-out answer before it was dropped. */
  lemma {:induction false} AnswerMatchesExactlyWhen(acts: seq<Action>)
    requires Exec(INIT, acts).Some? && Next(Exec(INIT, acts).value, Receive).Some?
    ensures var s := Exec(INIT, acts).value;
            && 1 <= s.answers[0] <= |s.fates|
            && (s.answers[0] == s.sent <==> s.timeouts == Count(s.fates[..s.answers[0] - 1], Dropped))
  {
    AnswerSkew(acts);
  }

  lemma {:induction false} CountPrefix(fates: seq<Fate>, n: nat, f: Fate)
    requires n <= |fates|
    ensures Count(fates[..n], f) <= Count(fates, f)
  {
    if n < |fates| {
      assert fates[..|fates| - 1][..n] == fates[..n];
      CountPrefix(fates[..|fates| - 1], n, f);
    } else {
      assert fates[..n] == fates;
    }
  }

  /** A responder that waits for room instead of dropping lags behind by exactly the timeouts: j = k - t. */
  lemma {:induction false} WithoutDropsSkewIsTimeouts(acts: seq<Action>)
    requires Exec(INIT, acts).Some? && Next(Exec(INIT, acts).value, Receive).Some?
    requires Count(Exec(INIT, acts).value.fates, Dropped) == 0
    ensures var s := Exec(INIT, acts).value; s.answers[0] + s.timeouts == s.sent
  {
    AnswerSkew(acts);
    var s := Exec(INIT, acts).value;
    CountPrefix(s.fates, s.answers[0] - 1, Dropped);
  }

  /** The answers reach the server in the order of their requests, each at most once. */
  lemma {:induction false} AnswersArriveInOrder(acts: seq<Action>)
    requires Exec(INIT, acts).Some?
    ensures var s := Exec(INIT, acts).value;
            InOrder(s.consumed, s.sent)
  {
    RunKeepsInv(acts);
    var s := Exec(INIT, acts).value;
    assert forall i | 0 <= i < |s.consumed| :: (s.consumed + s.answers)[i] == s.consumed[i];
  }

  /** While no wait has timed out, every answer belongs to the request it is used for and none is dropped. */
  lemma {:induction false} WithoutTimeoutsAnswersMatch(acts: seq<Action>)
    requires Exec(INIT, acts).Some? && ReceiveTimeout !in acts
    ensures var s := Exec(INIT, acts).value;
            && Count(s.fates, Dropped) == 0
            && (Next(s, Receive).Some? ==> s.answers[0] == s.sent)
  {
    RunKeepsInv(acts);
    TimeoutsAreCounted(acts);
    if Next(Exec(INIT, acts).value, Receive).Some? { AnswerSkew(acts); }
  }

  lemma {:induction false} TimeoutsAreCounted(acts: seq<Action>)
    requires Exec(INIT, acts).Some? && ReceiveTimeout !in acts
    ensures Exec(INIT, acts).value.timeouts == 0
  {
    if acts != [] {
      assert acts[|acts| - 1] in acts;
      TimeoutsAreCounted(acts[..|acts| - 1]);
    }
  }

  /** The skew is real: after one timeout the answer to the first request is used for the second. */
  lemma OneTimeoutShiftsTheAnswers()
    ensures var acts := [Send, ReceiveTimeout, Take, Answer, Send];
            && Exec(INIT, acts).Some?
            && Next(Exec(INIT, acts).value, Receive).Some?
            && Exec(INIT, acts).value.sent == 2 && Exec(INIT, acts).value.answers[0] == 1
  {
    var s1 := Next(INIT, Send).value;
    var s2 := Next(s1, ReceiveTimeout).value;
    var s3 := Next(s2, Take).value;
    var s4 := Next(s3, Answer).value;
    assert [Send][..0] == [] && [Send, ReceiveTimeout][..1] == [Send];
    assert Exec(INIT, [Send]) == Some(s1);
    assert Exec(INIT, [Send, ReceiveTimeout]) == Some(s2);
    assert [Send, ReceiveTimeout, Take][..2] == [Send, ReceiveTimeout];
    assert Exec(INIT, [Send, ReceiveTimeout, Take]) == Some(s3);
    assert [Send, ReceiveTimeout, Take, Answer][..3] == [Send, ReceiveTimeout, Take];
    assert Exec(INIT, [Send, ReceiveTimeout, Take, Answer]) == Some(s4);
    assert [Send, ReceiveTimeout, Take, Answer, Send][..4] == [Send, ReceiveTimeout, Take, Answer];
  }
}
