/**
 The response channel of a Runner: which handlers may still send on it, who closes it, and what the
 stream's flags then say. The handlers run under the Runner's mutex in any order; a line of output is
 handled in three sections, so other handlers and even a new request can come between them.
 */
module ResponseStream {
  import opened Common

  datatype Chunk = Text | Denials | Stats | Done(failed: bool)

  /** offered: the sends, in order; each is non-blocking and may drop its chunk when the buffer is full. */
  datatype Chan = Chan(offered: seq<Chunk>, closes: nat)

  /** What the result message holds, as far as it decides which chunks are sent. */
  datatype ResultInfo = ResultInfo(failed: bool, text: bool, denials: bool, stats: bool)

  /** The guarded fields: the current channel with its Closed flag and its sync.Once, and the stream's flags. */
  datatype Stream = Stream(
    chan: Option<Chan>, closed: bool, once: bool, active: bool, complete: bool, stopped: bool)

  const IDLE := Stream(None, false, false, false, false, false)

  // ---- The handlers, as functions of the guarded fields ----

  predicate Open(v: Stream) {
    v.chan.Some? && !v.closed
  }

  function Offer(v: Stream, chunks: seq<Chunk>): Stream
    requires v.chan.Some?
  {
    v.(chan := Some(v.chan.value.(offered := v.chan.value.offered + chunks)))
  }

  /** ResponseChannelState.Close. */
  function CloseOnce(v: Stream): Stream {
    if v.chan.None? || v.once then v
    else v.(chan := Some(v.chan.value.(closes := v.chan.value.closes + 1)), once := true, closed := true)
  }

  /** What is sent ahead of the final chunk. */
  function ResultNotes(info: ResultInfo): seq<Chunk> {
    (if info.failed && info.text then [Text] else []) + (if info.denials then [Denials] else [])
    + (if info.stats then [Stats] else [])
  }

  function ResultChunks(info: ResultInfo): seq<Chunk> {
    ResultNotes(info) + [Done(false)]
  }

  function OnSetup(v: Stream): Stream {
    Stream(Some(Chan([], 0)), false, false, true, false, v.stopped)
  }

  function OnRestartAttempt(v: Stream): Stream {
    if Open(v) then Offer(v, [Text]) else v
  }

  function OnFatalError(v: Stream): Stream {
    (if Open(v) then CloseOnce(Offer(v, [Done(true)])) else v).(active := false)
  }

  /** The last section of the result branch, for a line that was read for the current channel. */
  function OnResult(v: Stream, info: ResultInfo): Stream {
    (if Open(v) then CloseOnce(Offer(v, ResultChunks(info))) else v).(active := false, complete := false)
  }

  // ---- The handlers as methods ----

  class Channel {
    var offered: seq<Chunk>
    var closes: nat

    constructor ()
      ensures offered == [] && closes == 0
    {
      offered, closes := [], 0;
    }

    /** A send panics on a closed channel. */
    method Offer(c: Chunk)
      requires closes == 0
      modifies this`offered
      ensures offered == old(offered) + [c]
    {
      offered := offered + [c];
    }

    method Close()
      requires closes == 0
      modifies this`closes
      ensures closes == 1
    {
      closes := 1;
    }
  }

  class Runner {
    var channel: Channel?
    var closed: bool
    var once: bool
    var active: bool
    var complete: bool
    var stopped: bool

    ghost function View(): Stream
      reads this, channel
    {
      Stream(if channel == null then None else Some(Chan(channel.offered, channel.closes)),
             closed, once, active, complete, stopped)
    }

    ghost predicate Valid()
      reads this, channel
    {
      FlagsAgree(View())
    }

    constructor ()
      ensures Valid() && View() == IDLE
    {
      channel, closed, once, active, complete, stopped := null, false, false, false, false, false;
    }

    method Setup(ch: Channel)
      requires ch.offered == [] && ch.closes == 0
      modifies this
      ensures Valid() && channel == ch && View() == OnSetup(old(View()))
    {
      channel, closed, once := ch, false, false;
      active, complete := true, false;
    }

    method CloseResponseChannel()
      requires Valid()
      modifies this`closed, this`once, channel
      ensures Valid() && View() == CloseOnce(old(View()))
    {
      if channel == null { return; }
      if !once {
        channel.Close();
        closed, once := true, true;
      }
    }

    method HandleRestartAttempt()
      requires Valid()
      modifies channel
      ensures Valid() && View() == OnRestartAttempt(old(View()))
    {
      if channel != null && !closed { channel.Offer(Text); }
    }

    method HandleFatalError()
      requires Valid()
      modifies this`active, this`closed, this`once, channel
      ensures Valid() && View() == OnFatalError(old(View()))
    {
      if channel != null && !closed {
        channel.Offer(Done(true));
        CloseResponseChannel();
      }
      active := false;
    }

    method HandleProcessExit() returns (restart: bool)
      requires Valid()
      modifies this`active
      ensures Valid() && restart == !(stopped || complete)
      ensures View() == if restart then old(View()).(active := false) else old(View())
    {
      if stopped { return false; }
      if complete { return false; }
      active := false;
      return true;
    }

    /** The channel that the line was read for may be an earlier one; the flags tested are those of the current one. */
    method SendNotes(ch: Channel?, info: ResultInfo)
      requires Valid() && (ch != null && !closed ==> ch.closes == 0)
      modifies ch
      ensures ch == null || closed ==> ch == null || unchanged(ch)
      ensures ch != null && !closed ==> ch.offered == old(ch.offered) + ResultNotes(info) && ch.closes == 0
    {
      if info.failed && info.text && ch != null && !closed { ch.Offer(Text); }
      if info.denials && ch != null && !closed { ch.Offer(Denials); }
      if ch != null && !closed && info.stats { ch.Offer(Stats); }
    }

    /**
     The last section of the result branch; ch is the channel that was current when the line was read. It is sent on
     unless the current channel is closed, so it must be open then.
     */
    method FinishResult(ch: Channel?, info: ResultInfo)
      requires Valid() && (ch != null && !closed ==> ch.closes == 0)
      modifies this`active, this`complete, this`closed, this`once, channel, ch
      ensures Valid() && channel == old(channel)
      ensures ch == null || old(closed) ==> View() == old(View()).(active := false, complete := false)
      ensures ch == null || old(closed) ==> ch == null || unchanged(ch)
      ensures ch != null && !old(closed) && ch == channel ==> View() == OnResult(old(View()), info)
      ensures ch != null && !old(closed) && ch != channel ==>
                && View() == CloseOnce(old(View())).(active := false, complete := false)
                && ch.offered == old(ch.offered) + ResultChunks(info) && ch.closes == 0
    {
      hide ResultNotes;
      SendNotes(ch, info);
      if ch != null && !closed {
        ch.Offer(Done(false));
        assert ch.offered == old(ch.offered) + ResultChunks(info);
        CloseResponseChannel();
      }
      active, complete := false, false;
    }
  }

  // ---- Interleavings over any number of requests ----

  /** A line being handled: the request whose channel it was read for, and whether it is a marked result. */
  datatype Line = Line(request: Option<nat>, marked: bool)

  /** past: the channels of earlier requests. The current request has the number |past|. */
  datatype State = State(past: seq<Chan>, now: Stream, lines: map<nat, Line>, panicked: bool)

  datatype Event =
    | Setup | RestartAttempt | FatalError | ProcessExit(restart: bool) | StopRunner
    | BeginLine(t: nat) | EndLine(t: nat) | MarkResult(t: nat) | FinishResult(t: nat, info: ResultInfo)

  const INIT := State([], IDLE, map[], false)

  /** The result branch sends on the channel of its line, but tests and closes the current one. */
  function DoFinish(s: State, t: nat, info: ResultInfo): State
    requires t in s.lines
  {
    var request, s' := s.lines[t].request, s.(lines := s.lines - {t});
    if request.None? || s.now.closed then s'.(now := s.now.(active := false, complete := false))
    else if request.value >= |s.past| then s'.(now := OnResult(s.now, info))
    else
      var c := s.past[request.value];
      if c.closes > 0 then s'.(panicked := true)
      else s'.(past := s.past[request.value := c.(offered := c.offered + ResultChunks(info))],
               now := CloseOnce(s.now).(active := false, complete := false))
  }

  function Next(s: State, e: Event): Option<State> {
    match e
    case Setup =>
      Some(s.(past := if s.now.chan.Some? then s.past + [s.now.chan.value] else s.past, now := OnSetup(s.now)))
    case RestartAttempt => Some(s.(now := OnRestartAttempt(s.now)))
    case FatalError => Some(s.(now := OnFatalError(s.now)))
    case ProcessExit(restart) =>
      if restart != !(s.now.stopped || s.now.complete) then None
      else Some(if restart then s.(now := s.now.(active := false)) else s)
    case StopRunner => Some(s.(now := s.now.(stopped := true)))
    case BeginLine(t) =>
      if t in s.lines then None
      else Some(s.(lines := s.lines[t := Line(if Open(s.now) then Some(|s.past|) else None, false)]))
    case EndLine(t) => if t in s.lines && !s.lines[t].marked then Some(s.(lines := s.lines - {t})) else None
    case MarkResult(t) =>
      if t in s.lines && !s.lines[t].marked
      then Some(s.(now := s.now.(complete := true), lines := s.lines[t := s.lines[t].(marked := true)])) else None
    case FinishResult(t, info) => if t in s.lines && s.lines[t].marked then Some(DoFinish(s, t, info)) else None
  }

  function Exec(s: State, events: seq<Event>): Option<State> {
    if events == [] then Some(s)
    else
      var before := Exec(s, events[..|events| - 1]);
      if before.None? then None else Next(before.value, events[|events| - 1])
  }

  // ---- What holds in every run ----

  predicate FlagsAgree(v: Stream) {
    && v.once == v.closed
    && (v.chan.None? ==> !v.closed)
    && (v.chan.Some? ==> v.closed == (v.chan.value.closes > 0) && v.chan.value.closes <= 1)
  }

  /** Closed at most once, and closed exactly when a final chunk was offered: one, and nothing after it. */
  predicate Sound(c: Chan) {
    && c.closes <= 1
    && (forall k | 0 <= k < |c.offered| :: c.offered[k].Done? ==> k == |c.offered| - 1)
    && (c.closes == 1 <==> c.offered != [] && c.offered[|c.offered| - 1].Done?)
  }

  ghost predicate Inv(s: State) {
    && !s.panicked && FlagsAgree(s.now)
    && (s.now.chan.None? ==> s.past == [])
    && (s.now.chan.Some? ==> Sound(s.now.chan.value))
    && (forall i | 0 <= i < |s.past| :: Sound(s.past[i]))
    && (forall t | t in s.lines && s.lines[t].request.Some? ::
          s.now.chan.Some? && s.lines[t].request.value <= |s.past|)
    && (s.now.complete ==> exists t :: t in s.lines && s.lines[t].marked)
  }

  /** No new request was set up since the line was read, or the current channel is closed. */
  predicate Fresh(s: State, t: nat)
    requires t in s.lines
  {
    s.lines[t].request.None? || s.now.closed || s.lines[t].request.value >= |s.past|
  }

  lemma OfferSound(c: Chan, chunks: seq<Chunk>)
    requires Sound(c) && c.closes == 0 && chunks != []
    requires forall k | 0 <= k < |chunks| - 1 :: !chunks[k].Done?
    ensures var c' := Chan(c.offered + chunks, if chunks[|chunks| - 1].Done? then 1 else 0); Sound(c')
    ensures chunks[|chunks| - 1].Done? ==> !Sound(Chan(c.offered + chunks, 0))
  {
    assert (c.offered + chunks)[|c.offered + chunks| - 1] == chunks[|chunks| - 1];
  }

  lemma FreshFinishKeepsInv(s: State, t: nat, info: ResultInfo)
    requires Inv(s) && t in s.lines && s.lines[t].marked && Fresh(s, t)
    ensures Inv(DoFinish(s, t, info))
  {
    hide Sound, ResultChunks;
    if s.lines[t].request.Some? && !s.now.closed {
      FinalChunks(info);
      OfferSound(s.now.chan.value, ResultChunks(info));
    }
  }

  lemma StaleFinishBreaksInv(s: State, t: nat, info: ResultInfo)
    requires Inv(s) && t in s.lines && s.lines[t].marked && !Fresh(s, t)
    ensures !Inv(DoFinish(s, t, info))
  {
    hide Sound, ResultChunks;
    var n := s.lines[t].request.value;
    if s.past[n].closes == 0 {
      FinalChunks(info);
      OfferSound(s.past[n], ResultChunks(info));
      assert !Sound(DoFinish(s, t, info).past[n]);
    }
  }

  lemma FinalChunks(info: ResultInfo)
    ensures var chunks := ResultChunks(info);
            chunks != [] && chunks[|chunks| - 1].Done? && forall k | 0 <= k < |chunks| - 1 :: !chunks[k].Done?
  {
  }

  /** The result branch keeps every promise exactly when its line belongs to the current request. */
  lemma FinishIsSafeExactlyWhen(s: State, t: nat, info: ResultInfo)
    requires Inv(s) && t in s.lines && s.lines[t].marked
    ensures Inv(DoFinish(s, t, info)) <==> Fresh(s, t)
  {
    hide Inv, DoFinish;
    if Fresh(s, t) { FreshFinishKeepsInv(s, t, info); } else { StaleFinishBreaksInv(s, t, info); }
  }

  lemma NextKeepsInv(s: State, e: Event)
    requires Inv(s) && Next(s, e).Some?
    requires e.FinishResult? ==> Fresh(s, e.t)
    ensures Inv(Next(s, e).value)
  {
    hide Inv, DoFinish, OnFatalError, OnRestartAttempt, OnSetup;
    match e
    case FinishResult(t, info) => FinishIsSafeExactlyWhen(s, t, info);
    case RestartAttempt => SendKeepsInv(s, e);
    case FatalError => SendKeepsInv(s, e);
    case MarkResult(t) => LineKeepsInv(s, e);
    case BeginLine(t) => LineKeepsInv(s, e);
    case EndLine(t) => LineKeepsInv(s, e);
    case _ => FlagKeepsInv(s, e);
  }

  lemma SendKeepsInv(s: State, e: Event)
    requires Inv(s) && (e.RestartAttempt? || e.FatalError?)
    ensures Inv(Next(s, e).value)
  {
    hide Sound;
    if Open(s.now) {
      OfferSound(s.now.chan.value, [Text]);
      OfferSound(s.now.chan.value, [Done(true)]);
    }
  }

  lemma LineKeepsInv(s: State, e: Event)
    requires Inv(s) && (e.MarkResult? || e.BeginLine? || e.EndLine?) && Next(s, e).Some?
    ensures Inv(Next(s, e).value)
  {
    hide Sound;
    var s' := Next(s, e).value;
    if e.MarkResult? {
      assert e.t in s'.lines && s'.lines[e.t].marked;
    } else {
      MarkedStays(s, s');
    }
  }

  lemma FlagKeepsInv(s: State, e: Event)
    requires Inv(s) && (e.Setup? || e.ProcessExit? || e.StopRunner?) && Next(s, e).Some?
    ensures Inv(Next(s, e).value)
  {
  }

  lemma MarkedStays(s: State, s': State)
    requires s.now.complete ==> exists t :: t in s.lines && s.lines[t].marked
    requires forall t | t in s.lines && s.lines[t].marked :: t in s'.lines && s'.lines[t].marked
    ensures s.now.complete ==> exists t :: t in s'.lines && s'.lines[t].marked
  {
    if s.now.complete {
      var t :| t in s.lines && s.lines[t].marked;
      assert t in s'.lines && s'.lines[t].marked;
    }
  }

  /** No request is set up between reading a line and finishing it as a result. */
  predicate Ordered(s: State, events: seq<Event>) {
    forall k | 0 <= k < |events| && events[k].FinishResult? ::
      var before := Exec(s, events[..k]);
      before.Some? && events[k].t in before.value.lines ==> Fresh(before.value, events[k].t)
  }

  /** In every ordered run each channel gets at most one final chunk, nothing after it, and one close with it. */
  lemma {:induction false} OrderedRunsAreSound(events: seq<Event>)
    requires Exec(INIT, events).Some? && Ordered(INIT, events)
    ensures Inv(Exec(INIT, events).value)
  {
    if events != [] {
      var n := |events| - 1;
      assert forall k | 0 <= k < n :: events[..n][k] == events[k] && events[..n][..k] == events[..k];
      OrderedRunsAreSound(events[..n]);
      var s := Exec(INIT, events[..n]).value;
      assert events[n].FinishResult? ==> Fresh(s, events[n].t);
      NextKeepsInv(s, events[n]);
    }
  }

  // ---- What the consumer is told ----

  function Rank(c: Chunk): nat {
    match c
    case Text => 0
    case Denials => 1
    case Stats => 2
    case Done(_) => 3
  }

  /** A result is delivered whole: each part that it has, once and in order, and then the end without failure. */
  lemma ResultIsDelivered(s: State, t: nat, info: ResultInfo)
    requires Next(s, FinishResult(t, info)).Some? && Open(s.now) && s.lines[t].request == Some(|s.past|)
    ensures var before, v := s.now.chan.value.offered, Next(s, FinishResult(t, info)).value.now;
            && v.chan.Some? && before <= v.chan.value.offered
            && var sent := v.chan.value.offered[|before|..];
               && sent != [] && sent[|sent| - 1] == Done(false)
               && (Text in sent <==> info.failed && info.text)
               && (Denials in sent <==> info.denials) && (Stats in sent <==> info.stats)
               && forall j, k | 0 <= j < k < |sent| :: Rank(sent[j]) < Rank(sent[k])
  {
    var before, v := s.now.chan.value.offered, Next(s, FinishResult(t, info)).value.now;
    assert v.chan.value.offered == before + ResultChunks(info);
    assert v.chan.value.offered[|before|..] == ResultChunks(info);
    hide OnResult, Exec;
    PartsOfResult(info);
  }

  lemma PartsOfResult(info: ResultInfo)
    ensures var sent := ResultChunks(info);
            && sent != [] && sent[|sent| - 1] == Done(false)
            && (Text in sent <==> info.failed && info.text)
            && (Denials in sent <==> info.denials) && (Stats in sent <==> info.stats)
            && forall j, k | 0 <= j < k < |sent| :: Rank(sent[j]) < Rank(sent[k])
  {
    var notes := ResultNotes(info);
    assert ResultChunks(info) == notes + [Done(false)];
  }

  /** What ends a response is told by its final chunk: a failure exactly after a fatal error. */
  lemma EndIsTold(s: State, e: Event)
    requires Inv(s) && Open(s.now) && Next(s, e).Some? && !e.Setup?
    requires e.FinishResult? ==> s.lines[e.t].request == Some(|s.past|)
    ensures var v := Next(s, e).value.now;
            && v.chan.Some? && (v.closed <==> e.FatalError? || e.FinishResult?)
            && (v.closed ==> v.chan.value.offered != []
                             && v.chan.value.offered[|v.chan.value.offered| - 1] == Done(e.FatalError?))
            && (!v.closed ==> v.chan.value.offered
                              == s.now.chan.value.offered + (if e.RestartAttempt? then [Text] else []))
  {
    hide ResultNotes;
    if !e.RestartAttempt? { assert s.now.chan.value.offered + [] == s.now.chan.value.offered; }
    if e.FinishResult? { FinalChunks(e.info); }
  }

  /** A new request starts with an open channel that nothing was sent on, whatever became of the one before. */
  lemma SetupIsReady(s: State)
    ensures Next(s, Setup).Some?
    ensures var s' := Next(s, Setup).value;
            && Open(s'.now) && s'.now.chan == Some(Chan([], 0)) && s'.now.active && !s'.now.complete
            && s'.now.stopped == s.now.stopped && s.past <= s'.past
            && (s.now.chan.Some? ==> s'.past[|s.past|..] == [s.now.chan.value])
  {
  }

  /** A final chunk ends the request: the channel is closed and the stream inactive. */
  lemma FinalChunkCloses(s: State, e: Event)
    requires Inv(s) && Next(s, e).Some? && s.now.chan.Some?
    requires e.FatalError? || (e.FinishResult? && (s.now.closed || s.lines[e.t].request == Some(|s.past|)))
    ensures var v := Next(s, e).value.now; v.closed && !v.active && v.chan.value.closes == 1
  {
  }

  /** Until the next request a closed channel gets nothing and the stream stays inactive. */
  lemma {:induction false} ClosedStaysClosed(s: State, events: seq<Event>)
    requires s.now.closed && !s.now.active && Exec(s, events).Some?
    requires forall k | 0 <= k < |events| :: !events[k].Setup?
    ensures var s' := Exec(s, events).value;
            && s'.now.closed && !s'.now.active && s'.now.chan == s.now.chan
            && s'.past == s.past && s'.panicked == s.panicked
  {
    if events != [] {
      ClosedStaysClosed(s, events[..|events| - 1]);
    }
  }

  /** A refusal to restart of a Runner that was not stopped comes only inside the result branch. */
  lemma RefusalMeansResultInProgress(events: seq<Event>)
    requires Exec(INIT, events).Some? && Ordered(INIT, events)
    ensures var s := Exec(INIT, events).value;
            Next(s, ProcessExit(false)).Some? && !s.now.stopped ==> exists t :: t in s.lines && s.lines[t].marked
  {
    OrderedRunsAreSound(events);
  }

  /** Right after a completed response an exit is answered with a restart, exactly unless the Runner was stopped. */
  lemma ExitAfterResultRestarts(s: State, t: nat, info: ResultInfo)
    requires Next(s, FinishResult(t, info)).Some? && Inv(s) && Fresh(s, t)
    ensures var s' := Next(s, FinishResult(t, info)).value;
            && (Next(s', ProcessExit(false)).Some? <==> s.now.stopped)
            && (Next(s', ProcessExit(true)).Some? <==> !s.now.stopped)
  {
  }

  /** A request fails while a marked line is being handled, and the next one is set up. */
  lemma NextRequestInsideResult() returns (s: State)
    ensures Exec(INIT, [Setup, BeginLine(0), MarkResult(0), FatalError, Setup]) == Some(s)
    ensures 0 in s.lines && s.lines[0] == Line(Some(0), true)
    ensures |s.past| == 1 && s.past[0].closes == 1 && !s.now.closed
  {
    var run: seq<Event> := [];
    s := INIT;
    run, s := Then(run, s, Setup);
    run, s := Then(run, s, BeginLine(0));
    run, s := Then(run, s, MarkResult(0));
    run, s := Then(run, s, FatalError);
    run, s := Then(run, s, Setup);
    assert run == [Setup, BeginLine(0), MarkResult(0), FatalError, Setup];
  }

  /** A request set up inside the result branch: the final chunk goes to a closed channel. */
  lemma LateResultPanics(info: ResultInfo)
    ensures var run := [Setup, BeginLine(0), MarkResult(0), FatalError, Setup, FinishResult(0, info)];
            Exec(INIT, run).Some? && Exec(INIT, run).value.panicked
  {
    hide Exec;
    var s := NextRequestInsideResult();
    var first := [Setup, BeginLine(0), MarkResult(0), FatalError, Setup];
    var run, s' := Then(first, s, FinishResult(0, info));
    assert run == [Setup, BeginLine(0), MarkResult(0), FatalError, Setup, FinishResult(0, info)];
  }

  lemma Then(run: seq<Event>, s: State, e: Event) returns (run': seq<Event>, s': State)
    requires Exec(INIT, run) == Some(s) && Next(s, e).Some?
    ensures run' == run + [e] && Some(s') == Next(s, e) == Exec(INIT, run')
  {
    run', s' := run + [e], Next(s, e).value;
    assert run'[..|run|] == run;
  }
}
