/**
 Output-token accounting. The CLI reports counts that grow within one API call and start again with
 the next one; the tracker recognises a new call by its message id. The total it shows is compared
 with a definition over the whole sequence of reports.
 */
module TokenTotals {

  /** One report that reaches the tracker: an id, empty when the report does not name one, and a count. */
  datatype Report = Report(id: string, count: nat)

  /** The id in force after some reports: the last one that was named. */
  function CurrentId(reports: seq<Report>): string {
    if reports == [] then ""
    else
      var last := reports[|reports| - 1];
      if last.id != "" then last.id else CurrentId(reports[..|reports| - 1])
  }

  /** Report i opens a segment: it names an id other than the one in force. */
  predicate Opens(reports: seq<Report>, i: nat)
    requires i < |reports|
  {
    reports[i].id != "" && reports[i].id != CurrentId(reports[..i])
  }

  /** Report i is the last one of its segment. */
  predicate ClosesSegment(reports: seq<Report>, i: nat)
    requires i < |reports|
  {
    i == |reports| - 1 || Opens(reports, i + 1)
  }

  /** A segment counts unless no id was in force in it and a named one has replaced it. */
  predicate Counts(reports: seq<Report>, i: nat)
    requires i < |reports|
  {
    ClosesSegment(reports, i) && (i == |reports| - 1 || CurrentId(reports[..i + 1]) != "")
  }

  /** The sum, over the first n reports, of the final counts of the segments of all reports. */
  function SegmentSum(reports: seq<Report>, n: nat): nat
    requires n <= |reports|
  {
    if n == 0 then 0
    else SegmentSum(reports, n - 1) + (if Counts(reports, n - 1) then reports[n - 1].count else 0)
  }

  /** What the displayed total should be. */
  function Total(reports: seq<Report>): nat {
    SegmentSum(reports, |reports|)
  }

  datatype Tokens = Tokens(accumulated: nat, lastId: string, lastTokens: nat)

  class TokenTracking {
    var accumulatedOutput: nat
    var lastMessageID: string
    var lastMessageTokens: nat

    function State(): Tokens
      reads this
    {
      Tokens(accumulatedOutput, lastMessageID, lastMessageTokens)
    }

    method Reset()
      modifies this
      ensures State() == Tokens(0, "", 0)
    {
      accumulatedOutput, lastMessageID, lastMessageTokens := 0, "", 0;
    }

    function CurrentTotal(): nat
      reads this
    {
      accumulatedOutput + lastMessageTokens
    }

    /** The tracker agrees with the reports it has seen. */
    ghost predicate Tracks(reports: seq<Report>)
      reads this
    {
      && lastMessageID == CurrentId(reports)
      && lastMessageTokens == (if reports == [] then 0 else reports[|reports| - 1].count)
      && CurrentTotal() == Total(reports)
    }

    /** One report with a positive count; the ghost history is what was reported since the last Reset. */
    method Update(messageID: string, outputTokens: nat, ghost history: seq<Report>)
      requires Tracks(history)
      modifies this
      ensures Tracks(history + [Report(messageID, outputTokens)])
    {
      TotalAfter(history, Report(messageID, outputTokens));
      if messageID != "" && messageID != lastMessageID {
        if lastMessageID != "" {
          accumulatedOutput := accumulatedOutput + lastMessageTokens;
        }
        lastMessageID := messageID;
        lastMessageTokens := 0;
      }
      lastMessageTokens := outputTokens;
    }

    /** Reports of a whole response: those with a zero count never reach the tracker. */
    method TrackAll(reports: seq<Report>) returns (total: nat)
      modifies this
      ensures Tracks(Positive(reports)) && total == Total(Positive(reports))
    {
      Reset();
      for i := 0 to |reports|
        invariant Tracks(Positive(reports[..i]))
      {
        assert reports[..i + 1][..i] == reports[..i];
        assert Positive(reports[..i]) + [] == Positive(reports[..i]);
        assert reports[i] == Report(reports[i].id, reports[i].count);
        if reports[i].count > 0 {
          Update(reports[i].id, reports[i].count, Positive(reports[..i]));
        }
      }
      assert reports[..|reports|] == reports;
      total := CurrentTotal();
    }

    /** The total of the final statistics when the result carries no per-model usage. */
    method FinalTotal(resultTokens: nat) returns (total: nat)
      ensures total >= CurrentTotal()
      ensures total == accumulatedOutput + if resultTokens > lastMessageTokens then resultTokens else lastMessageTokens
    {
      total := accumulatedOutput + lastMessageTokens;
      if resultTokens > lastMessageTokens {
        total := accumulatedOutput + resultTokens;
      }
    }
  }

  function Positive(reports: seq<Report>): seq<Report> {
    if reports == [] then []
    else
      var last := reports[|reports| - 1];
      Positive(reports[..|reports| - 1]) + (if last.count > 0 then [last] else [])
  }

  // ---- Facts about the definition ----

  /** Up to the report before the last, a further report changes nothing. */
  lemma {:induction false} SumBeforeLast(reports: seq<Report>, e: Report, n: nat)
    requires n < |reports|
    ensures SegmentSum(reports + [e], n) == SegmentSum(reports, n)
  {
    if n > 0 {
      SumBeforeLast(reports, e, n - 1);
      var all := reports + [e];
      assert all[..n] == reports[..n];
    }
  }

  lemma IdAfter(reports: seq<Report>, e: Report)
    ensures CurrentId(reports + [e]) == if e.id != "" then e.id else CurrentId(reports)
  {
    assert (reports + [e])[..|reports|] == reports;
  }

  lemma SumAfter(reports: seq<Report>, e: Report)
    requires reports != []
    ensures var n := |reports| - 1;
            && Total(reports) == SegmentSum(reports, n) + reports[n].count
            && Total(reports + [e]) == SegmentSum(reports, n)
                 + (if Counts(reports + [e], n) then reports[n].count else 0) + e.count
  {
    hide CurrentId, Counts;
    var all, n := reports + [e], |reports|;
    LastAlwaysCounts(reports);
    LastAlwaysCounts(all);
    SumBeforeLast(reports, e, n - 1);
    assert SegmentSum(all, n) == SegmentSum(all, n - 1) + (if Counts(all, n - 1) then all[n - 1].count else 0);
  }

  lemma LastAlwaysCounts(reports: seq<Report>)
    requires reports != []
    ensures Counts(reports, |reports| - 1)
  {
  }

  /** The total after one more report, from the total before it. */
  lemma TotalAfter(reports: seq<Report>, e: Report)
    ensures var last := if reports == [] then 0 else reports[|reports| - 1].count;
            var before := CurrentId(reports);
            && last <= Total(reports)
            && CurrentId(reports + [e]) == (if e.id != "" then e.id else before)
            && Total(reports + [e])
               == Total(reports) - (if e.id != "" && e.id != before && before != "" then 0 else last) + e.count
  {
    IdAfter(reports, e);
    if reports == [] {
      assert reports + [e] == [e] && [e][..0] == [];
      assert SegmentSum([e], 1) == SegmentSum([e], 0) + e.count;
    } else {
      hide CurrentId, Total, Counts;
      SumAfter(reports, e);
      LastCountsWhenReplaced(reports, e);
    }
  }

  /** The last report so far keeps counting when a named report replaces its named segment. */
  lemma LastCountsWhenReplaced(reports: seq<Report>, e: Report)
    requires reports != []
    ensures var before := CurrentId(reports);
            Counts(reports + [e], |reports| - 1) <==> (e.id != "" && e.id != before && before != "")
  {
    var all, n := reports + [e], |reports|;
    assert all[..n] == reports && all[n] == e;
  }

  /** Reports that only ever grow within a segment never make the displayed total shrink. */
  lemma TotalNeverShrinks(reports: seq<Report>, e: Report)
    requires reports != [] && CurrentId(reports) != ""
    requires !Opens(reports + [e], |reports|) ==> e.count >= reports[|reports| - 1].count
    ensures Total(reports + [e]) >= Total(reports)
  {
    TotalAfter(reports, e);
    assert (reports + [e])[..|reports|] == reports;
  }

  // ---- One call after another ----

  /** A report after the first of its call, which may or may not repeat the call's id. */
  datatype Later = Later(named: bool, count: nat)

  /** An API call as it is reported: its id with a first count, then further counts. */
  datatype Call = Call(id: string, first: nat, later: seq<Later>)

  function Reports(c: Call): seq<Report> {
    [Report(c.id, c.first)] + LaterReports(c.id, c.later)
  }

  function LaterReports(id: string, later: seq<Later>): seq<Report> {
    if later == [] then []
    else
      var last := later[|later| - 1];
      LaterReports(id, later[..|later| - 1]) + [Report(if last.named then id else "", last.count)]
  }

  function AllReports(calls: seq<Call>): seq<Report> {
    if calls == [] then [] else AllReports(calls[..|calls| - 1]) + Reports(calls[|calls| - 1])
  }

  /** The reports of a call that reach the tracker. */
  function Seen(c: Call): seq<Report> {
    Positive(Reports(c))
  }

  function Last(reports: seq<Report>): nat {
    if reports == [] then 0 else reports[|reports| - 1].count
  }

  /** What a call used: its last positive count. */
  function Used(c: Call): nat {
    Last(Seen(c))
  }

  function UsedByAll(calls: seq<Call>): nat {
    if calls == [] then 0 else UsedByAll(calls[..|calls| - 1]) + Used(calls[|calls| - 1])
  }

  /** The calls with a positive count. */
  function Counted(calls: seq<Call>): seq<Call> {
    if calls == [] then []
    else
      var c := calls[|calls| - 1];
      Counted(calls[..|calls| - 1]) + (if Seen(c) != [] then [c] else [])
  }

  function SeenOf(calls: seq<Call>): seq<Report> {
    if calls == [] then [] else SeenOf(calls[..|calls| - 1]) + Seen(calls[|calls| - 1])
  }

  /** Where the first named report is; the length when none is named. */
  function FirstNamed(reports: seq<Report>): (k: nat)
    ensures k <= |reports| && (k < |reports| ==> reports[k].id != "")
    ensures forall i | 0 <= i < k :: reports[i].id == ""
  {
    if reports == [] then 0
    else
      var n := |reports| - 1;
      var k := FirstNamed(reports[..n]);
      if k < n || reports[n].id != "" then k else n + 1
  }

  /** Some positive count comes with the id. */
  predicate Names(c: Call) {
    FirstNamed(Seen(c)) < |Seen(c)|
  }

  /** The first positive count comes with the id. */
  predicate StartsNamed(c: Call) {
    Seen(c) != [] && Seen(c)[0].id != ""
  }

  /** No positive count with the id follows one without it. */
  predicate Orderly(c: Call) {
    forall i, j | 0 <= i < j < |Seen(c)| :: Seen(c)[i].id == "" ==> Seen(c)[j].id == ""
  }

  /** No report after the first repeats the id, as in a stream of events without assistant messages. */
  predicate Plain(c: Call) {
    forall i | 0 <= i < |c.later| :: !c.later[i].named
  }

  /** The id in force after some calls: that of the last one that names itself. */
  function InForce(calls: seq<Call>): string {
    if calls == [] then ""
    else
      var c := calls[|calls| - 1];
      if Names(c) then c.id else InForce(calls[..|calls| - 1])
  }

  predicate Foreign(current: string, c: Call) {
    current != "" && current != c.id
  }

  /** The tracker takes the call for a new one from its first positive count on. */
  predicate Noticed(current: string, c: Call) {
    StartsNamed(c) && Foreign(current, c)
  }

  /** The count that stays in the total when the call is taken for a new one only after it. */
  function Doubled(current: string, c: Call): nat {
    if Names(c) && !StartsNamed(c) && Foreign(current, c) then Seen(c)[FirstNamed(Seen(c)) - 1].count else 0
  }

  /** What unnoticed calls overwrite: the count of the call before each of them. */
  function Overwritten(calls: seq<Call>): nat {
    if |calls| <= 1 then 0
    else
      var n := |calls| - 1;
      Overwritten(calls[..n]) + (if Noticed(InForce(calls[..n]), calls[n]) then 0 else Used(calls[n - 1]))
  }

  /** What calls that name themselves late add besides their own count. */
  function CountedTwice(calls: seq<Call>): nat {
    if calls == [] then 0
    else
      var n := |calls| - 1;
      CountedTwice(calls[..n]) + Doubled(InForce(calls[..n]), calls[n])
  }

  /** The first call names itself, every later one at once and under another id than the call before. */
  predicate EachNoticed(calls: seq<Call>) {
    && (calls != [] ==> Names(calls[0]))
    && (forall i | 0 < i < |calls| :: StartsNamed(calls[i]))
    && (forall i | 0 < i < |calls| :: calls[i].id != calls[i - 1].id)
  }

  predicate OfCall(reports: seq<Report>, id: string) {
    forall i | 0 <= i < |reports| :: reports[i].count > 0 && (reports[i].id == "" || reports[i].id == id)
  }

  lemma {:induction false} PositiveAppends(a: seq<Report>, b: seq<Report>)
    ensures Positive(a + b) == Positive(a) + Positive(b)
  {
    if b == [] {
      assert a + b == a;
    } else {
      var n := |b| - 1;
      assert (a + b)[..|a + b| - 1] == a + b[..n];
      PositiveAppends(a, b[..n]);
    }
  }

  /** id stands for the call's id, or for no id when none of the reports is named. */
  lemma {:induction false} LaterIsOfCall(c: string, later: seq<Later>, id: string)
    requires id == c || (id == "" && forall i | 0 <= i < |later| :: !later[i].named)
    ensures OfCall(Positive(LaterReports(c, later)), id)
  {
    if later != [] {
      var n := |later| - 1;
      LaterIsOfCall(c, later[..n], id);
      hide OfCall;
      var last := Report(if later[n].named then c else "", later[n].count);
      PositiveSnoc(LaterReports(c, later[..n]), last);
      OfCallSnoc(Positive(LaterReports(c, later[..n])), last, id);
    }
  }

  lemma PositiveSnoc(reports: seq<Report>, e: Report)
    ensures Positive(reports + [e]) == if e.count > 0 then Positive(reports) + [e] else Positive(reports)
  {
    assert (reports + [e])[..|reports|] == reports;
    assert Positive(reports) + [] == Positive(reports);
  }

  lemma OfCallSnoc(reports: seq<Report>, e: Report, id: string)
    requires OfCall(reports, id) && (e.id == "" || e.id == id)
    ensures e.count > 0 ==> OfCall(reports + [e], id)
  {
  }

  /** What of a call reaches the tracker: the first report if it is positive, then positive later ones. */
  lemma SeenSplits(c: Call)
    ensures Seen(c) == (if c.first > 0 then [Report(c.id, c.first)] else []) + Positive(LaterReports(c.id, c.later))
  {
    var first := Report(c.id, c.first);
    PositiveAppends([first], LaterReports(c.id, c.later));
    PositiveSnoc([], first);
    assert [] + [first] == [first];
  }

  lemma FirstOfCall(c: Call, rest: seq<Report>, id: string)
    requires OfCall(rest, id) && (id == c.id || c.first == 0)
    ensures OfCall((if c.first > 0 then [Report(c.id, c.first)] else []) + rest, id)
  {
  }

  lemma SeenIsOfCall(c: Call)
    ensures OfCall(Seen(c), c.id)
  {
    SeenSplits(c);
    LaterIsOfCall(c.id, c.later, c.id);
    FirstOfCall(c, Positive(LaterReports(c.id, c.later)), c.id);
  }

  /** In a plain call only the first report can be named. */
  lemma PlainIsOrderly(c: Call)
    requires Plain(c)
    ensures Orderly(c) && (StartsNamed(c) <==> c.id != "" && c.first > 0)
  {
    var rest := Positive(LaterReports(c.id, c.later));
    SeenSplits(c);
    LaterIsOfCall(c.id, c.later, "");
    hide Seen, Positive, LaterReports;
    assert forall i | 0 < i < |Seen(c)| :: Seen(c)[i] == rest[i - |Seen(c)| + |rest|];
  }

  lemma {:induction false} CountedAreCalls(calls: seq<Call>)
    ensures forall i | 0 <= i < |Counted(calls)| :: Counted(calls)[i] in calls && Seen(Counted(calls)[i]) != []
  {
    if calls != [] {
      hide Seen;
      var n := |calls| - 1;
      CountedAreCalls(calls[..n]);
      assert forall x | x in calls[..n] :: x in calls;
    }
  }

  lemma {:induction false} OnlyCountedMatter(calls: seq<Call>)
    ensures Positive(AllReports(calls)) == SeenOf(Counted(calls)) && UsedByAll(calls) == UsedByAll(Counted(calls))
  {
    if calls != [] {
      var n := |calls| - 1;
      OnlyCountedMatter(calls[..n]);
      PositiveAppends(AllReports(calls[..n]), Reports(calls[n]));
      assert AllReports(calls) == AllReports(calls[..n]) + Reports(calls[n]);
      hide Positive, Reports, AllReports;
      var before := Counted(calls[..n]);
      if Seen(calls[n]) != [] {
        assert (before + [calls[n]])[..|before|] == before;
      } else {
        assert before + [] == before && SeenOf(before) + [] == SeenOf(before);
      }
    }
  }

  /** Reports that open no new named segment replace the last count. */
  lemma {:induction false} Replaces(before: seq<Report>, rs: seq<Report>, id: string)
    requires OfCall(rs, id) && rs != [] && (CurrentId(before) == id || CurrentId(before) == "")
    ensures Last(before) <= Total(before) && Total(before + rs) == Total(before) - Last(before) + Last(rs)
    ensures CurrentId(before + rs) == id || CurrentId(before + rs) == ""
    ensures rs[0].id != "" || CurrentId(before) == id ==> CurrentId(before + rs) == id
    ensures Last(before + rs) == Last(rs)
  {
    var n := |rs| - 1;
    assert before + rs == (before + rs[..n]) + [rs[n]];
    if n == 0 {
      assert before + rs[..n] == before;
    } else {
      Replaces(before, rs[..n], id);
    }
    TotalAfter(before + rs[..n], rs[n]);
    TotalAfter(before, rs[0]);
  }

  /** A call that announces itself under another id starts a segment of its own. */
  lemma Adds(before: seq<Report>, rs: seq<Report>, id: string)
    requires OfCall(rs, id) && rs != [] && rs[0].id == id && id != ""
    requires CurrentId(before) != "" && CurrentId(before) != id
    ensures Total(before + rs) == Total(before) + Last(rs) && CurrentId(before + rs) == id
    ensures Last(before + rs) == Last(rs)
  {
    var start := before + [rs[0]];
    TotalAfter(before, rs[0]);
    if |rs| > 1 {
      assert before + rs == start + rs[1..];
      Replaces(start, rs[1..], id);
    } else {
      assert rs == [rs[0]];
    }
  }

  lemma SnocSeen(cs: seq<Call>)
    requires cs != []
    ensures SeenOf(cs) == SeenOf(cs[..|cs| - 1]) + Seen(cs[|cs| - 1])
    ensures UsedByAll(cs) == UsedByAll(cs[..|cs| - 1]) + Used(cs[|cs| - 1])
  {
  }

  /** The reports up to the first named one replace the last count and leave the id in force. */
  lemma UnnamedReplace(before: seq<Report>, rs: seq<Report>, id: string)
    requires OfCall(rs, id) && forall i | 0 <= i < |rs| :: rs[i].id == ""
    ensures Last(before) <= Total(before) && CurrentId(before + rs) == CurrentId(before)
    ensures Total(before + rs) == if rs == [] then Total(before) else Total(before) - Last(before) + Last(rs)
    ensures Last(before + rs) == if rs == [] then Last(before) else Last(rs)
  {
    if rs == [] {
      assert before + rs == before;
      TotalAfter(before, Report("", 0));
    } else {
      Replaces(before, rs, CurrentId(before));
    }
  }

  /** The reports from the first named one on add to a total under another id, else they replace the last count. */
  lemma NamedAddOrReplace(before: seq<Report>, rs: seq<Report>, id: string)
    requires OfCall(rs, id) && rs != [] && rs[0].id != ""
    ensures Last(before) <= Total(before) && CurrentId(before + rs) == id && Last(before + rs) == Last(rs)
    ensures var current := CurrentId(before);
            Total(before + rs)
            == Total(before) - (if current != "" && current != id then 0 else Last(before)) + Last(rs)
  {
    hide Total, CurrentId;
    if CurrentId(before) != "" && CurrentId(before) != id {
      TotalAfter(before, Report("", 0));
      Adds(before, rs, id);
    } else {
      Replaces(before, rs, id);
    }
  }

  /** Reports that are named only from the k-th on do both, one after the other. */
  lemma NamedLate(before: seq<Report>, rs: seq<Report>, id: string, k: nat)
    requires OfCall(rs, id) && 0 < k < |rs| && rs[k].id != "" && forall i | 0 <= i < k :: rs[i].id == ""
    ensures Last(before) <= Total(before) && CurrentId(before + rs) == id && Last(before + rs) == Last(rs)
    ensures var current := CurrentId(before);
            Total(before + rs)
            == Total(before) - Last(before) + (if current != "" && current != id then rs[k - 1].count else 0) + Last(rs)
  {
    hide Total, CurrentId;
    var unnamed, named := rs[..k], rs[k..];
    assert OfCall(unnamed, id) && OfCall(named, id) && Last(named) == Last(rs) && Last(unnamed) == rs[k - 1].count;
    UnnamedReplace(before, unnamed, id);
    NamedAddOrReplace(before + unnamed, named, id);
    assert before + rs == (before + unnamed) + named;
  }

  /** What one more call does to the shown total, after any reports and however the call is reported. */
  lemma CallChangesTotal(before: seq<Report>, c: Call)
    requires Seen(c) != []
    ensures Last(before) <= Total(before)
    ensures var current := CurrentId(before);
            && Total(before + Seen(c))
               == Total(before) - (if Noticed(current, c) then 0 else Last(before)) + Doubled(current, c) + Used(c)
            && CurrentId(before + Seen(c)) == if Names(c) then c.id else current
    ensures Last(before + Seen(c)) == Used(c)
  {
    SeenIsOfCall(c);
    hide Seen, Total, CurrentId, OfCall, Last;
    var rs := Seen(c);
    var k := FirstNamed(rs);
    if k == |rs| {
      UnnamedReplace(before, rs, c.id);
    } else if k == 0 {
      NamedAddOrReplace(before, rs, c.id);
    } else {
      NamedLate(before, rs, c.id, k);
    }
  }

  lemma {:induction false} CountedAreConserved(cs: seq<Call>)
    requires forall i | 0 <= i < |cs| :: Seen(cs[i]) != []
    ensures Total(SeenOf(cs)) + Overwritten(cs) == UsedByAll(cs) + CountedTwice(cs)
    ensures CurrentId(SeenOf(cs)) == InForce(cs)
    ensures Last(SeenOf(cs)) == if cs == [] then 0 else Used(cs[|cs| - 1])
  {
    if cs != [] {
      var n := |cs| - 1;
      CountedAreConserved(cs[..n]);
      SnocSeen(cs);
      hide Total, CurrentId, SeenOf, UsedByAll, Seen, Last;
      CallChangesTotal(SeenOf(cs[..n]), cs[n]);
    }
  }

  /**
   For all calls, however they are reported: the shown total is what they used, less what unnoticed calls overwrite,
   plus what late names count twice.
   */
  lemma TotalIsConserved(calls: seq<Call>)
    ensures var cs := Counted(calls);
            Total(Positive(AllReports(calls))) + Overwritten(cs) == UsedByAll(calls) + CountedTwice(cs)
  {
    hide Positive, AllReports, Reports;
    OnlyCountedMatter(calls);
    CountedAreCalls(calls);
    CountedAreConserved(Counted(calls));
  }

  lemma UsedIsPositive(c: Call)
    requires Seen(c) != []
    ensures Used(c) > 0
  {
    SeenIsOfCall(c);
    hide Seen;
  }

  lemma NamedInForce(cs: seq<Call>)
    requires cs != [] && EachNoticed(cs)
    ensures InForce(cs) == cs[|cs| - 1].id && InForce(cs) != ""
  {
    hide Seen;
    var c := cs[|cs| - 1];
    assert Names(c);
    SeenIsOfCall(c);
  }

  lemma NoticedExtends(cs: seq<Call>)
    requires |cs| > 1 && EachNoticed(cs[..|cs| - 1])
    ensures EachNoticed(cs) <==> Noticed(InForce(cs[..|cs| - 1]), cs[|cs| - 1])
  {
    var n := |cs| - 1;
    NamedInForce(cs[..n]);
    hide Seen, StartsNamed, Names, InForce;
    if Noticed(InForce(cs[..n]), cs[n]) {
      forall i | 0 < i < |cs| ensures StartsNamed(cs[i]) && cs[i].id != cs[i - 1].id {
        assert cs[..n][i - 1] == cs[i - 1];
        if i < n { assert cs[..n][i] == cs[i]; }
      }
    }
  }

  lemma EachNoticedBefore(cs: seq<Call>)
    requires |cs| > 1 && EachNoticed(cs)
    ensures EachNoticed(cs[..|cs| - 1])
  {
    hide Seen, StartsNamed, Names;
  }

  /** Nothing is overwritten exactly when each call is noticed; then nothing is counted twice either. */
  lemma {:induction false} NothingOverwrittenExactlyWhen(cs: seq<Call>)
    requires forall i | 0 <= i < |cs| :: Seen(cs[i]) != []
    ensures Overwritten(cs) == 0 <==> |cs| <= 1 || EachNoticed(cs)
    ensures Overwritten(cs) == 0 ==> CountedTwice(cs) == 0
  {
    if |cs| > 1 {
      var n := |cs| - 1;
      NothingOverwrittenExactlyWhen(cs[..n]);
      UsedIsPositive(cs[n - 1]);
      hide Seen, Names, Used, EachNoticed;
      if EachNoticed(cs[..n]) { NoticedExtends(cs); }
      if EachNoticed(cs) { EachNoticedBefore(cs); }
      if n == 1 { FirstIsNoticedWhenNamed(cs[..1]); }
    } else if |cs| == 1 {
      assert cs[..0] == [];
    }
  }

  lemma FirstIsNoticedWhenNamed(cs: seq<Call>)
    requires |cs| == 1
    ensures InForce(cs) != "" ==> EachNoticed(cs)
  {
    assert cs[..|cs| - 1] == [] && InForce([]) == "";
  }

  /** In particular the total is right when each call is noticed, whether or not later reports repeat the id. */
  lemma CallsAddUp(calls: seq<Call>)
    requires |Counted(calls)| <= 1 || EachNoticed(Counted(calls))
    ensures Total(Positive(AllReports(calls))) == UsedByAll(calls)
  {
    hide Positive, AllReports, Reports, Counted;
    TotalIsConserved(calls);
    CountedAreCalls(calls);
    NothingOverwrittenExactlyWhen(Counted(calls));
  }

  // ---- Calls whose named reports come first ----

  /** Such a call names itself at once or never, so it is noticed at once or overwrites the call before it. */
  lemma OrderlyDoublesNothing(current: string, c: Call)
    requires Orderly(c) && Seen(c) != []
    ensures Doubled(current, c) == 0 && (Names(c) <==> StartsNamed(c))
  {
    hide Seen;
  }

  /** A call that goes unnoticed overwrites the count of the call before it, which is lost. */
  lemma UnnoticedCallLosesTheOneBefore(before: seq<Report>, c: Call)
    requires Seen(c) != [] && Orderly(c) && !Noticed(CurrentId(before), c)
    ensures Last(before) <= Total(before) && Total(before + Seen(c)) == Total(before) - Last(before) + Used(c)
    ensures CurrentId(before + Seen(c)) == if StartsNamed(c) then c.id else CurrentId(before)
    ensures Last(before + Seen(c)) == Used(c)
  {
    hide Seen, Total, CurrentId, Orderly, Last;
    CallChangesTotal(before, c);
    OrderlyDoublesNothing(CurrentId(before), c);
  }

  /** In particular a call whose first positive count comes without the id loses the call before it. */
  lemma ZeroStartLosesTheCallBefore(before: seq<Report>, c: Call)
    requires Seen(c) != [] && Orderly(c) && !StartsNamed(c)
    ensures c.id == "" || c.first == 0
    ensures Total(before + Seen(c)) == Total(before) - Last(before) + Used(c)
  {
    SeenSplits(c);
    hide Seen;
    UnnoticedCallLosesTheOneBefore(before, c);
  }

  lemma {:induction false} OrderlyCountOnce(cs: seq<Call>)
    requires forall i | 0 <= i < |cs| :: Orderly(cs[i]) && Seen(cs[i]) != []
    ensures CountedTwice(cs) == 0
  {
    if cs != [] {
      hide Seen, Orderly, Doubled;
      var n := |cs| - 1;
      OrderlyCountOnce(cs[..n]);
      OrderlyDoublesNothing(InForce(cs[..n]), cs[n]);
    }
  }

  /**
   For calls that name themselves first if at all, the total never exceeds what the calls used, and equals it if and
   only if at most one call has a positive count, or every call that has one comes with its id at once and under
   another id than the one before it.
   */
  lemma CallsAddUpExactlyWhen(calls: seq<Call>)
    requires forall i | 0 <= i < |calls| :: Orderly(calls[i])
    ensures Total(Positive(AllReports(calls))) <= UsedByAll(calls)
    ensures var cs := Counted(calls);
            Total(Positive(AllReports(calls))) == UsedByAll(calls)
            <==> || |cs| <= 1
                 || ((forall i | 0 <= i < |cs| :: StartsNamed(cs[i]))
                     && (forall i | 0 < i < |cs| :: cs[i].id != cs[i - 1].id))
  {
    hide Positive, AllReports, Reports, Seen, Orderly, Counted;
    var cs := Counted(calls);
    TotalIsConserved(calls);
    CountedAreCalls(calls);
    OrderlyCountOnce(cs);
    NothingOverwrittenExactlyWhen(cs);
    if cs != [] { OrderlyDoublesNothing("", cs[0]); }
  }

  /** In a stream of events without assistant messages, starting with the id is starting with a positive count. */
  lemma StreamedCallsAddUpExactlyWhen(calls: seq<Call>)
    requires forall i | 0 <= i < |calls| :: calls[i].id != "" && Plain(calls[i])
    ensures var cs := Counted(calls);
            Total(Positive(AllReports(calls))) == UsedByAll(calls)
            <==> || |cs| <= 1
                 || ((forall i | 0 <= i < |cs| :: cs[i].first > 0)
                     && (forall i | 0 < i < |cs| :: cs[i].id != cs[i - 1].id))
  {
    hide Positive, AllReports, Reports, Seen, Orderly, Counted, Plain;
    CountedAreCalls(calls);
    forall i | 0 <= i < |calls| ensures Orderly(calls[i]) && (StartsNamed(calls[i]) <==> calls[i].first > 0) {
      PlainIsOrderly(calls[i]);
    }
    CallsAddUpExactlyWhen(calls);
  }

  // ---- Calls that name themselves late ----

  lemma LaterSnoc(id: string, later: seq<Later>, l: Later)
    ensures LaterReports(id, later + [l]) == LaterReports(id, later) + [Report(if l.named then id else "", l.count)]
  {
    assert (later + [l])[..|later|] == later;
  }

  lemma NoReports(id: string)
    ensures LaterReports(id, []) == [] && Positive([]) == []
  {
  }

  lemma SeenOfLateName(b: Call, y: nat, z: nat)
    requires b.first == 0 && b.later == [Later(false, y), Later(true, z)] && y > 0 && z > 0
    ensures Seen(b) == [Report("", y), Report(b.id, z)]
  {
    hide LaterReports, Positive, Seen;
    var one, two := [Later(false, y)], [Later(false, y), Later(true, z)];
    NoReports(b.id);
    assert [] + one == one && one + [Later(true, z)] == two;
    LaterSnoc(b.id, [], Later(false, y));
    LaterSnoc(b.id, one, Later(true, z));
    var r, q := Report("", y), Report(b.id, z);
    assert [] + [r] == [r] && [r] + [q] == [r, q];
    PositiveSnoc([], r);
    PositiveSnoc([r], q);
    SeenSplits(b);
    assert [] + [r, q] == [r, q];
  }

  lemma OneCall(a: Call)
    requires Seen(a) != []
    ensures Counted([a]) == [a] && UsedByAll([a]) == Used(a) && CountedTwice([a]) == 0
    ensures InForce([a]) == if Names(a) then a.id else ""
  {
    hide Seen, Names, StartsNamed;
    assert [a][..0] == [] && [] + [a] == [a];
    assert Counted([]) == [] && UsedByAll([]) == 0 && InForce([]) == "" && CountedTwice([]) == 0;
  }

  lemma TwoCalls(a: Call, b: Call)
    requires Seen(a) != [] && Seen(b) != [] && Names(a)
    ensures Counted([a, b]) == [a, b] && UsedByAll([a, b]) == Used(a) + Used(b)
    ensures Overwritten([a, b]) == if Noticed(a.id, b) then 0 else Used(a)
    ensures CountedTwice([a, b]) == Doubled(a.id, b)
  {
    OneCall(a);
    hide Seen, Names, StartsNamed, Doubled, Used, Noticed, InForce;
    assert [a, b][..1] == [a] && [a] + [b] == [a, b];
  }

  /**
   A second call b that names itself only with its last count: the first call's count is overwritten, b's count
   before the name stays. The total may then be too small, too large, or right although a call was overwritten.
   */
  lemma LateNameShiftsTheTotal(a: Call, b: Call, y: nat, z: nat)
    requires Names(a) && y > 0 && z > 0
    requires b.id != "" && b.id != a.id && b.first == 0 && b.later == [Later(false, y), Later(true, z)]
    ensures UsedByAll([a, b]) == Used(a) + z && Total(Positive(AllReports([a, b]))) == y + z
    ensures Overwritten(Counted([a, b])) == Used(a) && CountedTwice(Counted([a, b])) == y
  {
    SeenIsOfCall(a);
    hide Seen, Positive, AllReports, Total, Counted, UsedByAll, Overwritten, CountedTwice;
    SeenOfLateName(b, y, z);
    TwoCalls(a, b);
    TotalIsConserved([a, b]);
  }
}
