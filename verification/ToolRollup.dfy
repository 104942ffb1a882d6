/** The rollup of tool uses of a session in the background, and its markers in the streaming text. */
module ToolRollup {
  import opened Common

  /** summary is what the result has to say about itself, empty when there is nothing to show. */
  datatype Item = Item(name: string, input: string, id: string, complete: bool, summary: string)

  function Done(item: Item, summary: string): Item {
    item.(complete := true, summary := summary)
  }

  // ---- Which item a result completes ----

  predicate FirstWithId(items: seq<Item>, id: string, k: nat) {
    k < |items| && items[k].id == id && forall j | 0 <= j < k :: items[j].id != id
  }

  predicate FirstOpen(items: seq<Item>, k: nat) {
    k < |items| && !items[k].complete && forall j | 0 <= j < k :: items[j].complete
  }

  predicate Unknown(items: seq<Item>, id: string) {
    id == "" || forall i | 0 <= i < |items| :: items[i].id != id
  }

  /** The item a result with this id is credited to: the first with the id, else the first incomplete one. */
  predicate Target(items: seq<Item>, id: string, k: nat) {
    if Unknown(items, id) then FirstOpen(items, k) else FirstWithId(items, id, k)
  }

  /** The effect of one result on the items: exactly one target is completed, or there is none. */
  ghost predicate Marked(items: seq<Item>, id: string, summary: string, items': seq<Item>) {
    || (exists k: nat :: Target(items, id, k) && items' == items[k := Done(items[k], summary)])
    || ((forall k: nat :: !Target(items, id, k)) && items' == items)
  }

  class SessionState {
    var rollup: Option<seq<Item>>
    var streamingContent: string
    var toolUsePos: int

    constructor ()
      ensures rollup == None && streamingContent == "" && toolUsePos == 0
    {
      rollup, streamingContent, toolUsePos := None, "", 0;
    }

    function Items(): seq<Item>
      reads this
    {
      if rollup.None? then [] else rollup.value
    }

    method AddToolUse(name: string, input: string, id: string)
      modifies this`rollup
      ensures rollup == Some(old(Items()) + [Item(name, input, id, false, "")])
    {
      if rollup.None? {
        rollup := Some([]);
      }
      rollup := Some(rollup.value + [Item(name, input, id, false, "")]);
    }

    method MarkToolUseComplete(id: string, summary: string)
      modifies this`rollup
      ensures Marked(old(Items()), id, summary, Items())
      ensures rollup.None? <==> old(rollup).None?
    {
      if rollup.None? || |rollup.value| == 0 {
        return;
      }
      var items := rollup.value;
      if id != "" {
        for i := 0 to |items|
          invariant rollup == old(rollup)
          invariant forall j | 0 <= j < i :: items[j].id != id
        {
          if items[i].id == id {
            rollup := Some(items[i := Done(items[i], summary)]);
            assert Target(items, id, i);
            return;
          }
        }
      }
      for i := 0 to |items|
        invariant rollup == old(rollup)
        invariant forall j | 0 <= j < i :: items[j].complete
      {
        if !items[i].complete {
          rollup := Some(items[i := Done(items[i], summary)]);
          assert Target(items, id, i);
          return;
        }
      }
    }

    /** The loop body of FlushToolUseRollup: one tool use as a line of text. */
    method RenderItem(item: Item, icon: string -> string, inProgress: string, completed: string)
      returns (line: string)
      ensures line == Render(item, icon, inProgress, completed)
    {
      var marker := if item.complete then completed else inProgress;
      line := marker + " " + icon(item.name) + "(" + item.name;
      if item.input != "" {
        line := line + (": " + item.input);
      }
      line := line + ")";
      if item.complete && item.summary != "" {
        line := line + (" \U{2192} " + item.summary);
      }
      RenderLine(item, icon, inProgress, completed, line);
      line := line + "\n";
    }

    method FlushToolUseRollup(icon: string -> string, inProgress: string, completed: string)
      modifies this
      ensures old(Items()) == [] ==>
                rollup == old(rollup) && streamingContent == old(streamingContent) && toolUsePos == old(toolUsePos)
      ensures old(Items()) != [] ==>
                && rollup == None && toolUsePos == -1
                && streamingContent == OnNewLine(old(streamingContent))
                                       + RenderAll(old(Items()), icon, inProgress, completed)
    {
      hide Render;
      if rollup.None? || |rollup.value| == 0 {
        return;
      }
      if streamingContent != "" && streamingContent[|streamingContent| - 1] != '\n' {
        streamingContent := streamingContent + "\n";
      }
      ghost var start := streamingContent;
      var items := rollup.value;
      for i := 0 to |items|
        invariant streamingContent == start + RenderAll(items[..i], icon, inProgress, completed)
      {
        var line := RenderItem(items[i], icon, inProgress, completed);
        streamingContent := streamingContent + line;
        AppendLine(start, items, i, icon, inProgress, completed);
      }
      assert items[..|items|] == items;
      rollup, toolUsePos := None, -1;
    }

    /** Replace the marker at pos, if it is really there. */
    method ReplaceToolUseMarker(oldMarker: string, newMarker: string, pos: int)
      modifies this`streamingContent
      ensures streamingContent == Replaced(old(streamingContent), oldMarker, newMarker, pos)
    {
      var n := |oldMarker|;
      if pos < 0 || pos + n > |streamingContent| {
        return;
      }
      if streamingContent[pos..pos + n] != oldMarker {
        return;
      }
      var prefix := streamingContent[..pos];
      var suffix := streamingContent[pos + n..];
      streamingContent := prefix + newMarker + suffix;
    }
  }

  // ---- Rendering ----

  function OnNewLine(s: string): string {
    if s != "" && s[|s| - 1] != '\n' then s + "\n" else s
  }

  function Render(item: Item, icon: string -> string, inProgress: string, completed: string): string {
    (if item.complete then completed else inProgress) + " " + icon(item.name) + "(" + item.name
    + (if item.input != "" then ": " + item.input else "") + ")"
    + (if item.complete && item.summary != "" then " \U{2192} " + item.summary else "") + "\n"
  }

  function RenderAll(items: seq<Item>, icon: string -> string, inProgress: string, completed: string): string {
    if items == [] then ""
    else RenderAll(items[..|items| - 1], icon, inProgress, completed)
         + Render(items[|items| - 1], icon, inProgress, completed)
  }

  lemma AppendLine(start: string, items: seq<Item>, i: nat, icon: string -> string, inProgress: string,
                   completed: string)
    requires i < |items|
    ensures start + RenderAll(items[..i + 1], icon, inProgress, completed)
            == start + RenderAll(items[..i], icon, inProgress, completed)
               + Render(items[i], icon, inProgress, completed)
  {
    hide Render;
    assert items[..i + 1][..i] == items[..i];
  }

  lemma RenderLine(item: Item, icon: string -> string, inProgress: string, completed: string, line: string)
    requires var head := (if item.complete then completed else inProgress) + " " + icon(item.name) + "(" + item.name;
             var body := (if item.input != "" then head + (": " + item.input) else head) + ")";
             line == if item.complete && item.summary != "" then body + (" \U{2192} " + item.summary) else body
    ensures line + "\n" == Render(item, icon, inProgress, completed)
  {
    var head := (if item.complete then completed else inProgress) + " " + icon(item.name) + "(" + item.name;
    assert head + "" == head;
    var body := (if item.input != "" then head + (": " + item.input) else head) + ")";
    assert body + "" == body;
  }

  // ---- What the lines say ----

  predicate StartsWith(s: string, head: string) {
    |head| <= |s| && s[..|head|] == head
  }

  predicate EndsWith(s: string, tail: string) {
    |tail| <= |s| && s[|s| - |tail|..] == tail
  }

  /** What a complete tool use with a summary, and any other, ends its line with. */
  function Ending(item: Item): string {
    if item.complete && item.summary != "" then ") \U{2192} " + item.summary + "\n" else ")\n"
  }

  function Tool(item: Item): string {
    if item.input == "" then item.name else item.name + ": " + item.input
  }

  lemma LineParts(item: Item, icon: string -> string, inProgress: string, completed: string)
    ensures Render(item, icon, inProgress, completed)
            == ((if item.complete then completed else inProgress) + (" " + icon(item.name) + "("))
               + (Tool(item) + Ending(item))
  {
    var marker := if item.complete then completed else inProgress;
    var input := if item.input != "" then ": " + item.input else "";
    var summary := if item.complete && item.summary != "" then " \U{2192} " + item.summary else "";
    assert item.name + "" == item.name && ")" + "" == ")";
    assert item.input != "" ==> item.name + (": " + item.input) == Tool(item);
    assert item.summary != "" ==> ")" + (" \U{2192} " + item.summary) + "\n" == ") \U{2192} " + item.summary + "\n";
    assert item.name + input == Tool(item) && ")" + summary + "\n" == Ending(item);
    var a, b := " " + icon(item.name) + "(", item.name + input;
    assert marker + " " + icon(item.name) + "(" + item.name + input + ")" + summary + "\n"
        == (marker + a) + (b + (")" + summary + "\n"));
  }

  /** A line begins with the marker of its state, tells the tool and its input, and ends with the summary, if any. */
  lemma LineTells(item: Item, icon: string -> string, inProgress: string, completed: string)
    ensures var line := Render(item, icon, inProgress, completed);
            && StartsWith(line, (if item.complete then completed else inProgress) + (" " + icon(item.name) + "("))
            && EndsWith(line, Tool(item) + Ending(item))
  {
    hide Render, Tool, Ending;
    LineParts(item, icon, inProgress, completed);
    var head := (if item.complete then completed else inProgress) + (" " + icon(item.name) + "(");
    var tail := Tool(item) + Ending(item);
    assert (head + tail)[..|head|] == head && (head + tail)[|head|..] == tail;
  }

  /** The items are told one after the other. */
  lemma {:induction false} ItemsInOrder(a: seq<Item>, b: seq<Item>, icon: string -> string, inProgress: string,
                                        completed: string)
    ensures RenderAll(a + b, icon, inProgress, completed)
            == RenderAll(a, icon, inProgress, completed) + RenderAll(b, icon, inProgress, completed)
    ensures |a| == 1 ==> RenderAll(a, icon, inProgress, completed) == Render(a[0], icon, inProgress, completed)
  {
    hide Render;
    if |a| == 1 { assert a[..0] == []; }
    if b == [] {
      assert a + b == a;
    } else {
      var n := |b| - 1;
      assert (a + b)[..|a| + n] == a + b[..n];
      ItemsInOrder(a, b[..n], icon, inProgress, completed);
    }
  }

  /** The text ends its last line before the first item, and nothing of it is lost. */
  lemma NewLineFirst(s: string)
    ensures StartsWith(OnNewLine(s), s) && |OnNewLine(s)| <= |s| + 1
    ensures OnNewLine(s) == "" || EndsWith(OnNewLine(s), "\n")
    ensures s == "" || EndsWith(s, "\n") ==> OnNewLine(s) == s
  {
    var t := OnNewLine(s);
    assert t[..|s|] == s;
  }

  function Replaced(s: string, oldMarker: string, newMarker: string, pos: int): string {
    if 0 <= pos && pos + |oldMarker| <= |s| && s[pos..pos + |oldMarker|] == oldMarker
    then s[..pos] + newMarker + s[pos + |oldMarker|..]
    else s
  }

  /** A replacement that happened is undone by the swapped call at the same position. */
  lemma ReplacementIsUndone(s: string, oldMarker: string, newMarker: string, pos: int)
    requires 0 <= pos && pos + |oldMarker| <= |s| && s[pos..pos + |oldMarker|] == oldMarker
    ensures Replaced(Replaced(s, oldMarker, newMarker, pos), newMarker, oldMarker, pos) == s
  {
    var t := Replaced(s, oldMarker, newMarker, pos);
    assert t[pos..pos + |newMarker|] == newMarker;
    assert t[..pos] == s[..pos] && t[pos + |newMarker|..] == s[pos + |oldMarker|..];
  }

  /** Exactly where the marker stands it gives way to the new one; everything before and after stays. */
  lemma ReplacedExactly(s: string, oldMarker: string, newMarker: string, pos: int)
    ensures var t := Replaced(s, oldMarker, newMarker, pos);
            if 0 <= pos <= |s| && StartsWith(s[pos..], oldMarker) then
              && |t| == |s| - |oldMarker| + |newMarker| && t[..pos] == s[..pos] && StartsWith(t[pos..], newMarker)
              && t[pos + |newMarker|..] == s[pos + |oldMarker|..]
            else t == s
  {
    if 0 <= pos && pos + |oldMarker| <= |s| {
      assert s[pos..][..|oldMarker|] == s[pos..pos + |oldMarker|];
      var t := s[..pos] + newMarker + s[pos + |oldMarker|..];
      assert t[..pos] == s[..pos] && t[pos + |newMarker|..] == s[pos + |oldMarker|..];
      assert t[pos..][..|newMarker|] == newMarker;
    }
  }

  // ---- Runs of results ----

  datatype ToolResult = ToolResult(id: string, summary: string)

  /** states is a history of the items in which result k takes states[k] to states[k + 1]. */
  ghost predicate History(states: seq<seq<Item>>, results: seq<ToolResult>) {
    && |states| == |results| + 1
    && forall k | 0 <= k < |results| :: Marked(states[k], results[k].id, results[k].summary, states[k + 1])
  }

  predicate SameIdentity(a: seq<Item>, b: seq<Item>) {
    && |a| == |b|
    && forall i | 0 <= i < |a| :: a[i].name == b[i].name && a[i].input == b[i].input && a[i].id == b[i].id
  }

  /** No item moves, changes its identity or becomes incomplete, and one result completes at most one. */
  lemma MarkingIsMonotone(items: seq<Item>, id: string, summary: string, items': seq<Item>)
    requires Marked(items, id, summary, items')
    ensures SameIdentity(items, items')
    ensures forall i | 0 <= i < |items| :: items[i].complete ==> items'[i].complete
    ensures forall i, j | 0 <= i < |items| && 0 <= j < |items| && i != j ::
              items[i] == items'[i] || items[j] == items'[j]
  {
  }

  /** How many of the first n items are incomplete. */
  function Open(items: seq<Item>, n: nat): nat
    requires n <= |items|
  {
    if n == 0 then 0 else Open(items, n - 1) + (if items[n - 1].complete then 0 else 1)
  }

  /** Completing the first incomplete item takes one off every count that includes it. */
  lemma {:induction false} OpenAfterFirst(items: seq<Item>, k: nat, summary: string, n: nat)
    requires n <= |items| && FirstOpen(items, k)
    ensures Open(items[k := Done(items[k], summary)], n) == if n <= k then 0 else Open(items, n) - 1
    ensures n <= k ==> Open(items, n) == 0
    ensures n > k ==> Open(items, n) > 0
  {
    if n > 0 { OpenAfterFirst(items, k, summary, n - 1); }
  }

  lemma {:induction false} NothingOpen(items: seq<Item>, n: nat)
    requires n <= |items| && forall i | 0 <= i < |items| :: items[i].complete
    ensures Open(items, n) == 0
  {
    if n > 0 { NothingOpen(items, n - 1); }
  }

  lemma {:induction false} SomeFirst(items: seq<Item>, i: nat)
    requires i < |items| && !items[i].complete
    ensures exists k: nat :: FirstOpen(items, k)
  {
    if j :| 0 <= j < i && !items[j].complete {
      SomeFirst(items, j);
    } else {
      assert FirstOpen(items, i);
    }
  }

  /** A result without a known id takes the front of the queue of incomplete items. */
  lemma UnknownTakesFront(items: seq<Item>, r: ToolResult, items': seq<Item>, n: nat)
    requires Marked(items, r.id, r.summary, items') && Unknown(items, r.id) && n <= |items|
    ensures |items'| == |items|
    ensures Open(items', n) == if Open(items, n) == 0 then 0 else Open(items, n) - 1
  {
    if k: nat :| Target(items, r.id, k) && items' == items[k := Done(items[k], r.summary)] {
      OpenAfterFirst(items, k, r.summary, n);
    } else {
      forall i | 0 <= i < |items| ensures items[i].complete {
        if !items[i].complete {
          SomeFirst(items, i);
          var k: nat :| FirstOpen(items, k);
          assert Target(items, r.id, k);
        }
      }
      NothingOpen(items, n);
    }
  }

  lemma {:induction false} OpenIsDifference(items: seq<Item>, i: nat)
    requires i < |items|
    ensures Open(items, i + 1) == Open(items, i) + (if items[i].complete then 0 else 1)
  {
  }

  /** Whatever the results, the items keep their places and identities and stay complete. */
  lemma {:induction false} HistoryKeepsItems(states: seq<seq<Item>>, results: seq<ToolResult>, k: nat)
    requires History(states, results) && k <= |results|
    ensures SameIdentity(states[0], states[k])
    ensures forall i | 0 <= i < |states[0]| :: states[0][i].complete ==> states[k][i].complete
  {
    if k > 0 {
      HistoryKeepsItems(states, results, k - 1);
      var r := results[k - 1];
      assert Marked(states[k - 1], r.id, r.summary, states[k]);
      MarkingIsMonotone(states[k - 1], r.id, r.summary, states[k]);
    }
  }

  lemma {:induction false} OpenDrains(states: seq<seq<Item>>, results: seq<ToolResult>, k: nat, n: nat)
    requires History(states, results) && k <= |results|
    requires forall j | 0 <= j < |results| :: Unknown(states[0], results[j].id)
    requires n <= |states[0]|
    ensures |states[k]| == |states[0]|
    ensures Open(states[k], n) == if Open(states[0], n) <= k then 0 else Open(states[0], n) - k
  {
    if k > 0 {
      HistoryKeepsItems(states, results, k - 1);
      OpenDrains(states, results, k - 1, n);
      UnknownStaysUnknown(states[0], states[k - 1], results[k - 1].id);
      UnknownTakesFront(states[k - 1], results[k - 1], states[k], n);
    }
  }

  lemma UnknownStaysUnknown(a: seq<Item>, b: seq<Item>, id: string)
    requires SameIdentity(a, b)
    ensures Unknown(a, id) <==> Unknown(b, id)
  {
    if !Unknown(a, id) {
      var i :| 0 <= i < |a| && a[i].id == id;
      assert b[i].id == id;
    }
  }

  /**
   k results without a known id complete exactly the first k incomplete items, or all of them: item i is
   complete afterwards if and only if it was before or fewer than k incomplete items stood before it.
   */
  lemma UnknownResultsCompleteInOrder(states: seq<seq<Item>>, results: seq<ToolResult>, i: nat)
    requires History(states, results)
    requires forall j | 0 <= j < |results| :: Unknown(states[0], results[j].id)
    requires i < |states[0]|
    ensures SameIdentity(states[0], states[|results|])
    ensures states[|results|][i].complete
            <==> states[0][i].complete || Open(states[0], i) < |results|
  {
    HistoryKeepsItems(states, results, |results|);
    OpenDrains(states, results, |results|, i);
    OpenDrains(states, results, |results|, i + 1);
    OpenIsDifference(states[0], i);
    OpenIsDifference(states[|results|], i);
  }

  predicate DistinctIds(items: seq<Item>) {
    forall i, j | 0 <= i < j < |items| :: items[i].id != items[j].id
  }

  lemma KnownResultHits(items: seq<Item>, r: ToolResult, items': seq<Item>, i: nat)
    requires Marked(items, r.id, r.summary, items') && DistinctIds(items) && !Unknown(items, r.id) && i < |items|
    ensures |items'| == |items|
    ensures items'[i].complete <==> items[i].complete || items[i].id == r.id
    ensures items[i].id == r.id ==> items'[i].summary == r.summary
  {
    var t: nat :| t < |items| && items[t].id == r.id;
    assert Target(items, r.id, t);
  }

  lemma {:induction false} KnownResultsHit(states: seq<seq<Item>>, results: seq<ToolResult>, k: nat, i: nat)
    requires History(states, results) && k <= |results| && DistinctIds(states[0]) && i < |states[0]|
    requires forall j | 0 <= j < |results| :: !Unknown(states[0], results[j].id)
    ensures |states[k]| == |states[0]|
    ensures states[k][i].complete
            <==> states[0][i].complete || exists j | 0 <= j < k :: results[j].id == states[0][i].id
  {
    if k > 0 {
      HistoryKeepsItems(states, results, k - 1);
      KnownResultsHit(states, results, k - 1, i);
      UnknownStaysUnknown(states[0], states[k - 1], results[k - 1].id);
      KnownResultHits(states[k - 1], results[k - 1], states[k], i);
    }
  }

  /**
   Results with known ids complete exactly the items they name, in whatever order they come; so any
   order of the ids of all items completes all of them.
   */
  lemma KnownResultsCompleteTheirItems(states: seq<seq<Item>>, results: seq<ToolResult>)
    requires History(states, results) && DistinctIds(states[0])
    requires forall j | 0 <= j < |results| :: !Unknown(states[0], results[j].id)
    ensures SameIdentity(states[0], states[|results|])
    ensures forall i | 0 <= i < |states[0]| ::
              states[|results|][i].complete
              <==> states[0][i].complete || exists j | 0 <= j < |results| :: results[j].id == states[0][i].id
  {
    HistoryKeepsItems(states, results, |results|);
    forall i | 0 <= i < |states[0]|
      ensures states[|results|][i].complete
              <==> states[0][i].complete || exists j | 0 <= j < |results| :: results[j].id == states[0][i].id
    {
      KnownResultsHit(states, results, |results|, i);
    }
  }
}
