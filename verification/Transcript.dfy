/**
 The transcript that the Runner builds from a response: the incremental builder with its newline
 flags, a renderer that looks at the text itself, and the two streaming modes.
 */
module Transcript {

  datatype Chunk =
    | Text(content: string)
    | ToolUse(name: string, input: string)
    | Silent                                // chunks that leave the transcript alone

  predicate EndsLine(s: string) {
    |s| >= 1 && s[|s| - 1] == '\n'
  }

  /** Ends in two newlines. */
  predicate EndsBlank(s: string) {
    |s| >= 2 && s[|s| - 2] == '\n' && s[|s| - 1] == '\n'
  }

  /** Ends the way a tool line does. */
  predicate EndsTool(s: string) {
    |s| >= 2 && s[|s| - 2] == ')' && s[|s| - 1] == '\n'
  }

  function ToolIcon(tool: string): string {
    if tool == "Read" then "Reading"
    else if tool == "Edit" then "Editing"
    else if tool == "Write" then "Writing"
    else if tool == "Glob" || tool == "Grep" || tool == "WebSearch" then "Searching"
    else if tool == "Bash" then "Running"
    else if tool == "Task" then "Delegating"
    else if tool == "WebFetch" then "Fetching"
    else "Using"
  }

  const BULLET: string := ['\U{25CF}', ' ']

  function ToolLine(tool: string, input: string): string {
    BULLET + ToolIcon(tool) + "(" + tool + (if input != "" then ": " + input else "") + ")\n"
  }

  // ---- The renderer without flags ----

  /** A page of text, and whether the last thing put on it was a tool line. */
  datatype Page = Page(text: string, afterTool: bool)

  const EMPTY_PAGE := Page("", false)

  /** What a chunk adds, decided by looking at the text that is really there. */
  function Put(p: Page, c: Chunk): Page {
    match c
    case Text(t) =>
      var gap := if p.afterTool && EndsLine(p.text) && !EndsBlank(p.text) then "\n" else "";
      Page(p.text + gap + t, false)
    case ToolUse(tool, input) =>
      var gap := if p.text != "" && !EndsLine(p.text) then "\n" else "";
      Page(p.text + gap + ToolLine(tool, input), true)
    case Silent => p
  }

  function PutAll(p: Page, chunks: seq<Chunk>): Page
    decreases |chunks|
  {
    if chunks == [] then p else PutAll(Put(p, chunks[0]), chunks[1..])
  }

  lemma {:induction false} PutAllAppend(p: Page, a: seq<Chunk>, b: seq<Chunk>)
    ensures PutAll(p, a + b) == PutAll(PutAll(p, a), b)
    decreases |a|
  {
    if a == [] {
      assert a + b == b;
    } else {
      assert (a + b)[1..] == a[1..] + b;
      PutAllAppend(Put(p, a[0]), a[1..], b);
    }
  }

  /** Right after a tool line the text ends in exactly one newline. */
  predicate Reachable(p: Page) {
    p.afterTool ==> EndsTool(p.text)
  }

  /** Text that follows a tool line is set off by a blank line, whatever the text. */
  lemma TextIsSetOff(p: Page, t: string)
    requires Reachable(p)
    ensures Reachable(Put(p, Text(t)))
    ensures p.afterTool ==> Put(p, Text(t)).text == p.text + "\n" + t
  {
  }

  lemma ToolLineEnds(tool: string, input: string)
    ensures EndsTool(ToolLine(tool, input))
  {
    var head := BULLET + ToolIcon(tool) + "(" + tool + (if input != "" then ": " + input else "");
    assert ToolLine(tool, input) == head + ")\n";
  }

  /** What stands before a tool line: the old text, completed to whole lines. */
  function BeforeTool(text: string): (r: string)
    ensures r == "" || EndsLine(r)
  {
    if text != "" && !EndsLine(text) then text + "\n" else text
  }

  /** A tool line stands on a line of its own. */
  lemma ToolStandsAlone(p: Page, tool: string, input: string)
    ensures Put(p, ToolUse(tool, input)).text == BeforeTool(p.text) + ToolLine(tool, input)
    ensures EndsTool(Put(p, ToolUse(tool, input)).text)
  {
    hide ToolLine;
    ToolLineEnds(tool, input);
    assert p.text + "" == p.text;
  }

  // ---- What a tool line says ----

  predicate EndsWith(s: string, tail: string) {
    |tail| <= |s| && s[|s| - |tail|..] == tail
  }

  /** The words for the tools that have one. */
  const WORDS: map<string, string> := map[
    "Read" := "Reading", "Edit" := "Editing", "Write" := "Writing", "Glob" := "Searching", "Grep" := "Searching",
    "Bash" := "Running", "Task" := "Delegating", "WebFetch" := "Fetching", "WebSearch" := "Searching"
  ]

  /** What stands in parentheses at the end of a tool line. */
  function Detail(tool: string, input: string): string {
    if input == "" then "(" + tool + ")\n" else "(" + tool + ": " + input + ")\n"
  }

  lemma WordIsIcon(tool: string)
    ensures ToolIcon(tool) == if tool in WORDS then WORDS[tool] else "Using"
  {
  }

  lemma LineIsDetail(tool: string, input: string)
    ensures ToolLine(tool, input) == ("\U{25CF} " + ToolIcon(tool)) + Detail(tool, input)
  {
    hide ToolIcon;
    assert "\U{25CF} " == BULLET;
    if input == "" {
      assert "(" + tool + "" == "(" + tool;
    } else {
      assert "(" + tool + (": " + input) == "(" + tool + ": " + input;
    }
  }

  /**
   A tool use is shown by a bullet, the word for the tool, its name, and its input when there is one; the new text
   begins with the old one and says nothing else.
   */
  lemma ToolUseIsShown(p: Page, tool: string, input: string)
    ensures var text := Put(p, ToolUse(tool, input)).text;
            var start := "\U{25CF} " + if tool in WORDS then WORDS[tool] else "Using";
            && EndsWith(text, Detail(tool, input)) && text == BeforeTool(p.text) + (start + Detail(tool, input))
  {
    hide ToolLine, ToolIcon, Detail;
    WordIsIcon(tool);
    ToolStandsAlone(p, tool, input);
    LineIsDetail(tool, input);
  }

  /** Two uses of one tool with different inputs leave different texts. */
  lemma InputsAreTold(p: Page, tool: string, a: string, b: string)
    requires a != b
    ensures Put(p, ToolUse(tool, a)).text != Put(p, ToolUse(tool, b)).text
  {
    var start := "\U{25CF} " + if tool in WORDS then WORDS[tool] else "Using";
    var before := BeforeTool(p.text);
    DetailsDiffer(tool, a, b);
    ToolUseIsShown(p, tool, a);
    ToolUseIsShown(p, tool, b);
    hide Detail, Put, BeforeTool;
    SameStart(before, start + Detail(tool, a), start + Detail(tool, b));
    SameStart(start, Detail(tool, a), Detail(tool, b));
  }

  lemma DetailsDiffer(tool: string, a: string, b: string)
    requires a != b
    ensures Detail(tool, a) != Detail(tool, b)
  {
    var head, tail := "(" + tool + ": ", ")\n";
    var x, y := Detail(tool, a), Detail(tool, b);
    assert a != "" ==> x == head + a + tail && x[|head|..|head| + |a|] == a;
    assert b != "" ==> y == head + b + tail && y[|head|..|head| + |b|] == b;
  }

  lemma SameStart(start: string, a: string, b: string)
    ensures start + a == start + b <==> a == b
  {
    assert (start + a)[|start|..] == a && (start + b)[|start|..] == b;
  }

  // ---- The incremental builder ----

  /** The fields of StreamingState that the builder reads and writes. */
  datatype Builder = Builder(text: string, afterTool: bool, newline: bool, doubleNewline: bool)

  /** The flags promise what the builder relies on. */
  predicate FlagsOk(b: Builder) {
    && (b.text != "" ==> (b.newline <==> EndsLine(b.text)))
    && (b.doubleNewline ==> EndsBlank(b.text))
    && (b.afterTool ==> EndsTool(b.text) && b.newline && !b.doubleNewline)
  }

  /** A non-empty suffix decides how the whole ends. */
  lemma Suffix(s: string, suffix: string)
    requires suffix != ""
    ensures EndsLine(s + suffix) <==> suffix[|suffix| - 1] == '\n'
    ensures |suffix| >= 2 && suffix[|suffix| - 2..] == "\n\n" ==> EndsBlank(s + suffix)
  {
    if |suffix| >= 2 && suffix[|suffix| - 2..] == "\n\n" {
      assert suffix[|suffix| - 2..][0] == '\n' && suffix[|suffix| - 2..][1] == '\n';
    }
  }

  function PageOf(b: Builder): Page {
    Page(b.text, b.afterTool)
  }

  /** The response-building part of the Runner's streaming state. */
  class StreamingState {
    var response: string
    var lastWasToolUse: bool
    var endsWithNewline: bool
    var endsWithDoubleNL: bool

    function State(): Builder
      reads this
    {
      Builder(response, lastWasToolUse, endsWithNewline, endsWithDoubleNL)
    }

    constructor ()
      ensures State() == Builder("", false, false, false)
    {
      response, lastWasToolUse, endsWithNewline, endsWithDoubleNL := "", false, false, false;
    }

    method Reset()
      modifies this
      ensures State() == Builder("", false, false, false)
    {
      response, lastWasToolUse, endsWithNewline, endsWithDoubleNL := "", false, false, false;
    }

    method WriteText(content: string)
      requires FlagsOk(State())
      modifies this
      ensures FlagsOk(State()) && PageOf(State()) == Put(old(PageOf(State())), Text(content))
    {
      TextIsSetOff(PageOf(State()), content);
      if lastWasToolUse && endsWithNewline && !endsWithDoubleNL {
        response := response + "\n";
        endsWithDoubleNL := true;
      }
      ghost var start := response;
      response := response + content;
      if |content| > 0 {
        endsWithNewline := content[|content| - 1] == '\n';
        endsWithDoubleNL := |content| >= 2 && content[|content| - 2..] == "\n\n";
        Suffix(start, content);
      }
      lastWasToolUse := false;
    }

    method Write(piece: string, ghost start: string, ghost line: string)
      requires response == start + line
      modifies this`response
      ensures response == start + (line + piece)
    {
      response := response + piece;
    }

    method WriteToolLine(tool: string, input: string)
      modifies this`response
      ensures response == old(response) + ToolLine(tool, input)
    {
      hide ToolIcon;
      ghost var start := response;
      ghost var head := BULLET + ToolIcon(tool) + "(" + tool;
      assert response == start + "" && "" + BULLET == BULLET;
      Write(BULLET, start, "");
      Write(ToolIcon(tool), start, BULLET);
      Write("(", start, BULLET + ToolIcon(tool));
      Write(tool, start, BULLET + ToolIcon(tool) + "(");
      if input != "" {
        Write(": ", start, head);
        Write(input, start, head + ": ");
        assert head + ": " + input == head + (": " + input);
        head := head + (": " + input);
      } else {
        assert head + "" == head;
      }
      Write(")\n", start, head);
    }

    method WriteToolUse(tool: string, input: string)
      requires FlagsOk(State())
      modifies this
      ensures FlagsOk(State()) && PageOf(State()) == Put(old(PageOf(State())), ToolUse(tool, input))
    {
      hide ToolIcon, ToolLine;
      ToolStandsAlone(PageOf(State()), tool, input);
      if |response| > 0 && !endsWithNewline {
        response := response + "\n";
      }
      WriteToolLine(tool, input);
      endsWithNewline, endsWithDoubleNL, lastWasToolUse := true, false, true;
    }

    /** The chunk loop of handleProcessLine: the flags never change what the real suffix would give. */
    method HandleChunks(chunks: seq<Chunk>)
      requires FlagsOk(State())
      modifies this
      ensures FlagsOk(State())
      ensures PageOf(State()) == PutAll(old(PageOf(State())), chunks)
    {
      for i := 0 to |chunks|
        invariant FlagsOk(State())
        invariant PutAll(PageOf(State()), chunks[i..]) == PutAll(old(PageOf(State())), chunks)
      {
        assert chunks[i..][1..] == chunks[i + 1..];
        match chunks[i]
        case Text(content) => WriteText(content);
        case ToolUse(tool, input) => WriteToolUse(tool, input);
        case Silent =>
      }
    }
  }

  // ---- Decoded messages and the chunks they give ----

  /** todoParsed: the input of a TodoWrite call was understood, so a todo list is shown instead of a tool line. */
  datatype Block =
    | TextBlock(text: string)
    | ToolBlock(tool: string, description: string, todoParsed: bool)
    | OtherBlock

  predicate ShowsTool(b: Block) {
    b.ToolBlock? && !(b.tool == "TodoWrite" && b.todoParsed)
  }

  predicate ShowsText(b: Block) {
    b.TextBlock? && b.text != ""
  }

  /** The chunks of one block; with stream events its text has already been delivered. */
  function BlockChunks(b: Block, hasStreamEvents: bool): seq<Chunk> {
    if ShowsText(b) && !hasStreamEvents then [Text(b.text)]
    else if ShowsTool(b) then [ToolUse(b.tool, b.description)]
    else if b.ToolBlock? then [Silent]
    else []
  }

  function BlocksChunks(blocks: seq<Block>, hasStreamEvents: bool): seq<Chunk> {
    if blocks == [] then []
    else BlockChunks(blocks[0], hasStreamEvents) + BlocksChunks(blocks[1..], hasStreamEvents)
  }

  lemma {:induction false} BlocksChunksSnoc(blocks: seq<Block>, i: nat, h: bool)
    requires i < |blocks|
    ensures BlocksChunks(blocks[..i + 1], h) == BlocksChunks(blocks[..i], h) + BlockChunks(blocks[i], h)
  {
    if i == 0 {
      assert blocks[..1][1..] == [] && blocks[..0] == [];
    } else {
      assert blocks[..i + 1][1..] == blocks[1..][..i] && blocks[..i][1..] == blocks[1..][..i - 1];
      BlocksChunksSnoc(blocks[1..], i - 1, h);
    }
  }

  /** The assistant case of parseStreamMessage. */
  method ParseAssistant(content: seq<Block>, hasStreamEvents: bool) returns (chunks: seq<Chunk>)
    ensures chunks == BlocksChunks(content, hasStreamEvents)
  {
    chunks := [];
    for i := 0 to |content|
      invariant chunks == BlocksChunks(content[..i], hasStreamEvents)
    {
      BlocksChunksSnoc(content, i, hasStreamEvents);
      match content[i]
      case TextBlock(text) =>
        if hasStreamEvents { continue; }
        if text != "" { chunks := chunks + [Text(text)]; }
      case ToolBlock(tool, description, todoParsed) =>
        if tool == "TodoWrite" && todoParsed {
          chunks := chunks + [Silent];
          continue;
        }
        chunks := chunks + [ToolUse(tool, description)];
      case OtherBlock =>
    }
    assert content[..|content|] == content;
  }

  // ---- What the chunks of a message tell ----

  /** The tool uses, the texts and the todo lists among some chunks, each in order. */
  datatype Told = Told(uses: seq<(string, string)>, texts: seq<string>, todos: nat)

  const NOTHING := Told([], [], 0)

  function Both(a: Told, b: Told): Told {
    Told(a.uses + b.uses, a.texts + b.texts, a.todos + b.todos)
  }

  function ToldByChunk(c: Chunk): Told {
    match c
    case Text(content) => NOTHING.(texts := [content])
    case ToolUse(tool, input) => NOTHING.(uses := [(tool, input)])
    case Silent => NOTHING.(todos := 1)
  }

  function ToldBy(chunks: seq<Chunk>): Told {
    if chunks == [] then NOTHING else Both(ToldBy(chunks[..|chunks| - 1]), ToldByChunk(chunks[|chunks| - 1]))
  }

  /** What a block has to tell: a todo list that was understood, any other tool, or a text not yet streamed. */
  function ToTellOf(b: Block, textStreamed: bool): Told {
    match b
    case TextBlock(text) => if text != "" && !textStreamed then NOTHING.(texts := [text]) else NOTHING
    case ToolBlock(tool, description, todoParsed) =>
      if todoParsed && tool == "TodoWrite" then NOTHING.(todos := 1) else NOTHING.(uses := [(tool, description)])
    case OtherBlock => NOTHING
  }

  function ToTell(blocks: seq<Block>, textStreamed: bool): Told {
    if blocks == [] then NOTHING
    else Both(ToTell(blocks[..|blocks| - 1], textStreamed), ToTellOf(blocks[|blocks| - 1], textStreamed))
  }

  lemma {:induction false} ToldByBoth(a: seq<Chunk>, b: seq<Chunk>)
    ensures ToldBy(a + b) == Both(ToldBy(a), ToldBy(b))
  {
    if b == [] {
      assert a + b == a;
    } else {
      var n := |b| - 1;
      assert (a + b)[..|a + b| - 1] == a + b[..n];
      ToldByBoth(a, b[..n]);
      var x, y, z := ToldBy(a), ToldBy(b[..n]), ToldByChunk(b[n]);
      assert x.uses + y.uses + z.uses == x.uses + (y.uses + z.uses);
      assert x.texts + y.texts + z.texts == x.texts + (y.texts + z.texts);
    }
  }

  lemma ToldByOne(c: Chunk)
    ensures ToldBy([c]) == ToldByChunk(c)
  {
    assert [c][..0] == [] && ToldBy([]) == NOTHING;
  }

  lemma ToldByBlock(b: Block, h: bool)
    ensures ToldBy(BlockChunks(b, h)) == ToTellOf(b, h)
  {
    hide ToldBy;
    ToldByOne(Silent);
    if b.TextBlock? { ToldByOne(Text(b.text)); }
    if b.ToolBlock? { ToldByOne(ToolUse(b.tool, b.description)); }
    ToldByNone();
  }

  lemma ToldByNone()
    ensures ToldBy([]) == NOTHING
  {
  }

  lemma ToTellSnoc(blocks: seq<Block>, h: bool)
    requires blocks != []
    ensures ToTell(blocks, h) == Both(ToTell(blocks[..|blocks| - 1], h), ToTellOf(blocks[|blocks| - 1], h))
  {
  }

  lemma NothingToTell(h: bool)
    ensures ToldBy(BlocksChunks([], h)) == ToTell([], h)
  {
  }

  /** The chunks of a message tell exactly what it has to tell, in both modes. */
  lemma {:induction false} ChunksTellTheMessage(blocks: seq<Block>, hasStreamEvents: bool)
    ensures ToldBy(BlocksChunks(blocks, hasStreamEvents)) == ToTell(blocks, hasStreamEvents)
  {
    hide ToldBy, ToTell, BlocksChunks, BlockChunks, Both, ToTellOf;
    if blocks == [] {
      NothingToTell(hasStreamEvents);
    } else {
      var n := |blocks| - 1;
      assert blocks[..n + 1] == blocks;
      BlocksChunksSnoc(blocks, n, hasStreamEvents);
      ChunksTellTheMessage(blocks[..n], hasStreamEvents);
      ToldByBoth(BlocksChunks(blocks[..n], hasStreamEvents), BlockChunks(blocks[n], hasStreamEvents));
      ToldByBlock(blocks[n], hasStreamEvents);
      ToTellSnoc(blocks, hasStreamEvents);
    }
  }

  // ---- The two modes give the same transcript ----

  function Join(parts: seq<string>): string {
    if parts == [] then "" else parts[0] + Join(parts[1..])
  }

  /** The text deltas that parseStreamEvent turns into chunks: the empty ones are skipped. */
  function DeltaChunks(deltas: seq<string>): seq<Chunk> {
    if deltas == [] then []
    else (if deltas[0] != "" then [Text(deltas[0])] else []) + DeltaChunks(deltas[1..])
  }

  /** The texts of a message that are shown, in order. */
  function TextsOf(blocks: seq<Block>): seq<string> {
    if blocks == [] then []
    else (if ShowsText(blocks[0]) then [blocks[0].text] else []) + TextsOf(blocks[1..])
  }

  /** No text is shown after a tool in the same message. */
  predicate TextsFirst(blocks: seq<Block>) {
    forall i, j | 0 <= i < j < |blocks| :: ShowsTool(blocks[i]) ==> !ShowsText(blocks[j])
  }

  /** However text is cut into pieces, it ends up as if it had come in one piece. */
  lemma {:induction false} PiecesMerge(p: Page, deltas: seq<string>)
    ensures PutAll(p, DeltaChunks(deltas)) == if Join(deltas) == "" then p else Put(p, Text(Join(deltas)))
    decreases |deltas|
  {
    if deltas != [] {
      var d, rest := deltas[0], deltas[1..];
      if d == "" {
        assert DeltaChunks(deltas) == DeltaChunks(rest) && Join(deltas) == Join(rest);
        PiecesMerge(p, rest);
      } else {
        PiecesMerge(Put(p, Text(d)), rest);
        assert DeltaChunks(deltas)[1..] == DeltaChunks(rest);
        hide Put;
        TwoTexts(p, d, Join(rest));
        assert Join(rest) == "" ==> d + Join(rest) == d;
      }
    }
  }

  /** Text goes on where text has ended. */
  lemma TwoTexts(p: Page, a: string, b: string)
    ensures Put(Put(p, Text(a)), Text(b)) == Put(p, Text(a + b))
  {
  }

  lemma {:induction false} WithoutTextsModesAgree(blocks: seq<Block>)
    requires forall j | 0 <= j < |blocks| :: !ShowsText(blocks[j])
    ensures BlocksChunks(blocks, false) == BlocksChunks(blocks, true)
    ensures TextsOf(blocks) == []
  {
    if blocks != [] { WithoutTextsModesAgree(blocks[1..]); }
  }

  /** A whole message is its text followed by what remains of it when the text is skipped. */
  lemma {:induction false} MessageSplits(p: Page, blocks: seq<Block>)
    requires TextsFirst(blocks)
    ensures PutAll(p, BlocksChunks(blocks, false))
            == PutAll(PutAll(p, DeltaChunks(TextsOf(blocks))), BlocksChunks(blocks, true))
    decreases |blocks|
  {
    if blocks != [] {
      var b, rest := blocks[0], blocks[1..];
      if ShowsTool(b) {
        assert forall j | 0 <= j < |rest| :: rest[j] == blocks[j + 1];
        WithoutTextsModesAgree(rest);
        assert TextsOf(blocks) == [];
      } else {
        MessageSplitsAtSilent(p, blocks);
        MessageSplits(PutAll(p, BlockChunks(b, false)), rest);
      }
    }
  }

  /** A leading block that shows no tool contributes its text first in both readings. */
  lemma MessageSplitsAtSilent(p: Page, blocks: seq<Block>)
    requires blocks != [] && !ShowsTool(blocks[0])
    ensures var b, rest := blocks[0], blocks[1..];
            var q := PutAll(p, BlockChunks(b, false));
            && PutAll(p, BlocksChunks(blocks, false)) == PutAll(q, BlocksChunks(rest, false))
            && PutAll(p, DeltaChunks(TextsOf(blocks))) == PutAll(q, DeltaChunks(TextsOf(rest)))
            && forall r :: PutAll(r, BlocksChunks(blocks, true)) == PutAll(r, BlocksChunks(rest, true))
  {
    var b, rest := blocks[0], blocks[1..];
    PutAllAppend(p, BlockChunks(b, false), BlocksChunks(rest, false));
    if ShowsText(b) {
      assert TextsOf(blocks)[1..] == TextsOf(rest);
      assert DeltaChunks(TextsOf(blocks)) == [Text(b.text)] + DeltaChunks(TextsOf(rest));
      assert ([Text(b.text)] + DeltaChunks(TextsOf(rest)))[1..] == DeltaChunks(TextsOf(rest));
    } else {
      assert TextsOf(blocks) == TextsOf(rest);
    }
    forall r ensures PutAll(r, BlocksChunks(blocks, true)) == PutAll(r, BlocksChunks(rest, true)) {
      PutAllAppend(r, BlockChunks(b, true), BlocksChunks(rest, true));
    }
  }

  /** One message as it arrives with stream events: first the deltas of its text, then the message. */
  datatype Message = Message(deltas: seq<string>, blocks: seq<Block>)

  predicate Faithful(m: Message) {
    TextsFirst(m.blocks) && Join(m.deltas) == Join(TextsOf(m.blocks))
  }

  function MessageChunks(m: Message, hasStreamEvents: bool): seq<Chunk> {
    (if hasStreamEvents then DeltaChunks(m.deltas) else []) + BlocksChunks(m.blocks, hasStreamEvents)
  }

  lemma MessageModesAgree(p: Page, m: Message)
    requires Faithful(m)
    ensures PutAll(p, MessageChunks(m, true)) == PutAll(p, MessageChunks(m, false))
  {
    PutAllAppend(p, DeltaChunks(m.deltas), BlocksChunks(m.blocks, true));
    MessageSplits(p, m.blocks);
    PiecesMerge(p, m.deltas);
    PiecesMerge(p, TextsOf(m.blocks));
    assert MessageChunks(m, false) == BlocksChunks(m.blocks, false);
  }

  function SessionChunks(ms: seq<Message>, hasStreamEvents: bool): seq<Chunk> {
    if ms == [] then [] else MessageChunks(ms[0], hasStreamEvents) + SessionChunks(ms[1..], hasStreamEvents)
  }

  /**
   Both modes build the same transcript from any page: with stream events the text comes as any split
   into deltas and is skipped in the messages, without them it comes whole.
   */
  lemma {:induction false} ModesAgree(p: Page, ms: seq<Message>)
    requires forall m | m in ms :: Faithful(m)
    ensures PutAll(p, SessionChunks(ms, true)) == PutAll(p, SessionChunks(ms, false))
    decreases |ms|
  {
    if ms != [] {
      var m, rest := ms[0], ms[1..];
      assert m in ms && forall x | x in rest :: x in ms;
      MessageModesAgree(p, m);
      PutAllAppend(p, MessageChunks(m, true), SessionChunks(rest, true));
      PutAllAppend(p, MessageChunks(m, false), SessionChunks(rest, false));
      ModesAgree(PutAll(p, MessageChunks(m, false)), rest);
    }
  }

  // ---- Exactly when the modes agree ----

  function ToolWeight(blocks: seq<Block>): nat {
    if blocks == [] then 0
    else (if ShowsTool(blocks[0]) then |ToolLine(blocks[0].tool, blocks[0].description)| else 0)
         + ToolWeight(blocks[1..])
  }

  predicate AnyTool(blocks: seq<Block>) {
    exists i | 0 <= i < |blocks| :: ShowsTool(blocks[i])
  }

  /** The text of a message, however it was cut. */
  function Whole(blocks: seq<Block>): string {
    Join(TextsOf(blocks))
  }

  function Length(blocks: seq<Block>): nat {
    |Whole(blocks)| + ToolWeight(blocks)
  }

  /** The page after a message that comes whole, and after one whose text has been streamed. */
  function PutWhole(p: Page, blocks: seq<Block>): Page {
    PutAll(p, BlocksChunks(blocks, false))
  }

  function PutTools(p: Page, blocks: seq<Block>): Page {
    PutAll(p, BlocksChunks(blocks, true))
  }

  lemma BlockPut(p: Page, b: Block)
    ensures PutAll(p, BlockChunks(b, false)) == if ShowsText(b) then Put(p, Text(b.text))
                                                else if ShowsTool(b) then Put(p, ToolUse(b.tool, b.description))
                                                else p
    ensures PutAll(p, BlockChunks(b, true)) == if ShowsTool(b) then Put(p, ToolUse(b.tool, b.description)) else p
  {
    hide Put, ToolLine;
    assert Put(p, Silent) == p by { SilentPuts(p); }
  }

  lemma SilentPuts(p: Page)
    ensures Put(p, Silent) == p
  {
  }

  /** One block put, then the rest: in both readings, and in the measures. */
  lemma PutFirst(p: Page, blocks: seq<Block>)
    requires blocks != []
    ensures var b, rest := blocks[0], blocks[1..];
            if ShowsText(b) then
              && PutWhole(p, blocks) == PutWhole(Put(p, Text(b.text)), rest) && PutTools(p, blocks) == PutTools(p, rest)
              && Whole(blocks) == b.text + Whole(rest) && ToolWeight(blocks) == ToolWeight(rest)
            else if ShowsTool(b) then
              var q := Put(p, ToolUse(b.tool, b.description));
              && PutWhole(p, blocks) == PutWhole(q, rest) && PutTools(p, blocks) == PutTools(q, rest)
              && Whole(blocks) == Whole(rest)
              && ToolWeight(blocks) == |ToolLine(b.tool, b.description)| + ToolWeight(rest)
            else
              && PutWhole(p, blocks) == PutWhole(p, rest) && PutTools(p, blocks) == PutTools(p, rest)
              && Whole(blocks) == Whole(rest) && ToolWeight(blocks) == ToolWeight(rest)
  {
    hide ToolLine, Put;
    var b, rest := blocks[0], blocks[1..];
    PutAllAppend(p, BlockChunks(b, false), BlocksChunks(rest, false));
    PutAllAppend(p, BlockChunks(b, true), BlocksChunks(rest, true));
    BlockPut(p, b);
    if ShowsText(b) {
      assert TextsOf(blocks)[1..] == TextsOf(rest);
    } else {
      assert TextsOf(blocks) == TextsOf(rest);
    }
  }

  lemma TextPut(p: Page, t: string)
    requires Reachable(p) && t != ""
    ensures var q := Put(p, Text(t));
            && !q.afterTool && Reachable(q) && (EndsLine(q.text) <==> EndsLine(t)) && q.text != ""
            && |q.text| == |p.text| + |t| + if p.afterTool then 1 else 0
  {
  }

  /** Whether a tool line has to begin with a line break. */
  predicate Unfinished(p: Page) {
    p.text != "" && !EndsLine(p.text)
  }

  lemma ToolPut(p: Page, tool: string, input: string)
    ensures var q := Put(p, ToolUse(tool, input));
            && q.afterTool && Reachable(q) && EndsLine(q.text) && p.text <= q.text
            && |q.text| == |p.text| + |ToolLine(tool, input)| + if Unfinished(p) then 1 else 0
    ensures !Unfinished(p) ==> Put(p, ToolUse(tool, input)).text == p.text + ToolLine(tool, input)
  {
    hide ToolLine;
    ToolStandsAlone(p, tool, input);
  }

  /** Putting blocks adds at least their length, and one line break more before text that follows a tool. */
  lemma {:induction false} Spacing(p: Page, blocks: seq<Block>)
    requires Reachable(p)
    ensures |PutWhole(p, blocks).text|
            >= |p.text| + Length(blocks) + if p.afterTool && Whole(blocks) != "" then 1 else 0
    decreases |blocks|
  {
    if blocks != [] {
      var b, rest := blocks[0], blocks[1..];
      PutFirst(p, blocks);
      hide Put, ToolLine, Whole, ToolWeight, PutWhole, PutTools, Reachable;
      if ShowsText(b) {
        TextPut(p, b.text);
        Spacing(Put(p, Text(b.text)), rest);
      } else if ShowsTool(b) {
        ToolPut(p, b.tool, b.description);
        Spacing(Put(p, ToolUse(b.tool, b.description)), rest);
      } else {
        Spacing(p, rest);
      }
    }
  }

  /** After text that does not end its line: a further break follows, or the page does not end in one. */
  lemma {:induction false} OpenEnd(p: Page, blocks: seq<Block>)
    requires Reachable(p) && !p.afterTool
    requires if Whole(blocks) != "" then !EndsLine(Whole(blocks)) else Unfinished(p)
    ensures |PutWhole(p, blocks).text| > |p.text| + Length(blocks) || !EndsLine(PutWhole(p, blocks).text)
    decreases |blocks|
  {
    if blocks != [] {
      var b, rest := blocks[0], blocks[1..];
      PutFirst(p, blocks);
      hide Put, ToolLine, Whole, ToolWeight, PutWhole, PutTools, Reachable;
      if ShowsText(b) {
        TextPut(p, b.text);
        EndsAsTail(b.text, Whole(rest));
        OpenEnd(Put(p, Text(b.text)), rest);
      } else if ShowsTool(b) {
        ToolPut(p, b.tool, b.description);
        Spacing(Put(p, ToolUse(b.tool, b.description)), rest);
      } else {
        OpenEnd(p, rest);
      }
    }
  }

  lemma EndsAsTail(a: string, b: string)
    requires a != ""
    ensures EndsLine(a + b) <==> if b != "" then EndsLine(b) else EndsLine(a)
  {
    if b == "" { assert a + b == a; }
  }

  /** After a tool line, text that does not end its line costs two breaks, or the page does not end in one. */
  lemma {:induction false} AfterToolEnd(p: Page, blocks: seq<Block>)
    requires Reachable(p) && p.afterTool && Whole(blocks) != "" && !EndsLine(Whole(blocks))
    ensures |PutWhole(p, blocks).text| > |p.text| + Length(blocks) + 1 || !EndsLine(PutWhole(p, blocks).text)
    decreases |blocks|
  {
    if blocks != [] {
      var b, rest := blocks[0], blocks[1..];
      PutFirst(p, blocks);
      hide Put, ToolLine, Whole, ToolWeight, PutWhole, PutTools, Reachable;
      if ShowsText(b) {
        TextPut(p, b.text);
        EndsAsTail(b.text, Whole(rest));
        OpenEnd(Put(p, Text(b.text)), rest);
      } else if ShowsTool(b) {
        ToolPut(p, b.tool, b.description);
        AfterToolEnd(Put(p, ToolUse(b.tool, b.description)), rest);
      } else {
        AfterToolEnd(p, rest);
      }
    }
  }

  /** Tools alone add their length, and a break only before the first. */
  lemma {:induction false} ToolsPage(p: Page, blocks: seq<Block>)
    ensures p.text <= PutTools(p, blocks).text
    ensures AnyTool(blocks) ==> EndsLine(PutTools(p, blocks).text)
    ensures AnyTool(blocks) ==>
              |PutTools(p, blocks).text| <= |p.text| + ToolWeight(blocks) + if Unfinished(p) then 1 else 0
    ensures !AnyTool(blocks) ==> PutTools(p, blocks) == p && ToolWeight(blocks) == 0
    decreases |blocks|
  {
    if blocks != [] {
      var b, rest := blocks[0], blocks[1..];
      PutFirst(p, blocks);
      assert AnyTool(blocks) <==> ShowsTool(b) || AnyTool(rest) by { AnyToolFirst(blocks); }
      hide Put, ToolLine, Whole, ToolWeight, PutWhole, PutTools, Reachable, AnyTool;
      if ShowsTool(b) {
        ToolPut(p, b.tool, b.description);
        ToolsPage(Put(p, ToolUse(b.tool, b.description)), rest);
      } else {
        ToolsPage(p, rest);
      }
    }
  }

  lemma AnyToolFirst(blocks: seq<Block>)
    requires blocks != []
    ensures AnyTool(blocks) <==> ShowsTool(blocks[0]) || AnyTool(blocks[1..])
  {
    if i :| 0 < i < |blocks| && ShowsTool(blocks[i]) { assert ShowsTool(blocks[1..][i - 1]); }
  }

  /** Elsewhere the streamed reading ends its last line with the breaks it needs, the whole one needs more. */
  lemma ToolThenTextElsewhere(p: Page, blocks: seq<Block>)
    requires Reachable(p) && !p.afterTool && blocks != [] && ShowsTool(blocks[0]) && Whole(blocks) != ""
    ensures PutTools(Put(p, Text(Whole(blocks))), blocks).text != PutWhole(p, blocks).text
  {
    var b, rest, x := blocks[0], blocks[1..], Whole(blocks);
    var streamed, whole := Put(p, Text(x)), Put(p, ToolUse(b.tool, b.description));
    PutFirst(p, blocks);
    TextPut(p, x);
    ToolPut(p, b.tool, b.description);
    ToolsPage(streamed, blocks);
    assert AnyTool(blocks) && (Unfinished(streamed) <==> !EndsLine(x));
    hide Put, ToolLine, Whole, ToolWeight, PutWhole, PutTools, Reachable, AnyTool, Unfinished, EndsLine;
    Spacing(whole, rest);
    if !EndsLine(x) { AfterToolEnd(whole, rest); }
  }

  /** Text that follows a tool in the message comes too early when it was streamed. */
  lemma ToolThenText(p: Page, blocks: seq<Block>)
    requires Reachable(p) && blocks != [] && ShowsTool(blocks[0]) && Whole(blocks) != ""
    ensures PutTools(Put(p, Text(Whole(blocks))), blocks).text != PutWhole(p, blocks).text
  {
    if p.afterTool { ToolThenTextAfterTool(p, blocks); } else { ToolThenTextElsewhere(p, blocks); }
  }

  /** Right after a tool line the very next character differs: a line break there, a bullet here. */
  lemma ToolThenTextAfterTool(p: Page, blocks: seq<Block>)
    requires Reachable(p) && p.afterTool && blocks != [] && ShowsTool(blocks[0]) && Whole(blocks) != ""
    ensures PutTools(Put(p, Text(Whole(blocks))), blocks).text != PutWhole(p, blocks).text
  {
    var b, rest, x := blocks[0], blocks[1..], Whole(blocks);
    PutFirst(p, blocks);
    TextIsSetOff(p, x);
    ToolPut(p, b.tool, b.description);
    var streamed, whole := Put(p, Text(x)), Put(p, ToolUse(b.tool, b.description));
    assert streamed.text[|p.text|] == '\n' && whole.text[|p.text|] == BULLET[0];
    ToolsPage(streamed, blocks);
    hide Put, ToolLine, Whole, PutTools;
    Extends(whole, BlocksChunks(rest, false));
  }

  lemma {:induction false} Extends(p: Page, chunks: seq<Chunk>)
    ensures p.text <= PutAll(p, chunks).text && (Reachable(p) ==> Reachable(PutAll(p, chunks)))
    decreases |chunks|
  {
    if chunks != [] {
      match chunks[0] {
        case Text(t) => assert p.text <= Put(p, chunks[0]).text;
        case ToolUse(tool, input) => ToolPut(p, tool, input);
        case Silent =>
      }
      hide ToolLine, Put;
      Extends(Put(p, chunks[0]), chunks[1..]);
    }
  }

  lemma {:induction false} SomeText(blocks: seq<Block>, j: nat)
    requires j < |blocks| && ShowsText(blocks[j])
    ensures Whole(blocks) != ""
  {
    PutFirst(EMPTY_PAGE, blocks);
    if j > 0 { SomeText(blocks[1..], j - 1); }
  }

  /** Text that follows a tool somewhere in the message makes the readings differ. */
  lemma {:induction false} LateTextDiffers(p: Page, blocks: seq<Block>)
    requires Reachable(p) && !TextsFirst(blocks)
    ensures Whole(blocks) != "" && PutTools(Put(p, Text(Whole(blocks))), blocks).text != PutWhole(p, blocks).text
    decreases |blocks|
  {
    var i, j :| 0 <= i < j < |blocks| && ShowsTool(blocks[i]) && ShowsText(blocks[j]);
    SomeText(blocks, j);
    var b, rest, x := blocks[0], blocks[1..], Whole(blocks);
    if ShowsTool(b) {
      ToolThenText(p, blocks);
    } else {
      assert ShowsTool(rest[i - 1]) && ShowsText(rest[j - 1]);
      SomeText(rest, j - 1);
      PutFirst(p, blocks);
      PutFirst(Put(p, Text(x)), blocks);
      if ShowsText(b) {
        TextPut(p, b.text);
        TwoTexts(p, b.text, Whole(rest));
        LateTextDiffers(Put(p, Text(b.text)), rest);
      } else {
        LateTextDiffers(p, rest);
      }
    }
  }

  /** One message: the modes give the same transcript if and only if no text is shown after a tool. */
  lemma MessageModesAgreeExactlyWhen(p: Page, m: Message)
    requires Reachable(p) && Join(m.deltas) == Join(TextsOf(m.blocks))
    ensures PutAll(p, MessageChunks(m, true)).text == PutAll(p, MessageChunks(m, false)).text
            <==> TextsFirst(m.blocks)
  {
    if TextsFirst(m.blocks) {
      MessageModesAgree(p, m);
    } else {
      LateTextDiffers(p, m.blocks);
      PiecesMerge(p, m.deltas);
      PutAllAppend(p, DeltaChunks(m.deltas), BlocksChunks(m.blocks, true));
      assert MessageChunks(m, false) == BlocksChunks(m.blocks, false);
    }
  }

  function TranscriptOf(p: Page, ms: seq<Message>, hasStreamEvents: bool): string {
    PutAll(p, SessionChunks(ms, hasStreamEvents)).text
  }

  lemma {:induction false} SessionSnoc(ms: seq<Message>, m: Message, h: bool)
    ensures SessionChunks(ms + [m], h) == SessionChunks(ms, h) + MessageChunks(m, h)
  {
    hide MessageChunks;
    if ms == [] {
      assert [] + [m] == [m] && [m][1..] == [] && MessageChunks(m, h) + [] == MessageChunks(m, h);
    } else {
      assert (ms + [m])[1..] == ms[1..] + [m];
      SessionSnoc(ms[1..], m, h);
      var first, rest := MessageChunks(ms[0], h), SessionChunks(ms[1..], h);
      assert first + (rest + MessageChunks(m, h)) == (first + rest) + MessageChunks(m, h);
    }
  }

  /**
   A whole session: the transcripts agree after every message if and only if no message shows text after a tool.
   */
  lemma {:induction false} ModesAgreeExactlyWhen(p: Page, ms: seq<Message>)
    requires Reachable(p) && forall m | m in ms :: Join(m.deltas) == Join(TextsOf(m.blocks))
    ensures AgreeThroughout(p, ms) <==> forall m | m in ms :: TextsFirst(m.blocks)
  {
    hide TranscriptOf, TextsFirst;
    if ms == [] {
      assert TranscriptOf(p, [], true) == TranscriptOf(p, [], false) by { NothingPut(p); }
    } else {
      var n := |ms| - 1;
      var before, m := ms[..n], ms[n];
      assert ms == before + [m];
      ModesAgreeExactlyWhen(p, before);
      AgreeSnoc(p, before, m);
      if forall x | x in before :: TextsFirst(x.blocks) { LastMessageDecides(p, before, m); }
    }
  }

  /** The transcripts agree at the start and after every message. */
  ghost predicate AgreeThroughout(p: Page, ms: seq<Message>) {
    forall k: nat | k <= |ms| :: TranscriptOf(p, ms[..k], true) == TranscriptOf(p, ms[..k], false)
  }

  lemma NothingPut(p: Page)
    ensures TranscriptOf(p, [], true) == TranscriptOf(p, [], false)
  {
  }

  lemma AgreeSnoc(p: Page, before: seq<Message>, m: Message)
    ensures AgreeThroughout(p, before + [m])
            <==> AgreeThroughout(p, before)
                 && TranscriptOf(p, before + [m], true) == TranscriptOf(p, before + [m], false)
  {
    hide TranscriptOf;
    var ms := before + [m];
    assert ms[..|ms|] == ms && forall k: nat | k <= |before| :: ms[..k] == before[..k];
  }

  lemma LastMessageDecides(p: Page, before: seq<Message>, m: Message)
    requires Reachable(p) && Join(m.deltas) == Join(TextsOf(m.blocks))
    requires forall x | x in before :: Faithful(x)
    ensures TranscriptOf(p, before + [m], true) == TranscriptOf(p, before + [m], false) <==> TextsFirst(m.blocks)
  {
    ModesAgree(p, before);
    SessionSnoc(before, m, true);
    SessionSnoc(before, m, false);
    PutAllAppend(p, SessionChunks(before, true), MessageChunks(m, true));
    PutAllAppend(p, SessionChunks(before, false), MessageChunks(m, false));
    Extends(p, SessionChunks(before, true));
    MessageModesAgreeExactlyWhen(PutAll(p, SessionChunks(before, true)), m);
  }

  /** In particular the modes order text after a tool differently. */
  lemma TextAfterToolDiffers()
    ensures var m := Message(["x"], [ToolBlock("Bash", "", false), TextBlock("x")]);
            && Join(m.deltas) == Join(TextsOf(m.blocks))
            && PutAll(EMPTY_PAGE, SessionChunks([m], true)) != PutAll(EMPTY_PAGE, SessionChunks([m], false))
  {
    var t, x := ToolBlock("Bash", "", false), TextBlock("x");
    var m := Message(["x"], [t, x]);
    assert TextsOf([x]) == ["x"] && [t, x][1..] == [x] && TextsOf([t, x]) == ["x"];
    assert ShowsTool(m.blocks[0]) && ShowsText(m.blocks[1]);
    MessageModesAgreeExactlyWhen(EMPTY_PAGE, m);
    hide PutAll, MessageChunks;
    SessionSnoc([], m, true);
    SessionSnoc([], m, false);
    assert [] + [m] == [m];
    assert [] + MessageChunks(m, true) == MessageChunks(m, true);
    assert [] + MessageChunks(m, false) == MessageChunks(m, false);
  }

  /** A message whose late text looks like its own tool line, and one of plain text after it. */
  function Imitation(): (ms: seq<Message>) {
    var x := ToolLine("Bash", "") + "\n";
    [Message([x], [ToolBlock("Bash", "", false), TextBlock(x)]), Message(["y"], [TextBlock("y")])]
  }

  lemma ImitationChunks()
    ensures var x, tool := Text(ToolLine("Bash", "") + "\n"), ToolUse("Bash", "");
            && SessionChunks(Imitation(), true) == [x, tool, Text("y")]
            && SessionChunks(Imitation(), false) == [tool, x, Text("y")]
  {
    hide ToolLine;
    var x := ToolLine("Bash", "") + "\n";
    var b, t := ToolBlock("Bash", "", false), TextBlock(x);
    assert [b, t][1..] == [t] && [t][1..] == [];
    assert BlocksChunks([t], true) == [] && BlocksChunks([t], false) == [Text(x)];
    assert DeltaChunks([x]) == [Text(x)] && DeltaChunks(["y"]) == [Text("y")];
    assert BlocksChunks([b, t], true) == [ToolUse("Bash", "")];
    assert BlocksChunks([b, t], false) == [ToolUse("Bash", ""), Text(x)];
    var u := TextBlock("y");
    assert BlocksChunks([u], true) == [] && BlocksChunks([u], false) == [Text("y")];
    var m1, m2 := Message([x], [b, t]), Message(["y"], [u]);
    assert Imitation()[1..] == [m2] && [m2][1..] == [];
    assert MessageChunks(m1, true) == [Text(x), ToolUse("Bash", "")];
    assert MessageChunks(m2, true) == [Text("y")] && MessageChunks(m2, false) == [Text("y")];
    assert SessionChunks([m2], true) == [Text("y")] && SessionChunks([m2], false) == [Text("y")];
  }

  lemma PutThree(p: Page, a: Chunk, b: Chunk, c: Chunk)
    ensures PutAll(p, [a, b, c]) == Put(Put(Put(p, a), b), c)
  {
    hide Put;
    assert [a, b, c][1..] == [b, c] && [b, c][1..] == [c] && [c][1..] == [];
    var q := Put(Put(p, a), b);
    assert PutAll(q, [c]) == Put(q, c) && PutAll(Put(p, a), [b, c]) == PutAll(q, [c]);
  }

  lemma StreamedImitation(line: string, tool: Chunk)
    requires tool.ToolUse? && line == ToolLine(tool.name, tool.input)
    ensures Put(Put(EMPTY_PAGE, Text(line + "\n")), tool) == Page(line + "\n" + line, true)
  {
    hide ToolLine;
    ToolStandsAlone(Put(EMPTY_PAGE, Text(line + "\n")), tool.name, tool.input);
    assert "" + (line + "\n") == line + "\n";
  }

  lemma Associates(a: string, b: string, c: string)
    ensures a + (b + c) == a + b + c
  {
  }

  lemma WholeImitation(line: string, tool: Chunk)
    requires tool.ToolUse? && line == ToolLine(tool.name, tool.input)
    ensures Put(Put(EMPTY_PAGE, tool), Text(line + "\n")) == Page(line + "\n" + line + "\n", false)
  {
    hide ToolLine;
    var p := Put(EMPTY_PAGE, tool);
    ToolStandsAlone(EMPTY_PAGE, tool.name, tool.input);
    assert p == Page(line, true) by { assert "" + line == line; }
    TextIsSetOff(p, line + "\n");
    Associates(line + "\n", line, "\n");
  }

  lemma StreamedEnd(line: string, tool: Chunk)
    requires tool.ToolUse? && line == ToolLine(tool.name, tool.input)
    ensures PutAll(EMPTY_PAGE, [Text(line + "\n"), tool, Text("y")]).text == line + "\n" + line + "\n" + "y"
  {
    ToolLineEnds(tool.name, tool.input);
    hide ToolLine, PutAll;
    PutThree(EMPTY_PAGE, Text(line + "\n"), tool, Text("y"));
    StreamedImitation(line, tool);
    TextIsSetOff(Page(line + "\n" + line, true), "y");
  }

  lemma WholeEnd(line: string, tool: Chunk)
    requires tool.ToolUse? && line == ToolLine(tool.name, tool.input)
    ensures PutAll(EMPTY_PAGE, [tool, Text(line + "\n"), Text("y")]).text == line + "\n" + line + "\n" + "y"
  {
    hide ToolLine, PutAll;
    PutThree(EMPTY_PAGE, tool, Text(line + "\n"), Text("y"));
    WholeImitation(line, tool);
    assert line + "\n" + line + "\n" + "" == line + "\n" + line + "\n";
  }

  /** The difference can vanish again: these two messages leave the same transcript, but not after the first. */
  lemma ImitationHidesTheDifference()
    ensures TranscriptOf(EMPTY_PAGE, Imitation(), true) == TranscriptOf(EMPTY_PAGE, Imitation(), false)
    ensures !TextsFirst(Imitation()[0].blocks)
  {
    assert ShowsTool(Imitation()[0].blocks[0]) && ShowsText(Imitation()[0].blocks[1]);
    ImitationChunks();
    hide ToolLine, SessionChunks, Imitation, PutAll;
    StreamedEnd(ToolLine("Bash", ""), ToolUse("Bash", ""));
    WholeEnd(ToolLine("Bash", ""), ToolUse("Bash", ""));
  }
}
