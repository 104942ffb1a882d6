/**
 The MCP server's request loop: one JSON-RPC reply per request, and who may use which tool. Messages
 are decoded already; what happens on the channels to the user interface for the k-th line (a timeout
 or an answer) is the k-th outcome, an arbitrary one.
 */
module McpServer {

  datatype Id = NullId | NumberId(n: int) | StringId(s: string)

  /** The "questions" argument: valid tells of each entry whether it is an object. */
  datatype Questions = Missing | NotArray | Entries(valid: seq<bool>)

  /**
   toolName is empty when the call names none; argument is the required string argument of the tool,
   empty when it is absent.
   */
  datatype Call =
    | BadParams
    | ToolCall(name: string, toolName: string, questions: Questions, argument: string)

  datatype Line = Blank | Malformed | Request(id: Id, verb: string, call: Call)

  /**
   good: permission allowed, plan approved, or operation succeeded. Closed: the answer channel was closed, so
   that the receive yields an answer with all its fields zero.
   */
  datatype Outcome = SendTimeout | ReceiveTimeout | Closed | Answered(good: bool, always: bool)

  /** The receive came back before the timeout. */
  predicate Received(o: Outcome) {
    o.Answered? || o.Closed?
  }

  predicate Good(o: Outcome) {
    o.Answered? && o.good
  }

  /** tools: the names that the list of tools offers, in order. */
  datatype Body =
    | InitializeResult | ToolsList(tools: seq<string>) | Permission(allow: bool) | ToolResult(isError: bool)
    | Error(code: int)

  datatype Response = Response(id: Id, body: Body)

  /** channels holds the names of the tools whose request channel is not nil. */
  datatype Config = Config(isSupervisor: bool, hasHostTools: bool, channels: set<string>)

  const PERMISSION_TOOL := "permission"
  const SUPERVISOR_TOOLS := {"create_child_session", "list_child_sessions", "merge_child_to_parent"}
  const HOST_TOOLS := {"create_pr", "push_branch", "get_review_comments"}

  /** The names that the CLI gives these tools. */
  const SUPERVISOR_MCP_TOOLS := {
    "mcp__plural__create_child_session", "mcp__plural__list_child_sessions", "mcp__plural__merge_child_to_parent"
  }
  const HOST_MCP_TOOLS := {
    "mcp__plural__create_pr", "mcp__plural__push_branch", "mcp__plural__get_review_comments"
  }

  const PARSE_ERROR := -32700
  const METHOD_NOT_FOUND := -32601
  const INVALID_PARAMS := -32602

  // ---- Who may use which tool ----

  predicate HasPrefix(s: string, prefix: string) {
    |prefix| <= |s| && s[..|prefix|] == prefix
  }

  predicate Matches(entry: string, tool: string) {
    entry == "*" || entry == tool || HasPrefix(entry, tool + "(")
  }

  predicate Listed(allowed: seq<string>, tool: string) {
    exists i | 0 <= i < |allowed| :: Matches(allowed[i], tool)
  }

  predicate OwnTool(cfg: Config, tool: string) {
    (cfg.isSupervisor && tool in SUPERVISOR_MCP_TOOLS) || (cfg.hasHostTools && tool in HOST_MCP_TOOLS)
  }

  function ToolOf(c: Call): string
    requires c.ToolCall?
  {
    if c.toolName == "" then "Operation" else c.toolName
  }

  /** How a permission request is decided. */
  datatype Gate = Refused | Granted | AskPermission | AskQuestions | AskPlan

  function GateOf(cfg: Config, allowed: seq<string>, c: Call): Gate
    requires c.ToolCall?
  {
    var tool := ToolOf(c);
    if tool == "AskUserQuestion" then
      if c.questions.Entries? && true in c.questions.valid then AskQuestions else Refused
    else if tool == "ExitPlanMode" then AskPlan
    else if OwnTool(cfg, tool) || Listed(allowed, tool) then Granted
    else AskPermission
  }

  predicate Allows(g: Gate, o: Outcome) {
    match g
    case Refused => false
    case Granted => true
    case AskPermission => Good(o)
    case AskQuestions => Received(o)
    case AskPlan => Good(o)
  }

  /** A permission request for which the user answered "always". */
  predicate Remembers(cfg: Config, allowed: seq<string>, line: Line, o: Outcome) {
    && line.Request? && line.verb == "tools/call" && line.call.ToolCall? && line.call.name == PERMISSION_TOOL
    && GateOf(cfg, allowed, line.call).AskPermission? && o.Answered? && o.always
  }

  function AllowedNext(cfg: Config, allowed: seq<string>, line: Line, o: Outcome): seq<string> {
    if Remembers(cfg, allowed, line, o) && ToolOf(line.call) !in allowed
    then allowed + [ToolOf(line.call)] else allowed
  }

  // ---- Replies ----

  predicate Available(cfg: Config, tool: string) {
    && tool in cfg.channels
    && (tool in SUPERVISOR_TOOLS ==> cfg.isSupervisor)
    && (tool in HOST_TOOLS ==> cfg.hasHostTools)
  }

  predicate NeedsArgument(tool: string) {
    tool == "create_child_session" || tool == "merge_child_to_parent"
  }

  /** A supervisor or host tool succeeds when it is available, complete, and answered well in time. */
  predicate ToolSucceeds(cfg: Config, c: Call, o: Outcome)
    requires c.ToolCall?
  {
    && Available(cfg, c.name) && (NeedsArgument(c.name) ==> c.argument != "")
    && Received(o) && (c.name == "list_child_sessions" || Good(o))
  }

  function CallBody(cfg: Config, allowed: seq<string>, c: Call, o: Outcome): Body {
    if c.BadParams? then Error(INVALID_PARAMS)
    else if c.name == PERMISSION_TOOL then Permission(Allows(GateOf(cfg, allowed, c), o))
    else if c.name in SUPERVISOR_TOOLS + HOST_TOOLS then ToolResult(!ToolSucceeds(cfg, c, o))
    else Error(INVALID_PARAMS)
  }

  function Offered(cfg: Config): seq<string> {
    [PERMISSION_TOOL]
    + (if cfg.isSupervisor then ["create_child_session", "list_child_sessions", "merge_child_to_parent"] else [])
    + (if cfg.hasHostTools then ["create_pr", "push_branch", "get_review_comments"] else [])
  }

  function Reply(cfg: Config, allowed: seq<string>, line: Line, o: Outcome): seq<Response> {
    match line
    case Blank => []
    case Malformed => [Response(NullId, Error(PARSE_ERROR))]
    case Request(id, verb, call) =>
      if verb == "initialized" then []
      else [Response(id, if verb == "initialize" then InitializeResult
                         else if verb == "tools/list" then ToolsList(Offered(cfg))
                         else if verb == "tools/call" then CallBody(cfg, allowed, call, o)
                         else Error(METHOD_NOT_FOUND))]
  }

  /** The allow list before line n. */
  function AllowedAt(cfg: Config, allowed: seq<string>, lines: seq<Line>, outcomes: nat -> Outcome, n: nat): seq<string>
    requires n <= |lines|
  {
    if n == 0 then allowed
    else AllowedNext(cfg, AllowedAt(cfg, allowed, lines, outcomes, n - 1), lines[n - 1], outcomes(n - 1))
  }

  /** The replies to the first n lines. */
  function Output(cfg: Config, allowed: seq<string>, lines: seq<Line>, outcomes: nat -> Outcome, n: nat): seq<Response>
    requires n <= |lines|
  {
    if n == 0 then []
    else Output(cfg, allowed, lines, outcomes, n - 1)
         + Reply(cfg, AllowedAt(cfg, allowed, lines, outcomes, n - 1), lines[n - 1], outcomes(n - 1))
  }

  // ---- The server ----

  class Server {
    const config: Config
    var allowedTools: seq<string>
    var output: seq<Response>

    constructor (config: Config, allowedTools: seq<string>)
      ensures this.config == config && this.allowedTools == allowedTools && output == []
    {
      this.config, this.allowedTools, output := config, allowedTools, [];
    }

    method Send(id: Id, body: Body)
      modifies this`output
      ensures output == old(output) + [Response(id, body)]
    {
      output := output + [Response(id, body)];
    }

    method IsToolAllowed(tool: string) returns (found: bool)
      ensures found <==> Listed(allowedTools, tool)
    {
      for i := 0 to |allowedTools|
        invariant forall k | 0 <= k < i :: !Matches(allowedTools[k], tool)
      {
        var allowed := allowedTools[i];
        if allowed == "*" || allowed == tool || HasPrefix(allowed, tool + "(") {
          assert Matches(allowedTools[i], tool);
          return true;
        }
      }
      return false;
    }

    method AddAllowedTool(tool: string)
      modifies this`allowedTools
      ensures allowedTools == if tool in old(allowedTools) then old(allowedTools) else old(allowedTools) + [tool]
    {
      if tool in allowedTools { return; }
      allowedTools := allowedTools + [tool];
    }

    method HandleAskUserQuestion(id: Id, questions: Questions, o: Outcome)
      modifies this`output
      ensures output == old(output) + [Response(id, Permission(questions.Entries? && true in questions.valid
                                                               && Received(o)))]
    {
      if !questions.Entries? {
        Send(id, Permission(false));
        return;
      }
      var count := 0;
      for i := 0 to |questions.valid|
        invariant output == old(output)
        invariant count >= 0 && (count > 0 <==> true in questions.valid[..i])
      {
        assert questions.valid[..i + 1] == questions.valid[..i] + [questions.valid[i]];
        if !questions.valid[i] { continue; }
        count := count + 1;
      }
      assert questions.valid[..|questions.valid|] == questions.valid;
      if count == 0 || o.SendTimeout? || o.ReceiveTimeout? {
        Send(id, Permission(false));
        return;
      }
      Send(id, Permission(true));
    }

    method HandleExitPlanMode(id: Id, o: Outcome)
      modifies this`output
      ensures output == old(output) + [Response(id, Permission(Good(o)))]
    {
      if o.SendTimeout? || o.ReceiveTimeout? {
        Send(id, Permission(false));
        return;
      }
      var approved := if o.Closed? then false else o.good;
      if approved { Send(id, Permission(true)); } else { Send(id, Permission(false)); }
    }

    method HandlePermissionToolCall(id: Id, c: Call, o: Outcome)
      requires c.ToolCall?
      modifies this
      ensures output == old(output) + [Response(id, Permission(Allows(GateOf(config, old(allowedTools), c), o)))]
      ensures allowedTools == if GateOf(config, old(allowedTools), c).AskPermission? && o.Answered? && o.always
                                 && ToolOf(c) !in old(allowedTools)
                              then old(allowedTools) + [ToolOf(c)] else old(allowedTools)
    {
      var tool := c.toolName;
      if tool == "" { tool := "Operation"; }
      if tool == "AskUserQuestion" {
        HandleAskUserQuestion(id, c.questions, o);
        return;
      }
      if tool == "ExitPlanMode" {
        HandleExitPlanMode(id, o);
        return;
      }
      if OwnTool(config, tool) {
        Send(id, Permission(true));
        return;
      }
      var listed := IsToolAllowed(tool);
      if listed {
        Send(id, Permission(true));
        return;
      }
      match o
      case SendTimeout => Send(id, Permission(false));
      case ReceiveTimeout => Send(id, Permission(false));
      case Closed => Send(id, Permission(false));
      case Answered(good, always) =>
        if always { AddAllowedTool(tool); }
        Send(id, Permission(good));
    }

    /** The handlers of the supervisor and host tools, which share one shape. */
    method HandleChannelTool(id: Id, c: Call, o: Outcome)
      requires c.ToolCall?
      modifies this`output
      ensures output == old(output) + [Response(id, ToolResult(!ToolSucceeds(config, c, o)))]
    {
      if !Available(config, c.name) {
        Send(id, ToolResult(true));
        return;
      }
      if NeedsArgument(c.name) && c.argument == "" {
        Send(id, ToolResult(true));
        return;
      }
      match o
      case SendTimeout => Send(id, ToolResult(true));
      case ReceiveTimeout => Send(id, ToolResult(true));
      case Closed => Send(id, ToolResult(c.name != "list_child_sessions"));
      case Answered(good, _) => Send(id, ToolResult(c.name != "list_child_sessions" && !good));
    }

    method HandleToolsCall(id: Id, c: Call, o: Outcome)
      modifies this
      ensures output == old(output) + [Response(id, CallBody(config, old(allowedTools), c, o))]
      ensures allowedTools == AllowedNext(config, old(allowedTools), Request(id, "tools/call", c), o)
    {
      if c.BadParams? {
        Send(id, Error(INVALID_PARAMS));
      } else if c.name == PERMISSION_TOOL {
        HandlePermissionToolCall(id, c, o);
      } else if c.name in SUPERVISOR_TOOLS + HOST_TOOLS {
        HandleChannelTool(id, c, o);
      } else {
        Send(id, Error(INVALID_PARAMS));
      }
    }

    method HandleToolsList(id: Id)
      modifies this`output
      ensures output == old(output) + [Response(id, ToolsList(Offered(config)))]
    {
      var tools := [PERMISSION_TOOL];
      if config.isSupervisor {
        tools := tools + ["create_child_session", "list_child_sessions", "merge_child_to_parent"];
      }
      assert tools + [] == tools;
      if config.hasHostTools {
        tools := tools + ["create_pr", "push_branch", "get_review_comments"];
      }
      Send(id, ToolsList(tools));
    }

    method HandleRequest(id: Id, verb: string, c: Call, o: Outcome)
      modifies this
      ensures output == old(output) + Reply(config, old(allowedTools), Request(id, verb, c), o)
      ensures allowedTools == AllowedNext(config, old(allowedTools), Request(id, verb, c), o)
    {
      if verb == "initialize" {
        Send(id, InitializeResult);
      } else if verb == "initialized" {
      } else if verb == "tools/list" {
        HandleToolsList(id);
      } else if verb == "tools/call" {
        HandleToolsCall(id, c, o);
      } else {
        Send(id, Error(METHOD_NOT_FOUND));
      }
    }

    /** The loop over the terminated lines of the input; the end of the input ends it. */
    method Run(lines: seq<Line>, outcomes: nat -> Outcome)
      modifies this
      ensures output == old(output) + Output(config, old(allowedTools), lines, outcomes, |lines|)
      ensures allowedTools == AllowedAt(config, old(allowedTools), lines, outcomes, |lines|)
    {
      ghost var allowed0 := allowedTools;
      for i := 0 to |lines|
        invariant output == old(output) + Output(config, allowed0, lines, outcomes, i)
        invariant allowedTools == AllowedAt(config, allowed0, lines, outcomes, i)
      {
        match lines[i]
        case Blank => continue;
        case Malformed =>
          Send(NullId, Error(PARSE_ERROR));
          continue;
        case Request(id, verb, call) => HandleRequest(id, verb, call, outcomes(i));
      }
    }
  }

  // ---- One reply per request ----

  /** The ids that must be answered: those of all requests but "initialized", and null for a parse error. */
  function ExpectedIds(lines: seq<Line>, n: nat): seq<Id>
    requires n <= |lines|
  {
    if n == 0 then []
    else
      var line := lines[n - 1];
      ExpectedIds(lines, n - 1)
      + (if line.Malformed? then [NullId]
         else if line.Request? && line.verb != "initialized" then [line.id]
         else [])
  }

  function Ids(rs: seq<Response>): seq<Id> {
    seq(|rs|, i requires 0 <= i < |rs| => rs[i].id)
  }

  /** Whatever the channels do, the replies carry exactly the expected ids, in the order of the requests. */
  lemma {:induction false} OneReplyPerRequest(
      cfg: Config, allowed: seq<string>, lines: seq<Line>, outcomes: nat -> Outcome, n: nat)
    requires n <= |lines|
    ensures Ids(Output(cfg, allowed, lines, outcomes, n)) == ExpectedIds(lines, n)
  {
    if n > 0 {
      OneReplyPerRequest(cfg, allowed, lines, outcomes, n - 1);
    }
  }

  // ---- The allow list ----

  /** The list only grows, and only at its end. */
  lemma {:induction false} AllowListGrows(
      cfg: Config, allowed: seq<string>, lines: seq<Line>, outcomes: nat -> Outcome, m: nat, n: nat)
    requires m <= n <= |lines|
    ensures AllowedAt(cfg, allowed, lines, outcomes, m) <= AllowedAt(cfg, allowed, lines, outcomes, n)
  {
    if m < n { AllowListGrows(cfg, allowed, lines, outcomes, m, n - 1); }
  }

  /** The user answered "always" to a permission prompt for tool on line k. */
  predicate AlwaysAnswered(
      cfg: Config, allowed: seq<string>, lines: seq<Line>, outcomes: nat -> Outcome, k: nat, tool: string)
    requires k < |lines|
  {
    && Remembers(cfg, AllowedAt(cfg, allowed, lines, outcomes, k), lines[k], outcomes(k))
    && ToolOf(lines[k].call) == tool
  }

  /** Every tool on the list was there from the start or was answered "always", and nothing else is. */
  lemma {:induction false} AllowListOrigin(
      cfg: Config, allowed: seq<string>, lines: seq<Line>, outcomes: nat -> Outcome, n: nat, tool: string)
    requires n <= |lines|
    ensures tool in AllowedAt(cfg, allowed, lines, outcomes, n)
            <==> tool in allowed
                 || exists k: nat | k < n :: AlwaysAnswered(cfg, allowed, lines, outcomes, k, tool)
  {
    if n > 0 {
      AllowListOrigin(cfg, allowed, lines, outcomes, n - 1, tool);
      assert AlwaysAnswered(cfg, allowed, lines, outcomes, n - 1, tool)
             <==> Remembers(cfg, AllowedAt(cfg, allowed, lines, outcomes, n - 1), lines[n - 1], outcomes(n - 1))
                  && ToolOf(lines[n - 1].call) == tool;
    }
  }

  predicate PermissionRequest(line: Line) {
    line.Request? && line.verb == "tools/call" && line.call.ToolCall? && line.call.name == PERMISSION_TOOL
  }

  predicate Interactive(tool: string) {
    tool == "AskUserQuestion" || tool == "ExitPlanMode"
  }

  function ReplyAt(cfg: Config, allowed: seq<string>, lines: seq<Line>, outcomes: nat -> Outcome, n: nat): seq<Response>
    requires n < |lines|
  {
    Reply(cfg, AllowedAt(cfg, allowed, lines, outcomes, n), lines[n], outcomes(n))
  }

  /** After an "always" answer every later request for that tool is allowed, whatever the channels do. */
  lemma AlwaysIsRemembered(
      cfg: Config, allowed: seq<string>, lines: seq<Line>, outcomes: nat -> Outcome, k: nat, n: nat)
    requires k < n < |lines| && PermissionRequest(lines[k]) && PermissionRequest(lines[n])
    requires AlwaysAnswered(cfg, allowed, lines, outcomes, k, ToolOf(lines[k].call))
    requires ToolOf(lines[n].call) == ToolOf(lines[k].call)
    ensures GateOf(cfg, AllowedAt(cfg, allowed, lines, outcomes, n), lines[n].call) == Granted
    ensures ReplyAt(cfg, allowed, lines, outcomes, n) == [Response(lines[n].id, Permission(true))]
  {
    var tool := ToolOf(lines[k].call);
    var now := AllowedAt(cfg, allowed, lines, outcomes, n);
    AllowListOrigin(cfg, allowed, lines, outcomes, n, tool);
    var i :| 0 <= i < |now| && now[i] == tool;
    assert Matches(now[i], tool);
  }

  /**
   The interactive tools are allowed exactly when an answer was received (for a plan: an approving one; for
   questions: to at least one well-formed question), even with "*" on the list. The answer decides, the list
   never does. A closed answer channel counts as an answer to the questions, but approves no plan.
   */
  lemma InteractiveToolsNeedAnAnswer(
      cfg: Config, allowed: seq<string>, lines: seq<Line>, outcomes: nat -> Outcome, n: nat)
    requires n < |lines| && PermissionRequest(lines[n]) && Interactive(ToolOf(lines[n].call))
    ensures var o := outcomes(n);
            var q := lines[n].call.questions;
            ReplyAt(cfg, allowed, lines, outcomes, n)
            == [Response(lines[n].id, Permission(
                 if ToolOf(lines[n].call) == "ExitPlanMode" then o.Answered? && o.good
                 else (o.Answered? || o.Closed?) && q.Entries? && true in q.valid))]
    ensures AllowedAt(cfg, allowed, lines, outcomes, n + 1) == AllowedAt(cfg, allowed, lines, outcomes, n)
  {
  }

  /** Line k before line n was answered "always" for a tool that matches. */
  predicate RememberedAt(
      cfg: Config, allowed: seq<string>, lines: seq<Line>, outcomes: nat -> Outcome, k: nat, tool: string)
    requires k < |lines|
  {
    && PermissionRequest(lines[k])
    && AlwaysAnswered(cfg, allowed, lines, outcomes, k, ToolOf(lines[k].call))
    && Matches(ToolOf(lines[k].call), tool)
  }

  lemma MatchIsListed(allowed: seq<string>, entry: string, tool: string)
    requires entry in allowed && Matches(entry, tool)
    ensures Listed(allowed, tool)
  {
    var i :| 0 <= i < |allowed| && allowed[i] == entry;
    assert Matches(allowed[i], tool);
  }

  /** An entry of the list that matches was there from the start or was answered "always". */
  lemma ListedHasReason(
      cfg: Config, allowed: seq<string>, lines: seq<Line>, outcomes: nat -> Outcome, n: nat, tool: string)
    requires n <= |lines| && Listed(AllowedAt(cfg, allowed, lines, outcomes, n), tool)
    ensures Listed(allowed, tool) || exists k: nat | k < n :: RememberedAt(cfg, allowed, lines, outcomes, k, tool)
  {
    var now := AllowedAt(cfg, allowed, lines, outcomes, n);
    var i :| 0 <= i < |now| && Matches(now[i], tool);
    hide Matches;
    assert now[i] in now;
    AllowListOrigin(cfg, allowed, lines, outcomes, n, now[i]);
    if now[i] in allowed {
      MatchIsListed(allowed, now[i], tool);
    } else {
      var k: nat :| k < n && AlwaysAnswered(cfg, allowed, lines, outcomes, k, now[i]);
      assert RememberedAt(cfg, allowed, lines, outcomes, k, tool);
    }
  }

  lemma ReasonIsListed(
      cfg: Config, allowed: seq<string>, lines: seq<Line>, outcomes: nat -> Outcome, n: nat, k: nat, tool: string)
    requires k < n <= |lines| && RememberedAt(cfg, allowed, lines, outcomes, k, tool)
    ensures Listed(AllowedAt(cfg, allowed, lines, outcomes, n), tool)
  {
    hide Matches, Listed;
    var entry := ToolOf(lines[k].call);
    AllowListOrigin(cfg, allowed, lines, outcomes, n, entry);
    MatchIsListed(AllowedAt(cfg, allowed, lines, outcomes, n), entry, tool);
  }

  lemma ListedStays(
      cfg: Config, allowed: seq<string>, lines: seq<Line>, outcomes: nat -> Outcome, n: nat, tool: string)
    requires n <= |lines| && Listed(allowed, tool)
    ensures Listed(AllowedAt(cfg, allowed, lines, outcomes, n), tool)
  {
    AllowListGrows(cfg, allowed, lines, outcomes, 0, n);
    var i :| 0 <= i < |allowed| && Matches(allowed[i], tool);
    hide Matches;
    assert AllowedAt(cfg, allowed, lines, outcomes, n)[i] == allowed[i];
  }

  /**
   Any other tool is allowed exactly when it is one of the server's own, some entry that was on the list
   from the start or was answered "always" matches it, or the user allowed this very request.
   */
  lemma PermissionsHaveAReason(
      cfg: Config, allowed: seq<string>, lines: seq<Line>, outcomes: nat -> Outcome, n: nat)
    requires n < |lines| && PermissionRequest(lines[n]) && !Interactive(ToolOf(lines[n].call))
    ensures var tool := ToolOf(lines[n].call);
            ReplyAt(cfg, allowed, lines, outcomes, n)
            == [Response(lines[n].id, Permission(
                 || OwnTool(cfg, tool)
                 || Listed(allowed, tool)
                 || (exists k: nat | k < n :: RememberedAt(cfg, allowed, lines, outcomes, k, tool))
                 || (outcomes(n).Answered? && outcomes(n).good)))]
  {
    hide Listed, OwnTool, RememberedAt, AllowedAt;
    var tool := ToolOf(lines[n].call);
    if Listed(AllowedAt(cfg, allowed, lines, outcomes, n), tool) {
      ListedHasReason(cfg, allowed, lines, outcomes, n, tool);
    } else {
      if Listed(allowed, tool) { ListedStays(cfg, allowed, lines, outcomes, n, tool); }
      if k: nat :| k < n && RememberedAt(cfg, allowed, lines, outcomes, k, tool) {
        ReasonIsListed(cfg, allowed, lines, outcomes, n, k, tool);
      }
    }
  }

  // ---- What the entries, flags and answers mean ----

  predicate Plain(tool: string) {
    '(' !in tool
  }

  /** The name in an entry: what stands before its first parenthesis. */
  function NameIn(entry: string): string {
    if entry == "" || entry[0] == '(' then "" else [entry[0]] + NameIn(entry[1..])
  }

  lemma {:induction false} NameOfPattern(tool: string, rest: string)
    requires Plain(tool) && (rest == "" || rest[0] == '(')
    ensures NameIn(tool + rest) == tool
  {
    if tool == "" {
      assert tool + rest == rest;
    } else {
      assert (tool + rest)[1..] == tool[1..] + rest;
      NameOfPattern(tool[1..], rest);
    }
  }

  lemma {:induction false} NameStarts(entry: string)
    ensures var n := |NameIn(entry)|;
            n <= |entry| && entry[..n] == NameIn(entry) && Plain(NameIn(entry)) && (n < |entry| ==> entry[n] == '(')
  {
    if entry != "" && entry[0] != '(' { NameStarts(entry[1..]); }
  }

  /** An entry that is not the wildcard grants exactly the tool it names, with or without a pattern. */
  lemma EntryGrantsExactly(entry: string, tool: string)
    requires entry != "*" && Plain(tool)
    ensures Matches(entry, tool) <==> NameIn(entry) == tool
  {
    NameStarts(entry);
    if Matches(entry, tool) {
      var rest := entry[|tool|..];
      assert entry == tool + rest;
      if entry != tool { assert rest[0] == entry[..|tool + "("|][|tool|] == '('; }
      NameOfPattern(tool, rest);
    }
  }

  /** So a pattern and the bare name match, and no such entry grants two tools. */
  lemma EntriesNameOneTool(tool: string, rest: string, entry: string, other: string)
    requires Plain(tool) && Plain(other)
    ensures Matches("*", tool) && Matches(tool, tool) && Matches(tool + "(" + rest, tool)
    ensures entry != "*" && Matches(entry, tool) && Matches(entry, other) ==> tool == other
  {
    assert (tool + "(" + rest)[..|tool + "("|] == tool + "(";
    if entry != "*" {
      EntryGrantsExactly(entry, tool);
      EntryGrantsExactly(entry, other);
    }
  }

  /** The name that the CLI gives a tool of this server. */
  function CliName(t: string): string {
    "mcp__plural__" + t
  }

  lemma PutTogether(t: string, name: string)
    requires |name| == 13 + |t| && name[..13] == "mcp__plural__" && name[13..] == t
    ensures CliName(t) == name
  {
    assert name == name[..13] + name[13..];
  }

  lemma SupervisorNames()
    ensures CliName("create_child_session") == "mcp__plural__create_child_session"
    ensures CliName("list_child_sessions") == "mcp__plural__list_child_sessions"
    ensures CliName("merge_child_to_parent") == "mcp__plural__merge_child_to_parent"
  {
    hide CliName;
    PutTogether("create_child_session", "mcp__plural__create_child_session");
    PutTogether("list_child_sessions", "mcp__plural__list_child_sessions");
    PutTogether("merge_child_to_parent", "mcp__plural__merge_child_to_parent");
  }

  lemma HostNames()
    ensures CliName("create_pr") == "mcp__plural__create_pr"
    ensures CliName("push_branch") == "mcp__plural__push_branch"
    ensures CliName("get_review_comments") == "mcp__plural__get_review_comments"
  {
    hide CliName;
    PutTogether("create_pr", "mcp__plural__create_pr");
    PutTogether("push_branch", "mcp__plural__push_branch");
    PutTogether("get_review_comments", "mcp__plural__get_review_comments");
  }

  lemma OfferedExactly(cfg: Config, t: string)
    ensures t in Offered(cfg)
            <==> t == PERMISSION_TOOL || (cfg.isSupervisor && t in SUPERVISOR_TOOLS)
                 || (cfg.hasHostTools && t in HOST_TOOLS)
  {
    var offered := Offered(cfg);
    assert offered[0] == PERMISSION_TOOL;
    if cfg.isSupervisor {
      assert offered[1] == "create_child_session" && offered[2] == "list_child_sessions"
             && offered[3] == "merge_child_to_parent";
    }
    if cfg.hasHostTools {
      var k := if cfg.isSupervisor then 4 else 1;
      assert offered[k] == "create_pr" && offered[k + 1] == "push_branch" && offered[k + 2] == "get_review_comments";
    }
  }

  /** The server approves its own tools, by the names that the CLI gives them, exactly when it offers them. */
  lemma OwnToolsAreThoseOffered(cfg: Config, t: string)
    requires t in {"create_child_session", "list_child_sessions", "merge_child_to_parent",
                   "create_pr", "push_branch", "get_review_comments"}
    ensures OwnTool(cfg, CliName(t)) <==> t in Offered(cfg)
  {
    OfferedExactly(cfg, t);
    SupervisorNames();
    HostNames();
    hide CliName, Offered;
  }

  /** It approves no other tool as its own. */
  lemma NoOtherToolIsOwn(cfg: Config, tool: string) returns (t: string)
    requires OwnTool(cfg, tool)
    ensures tool == CliName(t) && t in Offered(cfg) && t != PERMISSION_TOOL
  {
    SupervisorNames();
    HostNames();
    hide CliName;
    t := if tool == "mcp__plural__create_child_session" then "create_child_session"
         else if tool == "mcp__plural__list_child_sessions" then "list_child_sessions"
         else if tool == "mcp__plural__merge_child_to_parent" then "merge_child_to_parent"
         else if tool == "mcp__plural__create_pr" then "create_pr"
         else if tool == "mcp__plural__push_branch" then "push_branch"
         else "get_review_comments";
    OfferedExactly(cfg, t);
    hide Offered;
  }

  /** A request for a tool that is neither the server's own nor listed is decided by the user alone. */
  lemma PromptsAreDecidedByTheUser(cfg: Config, allowed: seq<string>, line: Line, o: Outcome)
    requires line.Request? && line.verb == "tools/call" && line.call.ToolCall? && line.call.name == "permission"
    requires var tool := if line.call.toolName == "" then "Operation" else line.call.toolName;
             tool != "AskUserQuestion" && tool != "ExitPlanMode" && !OwnTool(cfg, tool) && !Listed(allowed, tool)
    ensures Reply(cfg, allowed, line, o) == [Response(line.id, Permission(o.Answered? && o.good))]
    ensures var tool := if line.call.toolName == "" then "Operation" else line.call.toolName;
            AllowedNext(cfg, allowed, line, o) == if o.Answered? && o.always then allowed + [tool] else allowed
  {
    hide OwnTool;
    var tool := if line.call.toolName == "" then "Operation" else line.call.toolName;
    if tool in allowed { MatchIsListed(allowed, tool, tool); }
  }

  /** A call succeeds exactly when the tool is offered, connected, given its argument, and answered well in time. */
  lemma OfferedToolsWork(cfg: Config, allowed: seq<string>, line: Line, o: Outcome)
    requires line.Request? && line.verb == "tools/call" && line.call.ToolCall? && line.call.name != "permission"
    ensures var c := line.call;
            var complete := c.name in {"create_child_session", "merge_child_to_parent"} ==> c.argument != "";
            var answered := if c.name == "list_child_sessions" then o.Answered? || o.Closed? else o.Answered? && o.good;
            Reply(cfg, allowed, line, o) == [Response(line.id, ToolResult(false))]
            <==> c.name in Offered(cfg) && c.name in cfg.channels && complete && answered
  {
    OfferedExactly(cfg, line.call.name);
    hide Offered;
  }

  /** Which kind of reply a line gets, and the error codes of section 5.1 of the JSON-RPC 2.0 specification. */
  lemma RepliesAreOfTheirKind(cfg: Config, allowed: seq<string>, line: Line, o: Outcome, r: Response)
    requires r in Reply(cfg, allowed, line, o)
    ensures r.body == Error(-32700) <==> line.Malformed?
    ensures r.body == Error(-32601)
            <==> line.Request? && line.verb !in {"initialize", "initialized", "tools/list", "tools/call"}
    ensures r.body == Error(-32602)
            <==> line.Request? && line.verb == "tools/call"
                 && (line.call.ToolCall? ==>
                       line.call.name !in {"permission", "create_child_session", "list_child_sessions",
                                           "merge_child_to_parent", "create_pr", "push_branch", "get_review_comments"})
    ensures r.body.Permission?
            <==> line.Request? && line.verb == "tools/call" && line.call.ToolCall? && line.call.name == "permission"
    ensures r.body.InitializeResult? <==> line.Request? && line.verb == "initialize"
    ensures r.body.ToolsList? <==> line.Request? && line.verb == "tools/list"
    ensures r.body.Error? ==> r.body.code in {-32700, -32601, -32602}
  {
  }
}
