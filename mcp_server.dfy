/**
 * The guideline MCP server (pkg/server/mcp.go, pkg/server/types.go): the
 * dispatch of one request line to a handler, the mapping of service errors
 * to protocol error codes, the tool listing, and the markdown rendering of
 * guidelines. Reading and writing lines and JSON encoding are outside the
 * model: a line arrives already decoded, or marked as undecodable.
 */
module McpServer {
  import opened Results
  import opened GoText
  import opened GuidelineCore
  import GuidelineRegistry

  /** The protocol error codes and their wire names. */
  datatype ErrorCode = InvalidParams | MethodNotFound | InternalError {
    function Wire(): string {
      match this
      case InvalidParams => "invalid_params"
      case MethodNotFound => "method_not_found"
      case InternalError => "internal_error"
    }
  }

  /** A protocol error; `Error()` is its message. */
  datatype McpError = McpError(code: ErrorCode, message: string) {
    function Error(): string {
      message
    }
  }

  datatype ServerInfo = ServerInfo(name: string, version: string)

  /** A JSON Schema node: nested schemas through `properties` and `additionalProperties`. */
  datatype JSONSchema = JSONSchema(
    schemaType: string,
    description: string,
    properties: map<string, JSONSchema>,
    required: seq<string>,
    additionalProperties: Option<JSONSchema>)

  datatype ToolInfo = ToolInfo(name: string, description: string, inputSchema: JSONSchema)

  datatype ListToolsResponse = ListToolsResponse(tools: seq<ToolInfo>)

  datatype Content = Content(contentType: string, text: string)

  datatype CallToolResponse = CallToolResponse(content: seq<Content>)

  /** The outcome of decoding a JSON payload: the value, or the decoder's error text. */
  datatype Decoded<T> = Decoded(value: T) | DecodeError(detail: string)

  datatype CallToolRequest = CallToolRequest(name: string, arguments: Decoded<GuidelineRequest>)

  /**
   * One request line: not JSON at all, or a method with its `params` (which
   * are decoded as call-tool parameters only when the method needs them).
   */
  datatype Line = Unparseable | Request(methodName: string, params: Decoded<CallToolRequest>)

  datatype Response = ToolList(list: ListToolsResponse) | ToolCall(call: CallToolResponse)

  /** What is written back for a line: a response, or an error object. */
  datatype Output = Reply(response: Response) | ErrorReply(error: McpError)

  /** The guideline service the server delegates to. */
  type Service = GuidelineRequest -> Result<seq<Guideline>, Error>

  const ToolName := "get_guidelines"

  function StringSchema(description: string): JSONSchema {
    JSONSchema("string", description, map[], [], None)
  }

  /** The one tool the server offers and the shape of its arguments. */
  function GuidelinesTool(): ToolInfo {
    ToolInfo(ToolName, "Get code guidelines for a specific programming language and project type",
      JSONSchema("object", "",
        map[
          "language" := StringSchema("Programming language (e.g., 'go', 'python')"),
          "project_type" := StringSchema("Type of project (e.g., 'api', 'cli', 'library')"),
          "options" := JSONSchema("object", "Additional options for customizing guidelines",
            map[], [], Some(JSONSchema("string", "", map[], [], None)))],
        ["language", "project_type"],
        None))
  }

  // ---------------------------------------------------------------------------
  // Markdown rendering.

  const Header := "# Code Guidelines\n\n"

  /** The renderings of `xs`, one after the other, in order. */
  function Concatenated<T>(xs: seq<T>, render: T -> string): string
    decreases |xs|
  {
    if xs == [] then "" else Concatenated(xs[..|xs| - 1], render) + render(xs[|xs| - 1])
  }

  /** One rule: its title, its priority line, and its description. */
  function RuleBlock(r: Rule): string {
    ("### " + r.title + "\n") + ("Priority: " + IntToString(r.priority) + "\n\n") + (r.description + "\n\n")
  }

  /** One example, as a fenced Go code block. */
  function ExampleBlock(e: string): string {
    "```go\n" + e + "\n```\n\n"
  }

  /** One reference, as a list item. */
  function ReferenceLine(r: string): string {
    "- " + r + "\n"
  }

  /** The examples, under their own heading, only when there are any. */
  function ExamplesSection(es: seq<string>): string {
    if |es| > 0 then "### Examples\n\n" + Concatenated(es, ExampleBlock) else ""
  }

  /** The references, under their own heading and followed by a blank line, only when there are any. */
  function ReferencesSection(refs: seq<string>): string {
    if |refs| > 0 then "### References\n\n" + Concatenated(refs, ReferenceLine) + "\n" else ""
  }

  /** One guideline: its category heading, its rules, then its examples and references. */
  function Section(g: Guideline): string {
    ("## " + g.category + "\n\n") + Concatenated(g.rules, RuleBlock)
      + ExamplesSection(g.examples) + ReferencesSection(g.references)
  }

  /** Specification of `formatGuidelinesMarkdown`: the header, then one section per guideline, in order. */
  function Markdown(gs: seq<Guideline>): string {
    Header + Concatenated(gs, Section)
  }

  /** One step of a rendering loop: the prefix up to `i + 1` adds the rendering of `xs[i]`. */
  lemma ConcatenatedStep<T>(xs: seq<T>, render: T -> string, i: nat)
    requires i < |xs|
    ensures Concatenated(xs[..i + 1], render) == Concatenated(xs[..i], render) + render(xs[i])
  {
    assert xs[..i + 1][..i] == xs[..i];
  }

  lemma AppendAssoc(a: string, b: string, c: string)
    ensures (a + b) + c == a + (b + c)
  {
  }

  /** `formatGuidelinesMarkdown`: appends to one result string, guideline by guideline. */
  method FormatGuidelinesMarkdown(guidelines: seq<Guideline>) returns (result: string)
    ensures result == Markdown(guidelines)
  {
    result := "# Code Guidelines\n\n";
    for i := 0 to |guidelines|
      invariant result == Header + Concatenated(guidelines[..i], Section)
    {
      var g := guidelines[i];
      ghost var start := result;
      result := result + ("## " + g.category + "\n\n");
      result := AppendRules(result, g.rules);
      result := AppendExamples(result, g.examples);
      result := AppendReferences(result, g.references);
      SectionAssembled(start, g);
      ConcatenatedStep(guidelines, Section, i);
      AppendAssoc(Header, Concatenated(guidelines[..i], Section), Section(g));
    }
    assert guidelines[..|guidelines|] == guidelines;
  }

  /** The rule loop of `formatGuidelinesMarkdown`: three appends per rule. */
  method AppendRules(prefix: string, rules: seq<Rule>) returns (result: string)
    ensures result == prefix + Concatenated(rules, RuleBlock)
  {
    result := prefix;
    for j := 0 to |rules|
      invariant result == prefix + Concatenated(rules[..j], RuleBlock)
    {
      var r := rules[j];
      ghost var before := Concatenated(rules[..j], RuleBlock);
      ghost var x, y, z := "### " + r.title + "\n", "Priority: " + IntToString(r.priority) + "\n\n", r.description + "\n\n";
      result := result + ("### " + r.title + "\n");
      result := result + ("Priority: " + IntToString(r.priority) + "\n\n");
      result := result + (r.description + "\n\n");
      AppendAssoc(prefix + before, x, y);
      AppendAssoc(prefix + before, x + y, z);
      AppendAssoc(prefix, before, RuleBlock(r));
      ConcatenatedStep(rules, RuleBlock, j);
    }
    assert rules[..|rules|] == rules;
  }

  /** The example block of `formatGuidelinesMarkdown`: a heading and the fenced examples, if there are any. */
  method AppendExamples(prefix: string, examples: seq<string>) returns (result: string)
    ensures result == prefix + ExamplesSection(examples)
  {
    result := prefix;
    if |examples| > 0 {
      result := result + "### Examples\n\n";
      for j := 0 to |examples|
        invariant result == prefix + "### Examples\n\n" + Concatenated(examples[..j], ExampleBlock)
      {
        AppendAssoc(prefix + "### Examples\n\n", Concatenated(examples[..j], ExampleBlock), ExampleBlock(examples[j]));
        ConcatenatedStep(examples, ExampleBlock, j);
        result := result + ("```go\n" + examples[j] + "\n```\n\n");
      }
      assert examples[..|examples|] == examples;
      AppendAssoc(prefix, "### Examples\n\n", Concatenated(examples, ExampleBlock));
    }
  }

  /** The reference block of `formatGuidelinesMarkdown`: a heading, the list, and a blank line, if there are any. */
  method AppendReferences(prefix: string, references: seq<string>) returns (result: string)
    ensures result == prefix + ReferencesSection(references)
  {
    result := prefix;
    if |references| > 0 {
      result := result + "### References\n\n";
      for j := 0 to |references|
        invariant result == prefix + "### References\n\n" + Concatenated(references[..j], ReferenceLine)
      {
        AppendAssoc(prefix + "### References\n\n", Concatenated(references[..j], ReferenceLine),
          ReferenceLine(references[j]));
        ConcatenatedStep(references, ReferenceLine, j);
        result := result + ("- " + references[j] + "\n");
      }
      assert references[..|references|] == references;
      ghost var refs := Concatenated(references, ReferenceLine);
      AppendAssoc(prefix, "### References\n\n", refs);
      AppendAssoc(prefix, "### References\n\n" + refs, "\n");
      result := result + "\n";
    }
  }

  /** The pieces of a section, appended one by one to `start`, make `start + Section(g)`. */
  lemma SectionAssembled(start: string, g: Guideline)
    ensures start + ("## " + g.category + "\n\n") + Concatenated(g.rules, RuleBlock)
      + ExamplesSection(g.examples) + ReferencesSection(g.references) == start + Section(g)
  {
    var h, c, e, r := "## " + g.category + "\n\n", Concatenated(g.rules, RuleBlock),
      ExamplesSection(g.examples), ReferencesSection(g.references);
    AppendAssoc(start, h, c);
    AppendAssoc(start, h + c, e);
    AppendAssoc(start, h + c + e, r);
  }

  /** No guidelines: the header alone. */
  lemma MarkdownEmpty()
    ensures Markdown([]) == "# Code Guidelines\n\n"
  {
  }

  /** Rendering distributes over concatenation: each element is rendered on its own, in order. */
  lemma {:induction false} ConcatenatedAppend<T>(a: seq<T>, b: seq<T>, render: T -> string)
    ensures Concatenated(a + b, render) == Concatenated(a, render) + Concatenated(b, render)
    decreases |b|
  {
    if b == [] {
      assert a + b == a;
    } else {
      var ab, init := a + b, b[..|b| - 1];
      assert ab[..|ab| - 1] == a + init;
      assert ab[|ab| - 1] == b[|b| - 1];
      ConcatenatedAppend(a, init, render);
    }
  }

  /** The output always starts with the header, and appending guidelines only extends it. */
  lemma MarkdownExtends(a: seq<Guideline>, b: seq<Guideline>)
    ensures Markdown(a + b) == Markdown(a) + Concatenated(b, Section)
    ensures |Header| <= |Markdown(a)| && Markdown(a)[..|Header|] == Header
  {
    ConcatenatedAppend(a, b, Section);
  }

  /** A guideline without examples or references renders as its heading and rules only. */
  lemma SectionWithoutExtras(g: Guideline)
    requires g.examples == [] && g.references == []
    ensures Section(g) == "## " + g.category + "\n\n" + Concatenated(g.rules, RuleBlock)
  {
  }

  /** The priority printed for a rule reads back as the rule's priority. */
  lemma PriorityLineRoundTrip(r: Rule)
    ensures ParseInt(IntToString(r.priority)) == r.priority
  {
    IntToStringRoundTrip(r.priority);
  }

  // ---------------------------------------------------------------------------
  // Handlers.

  /**
   * How a service error is reported: an unsupported language or project
   * type, or an invalid request, as invalid parameters with the error's own
   * message; anything else as an internal error with a fixed message.
   */
  function ToMcpError(e: Error): (m: McpError)
    ensures m.code == InvalidParams <==> IsNotSupported(e) || IsInvalidRequest(e)
    ensures m.code == InvalidParams ==> m.message == e.Message()
    ensures m.code != InvalidParams ==> m == McpError(InternalError, "internal server error")
  {
    if IsNotSupported(e) then McpError(InvalidParams, e.Message())
    else if IsInvalidRequest(e) then McpError(InvalidParams, e.Message())
    else McpError(InternalError, "internal server error")
  }

  /** The server: its identity and the service it delegates to. */
  datatype Server = Server(info: ServerInfo, service: Service) {

    /** `handleListTools`: the one `get_guidelines` tool. */
    function HandleListTools(): (r: ListToolsResponse)
      ensures |r.tools| == 1 && r.tools[0].name == "get_guidelines"
      ensures r.tools[0].inputSchema.required == ["language", "project_type"]
      ensures r.tools[0].inputSchema.properties.Keys == {"language", "project_type", "options"}
      ensures forall k :: k in r.tools[0].inputSchema.required ==> k in r.tools[0].inputSchema.properties
    {
      ListToolsResponse([GuidelinesTool()])
    }

    /** `handleGetGuidelines`. */
    function HandleGetGuidelines(args: Decoded<GuidelineRequest>): (r: Result<CallToolResponse, McpError>)
      ensures args.DecodeError? ==> r == Failure(McpError(InvalidParams, "invalid request format: " + args.detail))
      ensures args.Decoded? && service(args.value).Failure? ==> r == Failure(ToMcpError(service(args.value).error))
      ensures args.Decoded? && service(args.value).Success? ==>
        r == Success(CallToolResponse([Content("markdown", Markdown(service(args.value).value))]))
    {
      match args
      case DecodeError(d) => Failure(McpError(InvalidParams, "invalid request format: " + d))
      case Decoded(request) =>
        match service(request)
        case Failure(e) => Failure(ToMcpError(e))
        case Success(gs) => Success(CallToolResponse([Content("markdown", Markdown(gs))]))
    }

    /** `handleCallTool`: only `get_guidelines` is a tool. */
    function HandleCallTool(req: CallToolRequest): (r: Result<CallToolResponse, McpError>)
      ensures req.name == "get_guidelines" ==> r == HandleGetGuidelines(req.arguments)
      ensures req.name != "get_guidelines" ==> r == Failure(McpError(MethodNotFound, "unknown tool: " + req.name))
    {
      if req.name == ToolName then HandleGetGuidelines(req.arguments)
      else Failure(McpError(MethodNotFound, "unknown tool: " + req.name))
    }

    /** The method switch of the request loop, for one line. */
    function HandleLine(line: Line): (o: Output)
      ensures line.Unparseable? ==> o == ErrorReply(McpError(InvalidParams, "invalid JSON request"))
      ensures line.Request? && line.methodName == "list_tools" ==> o == Reply(ToolList(HandleListTools()))
      ensures line.Request? && line.methodName == "call_tool" && line.params.DecodeError? ==>
        o == ErrorReply(McpError(InvalidParams, "invalid call_tool params: " + line.params.detail))
      ensures line.Request? && line.methodName == "call_tool" && line.params.Decoded? ==>
        o == match HandleCallTool(line.params.value)
          case Success(resp) => Reply(ToolCall(resp))
          case Failure(e) => ErrorReply(e)
      ensures line.Request? && line.methodName != "list_tools" && line.methodName != "call_tool" ==>
        o == ErrorReply(McpError(MethodNotFound, "unknown method: " + line.methodName))
    {
      match line
      case Unparseable => ErrorReply(McpError(InvalidParams, "invalid JSON request"))
      case Request(methodName, params) =>
        if methodName == "list_tools" then Reply(ToolList(HandleListTools()))
        else if methodName == "call_tool" then
          match params
          case DecodeError(d) => ErrorReply(McpError(InvalidParams, "invalid call_tool params: " + d))
          case Decoded(callReq) =>
            match HandleCallTool(callReq)
            case Success(resp) => Reply(ToolCall(resp))
            case Failure(e) => ErrorReply(e)
        else ErrorReply(McpError(MethodNotFound, "unknown method: " + methodName))
    }

    /** A line reaches the service exactly when it calls the `get_guidelines` tool with decodable arguments. */
    predicate ReachesService(line: Line) {
      line.Request? && line.methodName == "call_tool" && line.params.Decoded?
      && line.params.value.name == "get_guidelines" && line.params.value.arguments.Decoded?
    }

    /**
     * Where each outcome comes from: "method not found" exactly for an
     * unknown method or an unknown tool; "internal error" exactly for a
     * service failure that is neither "not supported" nor "invalid request";
     * a reply exactly for `list_tools` or a successful service call, whose
     * one markdown content starts with the header.
     */
    lemma OutcomeOrigins(line: Line)
      ensures var o := HandleLine(line);
        (o.ErrorReply? && o.error.code == MethodNotFound <==>
          line.Request? && ((line.methodName != "list_tools" && line.methodName != "call_tool")
            || (line.methodName == "call_tool" && line.params.Decoded? && line.params.value.name != "get_guidelines")))
      ensures var o := HandleLine(line);
        (o.ErrorReply? && o.error.code == InternalError <==>
          ReachesService(line) && service(line.params.value.arguments.value).Failure?
          && !IsNotSupported(service(line.params.value.arguments.value).error)
          && !IsInvalidRequest(service(line.params.value.arguments.value).error))
      ensures var o := HandleLine(line);
        (o.Reply? <==>
          ((line.Request? && line.methodName == "list_tools")
           || (ReachesService(line) && service(line.params.value.arguments.value).Success?)))
      ensures var o := HandleLine(line);
        o.Reply? && o.response.ToolCall? ==>
          |o.response.call.content| == 1 && o.response.call.content[0].contentType == "markdown"
          && o.response.call.content[0].text[..|Header|] == Header
    {
      if ReachesService(line) {
        var res := service(line.params.value.arguments.value);
        if res.Success? {
          MarkdownExtends(res.value, []);
        }
      }
    }

    /**
     * The request loop over the lines read: every line gets exactly one
     * output, in order; an erroneous line does not stop the loop.
     */
    method Serve(lines: seq<Line>) returns (outputs: seq<Output>)
      ensures |outputs| == |lines|
      ensures forall i :: 0 <= i < |lines| ==> outputs[i] == HandleLine(lines[i])
    {
      outputs := [];
      for i := 0 to |lines|
        invariant |outputs| == i
        invariant forall k :: 0 <= k < i ==> outputs[k] == HandleLine(lines[k])
      {
        outputs := outputs + [HandleLine(lines[i])];
      }
    }
  }

  /** `NewServer`: the fixed identity, and the service it is given. */
  function NewServer(service: Service): (s: Server)
    ensures s.info == ServerInfo("code-guidelines", "0.1.0") && s.service == service
  {
    Server(ServerInfo("code-guidelines", "0.1.0"), service)
  }

  /**
   * A line's answer depends on the service only through the one request that
   * reaches it, and not on the server's identity: two servers whose services
   * agree on that request, or a line that reaches no service, get the same output.
   */
  lemma AnswerDependsOnlyOnService(a: Server, b: Server, line: Line)
    requires a.ReachesService(line) ==>
      a.service(line.params.value.arguments.value) == b.service(line.params.value.arguments.value)
    ensures a.HandleLine(line) == b.HandleLine(line)
  {
  }

  /**
   * Against the guideline service, an error is reported as invalid
   * parameters exactly when the request is incomplete, the language has no
   * provider, the project type is unsupported, or the provider's own error is
   * of one of those classes; any other provider error is an internal error.
   */
  lemma ServiceErrorCodes(svc: GuidelineRegistry.GuidelineService, req: GuidelineRequest)
    requires svc.GetGuidelines(req).Failure?
    ensures var m := ToMcpError(svc.GetGuidelines(req).error);
      var pe := svc.ProviderError(req);
      m.code == InvalidParams <==>
        req.language == "" || req.projectType == "" || req.language !in svc.providers
        || !svc.providers[req.language].supportsProjectType(req.projectType)
        || (pe.Some? && (IsNotSupported(pe.value) || IsInvalidRequest(pe.value)))
  {
    svc.FailureClassification(req);
  }
}
