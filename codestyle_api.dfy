/**
 * The `codestyle` tool (pkg/api/service.go): the comma-separated category
 * argument is split and trimmed, handed to the tool handler, and the rules
 * that come back are rendered and separated by `---` lines. Also the
 * argument validator `CodeStyleArgs.Validate` (pkg/api/service_test.go).
 */
module CodeStyleApi {
  import opened Results
  import opened GoText
  import CodeStyle

  /** The tool handler interface: `GetCodeStyle(ctx, categories)`. */
  type ToolHandler = (bool, seq<string>) -> Result<seq<CodeStyle.Rule>, string>

  /** The service configuration carries no options. */
  datatype Config = Config

  /** What the tool returns: one text content, or a tool error. */
  datatype ToolResult = ToolText(text: string) | ToolError(message: string)

  /** The categories the handler is asked for: the comma-separated parts of the argument, trimmed. */
  function Categories(arg: string): (cs: seq<string>)
    ensures |cs| == Count(arg, ',') + 1
  {
    var parts := Split(arg, ',');
    seq(|parts|, i requires 0 <= i < |parts| => TrimSpace(parts[i]))
  }

  /** Every category is trimmed and free of commas. */
  lemma CategoriesShape(arg: string)
    ensures forall i :: 0 <= i < |Categories(arg)| ==> Trimmed(Categories(arg)[i]) && ',' !in Categories(arg)[i]
  {
    var parts := Split(arg, ',');
    SplitPartsFree(arg, ',');
    forall i | 0 <= i < |parts|
      ensures ',' !in TrimSpace(parts[i])
    {
      TrimLeftShape(parts[i]);
      TrimRightShape(TrimLeft(parts[i]));
    }
  }

  /** An empty argument still asks for one category, the empty one. */
  lemma CategoriesOfEmpty()
    ensures Categories("") == [""]
  {
  }

  /** A comma separates the categories of its two sides; nothing is merged or dropped. */
  lemma CategoriesConcat(a: string, b: string)
    ensures Categories(a + "," + b) == Categories(a) + Categories(b)
  {
    SplitConcat(a, b, ',');
  }

  /** The formatted rules, each followed by a separator element, in order. */
  function Interleaved(rules: seq<CodeStyle.Rule>): (parts: seq<string>)
    ensures |parts| == 2 * |rules|
    decreases |rules|
  {
    if rules == [] then []
    else Interleaved(rules[..|rules| - 1]) + [CodeStyle.Formatted(rules[|rules| - 1]), "---"]
  }

  /** Specification of the response text: the interleaved parts joined by newlines. */
  function ResponseText(rules: seq<CodeStyle.Rule>): string {
    Join(Interleaved(rules), "\n")
  }

  /** Each rendering with its separator line attached. */
  function Blocks(rules: seq<CodeStyle.Rule>): seq<string>
    decreases |rules|
  {
    if rules == [] then []
    else Blocks(rules[..|rules| - 1]) + [CodeStyle.Formatted(rules[|rules| - 1]) + "\n---"]
  }

  /** The response is `f1 + "\n---\n" + ... + fn + "\n---"`. */
  lemma {:induction false} ResponseTextClosedForm(rules: seq<CodeStyle.Rule>)
    ensures ResponseText(rules) == Join(Blocks(rules), "\n")
    decreases |rules|
  {
    if rules != [] {
      var init, last := rules[..|rules| - 1], rules[|rules| - 1];
      var f := CodeStyle.Formatted(last);
      var parts, blocks := Interleaved(init), Blocks(init);
      assert Interleaved(rules) == parts + [f, "---"];
      assert Blocks(rules) == blocks + [f + "\n---"];
      if init == [] {
        assert Join(parts + [f, "---"], "\n") == Join(blocks + [f + "\n---"], "\n") by {
          assert parts + [f, "---"] == [f, "---"];
          assert blocks + [f + "\n---"] == [f + "\n---"];
          BlockJoined(f);
        }
      } else {
        assert Join(parts + [f, "---"], "\n") == Join(blocks + [f + "\n---"], "\n") by {
          ResponseTextClosedForm(init);
          ResponseTextStep(parts, blocks, f);
        }
      }
    }
  }

  /** A rendering and its separator element join into one block. */
  lemma BlockJoined(f: string)
    ensures Join([f, "---"], "\n") == Join([f + "\n---"], "\n") == f + "\n---"
  {
    assert ([f, "---"])[1..] == ["---"];
  }

  /** Appending one rule to lists that already join alike keeps them joining alike. */
  lemma ResponseTextStep(parts: seq<string>, blocks: seq<string>, f: string)
    requires |parts| > 0 && |blocks| > 0
    requires Join(parts, "\n") == Join(blocks, "\n")
    ensures Join(parts + [f, "---"], "\n") == Join(blocks + [f + "\n---"], "\n")
  {
    JoinConcat(parts, [f, "---"], "\n");
    JoinConcat(blocks, [f + "\n---"], "\n");
    BlockJoined(f);
  }

  /** No rules, no text. */
  lemma ResponseTextEmpty()
    ensures ResponseText([]) == ""
  {
  }

  /** The MCP tool service. */
  datatype Service = Service(config: Config, handler: ToolHandler) {

    /** The `codestyle` tool body. A handler error becomes a tool error and no text. */
    method HandleCodeStyle(args: CodeStyleArgs) returns (r: ToolResult)
      ensures r == match handler(false, Categories(args.categories))
        case Failure(e) => ToolError("get rules by category: " + e)
        case Success(rules) => ToolText(ResponseText(rules))
    {
      var parts := Split(args.categories, ',');
      var categories := new string[|parts|](i requires 0 <= i < |parts| => parts[i]);
      for i := 0 to categories.Length
        invariant forall k :: 0 <= k < i ==> categories[k] == TrimSpace(parts[k])
        invariant forall k :: i <= k < categories.Length ==> categories[k] == parts[k]
      {
        categories[i] := TrimSpace(categories[i]);
      }
      assert categories[..] == Categories(args.categories);
      var res := handler(false, categories[..]);
      if res.Failure? {
        return ToolError("get rules by category: " + res.error);
      }
      var formatted := FormatAll(res.value);
      r := ToolText(Join(formatted, "\n"));
    }
  }

  /** The loop over the rules in the `codestyle` tool: each rendering, then a separator element. */
  method FormatAll(rules: seq<CodeStyle.Rule>) returns (formatted: seq<string>)
    ensures formatted == Interleaved(rules)
  {
    formatted := [];
    for i := 0 to |rules|
      invariant formatted == Interleaved(rules[..i])
    {
      assert rules[..i + 1][..i] == rules[..i];
      var f := rules[i].FormatForLLM();
      formatted := formatted + [f, "---"];
    }
    assert rules[..|rules|] == rules;
  }

  /** `New` keeps the configuration and the handler it is given. */
  function New(cfg: Config, handler: ToolHandler): (s: Service)
    ensures s.config == cfg && s.handler == handler
  {
    Service(cfg, handler)
  }

  const ValidCategories: set<string> := {"documentation", "testing", "code"}

  datatype ValidationError = CategoriesRequired | InvalidCategory(category: string) {
    /** The error text: a rejected category is named at the end. */
    function Message(): (m: string)
      ensures this.CategoriesRequired? ==> m == "categories is required"
      ensures this.InvalidCategory? ==> HasSuffix(m, this.category)
    {
      match this
      case CategoriesRequired => "categories is required"
      case InvalidCategory(c) => "invalid category: " + c
    }
  }

  /** The first category that is not one of the valid ones. */
  function FirstInvalid(cs: seq<string>): (r: Option<nat>)
    ensures r.Some? ==>
      (r.value < |cs| && cs[r.value] !in ValidCategories && forall j :: 0 <= j < r.value ==> cs[j] in ValidCategories)
    ensures r.None? <==> forall j :: 0 <= j < |cs| ==> cs[j] in ValidCategories
    decreases |cs|
  {
    if cs == [] then None
    else if cs[0] !in ValidCategories then Some(0)
    else match FirstInvalid(cs[1..])
      case Some(k) => Some(k + 1)
      case None => None
  }

  /** The argument is accepted: non-empty, and every trimmed part is a valid category. */
  predicate Accepted(arg: string) {
    arg != "" && forall i :: 0 <= i < |Categories(arg)| ==> Categories(arg)[i] in ValidCategories
  }

  datatype CodeStyleArgs = CodeStyleArgs(categories: string) {

    /** `Validate`: the empty argument first, then the first invalid trimmed part. */
    method Validate() returns (err: Option<ValidationError>)
      ensures err.None? <==> Accepted(categories)
      ensures err == if categories == "" then Some(CategoriesRequired)
        else match FirstInvalid(Categories(categories))
          case Some(i) => Some(InvalidCategory(Categories(categories)[i]))
          case None => None
    {
      if categories == "" {
        return Some(CategoriesRequired);
      }
      var parts := Split(categories, ',');
      for i := 0 to |parts|
        invariant forall j :: 0 <= j < i ==> TrimSpace(parts[j]) in ValidCategories
      {
        var cat := TrimSpace(parts[i]);
        if cat !in ValidCategories {
          CategoriesFirstInvalid(categories, i);
          return Some(InvalidCategory(cat));
        }
      }
      CategoriesAllValid(categories);
      return None;
    }
  }

  /** The first part that fails the check, read off the split argument. */
  lemma CategoriesFirstInvalid(arg: string, i: nat)
    requires i < |Split(arg, ',')|
    requires TrimSpace(Split(arg, ',')[i]) !in ValidCategories
    requires forall j :: 0 <= j < i ==> TrimSpace(Split(arg, ',')[j]) in ValidCategories
    ensures FirstInvalid(Categories(arg)) == Some(i) && Categories(arg)[i] == TrimSpace(Split(arg, ',')[i])
  {
  }

  lemma CategoriesAllValid(arg: string)
    requires forall j :: 0 <= j < |Split(arg, ',')| ==> TrimSpace(Split(arg, ',')[j]) in ValidCategories
    ensures FirstInvalid(Categories(arg)) == None
  {
  }

  /** Acceptance is exactly "every trimmed part is valid": the empty argument has the empty part. */
  lemma AcceptedAllValid(arg: string)
    ensures Accepted(arg) <==> AllValid(Categories(arg))
  {
    assert "" !in ValidCategories;
    if arg == "" {
      assert Categories(arg)[0] == "";
    }
  }

  predicate AllValid(cs: seq<string>) {
    forall i :: 0 <= i < |cs| ==> cs[i] in ValidCategories
  }

  lemma AllValidConcat(ca: seq<string>, cb: seq<string>)
    ensures AllValid(ca + cb) <==> AllValid(ca) && AllValid(cb)
  {
    assert forall i :: 0 <= i < |ca| ==> (ca + cb)[i] == ca[i];
    assert forall i :: 0 <= i < |cb| ==> (ca + cb)[|ca| + i] == cb[i];
  }

  /** Two comma-separated arguments are accepted together exactly when each is. */
  lemma AcceptedConcat(a: string, b: string)
    ensures Accepted(a + "," + b) <==> Accepted(a) && Accepted(b)
  {
    CategoriesConcat(a, b);
    AcceptedAllValid(a);
    AcceptedAllValid(b);
    AcceptedAllValid(a + "," + b);
    AllValidConcat(Categories(a), Categories(b));
  }

  /** White space around a part does not matter. */
  lemma AcceptedIgnoresPadding(w1: string, c: string, w2: string)
    requires AllSpace(w1) && AllSpace(w2) && Trimmed(c) && ',' !in c
    ensures Accepted(w1 + c + w2) <==> c in ValidCategories
  {
    var s := w1 + c + w2;
    assert ',' !in s by {
      forall i | 0 <= i < |s| ensures s[i] != ',' {
        if i < |w1| {
          assert s[i] == w1[i] && IsSpace(w1[i]);
        } else if i < |w1| + |c| {
          assert s[i] == c[i - |w1|];
        } else {
          assert s[i] == w2[i - |w1| - |c|] && IsSpace(w2[i - |w1| - |c|]);
        }
      }
    }
    SplitWithoutSep(s, ',');
    TrimSpaceOfPadded(w1, c, w2);
    assert Categories(s)[0] == c && |Categories(s)| == 1;
    AcceptedAllValid(s);
  }

  /** A trailing comma leaves an empty part, which is not a valid category. */
  lemma TrailingCommaRejected(s: string)
    ensures !Accepted(s + ",")
  {
    assert s + "," == s + "," + "";
    AcceptedConcat(s, "");
  }

  /** A single valid category is accepted. */
  lemma SingleCategoryAccepted(c: string)
    requires c in ValidCategories
    ensures Accepted(c)
  {
    assert Trimmed(c) && ',' !in c;
    assert "" + c + "" == c;
    AcceptedIgnoresPadding("", c, "");
  }

  /** `"testing,documentation"` is accepted. */
  lemma TwoCategoriesAccepted()
    ensures Accepted("testing,documentation")
  {
    SingleCategoryAccepted("testing");
    SingleCategoryAccepted("documentation");
    AcceptedConcat("testing", "documentation");
    assert "testing" + "," + "documentation" == "testing,documentation";
  }

  /** `"invalid"` is rejected. */
  lemma UnknownCategoryRejected()
    ensures !Accepted("invalid")
  {
    var c := "invalid";
    assert Trimmed(c) && ',' !in c;
    assert "" + c + "" == c;
    AcceptedIgnoresPadding("", c, "");
  }
}
