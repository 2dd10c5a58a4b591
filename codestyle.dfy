/**
 * The code-style rule and its LLM rendering (pkg/core/svc.go), and the
 * pass-through service that fetches rules from a repository.
 */
module CodeStyle {
  import opened Results
  import opened GoText

  /** A usage example of a rule. */
  datatype Example = Example(description: string, code: string)

  /** A code-style rule as the service hands it out. */
  datatype Rule = Rule(name: string, category: string, description: string, examples: seq<Example>) {

    /**
     * Collects the description line and the rendered examples and joins them
     * with newlines, as `Rule.FormatForLLM` does.
     */
    method FormatForLLM() returns (s: string)
      ensures s == Formatted(this)
    {
      var parts: seq<string> := [];
      if description != "" {
        parts := parts + ["Description: " + description];
      }
      if |examples| > 0 {
        var rendered: seq<string> := [];
        for i := 0 to |examples|
          invariant rendered == RenderedExamples(examples[..i])
        {
          var ex := examples[i];
          assert examples[..i + 1][..i] == examples[..i];
          if ex.description != "" && ex.code != "" {
            rendered := rendered + ["Example (" + ex.description + "):\n```\n" + ex.code + "```"];
          }
        }
        assert examples[..|examples|] == examples;
        parts := parts + [Join(rendered, "\n")];
      }
      s := Join(parts, "\n");
    }

    /** `Rule.String`: the Stringer view is the LLM rendering. */
    method String() returns (s: string)
      ensures s == Formatted(this)
    {
      s := FormatForLLM();
    }
  }

  /** An example is rendered only when it has both a description and code. */
  predicate Kept(e: Example) {
    e.description != "" && e.code != ""
  }

  function RenderExample(e: Example): string {
    "Example (" + e.description + "):\n```\n" + e.code + "```"
  }

  /** Rendered kept examples, in order. */
  function RenderedExamples(es: seq<Example>): seq<string>
    decreases |es|
  {
    if es == [] then []
    else
      var last := es[|es| - 1];
      RenderedExamples(es[..|es| - 1]) + (if Kept(last) then [RenderExample(last)] else [])
  }

  /** Specification of `FormatForLLM`: the description part, then the examples part. */
  function Formatted(r: Rule): string {
    var descPart := if r.description != "" then ["Description: " + r.description] else [];
    var examplePart := if |r.examples| > 0 then [Join(RenderedExamples(r.examples), "\n")] else [];
    Join(descPart + examplePart, "\n")
  }

  /** Rendering distributes over concatenation: examples keep their relative order. */
  lemma {:induction false} RenderedExamplesConcat(a: seq<Example>, b: seq<Example>)
    ensures RenderedExamples(a + b) == RenderedExamples(a) + RenderedExamples(b)
    decreases |b|
  {
    if b == [] {
      assert a + b == a;
    } else {
      var ab := a + b;
      assert ab[..|ab| - 1] == a + b[..|b| - 1];
      assert ab[|ab| - 1] == b[|b| - 1];
      RenderedExamplesConcat(a, b[..|b| - 1]);
    }
  }

  /** A single example contributes its rendering exactly when it is kept. */
  lemma RenderedExamplesSingle(e: Example)
    ensures RenderedExamples([e]) == if Kept(e) then [RenderExample(e)] else []
  {
    assert [e][..0] == [];
  }

  /** No rendering survives exactly when every example lacks a description or code. */
  lemma {:induction false} RenderedExamplesEmpty(es: seq<Example>)
    ensures RenderedExamples(es) == [] <==> forall i :: 0 <= i < |es| ==> !Kept(es[i])
    decreases |es|
  {
    if es != [] {
      RenderedExamplesEmpty(es[..|es| - 1]);
      assert forall i :: 0 <= i < |es| - 1 ==> es[..|es| - 1][i] == es[i];
    }
  }

  /** At most one rendering per example. */
  lemma {:induction false} RenderedExamplesLength(es: seq<Example>)
    ensures |RenderedExamples(es)| <= |es|
    decreases |es|
  {
    if es != [] {
      RenderedExamplesLength(es[..|es| - 1]);
    }
  }

  /**
   * The four shapes of the output: nothing; only the examples; only the
   * description line; the description line, a newline, then the examples.
   */
  lemma FormattedCases(r: Rule)
    ensures Formatted(r) ==
      if r.description == "" && r.examples == [] then ""
      else if r.description == "" then Join(RenderedExamples(r.examples), "\n")
      else if r.examples == [] then "Description: " + r.description
      else "Description: " + r.description + "\n" + Join(RenderedExamples(r.examples), "\n")
  {
    if r.description != "" && r.examples != [] {
      var parts := ["Description: " + r.description, Join(RenderedExamples(r.examples), "\n")];
      assert ["Description: " + r.description] + [Join(RenderedExamples(r.examples), "\n")] == parts;
      assert parts[1..] == [Join(RenderedExamples(r.examples), "\n")];
      assert Join(parts, "\n") == parts[0] + "\n" + parts[1];
    }
  }

  /** A rule with no description and no examples renders as the empty string. */
  lemma FormattedEmpty(r: Rule)
    requires r.description == "" && r.examples == []
    ensures Formatted(r) == ""
  {
    FormattedCases(r);
  }

  /** A non-empty description yields the first line `Description: <description>`. */
  lemma FormattedStartsWithDescription(r: Rule)
    requires r.description != ""
    ensures var head := "Description: " + r.description;
      |head| <= |Formatted(r)| && Formatted(r)[..|head|] == head
      && (|Formatted(r)| > |head| ==> Formatted(r)[|head|] == '\n')
  {
    FormattedCases(r);
  }

  /**
   * When examples are present but every one is dropped, an empty part is
   * still joined: the output ends in a lone newline after the description.
   */
  lemma FormattedAllDropped(r: Rule)
    requires r.examples != []
    requires forall i :: 0 <= i < |r.examples| ==> !Kept(r.examples[i])
    ensures Formatted(r) == if r.description == "" then "" else "Description: " + r.description + "\n"
  {
    FormattedCases(r);
    RenderedExamplesEmpty(r.examples);
  }

  /** The rendering ignores `Name` and `Category`. */
  lemma FormattedIgnoresNameAndCategory(r: Rule, name: string, category: string)
    ensures Formatted(r.(name := name, category := category)) == Formatted(r)
  {
  }

  /** The repository interface: `GetCodeStyle(ctx, categories, keywords)`. */
  type ResourceRepo = (bool, seq<string>, seq<string>) -> Result<seq<Rule>, string>

  /** The service delegates every request to its repository. */
  datatype Service = Service(resource: ResourceRepo) {

    /** Passes the categories through unchanged with no keywords; the repository's answer is returned as is. */
    function GetCodeStyle(cancelled: bool, categories: seq<string>): (r: Result<seq<Rule>, string>)
      ensures r == resource(cancelled, categories, [])
    {
      resource(cancelled, categories, [])
    }
  }
}
