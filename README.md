# mcp-go-tools in Dafny

A model of the core of mcp-go-tools, a small service that serves coding guidance to language models
over the Model Context Protocol (MCP). The repository has two independent lineages with incompatible
`core.Rule` types, and the model keeps them apart.

**A. The code-style rule engine** (`CodeStyle`, `StaticRepo`, `RepoFactory`, `CodeStyleApi`):

- A static repository scans an immutable list of configured rules by category, by type or by
  applicable context. It finds the first rule with a given name, for its template or its examples.
  It converts configuration rules to core rules field by field.
- A done request context is modelled as `cancelled: bool`. When it is set, each lookup fails
  without scanning.
- `Rule.FormatForLLM` renders a rule for a language model.
- The `codestyle` tool splits its comma-separated argument and trims each part.
- The tool joins the rendered rules with `---` separator lines.
- The argument validator accepts exactly the arguments whose parts are all `documentation`,
  `testing` or `code`.
- A factory selects the static or the vector backend. The vector backend is opaque: the model
  knows only whether creating it or initialising it fails.

**B. The guideline service** (`GuidelineCore`, `GoGuidelines`, `GuidelineRegistry`, `McpServer`):

- Errors are four sentinels and wrappers around them. `errors.Is` sees through the wrappers, so
  the two classification predicates ask what the innermost cause is.
- The service is a class whose field is a map from language to provider. `GetGuidelines` checks
  in a fixed order: request validation, then provider lookup, then project-type support, then
  delegation.
- The built-in Go provider gives three base guidelines to every project type, and one more for
  `api`, `cli` or `library`.
  - Its texts sit behind the key types `Advice` and `Snippet`.
  - The lists are written once, as `Catalogue`. Their structure is proved for any texts.
- The MCP server maps one request line to a handler.
  - Service errors become `invalid_params`, `method_not_found` or `internal_error`.
  - A successful call renders the guidelines as markdown. The nested-loop renderer is proved
    equal to the specification function `Markdown`.

Shared Go-library behaviour lives in `GoText`:

- `strings.Split` on one separator, which gives `[""]` for the empty string.
- `strings.TrimSpace` on ASCII white space.
- `strings.Join`.
- The decimal rendering of `%d`.

## Model

| member | source | states |
|---|---|---|
| StaticRepo.ConvertedExamples | pkg/repo/static/repo.go:92-102 | one core example per example, same length, each description, code and context carried over at the same index |
| StaticRepo.ConvertExamples | pkg/repo/static/repo.go:92-102 | the slice filled index by index equals the converted examples |
| StaticRepo.ConvertRule | pkg/repo/static/repo.go:71-87 | every field of the configuration rule, including the pattern's three fields, appears unchanged in the core rule |
| StaticRepo.ConvertRuleRoundTrip | pkg/repo/static/repo.go:71-102 | conversion is a bijection: back-conversion undoes it in both directions, so nothing is lost or invented |
| StaticRepo.RepoError.Message | pkg/repo/static/repo.go:164-193 | a done context reports `context canceled`; a template or examples lookup that finds nothing reports a text ending with the rule's name |
| StaticRepo.Repository.GetRulesByCategory | pkg/repo/static/repo.go:107-120 | a cancelled call fails with no result; otherwise the result is exactly the rules of that category, converted, in configuration order |
| StaticRepo.Repository.GetRulesByType | pkg/repo/static/repo.go:125-138 | a cancelled call fails; otherwise the result is exactly the rules of that type, converted, in configuration order |
| StaticRepo.Repository.GetApplicableRules | pkg/repo/static/repo.go:143-159 | a cancelled call fails; otherwise the result is the rules whose AppliesTo contains the context, each once even when listed twice, in order |
| StaticRepo.SelectConcat | pkg/repo/static/repo.go:112-118 | scanning a concatenation concatenates the answers, so configuration order is kept |
| StaticRepo.SelectLength | pkg/repo/static/repo.go:112-118 | a scan never returns more rules than are configured |
| StaticRepo.SelectMultiplicity | pkg/repo/static/repo.go:149-156 | a core rule occurs in the answer as often as its source occurs among the matching configured rules, and not at all if it does not match |
| StaticRepo.SelectMembership | pkg/repo/static/repo.go:112-118 | a rule is in the answer if and only if it is configured and matches the filter |
| StaticRepo.FirstNamed | pkg/repo/static/repo.go:169-174 | the found index holds the name and no earlier index does; none is found exactly when no rule has the name |
| StaticRepo.Repository.GetTemplate | pkg/repo/static/repo.go:164-176 | a cancelled call fails; otherwise the template of the first rule with that name, or a not-found error when no rule has it |
| StaticRepo.Repository.GetExamples | pkg/repo/static/repo.go:181-193 | a cancelled call fails; otherwise the converted examples of the first rule with that name, or a not-found error |
| StaticRepo.CategoryScenario | pkg/repo/static/repo.go:107-120 | for rules a, b (testing) and c (style), the testing scan returns exactly a then b |
| CodeStyle.Rule.FormatForLLM | pkg/core/svc.go:35-57 | the parts built in the loop and joined with newlines equal the specification `Formatted` |
| CodeStyle.Rule.String | pkg/core/svc.go:91-93 | the Stringer view is the LLM rendering |
| CodeStyle.RenderedExamplesConcat | pkg/core/svc.go:47-51 | example rendering distributes over concatenation, so order is kept |
| CodeStyle.RenderedExamplesSingle | pkg/core/svc.go:48-50 | an example contributes its rendering exactly when it has both a description and code |
| CodeStyle.RenderedExamplesEmpty | pkg/core/svc.go:45-51 | no example is rendered exactly when every example lacks a description or code |
| CodeStyle.RenderedExamplesLength | pkg/core/svc.go:45-51 | at most one rendering per example |
| CodeStyle.FormattedCases | pkg/core/svc.go:35-57 | the four shapes of the output: empty, examples only, description line only, or the description line, a newline and the examples |
| CodeStyle.FormattedEmpty | pkg/core/svc.go:35-56 | no description and no examples render as the empty string |
| CodeStyle.FormattedStartsWithDescription | pkg/core/svc.go:39-41 | a non-empty description yields the first line `Description: <description>` |
| CodeStyle.FormattedAllDropped | pkg/core/svc.go:44-56 | when examples exist but all are dropped, an empty part is still joined: `Description: d` plus a newline, or the empty string |
| CodeStyle.FormattedIgnoresNameAndCategory | pkg/core/svc.go:35-57 | the rendering does not depend on Name or Category |
| CodeStyle.Service.GetCodeStyle | pkg/core/svc.go:84-87 | the categories go to the repository unchanged with no keywords, and its answer comes back unchanged |
| GoText.TrimSpace | pkg/api/service.go:140 | the result is no longer than the input and has no space at either end |
| GoText.TrimSpaceOfPadded | pkg/api/service_test.go:225 | trimming white space around a trimmed word gives the word |
| GoText.TrimSpaceIdempotent | pkg/api/service.go:140 | trimming twice is trimming once |
| GoText.Split | pkg/api/service.go:138 | one more part than there are separators |
| GoText.SplitPartsFree | pkg/api/service.go:138 | no part contains the separator |
| GoText.JoinSplit | pkg/api/service.go:138 | joining the parts with the separator gives back the input |
| GoText.SplitConcat | pkg/api/service.go:138 | splitting `a + sep + b` gives the parts of a followed by the parts of b |
| GoText.Join | pkg/core/svc.go:53-56 | a non-empty list joins into a text that starts with its first part and ends with its last |
| GoText.IntToStringRoundTrip | pkg/server/mcp.go:220 | the decimal rendering of an int reads back as that int |
| CodeStyleApi.Categories | pkg/api/service.go:138-141 | the handler is asked for one more category than the argument has commas |
| CodeStyleApi.CategoriesShape | pkg/api/service.go:138-141 | every category is trimmed and contains no comma |
| CodeStyleApi.CategoriesOfEmpty | pkg/api/service.go:138 | an empty argument asks for the single category `""` |
| CodeStyleApi.CategoriesConcat | pkg/api/service.go:138-141 | a comma separates the categories of its two sides, with order kept and nothing merged or dropped |
| CodeStyleApi.Interleaved | pkg/api/service.go:152-158 | two elements per rule: its rendering, then `---` |
| CodeStyleApi.ResponseTextClosedForm | pkg/api/service.go:152-160 | the text is `f1 + "\n---\n" + ... + fn + "\n---"` |
| CodeStyleApi.ResponseTextEmpty | pkg/api/service.go:152-160 | zero rules give the empty text |
| CodeStyleApi.Service.HandleCodeStyle | pkg/api/service.go:134-160 | the handler gets the trimmed parts; its error becomes a tool error with no text; otherwise the text is the joined renderings and separators |
| CodeStyleApi.FormatAll | pkg/api/service.go:152-158 | the loop over the rules yields each rule's LLM rendering followed by a `---` element, in order, as `Interleaved` specifies |
| CodeStyleApi.New | pkg/api/service.go:68-73 | the service keeps exactly the given configuration and handler |
| CodeStyleApi.ValidationError.Message | pkg/api/service_test.go:211-228 | the missing argument reports `categories is required`; a rejected category reports a text ending with that category |
| CodeStyleApi.FirstInvalid | pkg/api/service_test.go:223-229 | the first index whose category is invalid, with all earlier ones valid; none exactly when all are valid |
| CodeStyleApi.CodeStyleArgs.Validate | pkg/api/service_test.go:211-232 | rejects the empty argument first, then names the first invalid trimmed part; no error exactly when the argument is accepted |
| CodeStyleApi.CategoriesFirstInvalid | pkg/api/service_test.go:223-228 | the first part the loop rejects is the first invalid category |
| CodeStyleApi.CategoriesAllValid | pkg/api/service_test.go:223-231 | a loop that rejects no part means no invalid category |
| CodeStyleApi.AcceptedAllValid | pkg/api/service_test.go:211-231 | acceptance is exactly "every trimmed part is valid", because the empty argument has the empty part |
| CodeStyleApi.AllValidConcat | pkg/api/service_test.go:223-229 | a concatenation of category lists is all valid if and only if both lists are |
| CodeStyleApi.AcceptedConcat | pkg/api/service_test.go:223-231 | two comma-joined arguments are accepted together if and only if each is accepted alone |
| CodeStyleApi.AcceptedIgnoresPadding | pkg/api/service_test.go:225 | white space around a single part does not matter: it is accepted if and only if the word is a valid category |
| CodeStyleApi.TrailingCommaRejected | pkg/api/service_test.go:223-228 | an argument with a trailing comma is rejected |
| CodeStyleApi.SingleCategoryAccepted | pkg/api/service_test.go:165-171 | a single valid category is accepted |
| CodeStyleApi.TwoCategoriesAccepted | pkg/api/service_test.go:172-178 | `testing,documentation` is accepted |
| CodeStyleApi.UnknownCategoryRejected | pkg/api/service_test.go:186-192 | `invalid` is rejected |
| RepoFactory.ConvertAllPointwise | pkg/repo/config.go:40-44 | every configured rule is converted, at the same position, with the same length |
| RepoFactory.FactoryError.Message | pkg/repo/config.go:35-53 | a creation or initialisation failure reports a text ending with the backend's own error; an unknown type reports a text ending with that type |
| RepoFactory.New | pkg/repo/config.go:30-54 | `static` or `""` gives a static repository over the rules; `vector` reports a creation or initialisation failure, or else is initialised with all rules converted in order; any other type fails as unknown |
| GuidelineCore.Error.Message | pkg/core/errors.go:5-16 | the four sentinel texts; a wrapped error's message ends with its cause's message |
| GuidelineCore.MessageEndsWithRoot | pkg/service/guideline.go:40-61 | however deeply an error is wrapped, its message ends with the innermost cause's message |
| GuidelineCore.Chain | pkg/core/errors.go:19-27 | the unwrap chain starts at the error itself and ends at its innermost cause |
| GuidelineCore.Is | pkg/core/errors.go:19-27 | `errors.Is` holds exactly when the target occurs on the error's unwrap chain |
| GuidelineCore.IsIffRoot | pkg/core/errors.go:19-27 | against a sentinel, `errors.Is` holds exactly when the innermost cause is that sentinel |
| GuidelineCore.WrappedMessage | pkg/service/guideline.go:40 | a wrapped error's message is the context, a colon and a space, then the cause's message |
| GuidelineCore.IsNotSupported | pkg/core/errors.go:20-22 | true exactly when the innermost cause is the language or the project-type sentinel |
| GuidelineCore.IsInvalidRequest | pkg/core/errors.go:25-27 | true exactly when the innermost cause is the invalid-request sentinel |
| GuidelineCore.ClassesExclusive | pkg/core/errors.go:5-27 | no error is in both classes |
| GuidelineCore.ClassesSurviveWrapping | pkg/core/errors.go:19-27 | wrapping never changes either classification |
| GuidelineCore.InternalServerUnclassified | pkg/core/errors.go:16-27 | the internal-server sentinel, however wrapped, is in neither class |
| GuidelineCore.OtherUnclassified | pkg/core/errors.go:19-27 | an error made elsewhere is in neither class, even when its text equals a sentinel's |
| GoGuidelines.SupportsProjectType | pkg/service/go_provider.go:25-32 | true exactly for api, cli and library, which are exactly the project types that add a category |
| GoGuidelines.APIGuidelines | pkg/service/go_provider.go:125-163 | one guideline, API Design, with two rules, one example and no references |
| GoGuidelines.CLIGuidelines | pkg/service/go_provider.go:165-194 | one guideline, CLI Design, with two rules, one example and no references |
| GoGuidelines.LibraryGuidelines | pkg/service/go_provider.go:196-228 | one guideline, Library Design, with two rules, one example and no references |
| GoGuidelines.GetGuidelines | pkg/service/go_provider.go:35-123 | the provider never fails |
| GoGuidelines.CatalogueCategories | pkg/service/go_provider.go:35-228 | for any texts, the categories are Project Structure, Code Style and Error Handling, then exactly the project type's own one if it has one |
| GoGuidelines.GuidelineCategories | pkg/service/go_provider.go:36-120 | the actual answer begins with the three base categories, then adds API Design, CLI Design or Library Design for api, cli or library |
| GoGuidelines.CatalogueLength | pkg/service/go_provider.go:112-120 | four guidelines exactly for a supported project type, otherwise the three base ones alone |
| GoGuidelines.UnsupportedGetsBase | pkg/service/go_provider.go:112-122 | an unsupported project type gets exactly the base guidelines |
| GoGuidelines.CatalogueRulesShape | pkg/service/go_provider.go:35-228 | when the rules keep the advice's priorities, every guideline has two rules, each of priority 1 or 2 |
| GoGuidelines.RulesShape | pkg/service/go_provider.go:35-228 | every guideline the provider returns has two rules, each of priority 1 or 2 |
| GuidelineRegistry.GoProvider | pkg/service/go_provider.go:13-35 | the provider answers both questions as the Go provider's functions do |
| GuidelineRegistry.ValidateRequest | pkg/service/guideline.go:67-75 | no error exactly when both the language and the project type are non-empty; any error is the invalid-request sentinel |
| GuidelineRegistry.GuidelineService.constructor | pkg/service/guideline.go:25-29 | no provider is registered |
| GuidelineRegistry.GuidelineService.RegisterProvider | pkg/service/guideline.go:32-34 | sets exactly the one key, last write wins, and all other keys keep their providers |
| GuidelineRegistry.GuidelineService.GetGuidelines | pkg/service/guideline.go:37-65 | an incomplete request fails with the wrapped invalid-request error before any lookup; then a missing language; then an unsupported project type, with the provider not asked; otherwise the provider's guidelines unchanged, or its error wrapped |
| GuidelineRegistry.GuidelineService.FailureClassification | pkg/service/guideline.go:37-65 | a failure is "invalid request" exactly for an incomplete request or a provider error of that class, and "not supported" exactly for a complete request with a missing provider, an unsupported type or a provider error of that class |
| GuidelineRegistry.GuidelineService.GoRequests | pkg/service/guideline.go:37-65 | with the Go provider under "go", a complete Go request succeeds exactly for a supported project type, and any failure is "not supported" |
| McpServer.FormatGuidelinesMarkdown | pkg/server/mcp.go:211-241 | the string appended to in nested loops equals the specification `Markdown` |
| McpServer.AppendRules | pkg/server/mcp.go:218-222 | three appends per rule add each rule's block, in order |
| McpServer.AppendExamples | pkg/server/mcp.go:224-229 | the examples heading and the fenced examples are added only when there are examples |
| McpServer.AppendReferences | pkg/server/mcp.go:231-237 | the references heading, the list and a blank line are added only when there are references |
| McpServer.MarkdownEmpty | pkg/server/mcp.go:212-213 | no guidelines give exactly `# Code Guidelines` and a blank line |
| McpServer.ConcatenatedAppend | pkg/server/mcp.go:215-238 | each element is rendered on its own: rendering a concatenation concatenates the renderings |
| McpServer.MarkdownExtends | pkg/server/mcp.go:211-241 | the output always starts with the header, and more guidelines only extend it |
| McpServer.SectionWithoutExtras | pkg/server/mcp.go:215-237 | with no examples and no references, a section is its heading and its rules only |
| McpServer.PriorityLineRoundTrip | pkg/server/mcp.go:220 | the printed priority reads back as the rule's priority |
| McpServer.ToMcpError | pkg/server/mcp.go:153-171 | invalid params, carrying the error's message, exactly for "not supported" or "invalid request" errors; otherwise an internal error with the fixed message |
| McpServer.Server.HandleListTools | pkg/server/mcp.go:99-129 | one tool, `get_guidelines`, with properties language, project_type and options, and with the required fields language and project_type, both among the properties |
| McpServer.Server.HandleGetGuidelines | pkg/server/mcp.go:143-185 | undecodable arguments give invalid params; a service error is reported through ToMcpError; success gives exactly one markdown content holding the rendering |
| McpServer.Server.HandleCallTool | pkg/server/mcp.go:131-141 | only `get_guidelines` is a tool; any other name gives method-not-found naming it |
| McpServer.Server.HandleLine | pkg/server/mcp.go:50-90 | an unparseable line gives invalid params; `list_tools` lists the tools; `call_tool` with undecodable params gives invalid params; any other method gives method-not-found |
| McpServer.Server.OutcomeOrigins | pkg/server/mcp.go:50-185 | method-not-found exactly for an unknown method or tool; internal-error exactly for an unclassified service failure; a reply exactly for list_tools or a successful service call, with one markdown content starting with the header |
| McpServer.Server.Serve | pkg/server/mcp.go:40-96 | one output per line, in order; an erroneous line does not end the loop |
| McpServer.AnswerDependsOnlyOnService | pkg/server/mcp.go:50-185 | a line's output depends on neither the server's identity nor the service, except through the one request that reaches the service |
| McpServer.NewServer | pkg/server/mcp.go:24-34 | the server is named code-guidelines, version 0.1.0, and delegates to the given service |
| McpServer.ServiceErrorCodes | pkg/server/mcp.go:152-171 | against the guideline service, invalid params is reported exactly for an incomplete request, a missing provider, an unsupported type or a provider error of those classes |

## Left out

- The vector repository (pkg/repo/vector/repo.go) is a wrapper around an external library. Only whether creating and initialising it fails is modelled.
- Command-line wiring, configuration loading, logging, signal handling and the MCP library registration are plumbing and are not modelled.
- Line reading and writing, JSON encoding and decoding, and `writeResponse` are I/O. A line arrives already parsed or marked unparseable, and its arguments arrive decoded or with the decoder's error text.
- The `Run` loop's end at EOF and its exit on a write error are not modelled. A last line without a trailing newline comes back from `ReadString` together with `io.EOF` and is dropped without a reply (pkg/server/mcp.go:42-45); `Serve` answers every line it is given.
- StaticRepo.RepoError.Message: a done context always reports `context canceled`. Go returns `ctx.Err()` (pkg/repo/static/repo.go:110, 167, 184), which reads `context deadline exceeded` for a context past its deadline; the model does not tell the two apart.
- The request context is reduced to `cancelled`, the state it had when the call was made. The guideline providers' context argument is dropped, because the server always passes a fresh background context.
- The errgroup in the `codestyle` service's `Run`, and its shutdown, are concurrency and are not modelled.
- `errors.Is` is modelled for the chains `fmt.Errorf("%w")` builds. Custom `Is` methods and multi-error unwrapping do not occur in the core and are not modelled.
- GoText.TrimSpace: trims ASCII white space only, not the full Unicode set of `strings.TrimSpace`.
- Rule priorities are unbounded integers. The rendered priorities are 1 and 2, so Go's `int` width never matters.
- GoGuidelines.GetGuidelines: its contract states only that it never fails. The length and category facts are proved on `Catalogue`, and on the actual answer through GuidelineCategories and UnsupportedGetsBase.
- McpServer.McpError.Error only returns the message, so it has no contract.
- The GuidelineRequest options map is carried but no code reads it.
- The static repository does not implement the `GetCodeStyle` method of the resource-repository interface. `CodeStyle.Service` therefore takes its repository as a function.
- The core rule type `convertRule` writes (with type, pattern, applies-to, priority and required fields) has no Go definition in the repository files this model follows: pkg/core/svc.go and pkg/core/types.go each define a different `core.Rule`. `StaticRepo.CoreRule` carries exactly the fields `convertRule` writes (pkg/repo/static/repo.go:71-87).
- `pkg/repo/config.go` calls `static.ConvertRule`, but the static package defines only the method `convertRule`. The model uses the conversion that method performs.
- Keyword filtering has no implementation. The `ResourceRepo` interface comment promises it (pkg/core/svc.go:17-19), but `Service.GetCodeStyle` always passes no keywords, and the static repository, which claims to implement that interface (pkg/repo/static/repo.go:53), has no `GetCodeStyle` method. The model follows the code.
- `FormatForLLM` appends the examples part whenever the rule has examples, even when every example is dropped, so the output can end in an empty part; CodeStyle.FormattedAllDropped states what the code then returns.
