/**
 * The built-in provider for Go (pkg/service/go_provider.go): three guidelines
 * every Go project gets, and one more for each supported project type.
 *
 * The lists are written once, as `Catalogue`, in terms of the rules
 * (`Advice`) and the example code (`Snippet`) they contain; `GetGuidelines`
 * instantiates them with the actual texts. The structural properties are
 * proved for `Catalogue` whatever the texts are, and carry over to
 * `GetGuidelines`.
 */
module GoGuidelines {
  import opened Results
  import opened GuidelineCore

  const ProjectTypeAPI := "api"
  const ProjectTypeCLI := "cli"
  const ProjectTypeLibrary := "library"

  /** `SupportsProjectType`: one of the three project types, and no other string; exactly those that add a category. */
  function SupportsProjectType(projectType: string): (b: bool)
    ensures b <==> projectType in {"api", "cli", "library"}
    ensures b <==> ExtraCategory(projectType).Some?
  {
    projectType == ProjectTypeAPI || projectType == ProjectTypeCLI || projectType == ProjectTypeLibrary
  }

  /** The rules the Go guidelines give, in the order they appear. */
  datatype Advice =
    | StandardLayout
    | PackageOrganization
    | PackageNaming
    | InterfaceNaming
    | ErrorWrapping
    | CustomErrors
    | HandlerStructure
    | ErrorResponses
    | CommandStructure
    | FlagHandling
    | ApiDesign
    | Versioning
  {
    function Title(): string {
      match this
      case StandardLayout => "Standard Layout"
      case PackageOrganization => "Package Organization"
      case PackageNaming => "Package Names"
      case InterfaceNaming => "Interface Names"
      case ErrorWrapping => "Error Wrapping"
      case CustomErrors => "Custom Errors"
      case HandlerStructure => "Handler Structure"
      case ErrorResponses => "Error Responses"
      case CommandStructure => "Command Structure"
      case FlagHandling => "Flag Handling"
      case ApiDesign => "API Design"
      case Versioning => "Versioning"
    }

    function Description(): string {
      match this
      case StandardLayout =>
        "Use standard Go project layout with cmd/, pkg/, and internal/ directories"
      case PackageOrganization =>
        "Organize packages by feature, keeping them focused and cohesive"
      case PackageNaming =>
        "Use single, lowercase words for package names. For multi-word packages, use no underscores or mixedCaps"
      case InterfaceNaming =>
        "Use -er suffix for single-method interfaces describing actions"
      case ErrorWrapping =>
        "Wrap errors with context using fmt.Errorf and %w verb"
      case CustomErrors =>
        "Define custom errors for specific error cases"
      case HandlerStructure =>
        "Use consistent handler structure with dependency injection"
      case ErrorResponses =>
        "Use consistent error response format and appropriate HTTP status codes"
      case CommandStructure =>
        "Use cobra for CLI applications with clear command hierarchy"
      case FlagHandling =>
        "Use consistent flag naming and provide clear descriptions"
      case ApiDesign =>
        "Design clear, consistent APIs with good documentation"
      case Versioning =>
        "Follow semantic versioning and maintain backwards compatibility"
    }

    function Priority(): int {
      match this
      case InterfaceNaming => 2
      case CustomErrors => 2
      case FlagHandling => 2
      case _ => 1
    }
  }

  /** The example code blocks the Go guidelines carry. */
  datatype Snippet = LayoutTree | PackageNames | ReaderInterface | WrapExample | SentinelErrors | HandlerExample | CobraCommand | LibraryClient {
    /** The code, verbatim. */
    function Text(): string {
      match this
      case LayoutTree => @"project/
├── cmd/                    # Main applications
│   └── app/               # Application-specific code
│       └── main.go        # Application entry point
├── pkg/                   # Public library code
│   ├── api/              # API handlers and routes
│   ├── core/             # Core types and interfaces
│   ├── service/          # Business logic
│   └── repo/             # Data access layer"
      case PackageNames => @"package user // Good
package imageutil // Good for multi-word
package UserService // Bad - don't use mixed caps"
      case ReaderInterface => @"type Reader interface { // Good - single method
    Read(p []byte) (n int, error)
}"
      case WrapExample => @"if err != nil {
    return fmt.Errorf(""validate user: %w"", err)
}"
      case SentinelErrors => @"var (
    ErrNotFound = errors.New(""not found"")
    ErrInvalid  = errors.New(""invalid input"")
)"
      case HandlerExample => @"type Handler struct {
    service Service
}

func NewHandler(service Service) *Handler {
    return &Handler{service: service}
}

func (h *Handler) HandleGet(w http.ResponseWriter, r *http.Request) {
    ctx := r.Context()
    result, err := h.service.Get(ctx)
    if err != nil {
        slog.Error(""get failed"", ""error"", err)
        http.Error(w, ""internal error"", http.StatusInternalServerError)
        return
    }
    json.NewEncoder(w).Encode(result)
}"
      case CobraCommand => @"var rootCmd = &cobra.Command{
    Use:   ""app"",
    Short: ""A brief description"",
    Long:  ""A longer description"",
}

func Execute() error {
    return rootCmd.Execute()
}"
      case LibraryClient => @"// Package example provides a clear example of good library design
package example

// Client handles all library operations
type Client struct {
    config Config
}

// NewClient creates a new client with the provided configuration
func NewClient(config Config) *Client {
    return &Client{config: config}
}"
    }
  }

  /** The three guidelines every project type gets, in this order. */
  function BaseGuidelines(rule: Advice -> Rule, code: Snippet -> string): seq<Guideline> {
    [
      Guideline("Project Structure", [rule(StandardLayout), rule(PackageOrganization)], [code(LayoutTree)], []),
      Guideline("Code Style", [rule(PackageNaming), rule(InterfaceNaming)],
        [code(PackageNames), code(ReaderInterface)], []),
      Guideline("Error Handling", [rule(ErrorWrapping), rule(CustomErrors)],
        [code(WrapExample), code(SentinelErrors)], [])
    ]
  }

  /** `getAPIGuidelines`: one guideline, "API Design", with two rules, one example and no references. */
  function APIGuidelines(rule: Advice -> Rule, code: Snippet -> string): (gs: seq<Guideline>)
    ensures |gs| == 1 && gs[0].category == "API Design"
    ensures |gs[0].rules| == 2 && |gs[0].examples| == 1 && gs[0].references == []
  {
    [Guideline("API Design", [rule(HandlerStructure), rule(ErrorResponses)], [code(HandlerExample)], [])]
  }

  /** `getCLIGuidelines`: one guideline, "CLI Design", with two rules, one example and no references. */
  function CLIGuidelines(rule: Advice -> Rule, code: Snippet -> string): (gs: seq<Guideline>)
    ensures |gs| == 1 && gs[0].category == "CLI Design"
    ensures |gs[0].rules| == 2 && |gs[0].examples| == 1 && gs[0].references == []
  {
    [Guideline("CLI Design", [rule(CommandStructure), rule(FlagHandling)], [code(CobraCommand)], [])]
  }

  /** `getLibraryGuidelines`: one guideline, "Library Design", with two rules, one example and no references. */
  function LibraryGuidelines(rule: Advice -> Rule, code: Snippet -> string): (gs: seq<Guideline>)
    ensures |gs| == 1 && gs[0].category == "Library Design"
    ensures |gs[0].rules| == 2 && |gs[0].examples| == 1 && gs[0].references == []
  {
    [Guideline("Library Design", [rule(ApiDesign), rule(Versioning)], [code(LibraryClient)], [])]
  }

  /** The project-specific guidelines: one list per supported project type, none otherwise. */
  function ProjectGuidelines(projectType: string, rule: Advice -> Rule, code: Snippet -> string): seq<Guideline> {
    if projectType == ProjectTypeAPI then APIGuidelines(rule, code)
    else if projectType == ProjectTypeCLI then CLIGuidelines(rule, code)
    else if projectType == ProjectTypeLibrary then LibraryGuidelines(rule, code)
    else []
  }

  /** The provider's answer for a project type, with the rules and code supplied by `rule` and `code`. */
  function Catalogue(projectType: string, rule: Advice -> Rule, code: Snippet -> string): seq<Guideline> {
    BaseGuidelines(rule, code) + ProjectGuidelines(projectType, rule, code)
  }

  /** The actual rule for a piece of advice. */
  function ActualRule(a: Advice): Rule {
    Rule(a.Title(), a.Description(), a.Priority())
  }

  /** The actual code of a snippet. */
  function ActualCode(s: Snippet): string {
    s.Text()
  }

  /** `GetGuidelines`: the base guidelines, then the project-specific ones. It never fails. */
  function GetGuidelines(projectType: string): (r: Result<seq<Guideline>, Error>)
    ensures r.Success?
  {
    Success(Catalogue(projectType, ActualRule, ActualCode))
  }

  /** The categories, in order. */
  function CategoryNames(gs: seq<Guideline>): (names: seq<string>)
    ensures |names| == |gs|
    ensures forall i :: 0 <= i < |gs| ==> names[i] == gs[i].category
  {
    seq(|gs|, i requires 0 <= i < |gs| => gs[i].category)
  }

  /** The category the project type adds, if any. */
  function ExtraCategory(projectType: string): Option<string> {
    if projectType == ProjectTypeAPI then Some("API Design")
    else if projectType == ProjectTypeCLI then Some("CLI Design")
    else if projectType == ProjectTypeLibrary then Some("Library Design")
    else None
  }

  /**
   * For any texts, the categories are "Project Structure", "Code
   * Style", "Error Handling", followed by exactly the category the project
   * type adds.
   */
  lemma CatalogueCategories(projectType: string, rule: Advice -> Rule, code: Snippet -> string)
    ensures CategoryNames(Catalogue(projectType, rule, code)) ==
      ["Project Structure", "Code Style", "Error Handling"] +
      match ExtraCategory(projectType)
      case Some(c) => [c]
      case None => []
  {
    var gs := Catalogue(projectType, rule, code);
    var expected := ["Project Structure", "Code Style", "Error Handling"] +
      match ExtraCategory(projectType)
      case Some(c) => [c]
      case None => [];
    assert |CategoryNames(gs)| == |expected|;
    assert forall i :: 0 <= i < |gs| ==> CategoryNames(gs)[i] == expected[i];
  }

  /** `GetGuidelines` begins with the three base categories, then the project type's own, if any. */
  lemma GuidelineCategories(projectType: string)
    ensures CategoryNames(GetGuidelines(projectType).value) ==
      ["Project Structure", "Code Style", "Error Handling"] +
      match ExtraCategory(projectType)
      case Some(c) => [c]
      case None => []
  {
    CatalogueCategories(projectType, ActualRule, ActualCode);
  }

  /** For any texts, a fourth guideline is added exactly for the supported project types. */
  lemma CatalogueLength(projectType: string, rule: Advice -> Rule, code: Snippet -> string)
    ensures |Catalogue(projectType, rule, code)| == if SupportsProjectType(projectType) then 4 else 3
    ensures !SupportsProjectType(projectType) ==> Catalogue(projectType, rule, code) == BaseGuidelines(rule, code)
  {
    if !SupportsProjectType(projectType) {
      assert ProjectGuidelines(projectType, rule, code) == [];
      assert Catalogue(projectType, rule, code) == BaseGuidelines(rule, code) + [];
    }
  }

  /** An unsupported project type gets exactly the base guidelines. */
  lemma UnsupportedGetsBase(projectType: string)
    requires !SupportsProjectType(projectType)
    ensures GetGuidelines(projectType).value == BaseGuidelines(ActualRule, ActualCode)
  {
    CatalogueLength(projectType, ActualRule, ActualCode);
  }

  /** Every guideline has two rules, each of priority 1 or 2, when the rules keep the advice's priorities. */
  lemma CatalogueRulesShape(projectType: string, rule: Advice -> Rule, code: Snippet -> string)
    requires forall a: Advice :: rule(a).priority == a.Priority()
    ensures forall g :: g in Catalogue(projectType, rule, code) ==>
      |g.rules| == 2 && forall r :: r in g.rules ==> r.priority == 1 || r.priority == 2
  {
  }

  /** Every guideline the provider returns has two rules, each of priority 1 or 2. */
  lemma RulesShape(projectType: string)
    ensures forall g :: g in GetGuidelines(projectType).value ==>
      |g.rules| == 2 && forall r :: r in g.rules ==> r.priority == 1 || r.priority == 2
  {
    assert forall a: Advice :: ActualRule(a).priority == a.Priority();
    CatalogueRulesShape(projectType, ActualRule, ActualCode);
  }
}
