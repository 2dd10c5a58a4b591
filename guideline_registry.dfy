/**
 * The guideline service (pkg/service/guideline.go): a registry from language
 * to provider, and a request path that validates, looks up the provider,
 * checks the project type and delegates, in that order.
 */
module GuidelineRegistry {
  import opened Results
  import opened GuidelineCore
  import GoGuidelines

  /**
   * The `GuidelineProvider` interface: which project types it supports, and
   * the guidelines it gives for one.
   */
  datatype Provider = Provider(
    supportsProjectType: string -> bool,
    getGuidelines: string -> Result<seq<Guideline>, Error>)

  /** `NewGoProvider`. */
  function GoProvider(): (p: Provider)
    ensures forall t :: p.supportsProjectType(t) == GoGuidelines.SupportsProjectType(t)
    ensures forall t :: p.getGuidelines(t) == GoGuidelines.GetGuidelines(t)
  {
    Provider(GoGuidelines.SupportsProjectType, GoGuidelines.GetGuidelines)
  }

  /** `validateRequest`: both the language and the project type must be given. */
  function ValidateRequest(req: GuidelineRequest): (err: Option<Error>)
    ensures err.None? <==> req.language != "" && req.projectType != ""
    ensures err.Some? ==> err.value == InvalidRequest
  {
    if req.language == "" then Some(InvalidRequest)
    else if req.projectType == "" then Some(InvalidRequest)
    else None
  }

  class GuidelineService {
    var providers: map<string, Provider>

    /** `NewGuidelineService`: no provider is registered. */
    constructor ()
      ensures providers == map[]
    {
      providers := map[];
    }

    /** `RegisterProvider`: sets the one key, replacing any earlier provider for the language. */
    method RegisterProvider(language: string, provider: Provider)
      modifies this
      ensures providers == old(providers)[language := provider]
    {
      providers := providers[language := provider];
    }

    /** `GetGuidelines`. */
    function GetGuidelines(req: GuidelineRequest): (r: Result<seq<Guideline>, Error>)
      reads this
      // An incomplete request is rejected first, whether or not a provider exists.
      ensures (req.language == "" || req.projectType == "") ==>
        r == Failure(Wrapped("validate request", InvalidRequest))
      // Then a language with no provider.
      ensures req.language != "" && req.projectType != "" && req.language !in providers ==>
        r == Failure(LanguageNotSupported)
      // Then a project type the provider does not support; the provider is not asked for guidelines.
      ensures (req.language != "" && req.projectType != "" && req.language in providers
        && !providers[req.language].supportsProjectType(req.projectType)) ==>
        r == Failure(ProjectTypeNotSupported)
      // Otherwise the provider's answer: its guidelines unchanged, or its error wrapped.
      ensures (req.language != "" && req.projectType != "" && req.language in providers
        && providers[req.language].supportsProjectType(req.projectType)) ==>
        r == match providers[req.language].getGuidelines(req.projectType)
          case Success(gs) => Success(gs)
          case Failure(e) => Failure(Wrapped("get guidelines from provider", e))
    {
      match ValidateRequest(req)
      case Some(e) => Failure(Wrapped("validate request", e))
      case None =>
        if req.language !in providers then Failure(LanguageNotSupported)
        else
          var provider := providers[req.language];
          if !provider.supportsProjectType(req.projectType) then Failure(ProjectTypeNotSupported)
          else
            match provider.getGuidelines(req.projectType)
            case Success(gs) => Success(gs)
            case Failure(e) => Failure(Wrapped("get guidelines from provider", e))
    }

    /** The provider's own error, when the request reaches a provider and it fails. */
    function ProviderError(req: GuidelineRequest): Option<Error>
      reads this
    {
      if req.language != "" && req.projectType != "" && req.language in providers
        && providers[req.language].supportsProjectType(req.projectType)
        && providers[req.language].getGuidelines(req.projectType).Failure?
      then Some(providers[req.language].getGuidelines(req.projectType).error)
      else None
    }

    /**
     * How a failure is classified: "invalid request" exactly for an incomplete
     * request (or a provider error of that class), and "not supported" exactly
     * for a complete request with a missing provider, an unsupported project
     * type, or a provider error of that class.
     */
    lemma FailureClassification(req: GuidelineRequest)
      requires GetGuidelines(req).Failure?
      ensures var e := GetGuidelines(req).error;
        var complete := req.language != "" && req.projectType != "";
        var pe := ProviderError(req);
        (IsInvalidRequest(e) <==> !complete || (pe.Some? && IsInvalidRequest(pe.value)))
        && (IsNotSupported(e) <==> (complete &&
          (req.language !in providers
           || !providers[req.language].supportsProjectType(req.projectType)
           || (pe.Some? && IsNotSupported(pe.value)))))
    {
      match ProviderError(req)
      case Some(pe) => ClassesSurviveWrapping("get guidelines from provider", pe);
      case None =>
    }

    /**
     * With the Go provider registered for "go", a complete Go request succeeds
     * exactly when its project type is supported, and a failure is "not supported".
     */
    lemma GoRequests(req: GuidelineRequest)
      requires "go" in providers && providers["go"] == GoProvider()
      requires req.language == "go" && req.projectType != ""
      ensures GetGuidelines(req).Success? <==> GoGuidelines.SupportsProjectType(req.projectType)
      ensures GetGuidelines(req).Failure? ==> IsNotSupported(GetGuidelines(req).error)
    {
    }
  }
}
