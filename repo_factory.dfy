/**
 * Backend selection (pkg/repo/config.go). The vector backend is opaque: it is
 * represented only by whether creating it fails (`vectorNew`) and by whether
 * initialising it with a list of core rules fails (`vectorInit`).
 */
module RepoFactory {
  import opened Results
  import GoText
  import StaticRepo

  /** The repository section of the configuration. */
  datatype Config = Config(repoType: string, rules: seq<StaticRepo.Rule>)

  /** The chosen backend; a vector backend is known only by the rules it was initialised with. */
  datatype Backend =
    | StaticBackend(repo: StaticRepo.Repository)
    | VectorBackend(initialRules: seq<StaticRepo.CoreRule>)

  datatype FactoryError = CreateFailed(cause: string) | InitFailed(cause: string) | UnknownType(repoType: string) {
    /** The error text: it ends with the backend's own error, or with the type that was not recognised. */
    function Message(): (m: string)
      ensures !this.UnknownType? ==> GoText.HasSuffix(m, this.cause)
      ensures this.UnknownType? ==> GoText.HasSuffix(m, this.repoType)
    {
      match this
      case CreateFailed(e) => "failed to create vector repository: " + e
      case InitFailed(e) => "failed to initialize vector repository: " + e
      case UnknownType(t) => "unknown repository type: " + t
    }
  }

  /** Every configured rule, converted, in configuration order. */
  function ConvertAll(rules: seq<StaticRepo.Rule>): seq<StaticRepo.CoreRule>
    decreases |rules|
  {
    if rules == [] then [] else ConvertAll(rules[..|rules| - 1]) + [StaticRepo.ConvertRule(rules[|rules| - 1])]
  }

  /** `ConvertAll` is the rule-by-rule conversion: same length, same positions. */
  lemma {:induction false} ConvertAllPointwise(rules: seq<StaticRepo.Rule>)
    ensures |ConvertAll(rules)| == |rules|
    ensures forall i :: 0 <= i < |rules| ==> ConvertAll(rules)[i] == StaticRepo.ConvertRule(rules[i])
    decreases |rules|
  {
    if rules != [] {
      var init := rules[..|rules| - 1];
      ConvertAllPointwise(init);
      assert forall i :: 0 <= i < |init| ==> init[i] == rules[i];
    }
  }

  /** `repo.New`: a switch on the configured repository type. */
  method New(cfg: Config, vectorNew: Option<string>, vectorInit: seq<StaticRepo.CoreRule> -> Option<string>)
    returns (r: Result<Backend, FactoryError>)
    ensures cfg.repoType == "static" || cfg.repoType == "" ==>
      r == Success(StaticBackend(StaticRepo.Repository(cfg.rules)))
    ensures cfg.repoType == "vector" && vectorNew.Some? ==> r == Failure(CreateFailed(vectorNew.value))
    ensures cfg.repoType == "vector" && vectorNew.None? ==>
      r == match vectorInit(ConvertAll(cfg.rules))
        case Some(e) => Failure(InitFailed(e))
        case None => Success(VectorBackend(ConvertAll(cfg.rules)))
    ensures cfg.repoType !in {"static", "", "vector"} ==> r == Failure(UnknownType(cfg.repoType))
  {
    match cfg.repoType
    case "static" => r := Success(StaticBackend(StaticRepo.Repository(cfg.rules)));
    case "" => r := Success(StaticBackend(StaticRepo.Repository(cfg.rules)));
    case "vector" =>
      if vectorNew.Some? {
        return Failure(CreateFailed(vectorNew.value));
      }
      var rules: seq<StaticRepo.CoreRule> := [];
      for i := 0 to |cfg.rules|
        invariant rules == ConvertAll(cfg.rules[..i])
      {
        assert cfg.rules[..i + 1][..i] == cfg.rules[..i];
        rules := rules + [StaticRepo.ConvertRule(cfg.rules[i])];
      }
      assert cfg.rules[..|cfg.rules|] == cfg.rules;
      var err := vectorInit(rules);
      if err.Some? {
        return Failure(InitFailed(err.value));
      }
      r := Success(VectorBackend(rules));
    case _ => r := Failure(UnknownType(cfg.repoType));
  }
}
