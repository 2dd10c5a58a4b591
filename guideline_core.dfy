/**
 * The guideline domain (pkg/core/types.go, pkg/core/errors.go): requests,
 * guidelines and rules, the four sentinel errors, and the two predicates that
 * classify an error by what it wraps.
 */
module GuidelineCore {
  import GoText

  /** What a client asks for; `options` is carried but not interpreted. */
  datatype GuidelineRequest = GuidelineRequest(language: string, projectType: string, options: map<string, string>)

  /** One coding rule; `priority` is a Go `int`, kept unbounded here. */
  datatype Rule = Rule(title: string, description: string, priority: int)

  datatype Guideline = Guideline(category: string, rules: seq<Rule>, examples: seq<string>, references: seq<string>)

  /**
   * An error value. The four sentinels are the package-level `errors.New`
   * values; `Other` is any error created elsewhere, distinct from every
   * sentinel whatever its text; `Wrapped` is `fmt.Errorf("<context>: %w", cause)`.
   */
  datatype Error =
    | InvalidRequest
    | LanguageNotSupported
    | ProjectTypeNotSupported
    | InternalServer
    | Other(text: string)
    | Wrapped(context: string, cause: Error)
  {
    /** `err.Error()`: a wrapped error's message ends with its cause's message. */
    function Message(): (m: string)
      ensures this.Wrapped? ==> GoText.HasSuffix(m, this.cause.Message())
    {
      match this
      case InvalidRequest => "invalid guideline request"
      case LanguageNotSupported => "programming language not supported"
      case ProjectTypeNotSupported => "project type not supported"
      case InternalServer => "internal server error"
      case Other(t) => t
      case Wrapped(c, e) => c + ": " + e.Message()
    }
  }

  predicate IsSentinel(e: Error) {
    e.InvalidRequest? || e.LanguageNotSupported? || e.ProjectTypeNotSupported? || e.InternalServer?
  }

  /** The chain `errors.Unwrap` walks: the error itself, then each wrapped cause in turn, down to the innermost. */
  function Chain(err: Error): (c: seq<Error>)
    ensures |c| >= 1 && c[0] == err && c[|c| - 1] == Root(err)
  {
    if err.Wrapped? then [err] + Chain(err.cause) else [err]
  }

  /** `errors.Is(err, target)`: true exactly when `target` occurs on the error's unwrap chain. */
  function Is(err: Error, target: Error): (b: bool)
    ensures b <==> target in Chain(err)
  {
    err == target || (err.Wrapped? && Is(err.cause, target))
  }

  /** The innermost cause. */
  function Root(err: Error): (r: Error)
    ensures !r.Wrapped?
  {
    if err.Wrapped? then Root(err.cause) else err
  }

  /** Against a sentinel, `errors.Is` asks exactly what the innermost cause is. */
  lemma {:induction false} IsIffRoot(err: Error, target: Error)
    requires IsSentinel(target)
    ensures Is(err, target) <==> Root(err) == target
  {
    if err.Wrapped? {
      IsIffRoot(err.cause, target);
    }
  }

  /** However deeply an error is wrapped, its message ends with the innermost cause's message. */
  lemma {:induction false} MessageEndsWithRoot(err: Error)
    ensures GoText.HasSuffix(err.Message(), Root(err).Message())
  {
    if err.Wrapped? {
      MessageEndsWithRoot(err.cause);
      GoText.HasSuffixTransitive(err.Message(), err.cause.Message(), Root(err).Message());
    }
  }

  /** Wrapping adds the context in front of the cause's message. */
  lemma WrappedMessage(context: string, cause: Error)
    ensures Wrapped(context, cause).Message() == context + ": " + cause.Message()
  {
  }

  /** `IsNotSupported`: the language or the project type is not supported, however deeply wrapped. */
  function IsNotSupported(err: Error): (b: bool)
    ensures b <==> Root(err) == LanguageNotSupported || Root(err) == ProjectTypeNotSupported
  {
    IsIffRoot(err, LanguageNotSupported);
    IsIffRoot(err, ProjectTypeNotSupported);
    Is(err, LanguageNotSupported) || Is(err, ProjectTypeNotSupported)
  }

  /** `IsInvalidRequest`: the request was invalid, however deeply wrapped. */
  function IsInvalidRequest(err: Error): (b: bool)
    ensures b <==> Root(err) == InvalidRequest
  {
    IsIffRoot(err, InvalidRequest);
    Is(err, InvalidRequest)
  }

  /** No error is both "not supported" and "invalid request". */
  lemma ClassesExclusive(err: Error)
    ensures !(IsNotSupported(err) && IsInvalidRequest(err))
  {
  }

  /** Wrapping never changes the classification. */
  lemma {:induction false} ClassesSurviveWrapping(context: string, err: Error)
    ensures IsNotSupported(Wrapped(context, err)) == IsNotSupported(err)
    ensures IsInvalidRequest(Wrapped(context, err)) == IsInvalidRequest(err)
  {
    assert Root(Wrapped(context, err)) == Root(err);
  }

  /** The internal-server sentinel, and anything that wraps it, is in neither class. */
  lemma {:induction false} InternalServerUnclassified(err: Error)
    requires Root(err) == InternalServer
    ensures !IsNotSupported(err) && !IsInvalidRequest(err)
  {
  }

  /** An error made elsewhere is in neither class, even when its text matches a sentinel's. */
  lemma OtherUnclassified(text: string)
    ensures !IsNotSupported(Other(text)) && !IsInvalidRequest(Other(text))
  {
  }
}
