/**
 * The exception hierarchy of the tool (src/gitai/utils/exceptions.py) as an
 * error kind with a parent relation, together with the few built-in Python
 * exceptions that the modelled code raises or catches.
 */
module Errors {
  import opened Wrappers

  datatype Kind =
    | GitAI
    | GitAnalysis | NoStagedChanges | InvalidRepository | GitOperation
    | Template | TemplateNotFound | TemplateRender | TemplateValidation
    | Provider | ProviderUnavailable | ProviderConfig | GenerationTimeout
    | Configuration | InvalidConfig | MissingConfig | ConfigValidation
    // built-in exceptions outside the GitAI hierarchy
    | ValueError | KeyError | TypeError | OtherError

  /** A raised exception: its class and str(exception). */
  datatype Error = Error(kind: Kind, message: string)

  /** The direct base class inside the GitAI hierarchy. */
  function Parent(k: Kind): Option<Kind>
  {
    match k
    case GitAnalysis | Template | Provider | Configuration => Some(GitAI)
    case NoStagedChanges | InvalidRepository | GitOperation => Some(GitAnalysis)
    case TemplateNotFound | TemplateRender | TemplateValidation => Some(Template)
    case ProviderUnavailable | ProviderConfig | GenerationTimeout => Some(Provider)
    case InvalidConfig | MissingConfig | ConfigValidation => Some(Configuration)
    case _ => None
  }

  function Depth(k: Kind): nat
  {
    match k
    case GitAI => 1
    case GitAnalysis | Template | Provider | Configuration => 2
    case NoStagedChanges | InvalidRepository | GitOperation => 3
    case TemplateNotFound | TemplateRender | TemplateValidation => 3
    case ProviderUnavailable | ProviderConfig | GenerationTimeout => 3
    case InvalidConfig | MissingConfig | ConfigValidation => 3
    case _ => 0
  }

  /** isinstance: k is the class c or one of its subclasses. */
  predicate IsA(k: Kind, c: Kind)
    decreases Depth(k)
  {
    k == c || (Parent(k).Some? && Depth(Parent(k).value) < Depth(k) && IsA(Parent(k).value, c))
  }

  /** Every GitAI-hierarchy error is an instance of GitAIError; built-in errors are not. */
  lemma HierarchyRoot(k: Kind)
    ensures IsA(k, GitAI) <==> Depth(k) > 0
  {
    if Depth(k) == 3 {
      assert IsA(Parent(k).value, GitAI);
    }
  }

  function Raise<T>(k: Kind, message: string): Result<T, Error>
  {
    Err(Error(k, message))
  }
}
