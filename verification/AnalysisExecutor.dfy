// The automatic executor: what it asks before it enters the provider's adapter, and how its failures are classified.

module AnalysisExecutor {
  import opened Text

  // ---- failures ----------------------------------------------------------------------

  datatype Failure =
    | NotConfigured | CapabilityMissing | Auth | RateLimited | ModelUnavailable | Unavailable | InvalidResponse
    | ProviderFailed | PreparationFailed | PreparationUnavailable | Unexpected

  function ErrorCode(f: Failure): string {
    match f
    case NotConfigured => "PROVIDER_NOT_CONFIGURED"
    case CapabilityMissing => "PROVIDER_MODEL_CAPABILITY_MISSING"
    case Auth => "PROVIDER_AUTH"
    case RateLimited => "PROVIDER_RATE_LIMITED"
    case ModelUnavailable => "PROVIDER_MODEL_UNAVAILABLE"
    case Unavailable => "PROVIDER_UNAVAILABLE"
    case InvalidResponse => "PROVIDER_INVALID_RESPONSE"
    case ProviderFailed => "PROVIDER_FAILED"
    case PreparationFailed => "PREPARATION_FAILED"
    case PreparationUnavailable => "PREPARATION_UNAVAILABLE"
    case Unexpected => "ANALYSIS_FAILED"
  }

  predicate Retryable(f: Failure) {
    f.RateLimited? || f.Unavailable?
  }

  const SUBMISSION_ERROR_CODES := {
    "PROVIDER_AUTH", "PROVIDER_RATE_LIMITED", "PROVIDER_MODEL_UNAVAILABLE", "PROVIDER_UNAVAILABLE",
    "PROVIDER_INVALID_RESPONSE", "PROVIDER_FAILED"}

  /** `_provider_submission_occurred`, from the code alone. */
  predicate SubmissionOccurred(code: string) {
    code in SUBMISSION_ERROR_CODES
  }

  const OUTCOME_UNKNOWN := "ANALYSIS_OUTCOME_UNKNOWN"

  // ---- exceptions ------------------------------------------------------------------------

  /** What `execute` can raise, by class; `Other` is any class not named here. */
  datatype Exception =
    | LifecycleNotConfigured | LifecycleModelCapability
    | SuggestionPreparationUnavailable | SuggestionPreparationFailed | SuggestionInvalid
    | AnalysisNotFound | AnalysisUnavailable | AnalysisPreparationFailed | AnalysisInvalid
    | ProviderAuth | ProviderRateLimited | ProviderModelUnavailable | ProviderUnavailable | ProviderPendingTimeout
    | ProviderInvalidResponse | ProviderTruncated | ProviderEmpty | ProviderRefusal | ProviderFailedError
    | Other

  /** The classes only the provider's adapter raises. */
  predicate OfProvider(e: Exception) {
    e.ProviderAuth? || e.ProviderRateLimited? || e.ProviderModelUnavailable? || e.ProviderUnavailable?
    || e.ProviderPendingTimeout? || e.ProviderInvalidResponse? || e.ProviderTruncated? || e.ProviderEmpty?
    || e.ProviderRefusal? || e.ProviderFailedError?
  }

  /** `_classify_failure`: the first class that fits, subclasses included. */
  function Classified(e: Exception): Failure {
    match e
    case LifecycleNotConfigured => NotConfigured
    case LifecycleModelCapability => CapabilityMissing
    case ProviderAuth => Auth
    case ProviderRateLimited => RateLimited
    case ProviderModelUnavailable => ModelUnavailable
    case ProviderUnavailable | ProviderPendingTimeout => Unavailable
    case ProviderInvalidResponse | ProviderTruncated | ProviderEmpty | ProviderRefusal => InvalidResponse
    case ProviderFailedError => ProviderFailed
    case SuggestionPreparationFailed => PreparationFailed
    case SuggestionPreparationUnavailable | SuggestionInvalid | AnalysisInvalid => PreparationUnavailable
    case _ => Unexpected
  }

  // ---- the executor's body -----------------------------------------------------------------

  /** What a call into another component comes back with. */
  datatype Reply<T> = Gives(value: T) | Throws(error: Exception)

  datatype Location = Location(sameMedia: bool, available: bool)

  /** The answers one execution gets; `capabilities` is `None` when no reader is set. */
  datatype Surroundings = Surroundings(
    configured: bool, capabilities: Option<Reply<set<string>>>, media: Reply<bool>, location: Reply<Option<Location>>,
    library: Reply<bool>, supported: Reply<bool>, prepared: Reply<string>, suggestion: Reply<string>)

  /** How an execution ends, and whether the provider's adapter was entered. */
  datatype Ending = Suggested(result: string) | Raised(error: Exception, entered: bool)

  const VISION := "vision_input"

  /** The preparer's errors are raised again as errors of the suggestion. */
  function Rethrown(e: Exception): Exception {
    match e
    case AnalysisNotFound | AnalysisUnavailable | AnalysisInvalid => SuggestionPreparationUnavailable
    case AnalysisPreparationFailed => SuggestionPreparationFailed
    case _ => e
  }

  /** `AutomaticImportedMediaSuggestionExecutor.execute`. */
  function Performed(s: Surroundings): Ending {
    if !s.configured then Raised(LifecycleNotConfigured, false)
    else if s.capabilities.Some? && s.capabilities.value.Throws? then Raised(s.capabilities.value.error, false)
    else if s.capabilities.Some? && VISION !in s.capabilities.value.value then Raised(LifecycleModelCapability, false)
    else if s.media.Throws? then Raised(s.media.error, false)
    else if !s.media.value then Raised(SuggestionPreparationUnavailable, false)
    else if s.location.Throws? then Raised(s.location.error, false)
    else if s.location.value.None? || !s.location.value.value.sameMedia
    then Raised(SuggestionPreparationUnavailable, false)
    else if !s.location.value.value.available then Raised(SuggestionPreparationUnavailable, false)
    else if s.library.Throws? then Raised(s.library.error, false)
    else if !s.library.value then Raised(SuggestionPreparationUnavailable, false)
    else if s.supported.Throws? then Raised(s.supported.error, false)
    else if !s.supported.value then Raised(SuggestionInvalid, false)
    else if s.prepared.Throws? then Raised(Rethrown(s.prepared.error), false)
    else
      match s.suggestion
      case Gives(result) => Suggested(result)
      case Throws(e) => Raised(e, true)
  }

  /** Only the adapter raises the provider's errors. */
  predicate Separate(s: Surroundings) {
    && (s.capabilities.Some? && s.capabilities.value.Throws? ==> !OfProvider(s.capabilities.value.error))
    && (s.media.Throws? ==> !OfProvider(s.media.error))
    && (s.location.Throws? ==> !OfProvider(s.location.error))
    && (s.library.Throws? ==> !OfProvider(s.library.error))
    && (s.supported.Throws? ==> !OfProvider(s.supported.error))
    && (s.prepared.Throws? ==> !OfProvider(s.prepared.error))
  }

  lemma CodesDiffer(f: Failure)
    ensures SubmissionOccurred(ErrorCode(f)) <==>
            f.Auth? || f.RateLimited? || f.ModelUnavailable? || f.Unavailable? || f.InvalidResponse?
            || f.ProviderFailed?
    ensures ErrorCode(f) != OUTCOME_UNKNOWN
  {
    assert |"PROVIDER_AUTH"| == 13 && |"PROVIDER_RATE_LIMITED"| == 21 && |"PROVIDER_MODEL_UNAVAILABLE"| == 26;
    assert |"PROVIDER_UNAVAILABLE"| == 20 && |"PROVIDER_INVALID_RESPONSE"| == 25 && |"PROVIDER_FAILED"| == 15;
    assert |ErrorCode(NotConfigured)| == 23 && |ErrorCode(CapabilityMissing)| == 33
           && |ErrorCode(PreparationFailed)| == 18;
    assert |ErrorCode(PreparationUnavailable)| == 23 && |ErrorCode(Unexpected)| == 15 && |OUTCOME_UNKNOWN| == 24;
    assert ErrorCode(Unexpected)[0] == 'A' && "PROVIDER_FAILED"[0] == 'P';
  }

  /**
   * The recorded code says that the provider was reached if and only if its adapter was entered and raised one of the
   * provider's own errors; an adapter that raises anything else is entered and recorded as not reached. What is retried
   * has entered it.
   */
  lemma CodeTellsTheProvider(s: Surroundings)
    requires Separate(s) && Performed(s).Raised?
    ensures var r := Performed(s);
            && (SubmissionOccurred(ErrorCode(Classified(r.error))) <==> r.entered && OfProvider(r.error))
            && (Retryable(Classified(r.error)) ==> r.entered)
            && (r.entered <==>
                s.suggestion == Throws(r.error) && Performed(s.(suggestion := Gives(""))) == Suggested(""))
  {
    CodesDiffer(Classified(Performed(s).error));
    hide ErrorCode, SubmissionOccurred;
  }
}
