// What one execution or import leaves in the store, said exception by exception and code by code.

module AnalysisOutcomes {
  import opened Text
  import opened AnalysisExecutor
  import opened AnalysisRuns

  /** The code a run that is failed for good carries, by the class of what the executor raised. */
  function CodeOf(e: Exception): string {
    match e
    case LifecycleNotConfigured => "PROVIDER_NOT_CONFIGURED"
    case LifecycleModelCapability => "PROVIDER_MODEL_CAPABILITY_MISSING"
    case ProviderAuth => "PROVIDER_AUTH"
    case ProviderRateLimited => "PROVIDER_RATE_LIMITED"
    case ProviderModelUnavailable => "PROVIDER_MODEL_UNAVAILABLE"
    case ProviderUnavailable => "PROVIDER_UNAVAILABLE"
    case ProviderPendingTimeout => "PROVIDER_UNAVAILABLE"
    case ProviderInvalidResponse => "PROVIDER_INVALID_RESPONSE"
    case ProviderTruncated => "PROVIDER_INVALID_RESPONSE"
    case ProviderEmpty => "PROVIDER_INVALID_RESPONSE"
    case ProviderRefusal => "PROVIDER_INVALID_RESPONSE"
    case ProviderFailedError => "PROVIDER_FAILED"
    case SuggestionPreparationFailed => "PREPARATION_FAILED"
    case SuggestionPreparationUnavailable => "PREPARATION_UNAVAILABLE"
    case SuggestionInvalid => "PREPARATION_UNAVAILABLE"
    case AnalysisInvalid => "PREPARATION_UNAVAILABLE"
    case AnalysisNotFound => "ANALYSIS_FAILED"
    case AnalysisUnavailable => "ANALYSIS_FAILED"
    case AnalysisPreparationFailed => "ANALYSIS_FAILED"
    case Other => "ANALYSIS_FAILED"
  }

  /** Raised by the provider's adapter alone. */
  predicate FromTheProvider(e: Exception) {
    || e.ProviderAuth? || e.ProviderRateLimited? || e.ProviderModelUnavailable? || e.ProviderUnavailable?
    || e.ProviderPendingTimeout? || e.ProviderInvalidResponse? || e.ProviderTruncated? || e.ProviderEmpty?
    || e.ProviderRefusal? || e.ProviderFailedError?
  }

  /** What the run is after the executor was entered for it. */
  function Outcome(run: Run, env: Env): Run {
    var attempted := run.(state := Analyzing, attempts := run.attempts + 1, version := run.version + 1);
    match env.outcome
    case Suggests(result) =>
      attempted.(state := Analyzed, version := run.version + 2, error := None, result := Some(result),
                 submitted := Some(true))
    case Raises(e) =>
      if env.interrupted then attempted
      else if (e.ProviderRateLimited? || e.ProviderUnavailable? || e.ProviderPendingTimeout?)
              && run.attempts + 1 < env.maxAttempts
      then attempted.(state := Pending, version := run.version + 2)
      else
        attempted.(state := AnalysisFailed, version := run.version + 2, error := Some(CodeOf(e)), result := None,
                   submitted := Some(FromTheProvider(e)))
  }

  lemma FailureHasItsCode(e: Exception)
    ensures ErrorCode(Classified(e)) == CodeOf(e) && SubmissionOccurred(CodeOf(e)) == FromTheProvider(e)
    ensures Retryable(Classified(e)) <==> e.ProviderRateLimited? || e.ProviderUnavailable? || e.ProviderPendingTimeout?
  {
    CodesDiffer(Classified(e));
    hide SubmissionOccurred;
  }

  lemma ExecutingDecides(w: World, run: Run, claimed: Run, env: Env)
    requires claimed.id in w && w[claimed.id].run == claimed
    requires claimed == run.(state := Analyzing, attempts := run.attempts + 1, version := run.version + 1)
    ensures var v := After(w, Executing(claimed, env).events);
            && v.Keys == w.Keys && v[run.id].run == Outcome(run, env)
            && (forall id :: id in w && id != run.id ==> v[id] == w[id])
            && Executing(claimed, env).reply == Stands(v[run.id].run)
  {
    var id, v := claimed.id, claimed.version;
    match env.outcome {
      case Suggests(result) =>
        AfterPair(w, On(id, Returned(result)), On(id, Recorded(v, result)));
      case Raises(e) =>
        FailureHasItsCode(e);
        hide ErrorCode, Classified, SubmissionOccurred, Retryable, CodeOf, FromTheProvider;
        AfterNone(w);
        After1(w, On(id, Requeued(v)));
        After1(w, On(id, RecordedFailed(v, CodeOf(e))));
    }
  }

  /**
   * A whole execution of a pending run, as it is stored, with an attempt left. A suggestion is recorded; the run is
   * pending again if and only if the provider was rate limited, unavailable or too slow and one more attempt is left;
   * and otherwise it is failed with the code of what was raised. No other run changes.
   */
  lemma ExecutionDecides(w: World, listed: Run, env: Env)
    requires listed.id in w && w[listed.id].run == listed && listed.state.Pending?
    requires listed.attempts + 1 <= env.maxAttempts && !env.inTransaction
    ensures var p := Execution(w, listed, env);
            var v := After(w, p.events);
            && v.Keys == w.Keys && (forall id :: id in w && id != listed.id ==> v[id] == w[id])
            && v[listed.id].run == Outcome(listed, env) && p.reply == Stands(v[listed.id].run)
            && v[listed.id].entered == w[listed.id].entered + 1
            && (env.outcome.Raises? && !env.interrupted ==>
                  var e := env.outcome.error;
                  (v[listed.id].run.state.Pending? <==>
                    && listed.attempts + 1 < env.maxAttempts
                    && (e.ProviderRateLimited? || e.ProviderUnavailable? || e.ProviderPendingTimeout?)))
  {
    var id := listed.id;
    var claim, enter := On(id, Claimed(listed.version, env.maxAttempts)), On(id, Entered);
    var claimed := Turn(w[id], claim.kind).run;
    var u := Apply(Apply(w, claim), enter);
    AfterTwo(w, claim, enter, Executing(claimed, env).events);
    assert u.Keys == w.Keys && u[id].entered == w[id].entered + 1;
    EnteredStays(u, claimed, env);
    hide Executing, CodeOf, FromTheProvider;
    ExecutingDecides(u, listed, claimed, env);
  }

  lemma EnteredStays(w: World, claimed: Run, env: Env)
    requires claimed.id in w && w[claimed.id].run == claimed
    ensures var v := After(w, Executing(claimed, env).events);
            claimed.id in v && v[claimed.id].entered == w[claimed.id].entered
  {
    var id, v := claimed.id, claimed.version;
    match env.outcome {
      case Suggests(result) =>
        AfterPair(w, On(id, Returned(result)), On(id, Recorded(v, result)));
      case Raises(e) =>
        var f := Classified(e);
        hide ErrorCode, Classified, SubmissionOccurred, Retryable;
        AfterNone(w);
        After1(w, On(id, Requeued(v)));
        After1(w, On(id, RecordedFailed(v, ErrorCode(f))));
    }
  }

  /**
   * An execution that enters nothing: of a finished run, of one that has changed since it was listed, of one without an
   * attempt left, and of an interrupted one, which is failed with an unknown outcome.
   */
  lemma NothingIsEntered(w: World, listed: Run, env: Env)
    ensures var p := Execution(w, listed, env);
            var v := After(w, p.events);
            && (listed.state.Analyzed? || listed.state.AnalysisFailed? ==> v == w && p.reply == Stands(listed))
            && (listed.state.Pending? ==>
                  (listed.id !in w || !w[listed.id].run.state.Pending? || w[listed.id].run.version != listed.version
                   || w[listed.id].run.attempts >= env.maxAttempts) ==> v == w && p.reply == Conflict)
            && (listed.state.Analyzing? && listed.id in w && w[listed.id].run == listed ==>
                  var r := listed.(state := AnalysisFailed, version := listed.version + 1,
                                   error := Some("ANALYSIS_OUTCOME_UNKNOWN"));
                  && v == w[listed.id := w[listed.id].(run := r)] && p.reply == Stands(r))
  {
    AfterNone(w);
    After1(w, On(listed.id, Reset(listed.version)));
    hide Executing;
  }

  /** An import gives a pending run with an attempt left the suggestion at hand, and changes nothing otherwise. */
  lemma ImportDecides(w: World, id: string, maxAttempts: nat, result: string)
    ensures var p := Importing(w, id, maxAttempts, result);
            var v := After(w, p.events);
            if id in w && w[id].run.state.Pending? && w[id].run.attempts < maxAttempts then
              var r := w[id].run;
              && v.Keys == w.Keys && (forall other :: other in w && other != id ==> v[other] == w[other])
              && v[id].run == r.(state := Analyzed, attempts := r.attempts + 1, version := r.version + 2, error := None,
                                 result := Some(result), submitted := Some(true))
              && v[id].entered == w[id].entered && p.reply == Stands(v[id].run)
            else v == w && !p.reply.Stands?
  {
    AfterNone(w);
    if id in w && w[id].run.state.Pending? && w[id].run.attempts < maxAttempts {
      var n := w[id].run.version;
      var claim, supply := On(id, Claimed(n, maxAttempts)), On(id, Supplied(result));
      var record := On(id, Recorded(n + 1, result));
      AfterTwo(w, claim, supply, [record]);
      assert [claim, supply] + [record] == [claim, supply, record];
      After1(Apply(Apply(w, claim), supply), record);
    }
  }

  // ---- the executor's obstacles ------------------------------------------------------------------

  /** What stops an execution before the provider's adapter, in the order it is met; `None` where nothing does. */
  function Obstacles(s: Surroundings): seq<Option<Exception>> {
    [ if s.configured then None else Some(LifecycleNotConfigured),
      if s.capabilities.Some? then Raised(s.capabilities.value) else None,
      if s.capabilities.Some? && s.capabilities.value.Gives? && "vision_input" !in s.capabilities.value.value
      then Some(LifecycleModelCapability) else None,
      Raised(s.media),
      if s.media == Gives(false) then Some(SuggestionPreparationUnavailable) else None,
      Raised(s.location),
      if s.location.Gives? && s.location.value != Some(Location(true, true))
      then Some(SuggestionPreparationUnavailable) else None,
      Raised(s.library),
      if s.library == Gives(false) then Some(SuggestionPreparationUnavailable) else None,
      Raised(s.supported),
      if s.supported == Gives(false) then Some(SuggestionInvalid) else None,
      match Raised(s.prepared)
      case Some(AnalysisNotFound) => Some(SuggestionPreparationUnavailable)
      case Some(AnalysisUnavailable) => Some(SuggestionPreparationUnavailable)
      case Some(AnalysisInvalid) => Some(SuggestionPreparationUnavailable)
      case Some(AnalysisPreparationFailed) => Some(SuggestionPreparationFailed)
      case other => other ]
  }

  function Raised<T>(r: AnalysisExecutor.Reply<T>): Option<Exception> {
    if r.Throws? then Some(r.error) else None
  }

  /** The first obstacle is what an execution raises; without one the adapter is entered, and it decides. */
  lemma FirstObstacleDecides(s: Surroundings)
    ensures var all := Obstacles(s);
            && (forall i :: 0 <= i < |all| && all[i].Some? && (forall k :: 0 <= k < i ==> all[k].None?) ==>
                  Performed(s) == Ending.Raised(all[i].value, false))
            && ((forall i :: 0 <= i < |all| ==> all[i].None?) ==>
                  Performed(s) == match s.suggestion
                                  case Gives(result) => Suggested(result)
                                  case Throws(e) => Ending.Raised(e, true))
  {
    var all := Obstacles(s);
    forall i | 0 <= i < |all| && all[i].Some? && forall k :: 0 <= k < i ==> all[k].None?
      ensures Performed(s) == Ending.Raised(all[i].value, false)
    {
      assert i > 0 ==> all[0].None?;
      assert i > 1 ==> all[1].None?;
      assert i > 2 ==> all[2].None?;
      assert i > 3 ==> all[3].None?;
      assert i > 4 ==> all[4].None?;
      assert i > 5 ==> all[5].None?;
      assert i > 6 ==> all[6].None?;
      assert i > 7 ==> all[7].None?;
      assert i > 8 ==> all[8].None?;
      assert i > 9 ==> all[9].None?;
      assert i > 10 ==> all[10].None?;
    }
    if forall i :: 0 <= i < |all| ==> all[i].None? {
      assert all[0].None? && all[1].None? && all[2].None? && all[3].None? && all[4].None? && all[5].None?;
      assert all[6].None? && all[7].None? && all[8].None? && all[9].None? && all[10].None? && all[11].None?;
    }
  }
}
