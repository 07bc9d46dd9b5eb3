// What every run of analysis keeps, over failures, requeues, interruptions, imports and restarts.

module AnalysisLaws {
  import opened Text
  import opened AnalysisExecutor
  import opened AnalysisRuns

  // ---- one run -----------------------------------------------------------------------

  /** How many more changes a run can see when no claim may go beyond `max` attempts. */
  function Budget(max: nat, r: Run): int {
    match r.state
    case Pending => 2 * (max - r.attempts) + 1
    case Analyzing => 2 * (max - r.attempts) + 2
    case _ => 0
  }

  /** A failed run was failed by its executor, with that failure's code and flag, or cut off with an unknown outcome. */
  ghost predicate FailureFits(l: Life) {
    || (l.run.error == Some(OUTCOME_UNKNOWN) && l.run.submitted.None?)
    || (l.entered >= 1
        && exists f: Failure ::
             l.run.error == Some(ErrorCode(f)) && l.run.submitted == Some(SubmissionOccurred(ErrorCode(f))))
  }

  ghost predicate LifeOk(max: nat, l: Life) {
    var r := l.run;
    && r.attempts <= max
    && l.entered <= r.attempts
    && (r.state.Analyzing? && !l.claimEntered ==> l.entered < r.attempts)
    && (r.state.Analyzing? ==> r.attempts >= 1)
    && (r.state.Pending? ==> r.attempts < max)
    && (r.state.Analyzed? ==> r.result.Some? && l.answer == r.result)
    && (!r.state.Analyzed? ==> r.result.None?)
    && (r.state.Analyzed? ==> r.error.None? && r.submitted == Some(true))
    && (r.state.AnalysisFailed? ==> FailureFits(l))
    && (!Finished(r.state) ==> r.submitted.None? && r.error.None?)
    && (l.answer.Some? ==> l.claimEntered || l.imported)
    && r.version + Budget(max, r) <= 2 * max + 2
  }

  ghost predicate KindLegal(max: nat, l: Life, k: Kind) {
    match k
    case Claimed(_, m) => m <= max
    case Entered => l.run.state.Analyzing? && !l.claimEntered
    case Returned(_) => l.run.state.Analyzing? && l.claimEntered
    case Supplied(_) => l.run.state.Analyzing? && !l.claimEntered
    case Recorded(_, result) => l.answer == Some(result)
    case Requeued(_) => l.run.attempts < max
    case RecordedFailed(_, code) => l.entered >= 1 && exists f: Failure :: code == ErrorCode(f)
    case _ => true
  }

  /** Every transaction keeps a run in order, never revives a finished one, and uses up its budget. */
  lemma TurnKeepsLife(max: nat, l: Life, k: Kind)
    requires LifeOk(max, l) && KindLegal(max, l, k)
    ensures var m := Turn(l, k);
            && LifeOk(max, m) && m.run.id == l.run.id
            && (Finished(l.run.state) ==> m.run == l.run)
            && (m.run != l.run ==> Budget(max, m.run) < Budget(max, l.run) && m.run.version == l.run.version + 1)
            && l.entered <= m.entered
  {
    if k.RecordedFailed? {
      var f: Failure :| k.code == ErrorCode(f);
      CodesDiffer(f);
    }
  }

  // ---- all runs --------------------------------------------------------------------------

  ghost predicate EventLegal(max: nat, w: World, e: Event) {
    match e
    case Created(run) =>
      max >= 1 && run.state.Pending? && run.attempts == 0 && run.version == 1
      && run.result.None? && run.error.None? && run.submitted.None?
    case On(id, k) => id in w && KindLegal(max, w[id], k)
  }

  ghost predicate Inv(max: nat, w: World) {
    forall id :: id in w ==> w[id].run.id == id && LifeOk(max, w[id])
  }

  /** No run goes back: finished runs stay as they are, and every other change costs budget. */
  ghost predicate Onward(max: nat, w: World, v: World) {
    forall id :: id in w ==> id in v && LifeOnward(max, w[id], v[id])
  }

  predicate LifeOnward(max: nat, l: Life, m: Life) {
    && (Finished(l.run.state) ==> m.run == l.run)
    && (m.run == l.run || Budget(max, m.run) < Budget(max, l.run))
    && l.entered <= m.entered
  }

  lemma EventKeeps(max: nat, w: World, e: Event)
    requires Inv(max, w) && EventLegal(max, w, e)
    ensures Inv(max, Apply(w, e)) && Onward(max, w, Apply(w, e))
  {
    if e.On? {
      TurnKeepsLife(max, w[e.id], e.kind);
    }
    hide LifeOk, Turn;
  }

  ghost predicate LegalAll(max: nat, w: World, es: seq<Event>) {
    es == [] || (LegalAll(max, w, es[..|es| - 1]) && EventLegal(max, After(w, es[..|es| - 1]), es[|es| - 1]))
  }

  lemma {:induction false} LegalConcat(max: nat, w: World, es: seq<Event>, fs: seq<Event>)
    ensures LegalAll(max, w, es + fs) <==> LegalAll(max, w, es) && LegalAll(max, After(w, es), fs)
  {
    hide EventLegal, Apply;
    if fs == [] {
      assert es + fs == es;
    } else {
      var n := |fs| - 1;
      LegalConcat(max, w, es, fs[..n]);
      AfterConcat(w, es, fs[..n]);
      assert (es + fs)[..|es + fs| - 1] == es + fs[..n];
    }
  }

  lemma {:induction false} Kept(max: nat, w: World, es: seq<Event>)
    requires Inv(max, w) && LegalAll(max, w, es)
    ensures Inv(max, After(w, es)) && Onward(max, w, After(w, es))
  {
    hide EventLegal, Apply, Inv, Budget, LifeOnward;
    if es == [] {
      OnwardSelf(max, w);
    } else {
      var n := |es| - 1;
      Kept(max, w, es[..n]);
      EventKeeps(max, After(w, es[..n]), es[n]);
      OnwardTransitive(max, w, After(w, es[..n]), After(w, es));
    }
  }

  lemma OnwardSelf(max: nat, w: World)
    ensures Onward(max, w, w)
  {
  }

  lemma OnwardTransitive(max: nat, u: World, v: World, w: World)
    requires Onward(max, u, v) && Onward(max, v, w)
    ensures Onward(max, u, w)
  {
    forall id | id in u
      ensures id in w && LifeOnward(max, u[id], w[id])
    {
      assert LifeOnward(max, u[id], v[id]) && LifeOnward(max, v[id], w[id]);
    }
  }

  // ---- calls and runs ------------------------------------------------------------------------

  datatype Call =
    | Create(run: Run)
    | Execute(listed: Run, env: Env)
    | Import(id: string, maxAttempts: nat, result: string)

  predicate Possible(max: nat, c: Call) {
    match c
    case Create(run) =>
      max >= 1 && run.state.Pending? && run.attempts == 0 && run.version == 1
      && run.result.None? && run.error.None? && run.submitted.None?
    case Execute(_, env) => env.maxAttempts <= max
    case Import(_, m, _) => m <= max
  }

  function EventsOf(w: World, c: Call): seq<Event> {
    match c
    case Create(run) => [Created(run)]
    case Execute(listed, env) => Execution(w, listed, env).events
    case Import(id, m, result) => Importing(w, id, m, result).events
  }

  /** A call cut off by a crash after `survived` of its events. */
  datatype Step = Step(call: Call, survived: nat)

  function StepEvents(w: World, s: Step): seq<Event> {
    var es := EventsOf(w, s.call);
    if s.survived <= |es| then es[..s.survived] else es
  }

  function RunEvents(w: World, steps: seq<Step>): seq<Event>
    decreases |steps|
  {
    if steps == [] then []
    else StepEvents(w, steps[0]) + RunEvents(After(w, StepEvents(w, steps[0])), steps[1..])
  }

  lemma LegalOne(max: nat, w: World, e: Event)
    requires EventLegal(max, w, e)
    ensures LegalAll(max, w, [e])
  {
    hide EventLegal;
    assert [e][..0] == [];
  }

  lemma LegalTwo(max: nat, w: World, e: Event, f: Event, rest: seq<Event>)
    requires EventLegal(max, w, e) && EventLegal(max, Apply(w, e), f) && LegalAll(max, Apply(Apply(w, e), f), rest)
    ensures LegalAll(max, w, [e, f] + rest)
  {
    hide EventLegal, Apply;
    LegalOne(max, w, e);
    LegalOne(max, Apply(w, e), f);
    After1(w, e);
    After1(Apply(w, e), f);
    LegalConcat(max, w, [e], [f]);
    assert [e] + [f] == [e, f];
    AfterTwo(w, e, f, []);
    assert [e, f] + [] == [e, f];
    LegalConcat(max, w, [e, f], rest);
  }

  lemma ExecutingIsLegal(max: nat, w: World, claimed: Run, env: Env)
    requires claimed.id in w && w[claimed.id].run == claimed && claimed.state.Analyzing? && w[claimed.id].claimEntered
    requires w[claimed.id].entered >= 1
    requires env.maxAttempts <= max
    ensures LegalAll(max, w, Executing(claimed, env).events)
  {
    var id, v := claimed.id, claimed.version;
    match env.outcome {
      case Suggests(result) =>
        var e, f := On(id, Returned(result)), On(id, Recorded(v, result));
        LegalTwo(max, w, e, f, []);
        assert [e, f] + [] == [e, f];
      case Raises(e) =>
        var f := Classified(e);
        if claimed.attempts < env.maxAttempts {
          LegalOne(max, w, On(id, Requeued(v)));
        }
        LegalOne(max, w, On(id, RecordedFailed(v, ErrorCode(f))));
    }
  }

  lemma ClaimingIsLegal(max: nat, w: World, id: string, version: nat, env: Env)
    requires Inv(max, w) && env.maxAttempts <= max
    ensures LegalAll(max, w, Claiming(w, id, version, env).events)
  {
    var p := Claiming(w, id, version, env);
    if p.events != [] {
      var claim, enter := On(id, Claimed(version, env.maxAttempts)), On(id, Entered);
      var claimed := Turn(w[id], claim.kind).run;
      LegalOne(max, w, claim);
      if !env.inTransaction {
        var v := Apply(Apply(w, claim), enter);
        assert EventLegal(max, Apply(w, claim), enter);
        assert claimed.id == id && v[id].run == claimed && v[id].claimEntered && claimed.state.Analyzing?;
        hide Executing, EventLegal, Apply, Inv;
        ExecutingIsLegal(max, v, claimed, env);
        LegalTwo(max, w, claim, enter, Executing(claimed, env).events);
      }
    }
  }

  lemma ImportingIsLegal(max: nat, w: World, id: string, m: nat, result: string)
    requires Inv(max, w) && m <= max
    ensures LegalAll(max, w, Importing(w, id, m, result).events)
  {
    var es := Importing(w, id, m, result).events;
    if es != [] {
      var v := w[id].run.version;
      var claim, supply, record := On(id, Claimed(v, m)), On(id, Supplied(result)), On(id, Recorded(v + 1, result));
      assert es == [claim, supply] + [record];
      var u := Apply(Apply(w, claim), supply);
      assert EventLegal(max, w, claim) && EventLegal(max, Apply(w, claim), supply) && EventLegal(max, u, record);
      hide EventLegal, Apply, Inv;
      LegalOne(max, u, record);
      LegalTwo(max, w, claim, supply, [record]);
    }
  }

  lemma CallIsLegal(max: nat, w: World, c: Call)
    requires Inv(max, w) && Possible(max, c)
    ensures LegalAll(max, w, EventsOf(w, c))
  {
    match c {
      case Create(run) =>
        LegalOne(max, w, Created(run));
      case Import(id, m, result) =>
        hide Inv, Importing, LegalAll;
        ImportingIsLegal(max, w, id, m, result);
      case Execute(listed, env) =>
        hide Inv, Claiming;
        if listed.state.Analyzing? && listed.id in w {
          LegalOne(max, w, On(listed.id, Reset(listed.version)));
        }
        ClaimingIsLegal(max, w, listed.id, listed.version, env);
        if env.current.Some? && env.current.value in w {
          var current := w[env.current.value].run;
          ClaimingIsLegal(max, w, current.id, current.version, env);
        }
    }
  }

  lemma StepIsLegal(max: nat, w: World, s: Step)
    requires Inv(max, w) && Possible(max, s.call)
    ensures LegalAll(max, w, StepEvents(w, s))
  {
    hide Inv, LegalAll, EventsOf, Possible;
    var es := EventsOf(w, s.call);
    CallIsLegal(max, w, s.call);
    if s.survived <= |es| {
      assert es[..s.survived] + es[s.survived..] == es;
      LegalConcat(max, w, es[..s.survived], es[s.survived..]);
    }
  }

  lemma {:induction false} RunIsLegal(max: nat, w: World, steps: seq<Step>)
    requires Inv(max, w) && forall i :: 0 <= i < |steps| ==> Possible(max, steps[i].call)
    ensures LegalAll(max, w, RunEvents(w, steps))
    ensures Inv(max, After(w, RunEvents(w, steps))) && Onward(max, w, After(w, RunEvents(w, steps)))
    decreases |steps|
  {
    hide Inv, LegalAll, StepEvents, Possible, Onward, After;
    if steps == [] {
      LegalNone(max, w);
    } else {
      var es := StepEvents(w, steps[0]);
      var v := After(w, es);
      StepIsLegal(max, w, steps[0]);
      Kept(max, w, es);
      RunIsLegal(max, v, steps[1..]);
      LegalConcat(max, w, es, RunEvents(v, steps[1..]));
    }
    Kept(max, w, RunEvents(w, steps));
  }

  lemma LegalNone(max: nat, w: World)
    ensures LegalAll(max, w, [])
  {
  }

  // ---- main results -----------------------------------------------------------------------------

  /**
   * After any executions, imports, failures, interruptions, crashes and restarts, with any attempt limits up
   * to `max`: the executor has been entered at most `max` times for a run, a run is analyzed only with the
   * suggestion given for its last claim and failed with the code and flag of a failure, a pending run has an attempt
   * left as long as the limit stays at `max`, and the version counts the at most 2 * max + 1 changes.
   */
  lemma AttemptsAreBounded(max: nat, steps: seq<Step>, id: string)
    requires forall i :: 0 <= i < |steps| ==> Possible(max, steps[i].call)
    requires id in After(map[], RunEvents(map[], steps))
    ensures var l := After(map[], RunEvents(map[], steps))[id];
            && l.entered <= l.run.attempts <= max
            && (l.run.state.Analyzed? ==>
                l.run.result.Some? && l.answer == l.run.result && (l.claimEntered || l.imported))
            && (l.run.state.Pending? ==> l.run.attempts < max)
            && (l.run.state.AnalysisFailed? ==> FailureFits(l))
            && l.run.version <= 2 * max + 2
  {
    hide LegalAll, RunEvents, After, Possible, Onward;
    RunIsLegal(max, map[], steps);
    var w := After(map[], RunEvents(map[], steps));
    assert LifeOk(max, w[id]);
  }

  /** Between any two points of time a finished run stays as it is, and any other only uses up its budget. */
  lemma FinishedStays(max: nat, before: seq<Step>, after: seq<Step>, id: string)
    requires forall i :: 0 <= i < |before| ==> Possible(max, before[i].call)
    requires forall i :: 0 <= i < |after| ==> Possible(max, after[i].call)
    requires id in After(map[], RunEvents(map[], before))
    ensures var w := After(map[], RunEvents(map[], before));
            var v := After(w, RunEvents(w, after));
            id in v && LifeOnward(max, w[id], v[id])
  {
    hide LegalAll, RunEvents, After, Possible, LifeOnward, Inv;
    assert Inv(max, map[]) by { NothingIsOk(max); }
    RunIsLegal(max, map[], before);
    RunIsLegal(max, After(map[], RunEvents(map[], before)), after);
  }

  lemma NothingIsOk(max: nat)
    ensures Inv(max, map[])
  {
  }

  /** An interrupted claim is failed when its run comes up again, without entering the executor. */
  lemma InterruptedIsFailed(w: World, id: string, env: Env)
    requires id in w && w[id].run.id == id && w[id].run.state.Analyzing?
    ensures var p := Execution(w, w[id].run, env);
            var v := After(w, p.events);
            && id in v && v[id].run.state.AnalysisFailed? && v[id].run.error == Some(OUTCOME_UNKNOWN)
            && v[id].entered == w[id].entered && p.reply == Stands(v[id].run)
  {
    After1(w, On(id, Reset(w[id].run.version)));
  }

  /** A pending run can be taken up exactly when an attempt is left under the limit now in force. */
  lemma PendingMovesIff(w: World, id: string, env: Env)
    requires id in w && w[id].run.id == id && w[id].run.state.Pending?
    ensures var p := Execution(w, w[id].run, env);
            (p.events != [] <==> w[id].run.attempts < env.maxAttempts)
            && (p.events == [] ==> p.reply == Conflict)
  {
  }
}
