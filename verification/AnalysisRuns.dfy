// Durable analysis runs: versioned claims, one executor call per claim, bounded attempts.

module AnalysisRuns {
  import opened Text
  import opened AnalysisExecutor

  datatype RunState = Pending | Analyzing | Analyzed | AnalysisFailed

  predicate Finished(s: RunState) {
    s.Analyzed? || s.AnalysisFailed?
  }

  datatype Run = Run(
    id: string, media: string, createdAt: int, state: RunState, attempts: nat, version: nat,
    error: Option<string>, result: Option<string>, submitted: Option<bool>)

  /**
   * A run and what has happened for it: how often the executor was entered, whether it was for the latest
   * claim, and the suggestion that claim has been given, by the executor or by an import.
   */
  datatype Life = Life(run: Run, entered: nat, claimEntered: bool, answer: Option<string>, imported: bool)

  type World = map<string, Life>

  // ---- repository transactions and executor calls ---------------------------------------

  /** `version` is the one the caller expects; a transaction that finds another changes nothing. */
  datatype Kind =
    | Claimed(version: nat, maxAttempts: nat)
    | Entered
    | Returned(result: string)
    | Supplied(result: string)
    | Requeued(version: nat)
    | Recorded(version: nat, result: string)
    | RecordedFailed(version: nat, code: string)
    | Reset(version: nat)

  datatype Event = Created(run: Run) | On(id: string, kind: Kind)

  function Turn(l: Life, k: Kind): Life {
    var r := l.run;
    match k
    case Claimed(v, max) =>
      if r.state.Pending? && r.version == v && r.attempts + 1 <= max
      then Life(r.(state := Analyzing, attempts := r.attempts + 1, version := v + 1), l.entered, false, None, false)
      else l
    case Entered => l.(entered := l.entered + 1, claimEntered := true)
    case Returned(result) => l.(answer := Some(result))
    case Supplied(result) => l.(answer := Some(result), imported := true)
    case Requeued(v) =>
      if r.state.Analyzing? && r.version == v then l.(run := r.(state := Pending, version := v + 1)) else l
    case Recorded(v, result) =>
      if r.state.Analyzing? && r.version == v
      then l.(run := r.(state := Analyzed, version := v + 1, error := None, result := Some(result),
                        submitted := Some(true)))
      else l
    case RecordedFailed(v, code) =>
      if r.state.Analyzing? && r.version == v
      then l.(run := r.(state := AnalysisFailed, version := v + 1, error := Some(code), result := None,
                        submitted := Some(SubmissionOccurred(code))))
      else l
    case Reset(v) =>
      if r.state.Analyzing? && r.version == v
      then l.(run := r.(state := AnalysisFailed, version := v + 1, error := Some(OUTCOME_UNKNOWN))) else l
  }

  function Apply(w: World, e: Event): World {
    match e
    case Created(run) => if run.id in w then w else w[run.id := Life(run, 0, false, None, false)]
    case On(id, k) => if id in w then w[id := Turn(w[id], k)] else w
  }

  function After(w: World, es: seq<Event>): World {
    if es == [] then w else Apply(After(w, es[..|es| - 1]), es[|es| - 1])
  }

  lemma {:induction false} AfterConcat(w: World, es: seq<Event>, fs: seq<Event>)
    ensures After(w, es + fs) == After(After(w, es), fs)
  {
    hide Apply;
    if fs == [] {
      assert es + fs == es;
    } else {
      AfterConcat(w, es, fs[..|fs| - 1]);
      assert (es + fs)[..|es + fs| - 1] == es + fs[..|fs| - 1];
    }
  }

  // ---- execution -------------------------------------------------------------------------

  datatype Outcome = Suggests(result: string) | Raises(error: Exception)

  /**
   * What one execution meets. `current` names the latest run of the medium, as a lost reset looks it up;
   * `interrupted` is the shutdown request seen by the interrupt-aware executor.
   */
  datatype Env = Env(maxAttempts: nat, outcome: Outcome, interrupted: bool, inTransaction: bool,
                     current: Option<string>)

  datatype Reply = Stands(run: Run) | Conflict | LifecycleError

  datatype Plan = Plan(events: seq<Event>, reply: Reply)

  function Claiming(w: World, id: string, version: nat, env: Env): Plan {
    if id !in w || !w[id].run.state.Pending? || w[id].run.version != version || w[id].run.attempts + 1 > env.maxAttempts
    then Plan([], Conflict)
    else
      var claim := On(id, Claimed(version, env.maxAttempts));
      var claimed := Turn(w[id], claim.kind).run;
      if env.inTransaction then Plan([claim], LifecycleError)
      else
        var rest := Executing(claimed, env);
        Plan([claim, On(id, Entered)] + rest.events, rest.reply)
  }

  /** After the executor was entered for a claim. */
  function Executing(claimed: Run, env: Env): Plan {
    var id, v := claimed.id, claimed.version;
    match env.outcome
    case Suggests(result) =>
      Plan([On(id, Returned(result)), On(id, Recorded(v, result))],
           Stands(claimed.(state := Analyzed, version := v + 1, error := None, result := Some(result),
                           submitted := Some(true))))
    case Raises(e) =>
      var f := Classified(e);
      if env.interrupted then Plan([], Stands(claimed))
      else if Retryable(f) && claimed.attempts < env.maxAttempts then
        Plan([On(id, Requeued(v))], Stands(claimed.(state := Pending, version := v + 1)))
      else
        Plan([On(id, RecordedFailed(v, ErrorCode(f)))],
             Stands(claimed.(state := AnalysisFailed, version := v + 1, error := Some(ErrorCode(f)), result := None,
                                 submitted := Some(SubmissionOccurred(ErrorCode(f))))))
  }

  /** `execute`, on a run as it was listed: it may have changed since. */
  function Execution(w: World, listed: Run, env: Env): Plan {
    if Finished(listed.state) then Plan([], Stands(listed))
    else if listed.state.Pending? then Claiming(w, listed.id, listed.version, env)
    else if listed.id in w && w[listed.id].run.state.Analyzing? && w[listed.id].run.version == listed.version then
      var reset := On(listed.id, Reset(listed.version));
      Plan([reset], Stands(Turn(w[listed.id], reset.kind).run))
    else if env.current.None? || env.current.value !in w then Plan([], Conflict)
    else
      var current := w[env.current.value].run;
      if current.state.Pending? then Claiming(w, current.id, current.version, env) else Plan([], Stands(current))
  }

  /** `PersistImportedPreviewAnalysis`: claim a pending run for a suggestion already at hand. */
  function Importing(w: World, id: string, maxAttempts: nat, result: string): Plan {
    if id !in w || !w[id].run.state.Pending? then Plan([], Conflict)
    else if w[id].run.attempts + 1 > maxAttempts then Plan([], LifecycleError)
    else
      var v := w[id].run.version;
      var claim := On(id, Claimed(v, maxAttempts));
      Plan([claim, On(id, Supplied(result)), On(id, Recorded(v + 1, result))],
           Stands(w[id].run.(state := Analyzed, attempts := w[id].run.attempts + 1, version := v + 2, error := None,
                             result := Some(result), submitted := Some(true))))
  }

  // ---- the store and the executor as they run ------------------------------------------------

  class AnalysisService {
    var world: World
    ghost var log: seq<Event>
    const maxAttempts: nat

    ghost predicate Valid()
      reads this
    {
      world == After(map[], log) && forall id :: id in world ==> world[id].run.id == id
    }

    constructor (maxAttempts: nat)
      ensures Valid() && log == [] && this.maxAttempts == maxAttempts
    {
      this.maxAttempts, world, log := maxAttempts, map[], [];
    }

    method Commit(e: Event)
      requires Valid()
      modifies this
      ensures Valid() && log == old(log) + [e] && world == Apply(old(world), e)
    {
      world, log := Apply(world, e), log + [e];
      assert log[..|log| - 1] == old(log);
    }

    twostate predicate Performed(es: seq<Event>)
      reads this
    {
      Valid() && log == old(log) + es && world == After(old(world), es)
    }

    /** `reconcile_interrupted`: an interrupted claim is failed, unless somebody was quicker. */
    method ReconcileInterrupted(listed: Run, env: Env) returns (working: Option<Run>, reset: bool)
      requires Valid() && listed.state.Analyzing?
      modifies this
      ensures reset <==>
              listed.id in old(world) && old(world)[listed.id].run.state.Analyzing?
              && old(world)[listed.id].run.version == listed.version
      ensures reset ==>
              working == Some(Turn(old(world)[listed.id], Reset(listed.version)).run)
              && Performed([On(listed.id, Reset(listed.version))])
      ensures !reset ==> Valid() && log == old(log) && world == old(world)
      ensures !reset ==>
              working == if env.current.None? || env.current.value !in world then None
                         else Some(world[env.current.value].run)
    {
      reset := listed.id in world && world[listed.id].run.state.Analyzing?
               && world[listed.id].run.version == listed.version;
      if reset {
        After1(world, On(listed.id, Reset(listed.version)));
        Commit(On(listed.id, Reset(listed.version)));
        working := Some(world[listed.id].run);
      } else {
        working := if env.current.None? || env.current.value !in world then None
                   else Some(world[env.current.value].run);
      }
    }

    method Execute(listed: Run, env: Env) returns (reply: Reply)
      requires Valid() && env.maxAttempts == maxAttempts
      modifies this
      ensures Performed(Execution(old(world), listed, env).events)
      ensures reply == Execution(old(world), listed, env).reply
    {
      if Finished(listed.state) {
        return Stands(listed);
      }
      var working := listed;
      if working.state.Analyzing? {
        var current, reset := ReconcileInterrupted(working, env);
        if reset {
          return Stands(current.value);
        }
        if current.None? {
          return Conflict;
        }
        working := current.value;
        if Finished(working.state) || !working.state.Pending? {
          return Stands(working);
        }
      }
      reply := ClaimAndExecute(working, env);
    }

    method ClaimAndExecute(working: Run, env: Env) returns (reply: Reply)
      requires Valid() && env.maxAttempts == maxAttempts
      modifies this
      ensures Performed(Claiming(old(world), working.id, working.version, env).events)
      ensures reply == Claiming(old(world), working.id, working.version, env).reply
    {
      var id := working.id;
      if id !in world || !world[id].run.state.Pending? || world[id].run.version != working.version
         || world[id].run.attempts + 1 > maxAttempts {
        return Conflict;
      }
      ghost var w := world;
      ghost var claim, enter := On(id, Claimed(working.version, maxAttempts)), On(id, Entered);
      After1(w, claim);
      Commit(On(id, Claimed(working.version, maxAttempts)));
      var claimed := world[id].run;
      if env.inTransaction {
        return LifecycleError;
      }
      Commit(On(id, Entered));
      ghost var rest := Executing(claimed, env).events;
      AfterTwo(w, claim, enter, rest);
      Append2(old(log), claim, enter, rest);
      hide After, Apply, Turn, Executing;
      reply := Conclude(claimed, env);
    }

    /** What the executor's answer, or its failure, is recorded as. */
    method Conclude(claimed: Run, env: Env) returns (reply: Reply)
      requires Valid() && env.maxAttempts == maxAttempts
      requires claimed.id in world && world[claimed.id].run == claimed && claimed.state.Analyzing?
      modifies this
      ensures Performed(Executing(claimed, env).events)
      ensures reply == Executing(claimed, env).reply
    {
      hide After;
      var id, v := claimed.id, claimed.version;
      match env.outcome {
        case Suggests(result) =>
          AfterPair(world, On(id, Returned(result)), On(id, Recorded(v, result)));
          AppendPair(log, On(id, Returned(result)), On(id, Recorded(v, result)));
          Commit(On(id, Returned(result)));
          Commit(On(id, Recorded(v, result)));
          reply := Stands(world[id].run);
        case Raises(e) =>
          if env.interrupted {
            AfterNone(world);
            return Stands(claimed);
          }
          var f := Classified(e);
          if Retryable(f) && claimed.attempts < maxAttempts {
            After1(world, On(id, Requeued(v)));
            Commit(On(id, Requeued(v)));
          } else {
            After1(world, On(id, RecordedFailed(v, ErrorCode(f))));
            Commit(On(id, RecordedFailed(v, ErrorCode(f))));
          }
          reply := Stands(world[id].run);
      }
    }
  }

  lemma AfterNone(w: World)
    ensures After(w, []) == w
  {
  }

  lemma After1(w: World, e: Event)
    ensures After(w, [e]) == Apply(w, e)
  {
    assert [e][..0] == [];
  }

  lemma AfterTwo(w: World, e: Event, f: Event, rest: seq<Event>)
    ensures After(w, [e, f] + rest) == After(Apply(Apply(w, e), f), rest)
  {
    hide Apply;
    After1(w, e);
    assert [e, f][..1] == [e];
    AfterConcat(w, [e, f], rest);
  }

  lemma AfterPair(w: World, e: Event, f: Event)
    ensures After(w, [e, f]) == Apply(Apply(w, e), f)
  {
    hide Apply;
    AfterTwo(w, e, f, []);
    assert [e, f] + [] == [e, f];
  }

  lemma AppendPair(log: seq<Event>, e: Event, f: Event)
    ensures log + [e] + [f] == log + [e, f]
  {
  }

  lemma Append2(log: seq<Event>, e: Event, f: Event, rest: seq<Event>)
    ensures log + [e] + [f] + rest == log + ([e, f] + rest)
  {
  }
}
