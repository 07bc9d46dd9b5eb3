// Several services at once: executions and imports interleaved transaction by transaction on one store.

module AnalysisConcurrent {
  import opened Text
  import opened AnalysisExecutor
  import opened AnalysisRuns
  import AnalysisLaws

  // ---- one execution, step by step ----------------------------------------------------------

  type Runs = map<string, Run>

  /** A claim: the run, and the version the claim gave it. */
  datatype Mark = Mark(id: string, version: nat)

  datatype Answer = Answer(mark: Mark, result: string)

  /** Where an execution or an import stands. `Held` to `Broken` come with the run as it was claimed. */
  datatype Pc =
    | Create(run: Run)
    | Start(listed: Run)
    | Lookup
    | ToClaim(id: string, version: nat)
    | Held(run: Run)
    | Inside(run: Run)
    | Answered(run: Run, result: string)
    | Broken(run: Run, failure: Failure)
    | ImportStart(id: string, result: string)
    | ImportClaim(id: string, version: nat, result: string)
    | Over(reply: AnalysisRuns.Reply)

  datatype Thread = Thread(pc: Pc, env: Env)

  /** What one step leaves: the store, where the thread is then, and what it adds to the logs. */
  datatype Stride = Stride(runs: Runs, pc: Pc, claim: Option<Mark>, entry: Option<Mark>, answer: Option<Answer>)

  /** A transaction on one run; it changes nothing when the version is not the expected one. */
  function Tx(r: Run, k: Kind): Run {
    Turn(Life(r, 0, false, None, false), k).run
  }

  function On(runs: Runs, id: string, k: Kind): Runs {
    if id in runs then runs[id := Tx(runs[id], k)] else runs
  }

  predicate Claimable(runs: Runs, id: string, version: nat, max: nat) {
    id in runs && runs[id].state.Pending? && runs[id].version == version && runs[id].attempts + 1 <= max
  }

  /** Nothing but the thread moves. */
  function Moves(runs: Runs, pc: Pc): Stride {
    Stride(runs, pc, None, None, None)
  }

  /** The last transaction of an execution; whoever comes too late changes nothing and gets an error. */
  function Concluding(runs: Runs, run: Run, k: Kind): Stride {
    var late := run.id !in runs || !runs[run.id].state.Analyzing? || runs[run.id].version != run.version;
    if late then Moves(runs, Over(LifecycleError))
    else Moves(On(runs, run.id, k), Over(Stands(Tx(runs[run.id], k))))
  }

  function Next(runs: Runs, t: Thread): Stride {
    match t.pc
    case Create(run) => Moves(if run.id in runs then runs else runs[run.id := run], Over(Stands(run)))
    case Start(listed) =>
      if Finished(listed.state) then Moves(runs, Over(Stands(listed)))
      else if listed.state.Pending? then Moves(runs, ToClaim(listed.id, listed.version))
      else if listed.id in runs && runs[listed.id].state.Analyzing? && runs[listed.id].version == listed.version then
        Moves(On(runs, listed.id, Reset(listed.version)), Over(Stands(Tx(runs[listed.id], Reset(listed.version)))))
      else Moves(runs, Lookup)
    case Lookup =>
      if t.env.current.None? || t.env.current.value !in runs then Moves(runs, Over(Conflict))
      else
        var current := runs[t.env.current.value];
        Moves(runs, if current.state.Pending? then ToClaim(current.id, current.version) else Over(Stands(current)))
    case ToClaim(id, version) =>
      if !Claimable(runs, id, version, t.env.maxAttempts) then Moves(runs, Over(Conflict))
      else
        var after := On(runs, id, Claimed(version, t.env.maxAttempts));
        var pc := if t.env.inTransaction then Over(LifecycleError) else Held(after[id]);
        Stride(after, pc, Some(Mark(id, version + 1)), None, None)
    case Held(run) => Stride(runs, Inside(run), None, Some(Mark(run.id, run.version)), None)
    case Inside(run) =>
      (match t.env.outcome
       case Suggests(result) =>
         Stride(runs, Answered(run, result), None, None, Some(Answer(Mark(run.id, run.version), result)))
       case Raises(e) => Moves(runs, if t.env.interrupted then Over(Stands(run)) else Broken(run, Classified(e))))
    case Answered(run, result) => Concluding(runs, run, Recorded(run.version, result))
    case Broken(run, f) =>
      Concluding(runs, run,
                 if Retryable(f) && run.attempts < t.env.maxAttempts then Requeued(run.version)
                 else RecordedFailed(run.version, ErrorCode(f)))
    case ImportStart(id, result) =>
      if id !in runs || !runs[id].state.Pending? then Moves(runs, Over(Conflict))
      else Moves(runs, ImportClaim(id, runs[id].version, result))
    case ImportClaim(id, version, result) =>
      if !Claimable(runs, id, version, t.env.maxAttempts) then Moves(runs, Over(LifecycleError))
      else
        var after := On(runs, id, Claimed(version, t.env.maxAttempts));
        var mark := Mark(id, version + 1);
        Stride(after, Answered(after[id], result), Some(mark), None, Some(Answer(mark, result)))
    case Over(_) => Moves(runs, t.pc)
  }

  // ---- any number of them ----------------------------------------------------------------------

  datatype System = System(runs: Runs, threads: seq<Thread>, claims: seq<Mark>, entries: seq<Mark>,
                           answers: seq<Answer>)

  function Logged<T>(log: seq<T>, more: Option<T>): seq<T> {
    if more.Some? then log + [more.value] else log
  }

  function Stepped(s: System, i: nat): System {
    if i >= |s.threads| then s
    else
      var n := Next(s.runs, s.threads[i]);
      System(n.runs, s.threads[i := s.threads[i].(pc := n.pc)],
             Logged(s.claims, n.claim), Logged(s.entries, n.entry), Logged(s.answers, n.answer))
  }

  /** The store after the threads named by the schedule have made one step each, in that order. */
  function Scheduled(s: System, schedule: seq<nat>): System {
    if schedule == [] then s
    else Stepped(Scheduled(s, schedule[..|schedule| - 1]), schedule[|schedule| - 1])
  }

  /** A thread that has not begun, under an attempt limit of at most `max`. */
  predicate Beginning(max: nat, t: Thread) {
    && t.env.maxAttempts <= max
    && match t.pc
       case Create(run) => AnalysisLaws.Possible(max, AnalysisLaws.Create(run))
       case Start(_) => true
       case ImportStart(_, _) => true
       case _ => false
  }

  function Beginnings(threads: seq<Thread>): System {
    System(map[], threads, [], [], [])
  }

  // ---- what every step keeps ---------------------------------------------------------------------

  function CountOf(marks: seq<Mark>, id: string): nat {
    if marks == [] then 0
    else CountOf(marks[..|marks| - 1], id) + if marks[|marks| - 1].id == id then 1 else 0
  }

  predicate Distinct<T(==)>(xs: seq<T>) {
    forall i, j :: 0 <= i < j < |xs| ==> xs[i] != xs[j]
  }

  /** The claim a thread works under. */
  function HeldMark(pc: Pc): Option<Mark> {
    if pc.Held? || pc.Inside? || pc.Answered? || pc.Broken? then Some(Mark(pc.run.id, pc.run.version)) else None
  }

  ghost predicate FailureFits(r: Run) {
    || (r.error == Some(OUTCOME_UNKNOWN) && r.submitted.None?)
    || exists f: Failure :: r.error == Some(ErrorCode(f)) && r.submitted == Some(SubmissionOccurred(ErrorCode(f)))
  }

  ghost predicate RunOk(max: nat, id: string, r: Run, answers: seq<Answer>) {
    && r.id == id && r.attempts <= max && r.version >= 1
    && (r.state.Analyzing? ==> r.attempts >= 1) && (r.state.Pending? ==> r.attempts < max)
    && r.version + AnalysisLaws.Budget(max, r) <= 2 * max + 2
    && (r.state.Analyzed? ==>
        r.result.Some? && r.version >= 2 && Answer(Mark(id, r.version - 1), r.result.value) in answers)
    && (r.state.AnalysisFailed? ==> FailureFits(r))
    && (!Finished(r.state) ==> r.error.None? && r.submitted.None?)
  }

  ghost predicate RunsOk(max: nat, s: System) {
    forall id :: id in s.runs ==> RunOk(max, id, s.runs[id], s.answers)
  }

  /** Claims are made one at a time, and each counts as an attempt of its run. */
  ghost predicate ClaimsOk(s: System) {
    && Distinct(s.claims)
    && (forall m :: m in s.claims ==> m.id in s.runs && m.version <= s.runs[m.id].version)
    && (forall id :: id in s.runs ==> CountOf(s.claims, id) == s.runs[id].attempts)
  }

  /** Each claim enters the executor at most once, and is answered at most once. */
  ghost predicate LogsOk(s: System) {
    && Distinct(s.entries) && (forall m :: m in s.entries ==> m in s.claims)
    && (forall a :: a in s.answers ==> a.mark in s.claims)
    && (forall i, j :: 0 <= i < j < |s.answers| ==> s.answers[i].mark != s.answers[j].mark)
  }

  ghost predicate Unanswered(answers: seq<Answer>, m: Mark) {
    forall a :: a in answers ==> a.mark != m
  }

  /** As long as the version is that of the claim, the run is as it was claimed. */
  predicate AsClaimed(runs: Runs, run: Run) {
    run.id in runs && run.version <= runs[run.id].version
    && (run.version == runs[run.id].version ==> runs[run.id] == run)
  }

  /** Whatever changes gets a higher version. */
  predicate MovesOn(before: Runs, after: Runs) {
    forall id :: id in before ==> id in after && (after[id] == before[id] || before[id].version < after[id].version)
  }

  ghost predicate ThreadOk(max: nat, s: System, t: Thread) {
    && t.env.maxAttempts <= max
    && (t.pc.Create? ==> AnalysisLaws.Possible(max, AnalysisLaws.Create(t.pc.run)))
    && (HeldMark(t.pc).Some? ==>
        HeldMark(t.pc).value in s.claims && t.pc.run.state.Analyzing? && t.pc.run.attempts <= max)
    && (HeldMark(t.pc).Some? ==> AsClaimed(s.runs, t.pc.run))
    && (t.pc.Held? ==> HeldMark(t.pc).value !in s.entries)
    && (t.pc.Held? || t.pc.Inside? ==> Unanswered(s.answers, HeldMark(t.pc).value))
    && (t.pc.Answered? ==> Answer(HeldMark(t.pc).value, t.pc.result) in s.answers)
  }

  /** No two threads work under the same claim. */
  ghost predicate ThreadsOk(max: nat, s: System) {
    && (forall i :: 0 <= i < |s.threads| ==> ThreadOk(max, s, s.threads[i]))
    && (forall i, j :: 0 <= i < j < |s.threads| && HeldMark(s.threads[i].pc).Some? ==>
          HeldMark(s.threads[i].pc) != HeldMark(s.threads[j].pc))
  }

  ghost predicate Sane(max: nat, s: System) {
    RunsOk(max, s) && ClaimsOk(s) && LogsOk(s) && ThreadsOk(max, s)
  }

  lemma SnocCount(marks: seq<Mark>, m: Mark, id: string)
    ensures CountOf(marks + [m], id) == CountOf(marks, id) + if m.id == id then 1 else 0
  {
    assert (marks + [m])[..|marks|] == marks;
  }

  lemma {:induction false} NoneCounted(marks: seq<Mark>, id: string)
    requires forall m :: m in marks ==> m.id != id
    ensures CountOf(marks, id) == 0
  {
    if marks != [] {
      NoneCounted(marks[..|marks| - 1], id);
    }
  }

  lemma {:induction false} CountWithout(marks: seq<Mark>, k: nat, id: string)
    requires k < |marks|
    ensures CountOf(marks, id) == CountOf(marks[..k] + marks[k + 1..], id) + if marks[k].id == id then 1 else 0
  {
    var n := |marks| - 1;
    if k == n {
      assert marks[..k] + marks[k + 1..] == marks[..n];
    } else {
      CountWithout(marks[..n], k, id);
      var rest := marks[..n][..k] + marks[..n][k + 1..];
      assert marks[..k] + marks[k + 1..] == rest + [marks[n]];
      SnocCount(rest, marks[n], id);
    }
  }

  /** Different marks out of some marks are no more of them. */
  lemma {:induction false} FewerCount(few: seq<Mark>, many: seq<Mark>, id: string)
    requires Distinct(few) && forall m :: m in few ==> m in many
    ensures CountOf(few, id) <= CountOf(many, id)
  {
    if few != [] {
      var n := |few| - 1;
      assert few[n] in few && few[n] in many;
      var k: nat :| k < |many| && many[k] == few[n];
      var rest := many[..k] + many[k + 1..];
      forall m | m in few[..n]
        ensures m in rest
      {
        var j :| 0 <= j < n && few[..n][j] == m;
        assert few[j] == m && m in few && m in many;
        var l :| 0 <= l < |many| && many[l] == m;
        assert l != k;
        assert if l < k then rest[l] == m else rest[l - 1] == m;
      }
      FewerCount(few[..n], rest, id);
      CountWithout(many, k, id);
    }
  }

  // ---- threads ---------------------------------------------------------------------------------

  /** The others stay in order when what is added to the logs is not theirs. */
  lemma OtherStaysOk(max: nat, s: System, v: System, t: Thread)
    requires ThreadOk(max, s, t) && MovesOn(s.runs, v.runs) && forall m :: m in s.claims ==> m in v.claims
    requires forall m :: m in v.entries ==> m in s.entries || Some(m) != HeldMark(t.pc)
    requires forall a :: a in v.answers ==> a in s.answers || Some(a.mark) != HeldMark(t.pc)
    requires forall a :: a in s.answers ==> a in v.answers
    ensures ThreadOk(max, v, t)
  {
  }

  lemma ThreadsStayOk(max: nat, s: System, v: System, i: nat, t: Thread)
    requires i < |s.threads| && ThreadsOk(max, s) && v.threads == s.threads[i := t]
    requires ThreadOk(max, v, t)
    requires forall j :: 0 <= j < |s.threads| && j != i ==> ThreadOk(max, v, s.threads[j])
    requires HeldMark(t.pc).Some? ==> HeldMark(t.pc) == HeldMark(s.threads[i].pc) || HeldMark(t.pc).value !in s.claims
    ensures ThreadsOk(max, v)
  {
    forall j, k | 0 <= j < k < |v.threads| && HeldMark(v.threads[j].pc).Some?
      ensures HeldMark(v.threads[j].pc) != HeldMark(v.threads[k].pc)
    {
      assert ThreadOk(max, s, s.threads[j]) && ThreadOk(max, s, s.threads[k]);
    }
  }

  lemma OwnMarkOnly(max: nat, s: System, i: nat, j: nat)
    requires ThreadsOk(max, s) && i < |s.threads| && j < |s.threads| && i != j && HeldMark(s.threads[i].pc).Some?
    ensures HeldMark(s.threads[j].pc) != HeldMark(s.threads[i].pc)
  {
    hide ThreadOk;
  }

  // ---- steps that touch no log --------------------------------------------------------------------

  /** The thread holds no more than before. */
  predicate Relaxes(pc: Pc, later: Pc) {
    && !later.Create?
    && (HeldMark(later).None? || (later.Broken? && HeldMark(later) == HeldMark(pc) && later.run == pc.run))
  }

  lemma SilentKeepsThreads(max: nat, s: System, v: System, i: nat)
    requires ThreadsOk(max, s) && i < |s.threads| && |v.threads| == |s.threads|
    requires v.claims == s.claims && v.entries == s.entries && v.answers == s.answers && MovesOn(s.runs, v.runs)
    requires v.threads == s.threads[i := v.threads[i]] && v.threads[i].env == s.threads[i].env
    requires v.threads[i] == s.threads[i] || Relaxes(s.threads[i].pc, v.threads[i].pc)
    ensures ThreadsOk(max, v)
  {
    forall j | 0 <= j < |s.threads| && j != i
      ensures ThreadOk(max, v, s.threads[j])
    {
      assert ThreadOk(max, s, s.threads[j]);
      OtherStaysOk(max, s, v, s.threads[j]);
    }
    assert ThreadOk(max, s, s.threads[i]);
    assert ThreadOk(max, v, v.threads[i]);
    hide ThreadOk;
    ThreadsStayOk(max, s, v, i, v.threads[i]);
  }

  /** Nothing changes but where the thread stands. */
  lemma QuietKeeps(max: nat, s: System, v: System, i: nat)
    requires Sane(max, s) && i < |s.threads| && v == s.(threads := v.threads) && |v.threads| == |s.threads|
    requires v.threads == s.threads[i := v.threads[i]] && v.threads[i].env == s.threads[i].env
    requires v.threads[i] == s.threads[i] || Relaxes(s.threads[i].pc, v.threads[i].pc)
    ensures Sane(max, v)
  {
    hide RunOk, Distinct, ThreadOk;
    assert ThreadsOk(max, v) by {
      hide ThreadsOk, Relaxes;
      SilentKeepsThreads(max, s, v, i);
    }
    hide ThreadsOk;
  }

  /** One run changes at its version, and the thread holds no more. */
  lemma RunChanges(max: nat, s: System, v: System, i: nat, id: string)
    requires Sane(max, s) && i < |s.threads| && id in v.runs && |v.threads| == |s.threads|
    requires v == s.(threads := v.threads, runs := s.runs[id := v.runs[id]])
    requires v.threads == s.threads[i := v.threads[i]] && v.threads[i].env == s.threads[i].env
    requires Relaxes(s.threads[i].pc, v.threads[i].pc)
    requires RunOk(max, id, v.runs[id], s.answers)
    requires if id in s.runs then v.runs[id].attempts == s.runs[id].attempts && s.runs[id].version < v.runs[id].version
             else v.runs[id].attempts == 0
    ensures Sane(max, v)
  {
    hide RunOk, Distinct, ThreadOk;
    assert ThreadsOk(max, v) by {
      hide ThreadsOk, Relaxes;
      SilentKeepsThreads(max, s, v, i);
    }
    hide ThreadsOk;
    if id !in s.runs {
      NoneCounted(s.claims, id);
    }
  }

  /** What the last transactions make of a run that is being analyzed. */
  lemma ConcludedIsOk(max: nat, id: string, r: Run, answers: seq<Answer>, k: Kind)
    requires RunOk(max, id, r, answers) && r.state.Analyzing?
    requires match k
             case Recorded(v, result) => v == r.version && Answer(Mark(id, v), result) in answers
             case Requeued(v) => v == r.version && r.attempts < max
             case RecordedFailed(v, code) => v == r.version && exists f: Failure :: code == ErrorCode(f)
             case Reset(v) => v == r.version
             case _ => false
    ensures RunOk(max, id, Tx(r, k), answers) && Tx(r, k).attempts == r.attempts && Tx(r, k).version == r.version + 1
  {
    hide ErrorCode, SubmissionOccurred;
    if k.RecordedFailed? {
      var f: Failure :| k.code == ErrorCode(f);
      assert Tx(r, k).error == Some(ErrorCode(f)) && Tx(r, k).submitted == Some(SubmissionOccurred(ErrorCode(f)));
    }
  }

  // ---- steps that claim, enter and answer -----------------------------------------------------------

  lemma DistinctMore<T>(xs: seq<T>, x: T)
    requires Distinct(xs) && x !in xs
    ensures Distinct(xs + [x])
  {
  }

  /** A claim is made at a new version. */
  lemma ClaimIsNew(s: System, id: string)
    requires ClaimsOk(s) && id in s.runs
    ensures Mark(id, s.runs[id].version + 1) !in s.claims
  {
  }

  lemma ClaimedIsOk(max: nat, id: string, r: Run, answers: seq<Answer>, limit: nat)
    requires RunOk(max, id, r, answers) && r.state.Pending? && r.attempts + 1 <= limit <= max
    ensures var c := Tx(r, Claimed(r.version, limit));
            && RunOk(max, id, c, answers) && c.state.Analyzing? && c.id == id
            && c.attempts == r.attempts + 1 && c.version == r.version + 1
  {
  }

  lemma MoreAnswersKeepRuns(max: nat, id: string, r: Run, few: seq<Answer>, many: seq<Answer>)
    requires RunOk(max, id, r, few) && forall a :: a in few ==> a in many
    ensures RunOk(max, id, r, many)
  {
    hide FailureFits;
  }

  /** The store and the claims after one more claim, and perhaps its answer. */
  lemma ClaimKeepsStore(max: nat, s: System, v: System, id: string, limit: nat)
    requires RunsOk(max, s) && ClaimsOk(s) && limit <= max
    requires id in s.runs && Claimable(s.runs, id, s.runs[id].version, limit)
    requires v.runs == On(s.runs, id, Claimed(s.runs[id].version, limit))
    requires v.claims == s.claims + [Mark(id, s.runs[id].version + 1)]
    requires forall a :: a in s.answers ==> a in v.answers
    ensures RunsOk(max, v) && ClaimsOk(v)
  {
    var mark := Mark(id, s.runs[id].version + 1);
    ClaimedIsOk(max, id, s.runs[id], s.answers, limit);
    ClaimIsNew(s, id);
    DistinctMore(s.claims, mark);
    hide RunOk, Distinct, Tx;
    forall other | other in v.runs
      ensures RunOk(max, other, v.runs[other], v.answers) && CountOf(v.claims, other) == v.runs[other].attempts
    {
      MoreAnswersKeepRuns(max, other, v.runs[other], s.answers, v.answers);
      SnocCount(s.claims, mark, other);
    }
  }

  lemma ClaimKeeps(max: nat, s: System, v: System, i: nat, id: string)
    requires Sane(max, s) && i < |s.threads| && |v.threads| == |s.threads| && id in s.runs
    requires var t, after := s.threads[i], v.threads[i];
             var mark := Mark(id, s.runs[id].version + 1);
             && Claimable(s.runs, id, s.runs[id].version, t.env.maxAttempts)
             && v.runs == On(s.runs, id, Claimed(s.runs[id].version, t.env.maxAttempts))
             && v.claims == s.claims + [mark] && v.entries == s.entries
             && v.threads == s.threads[i := after] && after.env == t.env
             && (|| (after.pc.Over? && v.answers == s.answers)
                 || (after.pc == Held(v.runs[id]) && v.answers == s.answers)
                 || (after.pc.Answered? && after.pc.run == v.runs[id]
                     && v.answers == s.answers + [Answer(mark, after.pc.result)]))
    ensures Sane(max, v)
  {
    var t, after := s.threads[i], v.threads[i];
    var mark := Mark(id, s.runs[id].version + 1);
    assert ThreadOk(max, s, t);
    assert RunOk(max, id, s.runs[id], s.answers);
    ClaimedIsOk(max, id, s.runs[id], s.answers, t.env.maxAttempts);
    ClaimIsNew(s, id);
    ClaimKeepsStore(max, s, v, id, t.env.maxAttempts);
    hide RunsOk, RunOk, ClaimsOk;
    hide LogsOk;
    LogsRead(s);
    ClaimKeepsLogs(s, v, mark);
    assert ThreadOk(max, v, after);
    forall j | 0 <= j < |s.threads| && j != i
      ensures ThreadOk(max, v, s.threads[j])
    {
      assert ThreadOk(max, s, s.threads[j]);
      OtherStaysOk(max, s, v, s.threads[j]);
    }
    hide ThreadOk, Tx;
    ThreadsStayOk(max, s, v, i, after);
  }

  lemma ClaimKeepsLogs(s: System, v: System, mark: Mark)
    requires LogsOk(s) && mark !in s.claims && v.claims == s.claims + [mark] && v.entries == s.entries
    requires v.answers == s.answers
             || (|v.answers| == |s.answers| + 1 && v.answers[..|s.answers|] == s.answers
                 && v.answers[|s.answers|].mark == mark)
    ensures LogsOk(v)
  {
    hide Distinct;
    assert forall a :: a in s.answers ==> a.mark != mark;
    if v.answers != s.answers {
      var n := |s.answers|;
      assert v.answers == s.answers + [v.answers[n]];
      assert forall i :: 0 <= i < n ==> v.answers[i] in s.answers;
    }
  }

  lemma LogsRead(s: System)
    requires LogsOk(s)
    ensures forall m :: m in s.entries ==> m in s.claims
    ensures forall a :: a in s.answers ==> a.mark in s.claims
  {
  }

  lemma EnterKeeps(max: nat, s: System, v: System, i: nat)
    requires Sane(max, s) && i < |s.threads| && |v.threads| == |s.threads| && s.threads[i].pc.Held?
    requires v == s.(threads := s.threads[i := v.threads[i]], entries := s.entries + [HeldMark(s.threads[i].pc).value])
    requires v.threads[i] == s.threads[i].(pc := Inside(s.threads[i].pc.run))
    ensures Sane(max, v)
  {
    var t := s.threads[i];
    var mark := HeldMark(t.pc).value;
    assert ThreadOk(max, s, t);
    assert RunsOk(max, v) && ClaimsOk(v);
    hide RunsOk, RunOk, ClaimsOk;
    DistinctMore(s.entries, mark);
    assert LogsOk(v);
    assert ThreadOk(max, v, v.threads[i]);
    hide LogsOk;
    forall j | 0 <= j < |s.threads| && j != i
      ensures ThreadOk(max, v, s.threads[j])
    {
      assert ThreadOk(max, s, s.threads[j]);
      OwnMarkOnly(max, s, i, j);
      OtherStaysOk(max, s, v, s.threads[j]);
    }
    hide ThreadOk;
    ThreadsStayOk(max, s, v, i, v.threads[i]);
  }

  lemma AnswerKeeps(max: nat, s: System, v: System, i: nat, result: string)
    requires Sane(max, s) && i < |s.threads| && |v.threads| == |s.threads| && s.threads[i].pc.Inside?
    requires v == s.(threads := s.threads[i := v.threads[i]],
                     answers := s.answers + [Answer(HeldMark(s.threads[i].pc).value, result)])
    requires v.threads[i] == s.threads[i].(pc := Answered(s.threads[i].pc.run, result))
    ensures Sane(max, v)
  {
    var t := s.threads[i];
    var mark := HeldMark(t.pc).value;
    assert ThreadOk(max, s, t);
    assert ClaimsOk(v);
    hide ClaimsOk, Distinct;
    assert RunsOk(max, v) by {
      hide RunOk, ThreadsOk, ThreadOk, LogsOk;
      forall id | id in v.runs
        ensures RunOk(max, id, v.runs[id], v.answers)
      {
        MoreAnswersKeepRuns(max, id, v.runs[id], s.answers, v.answers);
      }
    }
    hide RunsOk, RunOk;
    assert LogsOk(v);
    hide LogsOk;
    assert ThreadOk(max, v, v.threads[i]);
    forall j | 0 <= j < |s.threads| && j != i
      ensures ThreadOk(max, v, s.threads[j])
    {
      assert ThreadOk(max, s, s.threads[j]);
      OwnMarkOnly(max, s, i, j);
      OtherStaysOk(max, s, v, s.threads[j]);
    }
    hide ThreadOk;
    ThreadsStayOk(max, s, v, i, v.threads[i]);
  }

  // ---- every step ------------------------------------------------------------------------------------

  lemma CreateKeeps(max: nat, s: System, i: nat)
    requires Sane(max, s) && i < |s.threads| && s.threads[i].pc.Create?
    ensures Sane(max, Stepped(s, i))
  {
    var v, run := Stepped(s, i), s.threads[i].pc.run;
    assert ThreadOk(max, s, s.threads[i]);
    if run.id in s.runs {
      QuietKeeps(max, s, v, i);
    } else {
      assert RunOk(max, run.id, run, s.answers);
      hide Sane, RunOk, ThreadOk;
      RunChanges(max, s, v, i, run.id);
    }
  }

  lemma ResetKeeps(max: nat, s: System, i: nat)
    requires Sane(max, s) && i < |s.threads| && s.threads[i].pc.Start?
    ensures Sane(max, Stepped(s, i))
  {
    var v, listed := Stepped(s, i), s.threads[i].pc.listed;
    if v.runs == s.runs {
      hide Sane;
      QuietKeeps(max, s, v, i);
    } else {
      assert RunOk(max, listed.id, s.runs[listed.id], s.answers);
      ConcludedIsOk(max, listed.id, s.runs[listed.id], s.answers, Reset(listed.version));
      hide Sane, RunOk, Tx;
      RunChanges(max, s, v, i, listed.id);
    }
  }

  lemma ConcludingKeeps(max: nat, s: System, i: nat)
    requires Sane(max, s) && i < |s.threads| && (s.threads[i].pc.Answered? || s.threads[i].pc.Broken?)
    ensures Sane(max, Stepped(s, i))
  {
    var v, t := Stepped(s, i), s.threads[i];
    var run := t.pc.run;
    assert ThreadOk(max, s, t);
    var k := if t.pc.Answered? then Recorded(run.version, t.pc.result)
             else if Retryable(t.pc.failure) && run.attempts < t.env.maxAttempts then Requeued(run.version)
             else RecordedFailed(run.version, ErrorCode(t.pc.failure));
    assert Next(s.runs, t) == Concluding(s.runs, run, k);
    if run.id !in s.runs || !s.runs[run.id].state.Analyzing? || s.runs[run.id].version != run.version {
      hide Sane, ErrorCode, Tx;
      QuietKeeps(max, s, v, i);
    } else {
      assert RunOk(max, run.id, s.runs[run.id], s.answers);
      assert s.runs[run.id] == run;
      hide ErrorCode;
      ConcludedIsOk(max, run.id, s.runs[run.id], s.answers, k);
      hide Sane, RunOk, Tx;
      RunChanges(max, s, v, i, run.id);
    }
  }

  lemma ClaimingKeeps(max: nat, s: System, i: nat)
    requires Sane(max, s) && i < |s.threads| && (s.threads[i].pc.ToClaim? || s.threads[i].pc.ImportClaim?)
    ensures Sane(max, Stepped(s, i))
  {
    var v, t := Stepped(s, i), s.threads[i];
    hide Sane, Tx;
    if Claimable(s.runs, t.pc.id, t.pc.version, t.env.maxAttempts) {
      ClaimKeeps(max, s, v, i, t.pc.id);
    } else {
      QuietKeeps(max, s, v, i);
    }
  }

  lemma StepKeeps(max: nat, s: System, i: nat)
    requires Sane(max, s)
    ensures Sane(max, Stepped(s, i))
  {
    if i < |s.threads| {
      var v, pc := Stepped(s, i), s.threads[i].pc;
      hide Sane;
      match pc {
        case Create(_) => CreateKeeps(max, s, i);
        case Start(_) => ResetKeeps(max, s, i);
        case Held(run) => EnterKeeps(max, s, v, i);
        case Inside(run) =>
          match s.threads[i].env.outcome {
            case Suggests(result) => AnswerKeeps(max, s, v, i, result);
            case Raises(_) => QuietKeeps(max, s, v, i);
          }
        case Answered(_, _) => ConcludingKeeps(max, s, i);
        case Broken(_, _) => ConcludingKeeps(max, s, i);
        case ToClaim(_, _) => ClaimingKeeps(max, s, i);
        case ImportClaim(_, _, _) => ClaimingKeeps(max, s, i);
        case Lookup => QuietKeeps(max, s, v, i);
        case ImportStart(_, _) => QuietKeeps(max, s, v, i);
        case Over(_) => QuietKeeps(max, s, v, i);
      }
    }
  }

  lemma BeginningsAreSane(max: nat, threads: seq<Thread>)
    requires forall i :: 0 <= i < |threads| ==> Beginning(max, threads[i])
    ensures Sane(max, Beginnings(threads))
  {
  }

  lemma {:induction false} ScheduledIsSane(max: nat, threads: seq<Thread>, schedule: seq<nat>)
    requires forall i :: 0 <= i < |threads| ==> Beginning(max, threads[i])
    ensures Sane(max, Scheduled(Beginnings(threads), schedule))
  {
    hide Sane, Beginning, Stepped;
    if schedule == [] {
      BeginningsAreSane(max, threads);
    } else {
      ScheduledIsSane(max, threads, schedule[..|schedule| - 1]);
      StepKeeps(max, Scheduled(Beginnings(threads), schedule[..|schedule| - 1]), schedule[|schedule| - 1]);
    }
  }

  // ---- main results -------------------------------------------------------------------------------------

  /** The one answer given under a claim. */
  predicate AnsweredOnce(answers: seq<Answer>, a: Answer) {
    a in answers && forall b :: b in answers && b.mark == a.mark ==> b == a
  }

  lemma TheAnswer(s: System, a: Answer)
    requires LogsOk(s) && a in s.answers
    ensures AnsweredOnce(s.answers, a)
  {
    hide Distinct;
    forall b | b in s.answers && b.mark == a.mark
      ensures b == a
    {
      var i :| 0 <= i < |s.answers| && s.answers[i] == a;
      var j :| 0 <= j < |s.answers| && s.answers[j] == b;
      assert i == j;
    }
  }

  /**
   * However the transactions of any executions and imports interleave, with crashes anywhere: the executor is entered
   * at most once for each claim, and at most `max` times for a run; and an analyzed run has the one answer given under
   * its last claim, never that of an earlier one that came too late.
   */
  lemma InterleavedAttemptsAreBounded(max: nat, threads: seq<Thread>, schedule: seq<nat>, id: string)
    requires forall i :: 0 <= i < |threads| ==> Beginning(max, threads[i])
    requires id in Scheduled(Beginnings(threads), schedule).runs
    ensures var s := Scheduled(Beginnings(threads), schedule);
            var r := s.runs[id];
            && Distinct(s.entries) && CountOf(s.entries, id) <= CountOf(s.claims, id) == r.attempts <= max
            && (r.state.Analyzed? ==>
                  r.result.Some? && r.version >= 1
                  && AnsweredOnce(s.answers, Answer(Mark(id, r.version - 1), r.result.value)))
            && (r.state.AnalysisFailed? ==> FailureFits(r))
            && (r.state.Pending? ==> r.attempts < max) && r.version <= 2 * max + 2
  {
    hide Sane, Scheduled, Beginning, Beginnings, FailureFits, Distinct, AnsweredOnce;
    ScheduledIsSane(max, threads, schedule);
    SaneMeans(max, Scheduled(Beginnings(threads), schedule), id);
  }

  lemma SaneMeans(max: nat, s: System, id: string)
    requires Sane(max, s) && id in s.runs
    ensures var r := s.runs[id];
            && Distinct(s.entries) && CountOf(s.entries, id) <= CountOf(s.claims, id) == r.attempts <= max
            && (r.state.Analyzed? ==>
                  r.result.Some? && r.version >= 1
                  && AnsweredOnce(s.answers, Answer(Mark(id, r.version - 1), r.result.value)))
            && (r.state.AnalysisFailed? ==> FailureFits(r))
            && (r.state.Pending? ==> r.attempts < max) && r.version <= 2 * max + 2
  {
    var r := s.runs[id];
    assert RunOk(max, id, r, s.answers);
    hide RunsOk, ThreadsOk, FailureFits;
    FewerCount(s.entries, s.claims, id);
    if r.state.Analyzed? {
      hide Distinct;
      TheAnswer(s, Answer(Mark(id, r.version - 1), r.result.value));
    }
  }

  /** Whoever works under a claim that is no longer the last changes nothing with its last transaction. */
  lemma LateIsFenced(max: nat, s: System, i: nat)
    requires Sane(max, s) && i < |s.threads| && (s.threads[i].pc.Answered? || s.threads[i].pc.Broken?)
    ensures var run := s.threads[i].pc.run;
            && run.id in s.runs
            && (Stepped(s, i).runs != s.runs <==> s.runs[run.id] == run)
            && (Stepped(s, i).runs == s.runs <==> run.version < s.runs[run.id].version)
  {
    assert ThreadOk(max, s, s.threads[i]);
    hide RunOk, ErrorCode, Distinct, ClaimsOk, LogsOk, RunsOk;
  }

  // ---- alone, an execution is what it was ------------------------------------------------------------------

  /** The store and the thread after `n` steps of nobody else. */
  function Alone(runs: Runs, t: Thread, n: nat): (Runs, Pc)
    decreases n
  {
    if n == 0 then (runs, t.pc)
    else
      var next := Next(runs, t);
      Alone(next.runs, t.(pc := next.pc), n - 1)
  }

  function Bare(w: World): Runs {
    map id | id in w :: w[id].run
  }

  predicate Named(w: World) {
    forall id :: id in w ==> w[id].run.id == id
  }

  lemma BareOn(w: World, id: string, k: Kind)
    ensures Bare(Apply(w, AnalysisRuns.On(id, k))) == On(Bare(w), id, k)
    ensures k.Entered? || k.Returned? ==> On(Bare(w), id, k) == Bare(w)
  {
  }

  lemma {:induction false} OverStays(runs: Runs, t: Thread, n: nat)
    requires t.pc.Over?
    ensures Alone(runs, t, n) == (runs, t.pc)
  {
    if n > 0 {
      assert t.(pc := t.pc) == t;
      OverStays(runs, t, n - 1);
    }
  }

  lemma OneStep(runs: Runs, t: Thread, n: nat)
    requires n > 0
    ensures Alone(runs, t, n) == Alone(Next(runs, t).runs, t.(pc := Next(runs, t).pc), n - 1)
  {
    hide Next;
  }

  /** A last transaction that comes in time. */
  lemma ConcludesAlone(w: World, t: Thread, run: Run, k: Kind, n: nat)
    requires run.id in w && w[run.id].run == run && run.state.Analyzing? && n >= 1
    requires Next(Bare(w), t) == Concluding(Bare(w), run, k)
    ensures Alone(Bare(w), t, n) == (Bare(Apply(w, AnalysisRuns.On(run.id, k))), Over(Stands(Tx(run, k))))
  {
    BareOn(w, run.id, k);
    OneStep(Bare(w), t, n);
    var over := Over(Stands(Tx(run, k)));
    hide Next, Tx, Apply;
    OverStays(On(Bare(w), run.id, k), t.(pc := over), n - 1);
  }

  lemma InsideIsExecuting(w: World, run: Run, env: Env, n: nat)
    requires run.id in w && w[run.id].run == run && run.state.Analyzing? && n >= 2
    ensures var p := Executing(run, env);
            Alone(Bare(w), Thread(Inside(run), env), n) == (Bare(After(w, p.events)), Over(p.reply))
  {
    OneStep(Bare(w), Thread(Inside(run), env), n);
    match env.outcome {
      case Suggests(result) =>
        SuggestionIsRecorded(w, run, env, result, n - 1);
      case Raises(e) =>
        if env.interrupted {
          AfterNone(w);
          OverStays(Bare(w), Thread(Over(Stands(run)), env), n - 1);
        } else {
          FailureIsRecorded(w, run, env, e, n - 1);
        }
    }
  }

  lemma SuggestionIsRecorded(w: World, run: Run, env: Env, result: string, n: nat)
    requires run.id in w && w[run.id].run == run && run.state.Analyzing? && n >= 1 && env.outcome == Suggests(result)
    ensures var p := Executing(run, env);
            Alone(Bare(w), Thread(Answered(run, result), env), n) == (Bare(After(w, p.events)), Over(p.reply))
  {
    var returned, k := AnalysisRuns.On(run.id, Returned(result)), Recorded(run.version, result);
    var u := Apply(w, returned);
    BareOn(w, run.id, Returned(result));
    AfterPair(w, returned, AnalysisRuns.On(run.id, k));
    hide After, Apply;
    assert u[run.id].run == run by { ReturnedIsSame(w, run.id, result); }
    ConcludesAlone(u, Thread(Answered(run, result), env), run, k, n);
  }

  lemma ReturnedIsSame(w: World, id: string, result: string)
    requires id in w
    ensures var u := Apply(w, AnalysisRuns.On(id, Returned(result))); id in u && u[id].run == w[id].run
  {
  }

  lemma FailureIsRecorded(w: World, run: Run, env: Env, e: Exception, n: nat)
    requires run.id in w && w[run.id].run == run && run.state.Analyzing? && n >= 1
    requires env.outcome == Raises(e) && !env.interrupted
    ensures var p := Executing(run, env);
            Alone(Bare(w), Thread(Broken(run, Classified(e)), env), n) == (Bare(After(w, p.events)), Over(p.reply))
  {
    var f := Classified(e);
    var k := if Retryable(f) && run.attempts < env.maxAttempts then Requeued(run.version)
             else RecordedFailed(run.version, ErrorCode(f));
    hide ErrorCode, SubmissionOccurred, Classified;
    After1(w, AnalysisRuns.On(run.id, k));
    hide After, Apply;
    ConcludesAlone(w, Thread(Broken(run, f), env), run, k, n);
  }

  lemma ToClaimIsClaiming(w: World, id: string, version: nat, env: Env, n: nat)
    requires Named(w) && n >= 4
    ensures var p := Claiming(w, id, version, env);
            Alone(Bare(w), Thread(ToClaim(id, version), env), n) == (Bare(After(w, p.events)), Over(p.reply))
  {
    var t, p := Thread(ToClaim(id, version), env), Claiming(w, id, version, env);
    OneStep(Bare(w), t, n);
    if !Claimable(Bare(w), id, version, env.maxAttempts) {
      AfterNone(w);
      OverStays(Bare(w), Thread(Over(p.reply), env), n - 1);
    } else {
      var claim, enter := AnalysisRuns.On(id, Claimed(version, env.maxAttempts)), AnalysisRuns.On(id, Entered);
      BareOn(w, id, Claimed(version, env.maxAttempts));
      var u := Apply(w, claim);
      var run := u[id].run;
      if env.inTransaction {
        After1(w, claim);
        OverStays(Bare(u), Thread(Over(p.reply), env), n - 1);
      } else {
        BareOn(u, id, Entered);
        var v := Apply(u, enter);
        assert v[id].run == run && run.id == id && run.state.Analyzing?;
        assert Next(Bare(w), t).pc == Held(run);
        AfterTwo(w, claim, enter, Executing(run, env).events);
        OneStep(Bare(u), Thread(Held(run), env), n - 1);
        hide Executing, Apply, Claimable;
        InsideIsExecuting(v, run, env, n - 2);
      }
    }
  }

  /**
   * An execution that nobody interrupts is the sequential one: six steps end it with the same store and the same reply.
   */
  lemma AloneIsExecution(w: World, listed: Run, env: Env)
    requires Named(w)
    ensures var p := Execution(w, listed, env);
            Alone(Bare(w), Thread(Start(listed), env), 6) == (Bare(After(w, p.events)), Over(p.reply))
  {
    var t, p := Thread(Start(listed), env), Execution(w, listed, env);
    hide Claiming, Apply, Tx;
    OneStep(Bare(w), t, 6);
    if Finished(listed.state) {
      AfterNone(w);
      OverStays(Bare(w), Thread(Over(p.reply), env), 5);
    } else if listed.state.Pending? {
      ToClaimIsClaiming(w, listed.id, listed.version, env, 5);
    } else if listed.id in w && w[listed.id].run.state.Analyzing? && w[listed.id].run.version == listed.version {
      BareOn(w, listed.id, Reset(listed.version));
      After1(w, AnalysisRuns.On(listed.id, Reset(listed.version)));
      ResetIsTx(w[listed.id], listed.version);
      OverStays(Bare(After(w, p.events)), Thread(Over(p.reply), env), 5);
    } else {
      OneStep(Bare(w), Thread(Lookup, env), 5);
      if env.current.Some? && env.current.value in w && w[env.current.value].run.state.Pending? {
        var current := w[env.current.value].run;
        ToClaimIsClaiming(w, current.id, current.version, env, 4);
      } else {
        AfterNone(w);
        OverStays(Bare(w), Thread(Over(p.reply), env), 4);
      }
    }
  }

  lemma ResetIsTx(l: Life, version: nat)
    ensures Turn(l, Reset(version)).run == Tx(l.run, Reset(version))
  {
  }
}
