// What whole deploys and rollbacks guarantee, over every way their commands may fail.

module ReleaseTheorems {
  import opened Text
  import opened ReleaseHost
  import opened ReleaseEngine
  import opened ReleaseLaws
  import ReleaseScript

  function Fresh(h: Host, turns: seq<Turn>): Machine {
    Machine(h, turns, 0, false, [])
  }

  /** The run has not even tried to switch or restart anything. */
  predicate NothingSwitched(log: seq<Entry>) {
    forall j :: 0 <= j < |log| ==> !log[j].command.SwapNext? && !log[j].command.Restart?
  }

  lemma FreshIsGood(h: Host, turns: seq<Turn>)
    ensures Good(h, Fresh(h, turns)) && StageAfter(Acts(Fresh(h, turns).log)) == Some(Before)
            && NothingSwitched(Fresh(h, turns).log)
  {
  }

  lemma QuietSwitchesNothing(m: Machine, n: Machine)
    requires NothingSwitched(m.log) && m.log <= n.log && Quiet(m, n)
    ensures NothingSwitched(n.log)
  {
  }

  /** Taking the lock: when it works the run's own time begins with the host as it is then. */
  lemma LockTaken(h: Host, m: Machine)
    requires Good(h, m) && StageAfter(Acts(m.log)) == Some(Before)
    ensures var l := Did(m, MakeLock);
            && Good(h, l.m) && Dry(l.m, l.status) && Quiet(m, l.m) && m.log <= l.m.log && ReleasesStay(m.host, l.m.host)
            && (l.status.Ok? ==> l.m.mine && StartOf(l.m.log) == Some(l.m.host))
  {
    DidKeeps(h, m, MakeLock);
    if m.turns != [] {
      var e := EntryOf(m, MakeLock);
      SnocLog(m.log, e);
      LockActs(e.before, MakeLock, e.turn.fate);
    }
    hide Did, Acts, StageAfter, LastOwn, StartOf, Lawful, Perform, ReleasesStay, ActOf;
  }

  /** Between lock and cutover: `current` is as at the start, and published if the others left sound hosts. */
  predicate AtStart(h: Host, m: Machine) {
    Holds(h, m) && StartOf(m.log).Some? && m.host.current == StartOf(m.log).value.current
    && m.host.schema == StartOf(m.log).value.schema
  }

  lemma AtStartLasts(h: Host, m: Machine, n: Machine)
    requires AtStart(h, m) && Since(m, n) && Holds(h, n) && n.host.current == m.host.current
             && n.host.schema == m.host.schema
    ensures AtStart(h, n)
  {
    hide Good;
  }

  lemma CurrentIsPub(h: Host, m: Machine)
    requires Holds(h, m) && Sound(h)
    ensures Pub(m, m.host.current)
  {
    if SoundTurns(m.log) {
      LawfulKeepsSound(h, m.log);
    }
    hide Lawful, SoundTurns;
  }

  // ---- deploy ------------------------------------------------------------------------------------

  /** What an ended deploy guarantees, by how far it got. */
  ghost predicate DeployEnds(job: Job, m: Machine, code: nat, reached: Reached) {
    var start, own := StartOf(m.log), LastOwn(m.log);
    match reached
    // nothing was switched or restarted
    case BeforeLock => Plain(code) && NothingSwitched(m.log)
    case BeforeCutover => Plain(code) && NothingSwitched(m.log) && start.Some? && m.host.current == start.value.current
    // the starting release is in service and verified ready, or the exit code says that it may not be
    case InCutover =>
      code != EXIT_OK && start.Some? && (code != EXIT_ROLLBACK ==> Serves(m.host, m.log, start.value.current))
    // the target is in service at the same schema when the run last held the lock, whatever became of the clean-up
    case AfterCutover =>
      && (code == EXIT_OK || code == EXIT_CLEANUP || code == EXIT_TRANSPORT)
      && start.Some? && own.Some? && start.value.schema == job.head == own.value.schema
      && Serves(own.value, m.log, Release(job.sha))
  }

  predicate Reasonable(job: Job) {
    AllPlain(job.gates) && AllPlain(job.tooling) && AllPlain(job.preparation)
  }

  /** Once it holds the lock. */
  lemma LockedDeployIsSafe(h: Host, m: Machine, job: Job)
    requires AtStart(h, m) && Sound(h) && Reasonable(job) && NothingSwitched(m.log)
    ensures var r := DeployingLocked(m, job);
            && Good(h, r.m)
            && (r.ending.Killed? ==> r.m.turns == [])
            && (r.ending.Exit? ==>
                r.ending.reached != BeforeLock && DeployEnds(job, r.m, r.ending.code, r.ending.reached))
  {
    hide Good, Holds, Tended, Worked, AtStart, Since, Quiet, Publishing, Checkpointing, CuttingOver, RollingBack,
         CleaningUp, Reporting, Serves, Sound, AllPlain, NothingSwitched, StartOf, LastOwn, Pub, Remembers, Plain, Dry;
    AtStartIs(h, m);
    var p := Publishing(m, job.sha, job.tooling, job.preparation);
    PublishingKeeps(h, m, job.sha, job.tooling, job.preparation);
    TendedStays(h, m, p.m);
    DryIs(p.m, p.status);
    if p.status.Ok? {
      var k := Checkpointing(p.m, job.head);
      CheckpointingKeeps(h, p.m, job.head);
      TendedStays(h, p.m, k.m);
      DryIs(k.m, k.status);
      if k.status.Ok? {
        DeployCutsOver(h, k.m, job);
      } else {
        AtStartIs(h, k.m);
      }
    } else {
      AtStartIs(h, p.m);
    }
  }

  lemma AtStartIs(h: Host, m: Machine)
    requires AtStart(h, m)
    ensures Holds(h, m) && Good(h, m) && m.mine && StartOf(m.log).Some?
    ensures m.host.current == StartOf(m.log).value.current && m.host.schema == StartOf(m.log).value.schema
    ensures LastOwn(m.log) == Some(m.host)
  {
  }

  lemma DryIs(m: Machine, status: Status)
    requires Dry(m, status)
    ensures status.Gone? ==> m.turns == []
  {
  }

  lemma TendedStays(h: Host, m: Machine, n: Machine)
    requires AtStart(h, m) && Tended(h, m, n) && Holds(h, n) && n.host.current == m.host.current
             && n.host.schema == m.host.schema
    ensures AtStart(h, n) && (NothingSwitched(m.log) ==> NothingSwitched(n.log))
  {
    TendedHolds(h, m, n);
    AtStartLasts(h, m, n);
    if NothingSwitched(m.log) {
      QuietSwitchesNothing(m, n);
    }
  }

  /** The cutover of a deploy, from the checkpoint on. */
  lemma DeployCutsOver(h: Host, m: Machine, job: Job)
    requires AtStart(h, m) && Sound(h) && m.host.previous == Some(m.host.current) && job.head == m.host.schema
    requires Release(job.sha) in m.host.trees
    ensures var c := CuttingOver(m, Release(job.sha), EXIT_READINESS);
            && Good(h, c.m) && (c.status.Gone? ==> c.m.turns == [])
            && (c.status.Failed? ==>
                  var b := RollingBack(c.m);
                  && Good(h, b.m) && (b.status.Gone? ==> b.m.turns == [])
                  && (!b.status.Gone? ==>
                      DeployEnds(job, b.m, if b.status.Ok? then c.code else EXIT_ROLLBACK, InCutover)))
            && (c.status.Ok? ==>
                  var u := CleaningUp(c.m);
                  && Good(h, u.m) && (u.status.Gone? ==> u.m.turns == [])
                  && (u.status.Failed? ==> DeployEnds(job, u.m, EXIT_CLEANUP, AfterCutover))
                  && (u.status.Ok? ==>
                        var r := Reporting(u.m);
                        && Good(h, r.m) && (r.ending.Killed? ==> r.m.turns == [])
                        && (r.ending.Exit? ==>
                            r.ending.reached == AfterCutover && DeployEnds(job, r.m, r.ending.code, AfterCutover))))
  {
    assert Plain(EXIT_READINESS);
    assert m.host.current == StartOf(m.log).value.current;
    hide Good, Holds, Tended, Worked, AtStart, Since, Quiet, CuttingOver, RollingBack, CleaningUp, Reporting,
         Serves, Sound, StartOf, LastOwn, Pub, Remembers, Dry, DeployEnds, Settled, Plain;
    CutOverKeepsStart(h, m, Release(job.sha), EXIT_READINESS);
    var c := CuttingOver(m, Release(job.sha), EXIT_READINESS);
    if c.status.Failed? {
      var b := RollingBack(c.m);
      EndsInCutover(job, b.m, StartOf(m.log).value, if b.status.Ok? then c.code else EXIT_ROLLBACK);
    } else if c.status.Ok? {
      DeployEndsLate(h, c.m, job);
    }
  }

  lemma EndsInCutover(job: Job, m: Machine, start: Host, code: nat)
    requires StartOf(m.log) == Some(start)
    requires code == EXIT_ROLLBACK || (Plain(code) && Serves(m.host, m.log, start.current))
    ensures DeployEnds(job, m, code, InCutover)
  {
  }

  lemma EndsAfterCutover(job: Job, m: Machine, code: nat)
    requires StartOf(m.log).Some? && LastOwn(m.log).Some?
             && StartOf(m.log).value.schema == job.head == LastOwn(m.log).value.schema
    requires Serves(LastOwn(m.log).value, m.log, Release(job.sha))
    requires code == EXIT_OK || code == EXIT_CLEANUP || code == EXIT_TRANSPORT
    ensures DeployEnds(job, m, code, AfterCutover)
  {
  }

  lemma DeployEndsLate(h: Host, m: Machine, job: Job)
    requires Holds(h, m) && StartOf(m.log).Some? && StartOf(m.log).value.schema == m.host.schema == job.head
    requires Serves(m.host, m.log, Release(job.sha))
    ensures var u := CleaningUp(m);
            && Good(h, u.m) && (u.status.Gone? ==> u.m.turns == [])
            && (u.status.Failed? ==> DeployEnds(job, u.m, EXIT_CLEANUP, AfterCutover))
            && (u.status.Ok? ==>
                  var r := Reporting(u.m);
                  && Good(h, r.m) && (r.ending.Killed? ==> r.m.turns == [])
                  && (r.ending.Exit? ==>
                      r.ending.reached == AfterCutover && DeployEnds(job, r.m, r.ending.code, AfterCutover)))
  {
    hide Good, Holds, Tended, CleaningUp, Reporting, Serves, StartOf, LastOwn, Dry, DeployEnds;
    var u := CleaningUp(m);
    CleaningUpKeeps(h, m);
    LateEnding(h, m, u.m, Release(job.sha));
    DryIs(u.m, u.status);
    if u.status.Failed? {
      EndsAfterCutover(job, u.m, EXIT_CLEANUP);
    } else if u.status.Ok? {
      ReportingKeeps(h, u.m, Release(job.sha));
      var r := Reporting(u.m);
      if r.ending.Exit? {
        EndsAfterCutover(job, r.m, r.ending.code);
      }
    }
  }

  /** The cutover with the rollback after it, from a host whose memory is its `current`. */
  lemma CutOverKeepsStart(h: Host, m: Machine, target: Tree, refused: nat)
    requires AtStart(h, m) && Sound(h) && m.host.previous == Some(m.host.current) && Plain(refused)
    requires target.Release? && target in m.host.trees
    ensures var c := CuttingOver(m, target, refused);
            && Holds(h, c.m) && Good(h, c.m) && (c.status.Gone? ==> c.m.turns == [])
            && StartOf(c.m.log) == StartOf(m.log)
            && c.m.host.schema == m.host.schema && StartOf(m.log).Some? && StartOf(m.log).value.schema == m.host.schema
            && (c.status.Ok? ==> Serves(c.m.host, c.m.log, target))
            && (c.status.Failed? ==>
                  var b := RollingBack(c.m);
                  && Plain(c.code) && Holds(h, b.m) && Good(h, b.m) && (b.status.Gone? ==> b.m.turns == [])
                  && StartOf(b.m.log) == StartOf(m.log)
                  && (b.status.Ok? ==> Serves(b.m.host, b.m.log, StartOf(m.log).value.current)))
  {
    AtStartIs(h, m);
    CurrentIsPub(h, m);
    assert Pub(m, target);
    hide Good, Holds, AtStart, CuttingOver, RollingBack, Serves, Sound, StartOf, LastOwn, Pub, Plain, Dry, Worked;
    var c := CuttingOver(m, target, refused);
    CuttingOverKeeps(h, m, target, refused);
    DryIs(c.m, c.status);
    WorkedFurther(h, m, c.m);
    PubLasts(h, m, c.m, m.host.current);
    if c.status.Failed? {
      RollingBackKeeps(h, c.m);
      var b := RollingBack(c.m);
      DryIs(b.m, b.status);
      WorkedFurther(h, c.m, b.m);
    }
  }

  lemma WorkedFurther(h: Host, m: Machine, n: Machine)
    requires Worked(h, m, n) && StartOf(m.log).Some?
    ensures Holds(h, n) && Good(h, n) && StartOf(n.log) == StartOf(m.log) && n.host.schema == m.host.schema
  {
  }

  /** After a cutover that went well, and whatever the clean-up did. */
  predicate Settled(h: Host, n: Machine, start: Host) {
    Good(h, n) && StartOf(n.log) == Some(start) && LastOwn(n.log).Some? && LastOwn(n.log).value.schema == start.schema
  }

  lemma LateEnding(h: Host, m: Machine, n: Machine, target: Tree)
    requires Holds(h, m) && StartOf(m.log).Some? && StartOf(m.log).value.schema == m.host.schema
             && Serves(m.host, m.log, target)
    requires Tended(h, m, n) && n.host == m.host.(previous := n.host.previous, lock := n.host.lock)
    ensures Settled(h, n, StartOf(m.log).value) && StartOf(n.log) == StartOf(m.log) && Good(h, n)
    ensures LastOwn(n.log).Some? && Serves(LastOwn(n.log).value, n.log, target)
            && LastOwn(n.log).value.schema == m.host.schema
  {
    TendedHolds(h, m, n);
    ReadyLasts(m, n, target);
    hide Good, FoundReady;
  }

  lemma ReportingKeeps(h: Host, m: Machine, target: Tree)
    requires Good(h, m) && !m.mine && StartOf(m.log).Some? && LastOwn(m.log).Some?
             && Serves(LastOwn(m.log).value, m.log, target)
    ensures var r := Reporting(m);
            && Good(h, r.m) && (r.ending.Killed? ==> r.m.turns == []) && StartOf(r.m.log) == StartOf(m.log)
            && LastOwn(r.m.log) == LastOwn(m.log)
            && (r.ending.Exit? ==>
                r.ending.reached == AfterCutover && (r.ending.code == EXIT_OK || r.ending.code == EXIT_TRANSPORT))
            && Serves(LastOwn(r.m.log).value, r.m.log, target)
  {
    AskedKeeps(h, m, CapturePointer);
    var a := Asked(m, CapturePointer);
    LookedIsGood(h, m, a.m);
    assert StartOf(a.m.log) == StartOf(m.log);
    assert LastOwn(a.m.log) == LastOwn(m.log);
    ReadyLasts(m, a.m, target);
    hide Good, FoundReady, Asked, Quiet, StartOf, LastOwn, Since, Looked;
  }

  /**
   * A deploy that fails before the cutover has switched nothing; one that fails in it ends with the starting release in
   * service and verified ready, or says `EXIT_ROLLBACK`; one past it has the target in service at the same schema. And
   * nothing is switched or restarted before every check of the preparation has passed and the backup was reported as
   * done, under the lock; one that was not ends the run with `EXIT_CHECKPOINT`.
   */
  lemma DeployIsSafe(h: Host, turns: seq<Turn>, job: Job)
    requires Sound(h) && Reasonable(job)
    ensures var r := Deploying(Fresh(h, turns), job);
            && Lawful(h, r.m.log) && r.m.host == LastHost(h, r.m.log)
            && (r.ending.Killed? ==> r.m.turns == [])
            && (r.ending.Exit? ==> DeployEnds(job, r.m, r.ending.code, r.ending.reached))
            && ReleaseScript.ReadsPrepared(r.m.log, r.ending, job)
  {
    var m := Fresh(h, turns);
    FreshIsGood(h, turns);
    FreshFollows(h, turns, job);
    hide ReleaseScript.ReadsPrepared;
    hide Good, Looked, Since, Quiet, Gating, DeployingLocked, Sound, AllPlain, NothingSwitched, StartOf, LastOwn, Did,
         Fresh, StageAfter, Acts, Lawful;
    var g := Gating(m, job.gates);
    GatingKeeps(h, m, job.gates);
    LookedStage(h, m, g.m);
    assert g.status.Failed? ==> Plain(g.code) by { PlainAmong(job.gates); }
    if g.status.Ok? {
      LockTaken(h, g.m);
      var l := Did(g.m, MakeLock);
      QuietSwitchesNothing(g.m, l.m);
      if l.status.Ok? {
        JustLocked(h, l.m);
        LockedDeployIsSafe(h, l.m, job);
        GoodIsLawful(h, DeployingLocked(l.m, job).m);
      } else {
        GoodIsLawful(h, l.m);
      }
    } else {
      GoodIsLawful(h, g.m);
    }
  }

  lemma FreshFollows(h: Host, turns: seq<Turn>, job: Job)
    ensures var r := Deploying(Fresh(h, turns), job); ReleaseScript.ReadsPrepared(r.m.log, r.ending, job)
  {
    hide Deploying, ReleaseScript.ReadsPrepared;
    ReleaseScript.DeployFollowsItsScript(h, turns, job);
  }

  lemma PlainAmong(codes: seq<nat>)
    requires AllPlain(codes)
    ensures forall c :: c in codes ==> Plain(c)
  {
  }

  lemma GoodIsLawful(h: Host, m: Machine)
    requires Good(h, m)
    ensures Lawful(h, m.log) && m.host == LastHost(h, m.log)
  {
  }

  lemma JustLocked(h: Host, m: Machine)
    requires Good(h, m) && m.mine && StartOf(m.log) == Some(m.host)
    ensures AtStart(h, m)
  {
  }

  lemma LookedStage(h: Host, m: Machine, n: Machine)
    requires Looked(h, m, n) && !m.mine && NothingSwitched(m.log)
    ensures Good(h, n) && !n.mine && StageAfter(Acts(n.log)) == StageAfter(Acts(m.log)) && NothingSwitched(n.log)
            && ReleasesStay(m.host, n.host)
  {
    hide Good, StageAfter, Acts, LastOwn;
  }

  // ---- rollback ------------------------------------------------------------------------------------

  /** The run's last command gave up its lock. */
  predicate Tidy(log: seq<Entry>) {
    log != [] && log[|log| - 1].command.RemoveLock? && log[|log| - 1].ok
  }

  /** What an ended rollback guarantees, by how far it got. */
  ghost predicate RollbackEnds(target: Tree, m: Machine, code: nat, reached: Reached) {
    var start, own := StartOf(m.log), LastOwn(m.log);
    match reached
    case BeforeLock => Plain(code) && NothingSwitched(m.log)
    case BeforeCutover => Plain(code) && NothingSwitched(m.log) && start.Some? && m.host.current == start.value.current
    // as for a deploy, unless giving up the lock failed: that error replaces the one that would tell
    case InCutover =>
      && code != EXIT_OK && start.Some? && own.Some?
      && (Tidy(m.log) && code != EXIT_ROLLBACK ==> Serves(own.value, m.log, start.value.current))
      && (!Tidy(m.log) ==> code == EXIT_TRANSPORT)
    case AfterCutover =>
      && (code == EXIT_OK || code == EXIT_TRANSPORT)
      && start.Some? && own.Some? && own.value.schema == start.value.schema
      && Serves(own.value, m.log, target)
  }

  lemma TestFinds(h: Host, m: Machine, target: Tree)
    requires Good(h, m) && !m.mine
    ensures var a := Did(m, TestPresent(target));
            && Good(h, a.m) && !a.m.mine && Dry(a.m, a.status) && Quiet(m, a.m) && m.log <= a.m.log
            && StageAfter(Acts(a.m.log)) == StageAfter(Acts(m.log))
            && (a.status.Ok? ==> target in a.m.host.trees)
  {
    assert Allowed(m, TestPresent(target));
    DidKeeps(h, m, TestPresent(target));
    DidIs(m, TestPresent(target));
    if m.turns != [] {
      TestTells(EntryOf(m, TestPresent(target)).before, target, m.turns[0].fate);
    }
    hide Did, Acts, StageAfter, LastOwn, StartOf, Lawful, ReleasesStay, Good, Perform, ActOf, Meanwhile, Since, Quiet;
  }

  lemma TestTells(g: Host, target: Tree, fate: Fate)
    ensures Perform(g, TestPresent(target), fate).1 ==> target in Perform(g, TestPresent(target), fate).0.trees
  {
  }

  lemma FindingKeeps(h: Host, m: Machine, target: Tree)
    requires Good(h, m) && !m.mine && NothingSwitched(m.log) && target.Release?
    ensures var f := Finding(m, target);
            && Good(h, f.m) && !f.m.mine && (f.status.Gone? ==> f.m.turns == []) && NothingSwitched(f.m.log)
            && StageAfter(Acts(f.m.log)) == StageAfter(Acts(m.log))
            && (f.status.Ok? ==> target in f.m.host.trees)
  {
    TestFinds(h, m, target);
    var a := Did(m, TestPresent(target));
    QuietSwitchesNothing(m, a.m);
    hide Did, Good, Quiet, NothingSwitched, Acts, StageAfter, Looked, Gating;
    if a.status.Ok? {
      GatingKeeps(h, a.m, [EXIT_TRANSPORT, EXIT_TRANSPORT]);
      LookedStage(h, a.m, Gating(a.m, [EXIT_TRANSPORT, EXIT_TRANSPORT]).m);
    }
  }

  lemma TidyIff(h: Host, m: Machine)
    requires Holds(h, m)
    ensures var u := Unlocking(m); (u.status.Ok? ==> Tidy(u.m.log)) && (u.status.Failed? ==> !Tidy(u.m.log))
  {
    hide Tended, Touches;
    DidIs(m, ForgetPrevious);
    DidTend(h, m, ForgetPrevious);
    DidIs(Did(m, ForgetPrevious).m, RemoveLock);
    hide Did, Good;
  }

  lemma UnlockingEnds(h: Host, m: Machine)
    requires Holds(h, m) && StartOf(m.log).Some?
    ensures var u := Unlocking(m);
            && Good(h, u.m) && (u.status.Gone? ==> u.m.turns == []) && StartOf(u.m.log) == StartOf(m.log)
            && LastOwn(u.m.log) == Some(u.m.host)
            && u.m.host == m.host.(previous := u.m.host.previous, lock := u.m.host.lock)
            && (u.status.Ok? ==> !u.m.mine && Tidy(u.m.log)) && (u.status.Failed? ==> !Tidy(u.m.log))
            && Quiet(m, u.m) && m.log <= u.m.log && Tended(h, m, u.m)
  {
    hide Unlocking, Holds, Good, Quiet, Tidy;
    UnlockingKeeps(h, m);
    TidyIff(h, m);
    TendedHolds(h, m, Unlocking(m).m);
  }

  lemma FailureEnds(h: Host, m: Machine, code: nat, start: Host, target: Tree)
    requires Holds(h, m) && Plain(code) && StartOf(m.log) == Some(start)
    requires var b := RollingBack(m);
             && Holds(h, b.m) && (b.status.Gone? ==> b.m.turns == []) && StartOf(b.m.log) == Some(start) && Good(h, b.m)
             && (b.status.Ok? ==> Serves(b.m.host, b.m.log, start.current))
    ensures var r := AfterFailure(m, code);
            && Good(h, r.m) && (r.ending.Killed? ==> r.m.turns == [])
            && (r.ending.Exit? ==> r.ending.reached == InCutover && RollbackEnds(target, r.m, r.ending.code, InCutover))
  {
    hide Unlocking, RollingBack, Holds, Good, Quiet, Tidy, StartOf, LastOwn, Tended, Serves, Plain, RollbackEnds;
    var b := RollingBack(m);
    UnlockingEnds(h, b.m);
    var u := Unlocking(b.m);
    if b.status.Ok? {
      ServesOn(b.m, u.m, start.current);
    }
    if !b.status.Gone? && !u.status.Gone? {
      var ending := if !u.status.Ok? then EXIT_TRANSPORT else if b.status.Ok? then code else EXIT_ROLLBACK;
      EndsRolledBack(u.m, ending, start, target);
    }
  }

  lemma ServesOn(m: Machine, n: Machine, tree: Tree)
    requires Serves(m.host, m.log, tree) && m.log <= n.log && Quiet(m, n)
    requires n.host.current == m.host.current && n.host.service == m.host.service
    ensures Serves(n.host, n.log, tree)
  {
    ReadyLasts(m, n, tree);
    hide FoundReady;
  }

  lemma EndsRolledBack(m: Machine, code: nat, start: Host, target: Tree)
    requires StartOf(m.log) == Some(start) && LastOwn(m.log) == Some(m.host)
    requires if !Tidy(m.log) then code == EXIT_TRANSPORT
             else code == EXIT_ROLLBACK || (Plain(code) && Serves(m.host, m.log, start.current))
    ensures RollbackEnds(target, m, code, InCutover)
  {
  }

  lemma LockedRollbackIsSafe(h: Host, m: Machine, target: Tree)
    requires AtStart(h, m) && Sound(h) && NothingSwitched(m.log) && target.Release? && target in m.host.trees
    ensures var r := RollingBackLocked(m, target);
            && Good(h, r.m) && (r.ending.Killed? ==> r.m.turns == [])
            && (r.ending.Exit? ==>
                r.ending.reached != BeforeLock && RollbackEnds(target, r.m, r.ending.code, r.ending.reached))
  {
    hide Did, Good, Holds, Tended, AtStart, Since, Quiet, CuttingOver, AfterFailure, Unlocking, Serves, Sound,
         NothingSwitched, StartOf, LastOwn, RollbackEnds, Reporting, Dry, Touches;
    AtStartIs(h, m);
    var s := Did(m, SavePrevious);
    DidTend(h, m, SavePrevious);
    DryIs(s.m, s.status);
    if !s.status.Gone? {
      SaveTouches(m.host, s.m.host, s.status.Ok?);
      TendedStays(h, m, s.m);
      AtStartIs(h, s.m);
      if s.status.Failed? {
        UnlockingEnds(h, s.m);
        EarlyEnds(s.m, Unlocking(s.m).m, target);
      } else {
        RollbackCutsOver(h, s.m, target);
      }
    } else {
      HoldsIs(h, m);
    }
  }

  lemma SaveTouches(g: Host, n: Host, ok: bool)
    requires Touches(g, SavePrevious, n, ok)
    ensures n == g.(previous := n.previous) && (ok ==> n.previous == Some(n.current))
  {
  }

  lemma EarlyEnds(m: Machine, n: Machine, target: Tree)
    requires NothingSwitched(m.log) && m.log <= n.log && Quiet(m, n) && StartOf(n.log) == StartOf(m.log)
             && StartOf(m.log).Some?
    requires n.host.current == m.host.current == StartOf(m.log).value.current
    ensures RollbackEnds(target, n, EXIT_TRANSPORT, BeforeCutover)
  {
    QuietSwitchesNothing(m, n);
  }

  lemma RollbackCutsOver(h: Host, m: Machine, target: Tree)
    requires AtStart(h, m) && Sound(h) && target.Release? && target in m.host.trees
             && m.host.previous == Some(m.host.current)
    ensures var c := CuttingOver(m, target, EXIT_TRANSPORT);
            && Good(h, c.m) && (c.status.Gone? ==> c.m.turns == [])
            && (c.status.Failed? ==>
                  var r := AfterFailure(c.m, c.code);
                  && Good(h, r.m) && (r.ending.Killed? ==> r.m.turns == [])
                  && (r.ending.Exit? ==>
                      r.ending.reached == InCutover && RollbackEnds(target, r.m, r.ending.code, InCutover)))
            && (c.status.Ok? ==>
                  var u := Unlocking(c.m);
                  && Good(h, u.m) && (u.status.Gone? ==> u.m.turns == [])
                  && (u.status.Failed? ==> RollbackEnds(target, u.m, EXIT_TRANSPORT, AfterCutover))
                  && (u.status.Ok? ==>
                        var r := Reporting(u.m);
                        && Good(h, r.m) && (r.ending.Killed? ==> r.m.turns == [])
                        && (r.ending.Exit? ==>
                              && r.ending.reached == AfterCutover
                              && RollbackEnds(target, r.m, r.ending.code, AfterCutover))))
  {
    assert Plain(EXIT_TRANSPORT);
    assert m.host.current == StartOf(m.log).value.current;
    hide Good, Holds, Tended, AtStart, Since, Quiet, CuttingOver, RollingBack, AfterFailure, Unlocking, Reporting,
         Serves, Sound, StartOf, LastOwn, RollbackEnds, Plain, Tidy;
    CutOverKeepsStart(h, m, target, EXIT_TRANSPORT);
    var c := CuttingOver(m, target, EXIT_TRANSPORT);
    if c.status.Failed? {
      FailureEnds(h, c.m, c.code, StartOf(m.log).value, target);
    } else if c.status.Ok? {
      UnlockingEnds(h, c.m);
      var u := Unlocking(c.m);
      LateEnding(h, c.m, u.m, target);
      if u.status.Failed? {
        EndsLate(u.m, EXIT_TRANSPORT, target);
      } else if u.status.Ok? {
        ReportingKeeps(h, u.m, target);
        var r := Reporting(u.m);
        if r.ending.Exit? {
          EndsLate(r.m, r.ending.code, target);
        }
      }
    }
  }

  lemma EndsLate(m: Machine, code: nat, target: Tree)
    requires StartOf(m.log).Some? && LastOwn(m.log).Some? && LastOwn(m.log).value.schema == StartOf(m.log).value.schema
    requires Serves(LastOwn(m.log).value, m.log, target) && (code == EXIT_OK || code == EXIT_TRANSPORT)
    ensures RollbackEnds(target, m, code, AfterCutover)
  {
  }

  /**
   * The same for the rollback command: as long as it gives up its lock in good order, a failure in the cutover leaves
   * the starting release in service and verified ready, or says `EXIT_ROLLBACK`.
   */
  lemma RollbackIsSafe(h: Host, turns: seq<Turn>, sha: string)
    requires Sound(h)
    ensures var r := RollingBackTo(Fresh(h, turns), sha);
            && Lawful(h, r.m.log) && r.m.host == LastHost(h, r.m.log)
            && (r.ending.Killed? ==> r.m.turns == [])
            && (r.ending.Exit? ==> RollbackEnds(Release(sha), r.m, r.ending.code, r.ending.reached))
  {
    var m, target := Fresh(h, turns), Release(sha);
    FreshIsGood(h, turns);
    assert !m.mine;
    hide Good, Since, Quiet, Finding, RollingBackLocked, Sound, NothingSwitched, StartOf, LastOwn, Did, Fresh,
         StageAfter, Acts, Lawful;
    var f := Finding(m, target);
    FindingKeeps(h, m, target);
    GoodIsLawful(h, f.m);
    if f.status.Ok? {
      LockTaken(h, f.m);
      var l := Did(f.m, MakeLock);
      QuietSwitchesNothing(f.m, l.m);
      GoodIsLawful(h, l.m);
      if l.status.Ok? {
        JustLocked(h, l.m);
        assert target in l.m.host.trees;
        LockedRollbackIsSafe(h, l.m, target);
        GoodIsLawful(h, RollingBackLocked(l.m, target).m);
      }
    }
  }

  // ---- the error that hides a failed rollback ------------------------------------------------------

  /** The rollback command when its cutover block is over. */
  function CutoverOver(m: Machine, target: Tree): Machine {
    CuttingOver(Did(Did(Finding(m, target).m, MakeLock).m, SavePrevious).m, target, EXIT_TRANSPORT).m
  }

  lemma UnlockWorksIff(h: Host, m: Machine)
    requires Holds(h, m) && !Unlocking(m).status.Gone?
    ensures m.turns != []
    ensures Unlocking(m).status.Ok? <==> m.turns[0].fate.Works? && |m.turns| >= 2 && m.turns[1].fate.Works?
  {
    DidTend(h, m, ForgetPrevious);
    DidIs(m, ForgetPrevious);
    var f := Did(m, ForgetPrevious);
    DidIs(f.m, RemoveLock);
    if f.status.Ok? {
      assert Holds(h, f.m) && f.m.host.lock;
      assert f.m.turns == m.turns[1..];
    }
    hide Good, Did, Tended, Touches;
  }

  lemma HiddenByUnlock(h: Host, m: Machine, target: Tree)
    requires AtStart(h, m) && Sound(h) && target.Release? && target in m.host.trees
             && m.host.previous == Some(m.host.current)
    ensures var c := CuttingOver(m, target, EXIT_TRANSPORT);
            c.status.Failed? ==>
              var b, r := RollingBack(c.m), AfterFailure(c.m, c.code);
              !b.status.Ok? && r.ending.Exit? ==>
                && b.m.turns != []
                && (r.ending.code != EXIT_ROLLBACK <==>
                    !(b.m.turns[0].fate.Works? && |b.m.turns| >= 2 && b.m.turns[1].fate.Works?))
  {
    assert Plain(EXIT_TRANSPORT);
    hide Good, Holds, AtStart, CuttingOver, RollingBack, Unlocking, Serves, Sound, StartOf, Plain;
    CutOverKeepsStart(h, m, target, EXIT_TRANSPORT);
    var c := CuttingOver(m, target, EXIT_TRANSPORT);
    if c.status.Failed? {
      var b := RollingBack(c.m);
      if b.status.Failed? && !Unlocking(b.m).status.Gone? {
        UnlockWorksIff(h, b.m);
      }
    }
  }

  lemma LockedMaskedIff(h: Host, m: Machine, target: Tree)
    requires AtStart(h, m) && Sound(h) && target.Release? && target in m.host.trees
    requires RollingBackLocked(m, target).ending.Exit? && RollingBackLocked(m, target).ending.reached == InCutover
    ensures var r, b :=
            RollingBackLocked(m, target), RollingBack(CuttingOver(Did(m, SavePrevious).m, target, EXIT_TRANSPORT).m);
            !b.status.Ok? ==>
              && b.m.turns != []
              && (r.ending.code != EXIT_ROLLBACK <==>
                  !(b.m.turns[0].fate.Works? && |b.m.turns| >= 2 && b.m.turns[1].fate.Works?))
  {
    hide Did, Good, Holds, Tended, AtStart, Since, Quiet, CuttingOver, AfterFailure, Unlocking, Sound, StartOf, LastOwn,
         RollingBack, Dry, Touches, NothingSwitched;
    AtStartIs(h, m);
    var s := Did(m, SavePrevious);
    DidTend(h, m, SavePrevious);
    if s.status.Ok? {
      SaveTouches(m.host, s.m.host, s.status.Ok?);
      TendedStays(h, m, s.m);
      HiddenByUnlock(h, s.m, target);
    }
  }

  /**
   * When the rollback inside a rollback command fails, the exit code does not say so if and only if one of the two
   * commands that give up the lock meets anything but success.
   */
  lemma MaskedIff(h: Host, turns: seq<Turn>, sha: string)
    requires Sound(h)
    requires RollingBackTo(Fresh(h, turns), sha).ending.Exit?
             && RollingBackTo(Fresh(h, turns), sha).ending.reached == InCutover
    ensures var r, b := RollingBackTo(Fresh(h, turns), sha), RollingBack(CutoverOver(Fresh(h, turns), Release(sha)));
            !b.status.Ok? ==>
              && b.m.turns != []
              && (r.ending.code != EXIT_ROLLBACK <==>
                    !(b.m.turns[0].fate.Works? && |b.m.turns| >= 2 && b.m.turns[1].fate.Works?))
  {
    var m, target := Fresh(h, turns), Release(sha);
    FreshIsGood(h, turns);
    assert !m.mine;
    hide Good, Since, Quiet, Finding, RollingBackLocked, CuttingOver, RollingBack, Sound, NothingSwitched, StartOf,
         LastOwn, Did, Fresh, StageAfter, Acts, AtStart, ReleasesStay;
    var f := Finding(m, target);
    FindingKeeps(h, m, target);
    LockTaken(h, f.m);
    var l := Did(f.m, MakeLock);
    StaysThere(f.m.host, l.m.host, target);
    JustLocked(h, l.m);
    LockedMaskedIff(h, l.m, target);
  }

  lemma StaysThere(g: Host, h: Host, t: Tree)
    requires ReleasesStay(g, h) && t.Release? && t in g.trees
    ensures t in h.trees
  {
  }

  // ---- a rollback that leaves another release live and does not say so ---------------------------------

  lemma StepWorks(m: Machine, c: Command, all: seq<Turn>, k: nat)
    requires k < |all| && m.turns == all[k..] && all[k].fate.Works?
    requires m.mine && StartOf(m.log).Some? && Can(m.host, c) && !c.RemoveLock?
    ensures var a := Did(m, c);
            && a.status.Ok? && a.m.mine && a.m.host == Effect(m.host, c) && a.m.turns == all[k + 1..]
            && StartOf(a.m.log) == StartOf(m.log)
  {
    SnocLog(m.log, EntryOf(m, c));
    hide StartOf, LastOwn, Acts, StageAfter;
  }

  lemma StepFails(m: Machine, c: Command, all: seq<Turn>, k: nat)
    requires k < |all| && m.turns == all[k..] && all[k].fate == Fails(Untouched)
    requires m.mine && StartOf(m.log).Some?
    ensures var a := Did(m, c);
            && a.status.Failed? && a.m.mine && a.m.host == m.host && a.m.turns == all[k + 1..]
            && StartOf(a.m.log) == StartOf(m.log)
  {
    SnocLog(m.log, EntryOf(m, c));
    hide StartOf, LastOwn, Acts, StageAfter;
  }

  lemma NobodyMeanwhile(h: Host)
    ensures Meanwhile(h, h) == h
  {
  }

  /** Before the lock, while nobody else does anything. */
  lemma StepReads(m: Machine, c: Command, all: seq<Turn>, k: nat)
    requires k < |all| && m.turns == all[k..] && all[k].fate.Works? && all[k].elsewhere == m.host
    requires !m.mine && StartOf(m.log).None? && Can(m.host, c) && Reads(c)
    ensures var a := Did(m, c);
            && a.status.Ok? && !a.m.mine && a.m.host == m.host && a.m.turns == all[k + 1..] && StartOf(a.m.log).None?
  {
    NobodyMeanwhile(m.host);
    SnocLog(m.log, EntryOf(m, c));
    hide StartOf, LastOwn, Acts, StageAfter, Meanwhile;
  }

  lemma StepLocks(m: Machine, all: seq<Turn>, k: nat)
    requires k < |all| && m.turns == all[k..] && all[k].fate.Works? && all[k].elsewhere == m.host
    requires !m.mine && StartOf(m.log).None? && !m.host.lock
    ensures var a := Did(m, MakeLock);
            && a.status.Ok? && a.m.mine && a.m.host == m.host.(lock := true) && a.m.turns == all[k + 1..]
            && StartOf(a.m.log) == Some(a.m.host)
  {
    NobodyMeanwhile(m.host);
    SnocLog(m.log, EntryOf(m, MakeLock));
    hide StartOf, LastOwn, Acts, StageAfter, Meanwhile;
  }

  /**
   * Eight commands that all go well, and three that fail having done
   * nothing: restart, reading the memory, forgetting it.
   */
  function Unlucky(h: Host): (turns: seq<Turn>)
    ensures |turns| == 11
    ensures forall k :: 0 <= k < 11 ==> turns[k] == Turn(if k < 8 then Works else Fails(Untouched), "", 0, h)
  {
    var well, ill := Turn(Works, "", 0, h), Turn(Fails(Untouched), "", 0, h);
    [well, well, well, well, well, well, well, well, ill, ill, ill]
  }

  lemma TwoGates(m: Machine)
    ensures var a := Asked(m, Gate(EXIT_TRANSPORT)); var b := Asked(a.m, Gate(EXIT_TRANSPORT));
            a.status.Ok? && b.status.Ok? ==>
                Gating(m, [EXIT_TRANSPORT, EXIT_TRANSPORT]) == Verdict(b.m, Ok, EXIT_TRANSPORT)
  {
    hide Asked;
    var codes := [EXIT_TRANSPORT, EXIT_TRANSPORT];
    var a := Asked(m, Gate(EXIT_TRANSPORT));
    assert codes[1..] == [EXIT_TRANSPORT] && codes[1..][1..] == [];
    assert a.status.Ok? ==> Gating(m, codes) == Gating(a.m, codes[1..]);
    var b := Asked(a.m, Gate(EXIT_TRANSPORT));
    assert b.status.Ok? ==> Gating(a.m, codes[1..]) == Gating(b.m, []);
  }

  lemma ProbesGoWell(h: Host, target: Tree)
    requires target in h.trees && !h.lock
    ensures var f := Finding(Fresh(h, Unlucky(h)), target); var l := Did(f.m, MakeLock);
            && f.status.Ok? && l.status.Ok? && l.m.mine && l.m.turns == Unlucky(h)[4..] && l.m.host == h.(lock := true)
            && StartOf(l.m.log) == Some(h.(lock := true))
  {
    var all := Unlucky(h);
    var m := Fresh(h, all);
    assert all[0..] == all && StartOf([]) == None;
    hide Did, StartOf, Gating, Unlucky;
    StepReads(m, TestPresent(target), all, 0);
    var a := Did(m, TestPresent(target));
    StepReads(a.m, Look(Gate(EXIT_TRANSPORT)), all, 1);
    var b := Asked(a.m, Gate(EXIT_TRANSPORT));
    StepReads(b.m, Look(Gate(EXIT_TRANSPORT)), all, 2);
    var c := Asked(b.m, Gate(EXIT_TRANSPORT));
    TwoGates(a.m);
    StepLocks(c.m, all, 3);
  }

  /** The cutover fails at the restart, after the switch. */
  lemma CutoverFails(m: Machine, target: Tree, h: Host)
    requires m.turns == Unlucky(h)[5..] && m.mine && StartOf(m.log).Some? && m.host.next.None?
    ensures var c := CuttingOver(m, target, EXIT_TRANSPORT);
            && c.status.Failed? && c.m.mine && c.m.turns == Unlucky(h)[9..] && c.m.host == m.host.(current := target)
            && StartOf(c.m.log) == StartOf(m.log)
  {
    var all := Unlucky(h);
    hide Did, StartOf, Unlucky, Verifying;
    StepWorks(m, Look(DatabaseReady(target)), all, 5);
    var d := Did(m, Look(DatabaseReady(target)));
    StepWorks(d.m, LinkNext(target), all, 6);
    var n := Did(d.m, LinkNext(target));
    StepWorks(n.m, SwapNext, all, 7);
    var w := Did(n.m, SwapNext);
    StepFails(w.m, Restart, all, 8);
  }

  lemma RollbackFails(m: Machine, h: Host, code: nat)
    requires m.turns == Unlucky(h)[9..] && m.mine && StartOf(m.log).Some?
    ensures var r := AfterFailure(m, code);
            r.ending == Exit(EXIT_TRANSPORT, InCutover) && r.m.host == m.host && StartOf(r.m.log) == StartOf(m.log)
  {
    hide Did, StartOf, Unlucky, Switching, Verifying;
    StepFails(m, Look(ReadPrevious), Unlucky(h), 9);
    var b := Did(m, Look(ReadPrevious));
    StepFails(b.m, ForgetPrevious, Unlucky(h), 10);
  }

  lemma LockedUnlucky(m: Machine, h: Host, target: Tree)
    requires m.turns == Unlucky(h)[4..] && m.mine && StartOf(m.log).Some? && m.host.next.None?
    ensures var r := RollingBackLocked(m, target);
            r.ending == Exit(EXIT_TRANSPORT, InCutover) && r.m.host.current == target
            && StartOf(r.m.log) == StartOf(m.log)
  {
    hide Did, StartOf, CuttingOver, AfterFailure, Unlucky;
    StepWorks(m, SavePrevious, Unlucky(h), 4);
    var s := Did(m, SavePrevious);
    CutoverFails(s.m, target, h);
    var c := CuttingOver(s.m, target, EXIT_TRANSPORT);
    RollbackFails(c.m, h, c.code);
  }

  /**
   * On any sound host with another published release: the cutover to it fails after the switch, the rollback fails, and
   * so does the first command of giving up the lock. The run ends with `EXIT_TRANSPORT`, and `current` is not what it
   * was.
   */
  lemma MaskedRollback(h: Host, sha: string)
    requires Sound(h) && !h.lock && h.next.None? && Release(sha) in h.trees && Release(sha) != h.current
    ensures var r := RollingBackTo(Fresh(h, Unlucky(h)), sha);
            && r.ending == Exit(EXIT_TRANSPORT, InCutover)
            && StartOf(r.m.log) == Some(h.(lock := true))
            && r.m.host.current == Release(sha) != h.current
  {
    hide Did, Finding, StartOf, Fresh, RollingBackLocked, Unlucky, Sound;
    ProbesGoWell(h, Release(sha));
    var l := Did(Finding(Fresh(h, Unlucky(h)), Release(sha)).m, MakeLock);
    LockedUnlucky(l.m, h, Release(sha));
  }
}
