// The commands of a deployment as one flat list, and what the first of them that fails makes of it.

module CredentialScript {
  import opened Text
  import opened CredentialHost
  import opened Credential
  import opened CredentialLaws
  import opened CredentialTheorems
  import opened CredentialRuns
  import opened CredentialWitnesses

  // ---- flat scripts ----------------------------------------------------------------------------------

  /** Single commands, under `set -e` or not. */
  predicate Flat(script: seq<Statement>) {
    forall i :: 0 <= i < |script| ==> script[i].Run? || script[i].Quiet?
  }

  /**
   * A flat script ran to its end if and only if every command under `set -e` worked; and when it stopped, it stopped at
   * the first that did not, with that command's exit code.
   */
  ghost predicate Ran(m: Machine, script: seq<Statement>, n: Machine) {
    && m.trace <= n.trace && n.misread == m.misread
    && var k := |n.trace| - |m.trace|;
       k <= |script| && k <= |m.fates| && n.fates == m.fates[k..] && GotTo(script, m.fates, k, n.status)
  }

  /** Commands that succeed on every host, if they run at all; the others can also fail for what they find. */
  predicate AlwaysCan(c: Command) {
    c.Check? || c.Configure? || c.Reload? || c.Restart? || c.RemoveNexts? || c.RemoveRecovery?
  }

  /** `k` commands ran, and this is why no more did. */
  predicate GotTo(script: seq<Statement>, fates: seq<Fate>, k: nat, status: Status)
    requires k <= |script| && k <= |fates|
  {
    match status
    case Running => k == |script| && Worked(script, fates, k)
    case Exited(code) => k >= 1 && Stops(script[k - 1], fates[k - 1], code) && Worked(script, fates, k - 1)
    case Dead => k == |fates| < |script| && Worked(script, fates, k)
  }

  /** A command under `set -e` that ends its script with this code. */
  predicate Stops(s: Statement, fate: Fate, code: nat) {
    s.Run? && s.code == code && (AlwaysCan(s.command) ==> fate.Fails?)
  }

  /** The first `k` commands under `set -e` worked. */
  predicate Worked(script: seq<Statement>, fates: seq<Fate>, k: nat)
    requires k <= |script| && k <= |fates|
  {
    forall i :: 0 <= i < k && script[i].Run? ==> fates[i].Works?
  }

  lemma {:induction false} FlatRuns(m: Machine, script: seq<Statement>)
    requires m.status == Running && Flat(script)
    ensures Ran(m, script, Exec(m, script))
    decreases |script|
  {
    if script == [] {
      assert Exec(m, script) == m by { hide Step; }
      hide *;
      RanNothing(m);
    } else {
      var n := Step(m, script[0]);
      var last := Exec(n, script[1..]);
      assert last == Exec(m, script) by { hide Step; }
      assert Flat(script[1..]) && (script[0].Run? || script[0].Quiet?);
      if m.fates == [] {
        assert n == m.(status := Dead);
        hide *;
        StuckExec(n, script[1..]);
        RanDead(m, script);
      } else {
        StepIs(m, script[0]);
        hide *;
        if n.status == Running {
          FlatRuns(n, script[1..]);
          RanOn(m, script, n, last);
        } else {
          StuckExec(n, script[1..]);
          RanOnce(m, script, n);
        }
      }
    }
  }

  lemma RanNothing(m: Machine)
    requires m.status == Running
    ensures Ran(m, [], m)
  {
  }

  lemma RanDead(m: Machine, script: seq<Statement>)
    requires script != [] && m.fates == []
    ensures Ran(m, script, m.(status := Dead))
  {
  }

  lemma RanOnce(m: Machine, script: seq<Statement>, n: Machine)
    requires script != [] && m.fates != [] && n.fates == m.fates[1..] && n.misread == m.misread
    requires |n.trace| == |m.trace| + 1 && n.trace[..|n.trace| - 1] == m.trace
    requires n.status.Exited? && Stops(script[0], m.fates[0], n.status.code)
    ensures Ran(m, script, n)
  {
  }

  lemma RanOn(m: Machine, script: seq<Statement>, n: Machine, last: Machine)
    requires script != [] && m.fates != [] && n.fates == m.fates[1..] && n.misread == m.misread
    requires |n.trace| == |m.trace| + 1 && n.trace[..|n.trace| - 1] == m.trace
    requires script[0].Run? ==> m.fates[0].Works?
    requires Ran(n, script[1..], last)
    ensures Ran(m, script, last)
  {
    hide GotTo;
    var k := |last.trace| - |n.trace|;
    assert m.trace <= n.trace;
    PrefixOfMore(m.trace, n.trace, last.trace);
    TailOfTail(m.fates, k);
    GotOn(script, m.fates, k, last.status);
  }

  lemma GotOn(script: seq<Statement>, fates: seq<Fate>, k: nat, status: Status)
    requires script != [] && fates != [] && k < |script| && k < |fates| && (script[0].Run? ==> fates[0].Works?)
    requires GotTo(script[1..], fates[1..], k, status)
    ensures GotTo(script, fates, k + 1, status)
  {
    hide Worked;
    WorkedOn(script, fates, k);
    if status.Exited? {
      WorkedOn(script, fates, k - 1);
      assert script[1..][k - 1] == script[k] && fates[1..][k - 1] == fates[k];
    }
  }

  lemma PrefixOfMore<T>(a: seq<T>, b: seq<T>, c: seq<T>)
    requires a <= b <= c
    ensures a <= c
  {
  }

  lemma TailOfTail<T>(s: seq<T>, k: nat)
    requires k < |s|
    ensures s[1..][k..] == s[k + 1..]
  {
  }

  lemma WorkedOn(script: seq<Statement>, fates: seq<Fate>, k: nat)
    requires k < |script| && k < |fates| && (script[0].Run? ==> fates[0].Works?)
    ensures Worked(script[1..], fates[1..], k) ==> Worked(script, fates, k + 1)
  {
    if Worked(script[1..], fates[1..], k) {
      forall i | 0 <= i < k + 1 && script[i].Run?
        ensures fates[i].Works?
      {
        if i > 0 {
          assert script[i] == script[1..][i - 1] && fates[i] == fates[1..][i - 1];
        }
      }
    }
  }

  lemma StepIs(m: Machine, s: Statement)
    requires m.status == Running && m.fates != [] && (s.Run? || s.Quiet?)
    ensures var n := Step(m, s);
            && n.trace[..|n.trace| - 1] == m.trace && |n.trace| == |m.trace| + 1 && n.fates == m.fates[1..]
            && n.misread == m.misread
            && (n.status == Running || (s.Run? && n.status == Exited(s.code)))
            && (n.status == Running && s.Run? ==> m.fates[0].Works?)
            && (n.status.Exited? && AlwaysCan(s.command) ==> m.fates[0].Fails?)
  {
  }

  // ---- the list of a deployment --------------------------------------------------------------------------

  const CONNECTED := [Run(Check, 255)]

  /** The backup of one file, as its probe reads: a copy and a mark, or the mark of an absent one. */
  function SaveScript(live: Files<Content>, misread: Files<bool>, f: File): seq<Statement> {
    if live.At(f) != Absent && !misread.At(f) then [Quiet(Check), Run(CopyOut(f), 1), Run(MarkPresent(f), 1)]
    else [Quiet(Check), Run(MarkAbsent(f), 1)]
  }

  /** Host name, account and unit; then the recovery directory, the three files, and the mark that all is there. */
  function PreparationScript(live: Files<Content>, misread: Files<bool>): seq<Statement> {
    [Run(Check, 255), Run(Check, 1), Run(Check, 1), Run(Check, 1)]
    + ([Run(Check, 255), Run(MakeRecovery, 77), Run(Check, 1), Run(Check, 1)]
       + (SaveScript(live, misread, Credential)
          + (SaveScript(live, misread, Dropin) + (SaveScript(live, misread, Config) + [Run(MarkComplete, 1)]))))
  }

  /**
   * The credential; the drop-in with its checks before and after the move; the configuration; then, one connection
   * each: the unit verifies (79), reload (80), enabled (81), loaded (82), the mapping (83), restart, ready (76), and
   * the capability (84).
   */
  function InstallScript(job: Job): seq<Statement> {
    (CONNECTED
     + [Run(Check, 1), Quiet(WriteNext(Credential, job.secret)), Quiet(Check), Quiet(Check),
        Run(MoveNext(Credential), 1)])
    + ((CONNECTED
        + [Run(Check, 1), Quiet(WriteNext(Dropin, job.payload)), Quiet(Check), Run(Check, 1), Run(Check, 1),
           Run(Check, 1), Run(Check, 1), Run(Check, 78), Run(CompareNext(Dropin, job.payload), 78),
           Run(MoveNext(Dropin), 1), Run(Check, 1), Run(Check, 1), Run(Check, 1), Run(Check, 78),
           Run(CompareLive(Dropin, job.payload), 78)])
       + ((CONNECTED + [Run(Configure(job.config), 1)])
          + ((CONNECTED + [Run(Check, 79)])
             + ((CONNECTED + [Run(Reload, 80)])
                + ((CONNECTED + [Run(Check, 81)])
                   + ((CONNECTED + [Run(Check, 82), Run(Check, 82)])
                      + ((CONNECTED
                          + [Run(Check, 83), Run(Check, 83), Run(Check, 83),
                             Run(CompareLive(Dropin, job.payload), 83), Run(Check, 83), Run(Check, 82), Run(Check, 83),
                             Run(Check, 83)])
                         + ((CONNECTED + [Run(Restart, 1)])
                            + ((CONNECTED + [Run(Check, 76)]) + (CONNECTED + [Run(Check, 84)]))))))))))
  }

  /** The `.next` files and the recovery material. */
  const CLEANUP_SCRIPT := [Run(Check, 255), Run(RemoveNexts, 1), Run(RemoveRecovery, 1)]

  // ---- a deployment is its list -----------------------------------------------------------------------------

  lemma SavingIs(m: Machine, f: File)
    requires m.status == Running
    ensures Step(m, BackUp(f)) == Exec(m, SaveScript(m.host.live, m.misread, f))
  {
    var script := SaveScript(m.host.live, m.misread, f);
    var p := Probe(m);
    assert Step(m, Quiet(Check)) == p;
    ExecOne(m, Quiet(Check));
    hide Exec, Step, Do, Probe;
    if m.host.live.At(f) != Absent && !m.misread.At(f) {
      assert script == [Quiet(Check)] + ([Run(CopyOut(f), 1)] + [Run(MarkPresent(f), 1)]);
      ExecConcat(m, [Quiet(Check)], [Run(CopyOut(f), 1)] + [Run(MarkPresent(f), 1)]);
      ExecConcat(p, [Run(CopyOut(f), 1)], [Run(MarkPresent(f), 1)]);
      RunOne(p, CopyOut(f), 1);
      RunOne(Do(p, CopyOut(f), 1), MarkPresent(f), 1);
    } else {
      assert script == [Quiet(Check)] + [Run(MarkAbsent(f), 1)];
      ExecConcat(m, [Quiet(Check)], [Run(MarkAbsent(f), 1)]);
      RunOne(p, MarkAbsent(f), 1);
    }
    BackUpUnfolds(m, f);
  }

  lemma RunOne(m: Machine, c: Command, code: nat)
    ensures Exec(m, [Run(c, code)]) == Do(m, c, code)
  {
    ExecOne(m, Run(c, code));
    hide Do;
  }

  lemma BackUpUnfolds(m: Machine, f: File)
    requires m.status == Running
    ensures var p := Probe(m);
            Step(m, BackUp(f))
            == if m.host.live.At(f) != Absent && !m.misread.At(f) then Do(Do(p, CopyOut(f), 1), MarkPresent(f), 1)
               else Do(p, MarkAbsent(f), 1)
  {
    hide Do, Probe;
  }

  /** A backup statement in front of a script is its list in front of that script, whatever machine it meets. */
  lemma SavingFirst(m: Machine, f: File, live: Files<Content>, misread: Files<bool>, rest: seq<Statement>)
    requires m.status == Running ==> m.host.live == live && m.misread == misread
    ensures Exec(m, [BackUp(f)] + rest) == Exec(m, SaveScript(live, misread, f) + rest)
    ensures var n := Exec(m, [BackUp(f)]); n.status == Running ==> n.host.live == live && n.misread == misread
    ensures Exec(m, [BackUp(f)] + rest) == Exec(Exec(m, [BackUp(f)]), rest)
  {
    ExecConcat(m, [BackUp(f)], rest);
    ExecConcat(m, SaveScript(live, misread, f), rest);
    ExecOne(m, BackUp(f));
    hide Exec, Step, SaveScript;
    if m.status == Running {
      SavingIs(m, f);
      StepKeepsLive(m, BackUp(f));
    } else {
      StuckExec(m, SaveScript(live, misread, f));
      StuckStep(m, BackUp(f));
    }
  }

  lemma SavingsAre(m: Machine, live: Files<Content>, misread: Files<bool>)
    requires m.status == Running ==> m.host.live == live && m.misread == misread
    ensures Exec(m, SAVING)
            == Exec(m, SaveScript(live, misread, Credential)
                       + (SaveScript(live, misread, Dropin)
                          + (SaveScript(live, misread, Config) + [Run(MarkComplete, 1)])))
  {
    var a, b, c := SaveScript(live, misread, Credential), SaveScript(live, misread, Dropin),
                   SaveScript(live, misread, Config);
    var end := [Run(MarkComplete, 1)];
    SavingSpelled();
    hide Exec, SaveScript;
    SavingFirst(m, Credential, live, misread, [BackUp(Dropin)] + ([BackUp(Config)] + end));
    var m1 := Exec(m, [BackUp(Credential)]);
    SavingFirst(m1, Dropin, live, misread, [BackUp(Config)] + end);
    var m2 := Exec(m1, [BackUp(Dropin)]);
    SavingFirst(m2, Config, live, misread, end);
    SavingFirst(m, Credential, live, misread, b + (c + end));
    SavingFirst(m1, Dropin, live, misread, c + end);
  }

  lemma {:induction false} SshAllIs(m: Machine, scripts: seq<seq<Statement>>)
    ensures SshAll(m, scripts) == Exec(m, Joined(scripts))
    decreases |scripts|
  {
    if scripts == [] {
    } else if m.status != Running {
      StuckExec(m, Joined(scripts));
    } else {
      hide Exec;
      SshAllIs(Ssh(m, scripts[0]), scripts[1..]);
      ExecConcat(m, [CONNECT] + scripts[0], Joined(scripts[1..]));
    }
  }

  /** Scripts one after another, each with its connection. */
  function Joined(scripts: seq<seq<Statement>>): seq<Statement> {
    if scripts == [] then [] else ([CONNECT] + scripts[0]) + Joined(scripts[1..])
  }

  lemma PreparationIs(m: Machine)
    requires m.status == Running
    ensures Exec(m, PreparationScript(m.host.live, m.misread)) == Ssh(Ssh(m, IDENTITY_CHECK), BACKUP)
  {
    var first := [Run(Check, 255), Run(Check, 1), Run(Check, 1), Run(Check, 1)];
    var make := [Run(Check, 255), Run(MakeRecovery, 77), Run(Check, 1), Run(Check, 1)];
    var checked := Ssh(m, IDENTITY_CHECK);
    assert [CONNECT] + IDENTITY_CHECK == first;
    assert [CONNECT] + BACKUP == make + SAVING;
    assert AllKeepLive(first) && AllKeepLive(make);
    var live, misread := m.host.live, m.misread;
    var savings := SaveScript(live, misread, Credential)
                   + (SaveScript(live, misread, Dropin) + (SaveScript(live, misread, Config) + [Run(MarkComplete, 1)]));
    assert PreparationScript(live, misread) == first + (make + savings);
    hide Exec, SaveScript, AllKeepLive, PreparationScript, BACKUP, IDENTITY_CHECK, SAVING;
    ExecKeepsLive(m, first);
    var made := Exec(checked, make);
    ExecKeepsLive(checked, make);
    SavingsAre(made, live, misread);
    ExecConcat(m, first, make + savings);
    ExecConcat(checked, make, savings);
    ExecConcat(checked, make, SAVING);
  }

  lemma InstallationIs(job: Job)
    ensures Joined(Installation(job)) == InstallScript(job)
  {
    var all := Installation(job);
    assert all[10..] == [all[10]] && all[10..][1..] == [];
    JoinedFrom(all, 9);
    JoinedFrom(all, 8);
    JoinedFrom(all, 7);
    JoinedFrom(all, 6);
    JoinedFrom(all, 5);
    JoinedFrom(all, 4);
    JoinedFrom(all, 3);
    JoinedFrom(all, 2);
    JoinedFrom(all, 1);
    JoinedFrom(all, 0);
    assert all[0..] == all;
    assert Joined(all[10..]) == [CONNECT] + all[10] by {
      assert ([CONNECT] + all[10]) + [] == [CONNECT] + all[10];
    }
    hide Joined;
  }

  lemma JoinedFrom(all: seq<seq<Statement>>, i: nat)
    requires i < |all|
    ensures Joined(all[i..]) == ([CONNECT] + all[i]) + Joined(all[i + 1..])
  {
    assert all[i..][1..] == all[i + 1..];
  }

  // ---- what the first failure makes of it ----------------------------------------------------------------------

  function DeployScript(live: Files<Content>, misread: Files<bool>, job: Job): seq<Statement> {
    PreparationScript(live, misread) + (InstallScript(job) + CLEANUP_SCRIPT)
  }

  /** Everything under `set -e` before the `k`th command worked, and that one ended the script. */
  predicate StopsAt(script: seq<Statement>, fates: seq<Fate>, k: nat, code: nat) {
    1 <= k <= |script| && k <= |fates| && Stops(script[k - 1], fates[k - 1], code) && Worked(script, fates, k - 1)
  }

  /** What a deployment of three lists makes of how far each got. */
  ghost predicate Judged(p: Machine, n: Machine, c: Machine, r: Result) {
    match p.status
    case Dead => r.machine == p && r.outcome.Killed?
    case Exited(code) =>
      && r.machine == p
      && r.outcome == (if |p.trace| <= 4 then Refused(code) else if code == 77 then RetainedRecovery
                       else IncompleteBackup)
    case Running =>
      match n.status
      case Dead => r.machine == n && r.outcome.Killed?
      case Exited(code) => r == Rollback(Resume(n), PHASES, code)
      case Running =>
        && r.machine == c
        && r.outcome == (if c.status == Running then Deployed else if c.status == Dead then Killed else CleanupError)
  }

  /** The deployment in terms of its three lists. */
  lemma DeployingIs(m: Machine, job: Job)
    requires m.status == Running && m.trace == []
    ensures var p := Exec(m, PreparationScript(m.host.live, m.misread));
            var n := Exec(p, InstallScript(job));
            Judged(p, n, Exec(n, CLEANUP_SCRIPT), Deploying(m, job))
  {
    var checked := Ssh(m, IDENTITY_CHECK);
    var saved := Ssh(checked, BACKUP);
    var first := [CONNECT] + IDENTITY_CHECK;
    PreparationIs(m);
    InstallationIs(job);
    SshAllIs(saved, Installation(job));
    assert [CONNECT] + CLEANUP == CLEANUP_SCRIPT;
    FlatRuns(m, first);
    assert first == [Run(Check, 255), Run(Check, 1), Run(Check, 1), Run(Check, 1)];
    hide Exec, SshAll, Rollback, PreparationScript, InstallScript, Installation;
    if checked.status != Running {
      StuckExec(checked, [CONNECT] + BACKUP);
    } else {
      BackupGoesOn(checked);
    }
  }

  lemma BackupGoesOn(m: Machine)
    requires m.status == Running
    ensures Ssh(m, BACKUP).status.Exited? ==> |Ssh(m, BACKUP).trace| > |m.trace|
  {
    var s := [CONNECT] + BACKUP;
    StepIsLonger(m);
    ExecKeepsLive(Step(m, s[0]), s[1..]);
    StuckWhenDead(Step(m, s[0]), s[1..]);
    hide Step;
  }

  lemma StuckWhenDead(m: Machine, script: seq<Statement>)
    ensures m.status.Dead? ==> Exec(m, script) == m
  {
    if m.status.Dead? {
      StuckExec(m, script);
    }
  }

  lemma StepIsLonger(m: Machine)
    requires m.status == Running
    ensures var n := Step(m, CONNECT); n.status.Dead? || |n.trace| == |m.trace| + 1
  {
  }

  /** What a deployment ended as, by how far its list got. */
  ghost predicate EndsAsListed(script: seq<Statement>, prepared: nat, installed: nat, fates: seq<Fate>, r: Result) {
    match r.outcome
    case Deployed => |r.machine.trace| == |script| && AllWork(script, fates)
    case Refused(code) => |r.machine.trace| <= 4 && StopsAt(script, fates, |r.machine.trace|, code)
    case RetainedRecovery => 4 < |r.machine.trace| <= prepared && StopsAt(script, fates, |r.machine.trace|, 77)
    case IncompleteBackup =>
      4 < |r.machine.trace| <= prepared && exists code :: code != 77 && StopsAt(script, fates, |r.machine.trace|, code)
    case RolledBack(code) => exists k :: prepared < k <= installed && StopsAt(script, fates, k, code)
    case RollbackError(_) => exists k, code :: prepared < k <= installed && StopsAt(script, fates, k, code)
    case CleanupError => |r.machine.trace| > installed && exists code :: StopsAt(script, fates, |r.machine.trace|, code)
    case Killed => true
  }

  lemma StopsLater(before: seq<Statement>, script: seq<Statement>, after: seq<Statement>, fates: seq<Fate>, k: nat,
                   code: nat)
    requires AllWork(before, fates) && StopsAt(script, fates[|before|..], k, code)
    ensures StopsAt(before + script + after, fates, |before| + k, code)
  {
    var all, n := before + script + after, |before|;
    forall i | 0 <= i < n + k - 1 && all[i].Run?
      ensures fates[i].Works?
    {
      if i < n {
        assert all[i] == before[i];
      } else {
        assert all[i] == script[i - n] && fates[i] == fates[n..][i - n];
      }
    }
  }

  lemma ScriptsAreFlat(live: Files<Content>, misread: Files<bool>, job: Job)
    ensures Flat(PreparationScript(live, misread)) && Flat(InstallScript(job)) && Flat(CLEANUP_SCRIPT)
  {
  }

  /** How far a flat script got. */
  ghost predicate Went(m: Machine, script: seq<Statement>, n: Machine) {
    && (n.status.Exited? ==>
          |n.trace| > |m.trace| && StopsAt(script, m.fates, |n.trace| - |m.trace|, n.status.code))
    && (n.status == Running ==>
          && |n.trace| == |m.trace| + |script| && |script| <= |m.fates| && n.fates == m.fates[|script|..]
          && AllWork(script, m.fates))
  }

  predicate AllWork(script: seq<Statement>, fates: seq<Fate>) {
    |script| <= |fates| && Worked(script, fates, |script|)
  }

  lemma StopIsShown(m: Machine, script: seq<Statement>)
    requires m.status == Running && Flat(script)
    ensures Went(m, script, Exec(m, script))
  {
    FlatRuns(m, script);
    hide Exec, Flat, Worked;
  }

  /**
   * A deployment runs its list. It reports success only after every single command under `set -e` worked: the checks
   * before and after the moves, readiness and capability among them. Otherwise the first that did not decides: within
   * the identity check the run is refused with its code, within the backup nothing was installed, within the
   * installation its code is the plain error of the rollback.
   */
  lemma DeploymentFollowsItsScript(h: Host, job: Job, fates: seq<Fate>, misread: Files<bool>)
    ensures var script := DeployScript(h.live, misread, job);
            var prepared := |PreparationScript(h.live, misread)|;
            var r := Deploying(Start(h, fates, misread), job);
            EndsAsListed(script, prepared, prepared + |InstallScript(job)|, fates, r)
  {
    var m := Start(h, fates, misread);
    var a, b, r := PreparationScript(h.live, misread), InstallScript(job), Deploying(Start(h, fates, misread), job);
    assert m.status == Running && m.trace == [] && m.host == h && m.misread == misread && m.fates == fates;
    hide *;
    ScriptsAreFlat(h.live, misread, job);
    DeployingIs(m, job);
    ListedInThree(m, a, b, CLEANUP_SCRIPT, r);
    DeployScriptIs(h.live, misread, job);
  }

  lemma DeployScriptIs(live: Files<Content>, misread: Files<bool>, job: Job)
    ensures DeployScript(live, misread, job)
            == PreparationScript(live, misread) + (InstallScript(job) + CLEANUP_SCRIPT)
  {
  }

  lemma ListedInThree(m: Machine, a: seq<Statement>, b: seq<Statement>, e: seq<Statement>, r: Result)
    requires m.status == Running && m.trace == [] && Flat(a) && Flat(b) && Flat(e)
    requires var p := Exec(m, a);
             var n := Exec(p, b);
             Judged(p, n, Exec(n, e), r)
    ensures EndsAsListed(a + (b + e), |a|, |a| + |b|, m.fates, r)
  {
    var p := Exec(m, a);
    var n := Exec(p, b);
    var c := Exec(n, e);
    hide *;
    StopIsShown(m, a);
    if p.status != Running {
      PreparationReads(m, a, b, e, p, n, c, r);
    } else {
      StopIsShown(p, b);
      if n.status != Running {
        InstallReads(m, a, b, e, p, n, c, r);
      } else {
        StopIsShown(n, e);
        CleanupReads(m, a, b, e, p, n, c, r);
      }
    }
  }

  lemma PreparationReads(m: Machine, a: seq<Statement>, b: seq<Statement>, e: seq<Statement>, p: Machine, n: Machine,
                         c: Machine, r: Result)
    requires m.trace == [] && Went(m, a, p) && p.status != Running && Judged(p, n, c, r)
    ensures EndsAsListed(a + (b + e), |a|, |a| + |b|, m.fates, r)
  {
    hide Rollback;
    if p.status.Exited? {
      assert m.fates[0..] == m.fates;
      StopsLater([], a, b + e, m.fates, |p.trace|, p.status.code);
      assert [] + a + (b + e) == a + (b + e);
    }
  }

  lemma InstallReads(m: Machine, a: seq<Statement>, b: seq<Statement>, e: seq<Statement>, p: Machine, n: Machine,
                     c: Machine, r: Result)
    requires m.trace == [] && Went(m, a, p) && Went(p, b, n) && p.status == Running && n.status != Running
    requires Judged(p, n, c, r)
    ensures EndsAsListed(a + (b + e), |a|, |a| + |b|, m.fates, r)
  {
    hide Rollback, AllWork;
    if n.status.Exited? {
      StopsLater(a, b, e, m.fates, |n.trace| - |a|, n.status.code);
      assert a + b + e == a + (b + e);
      RollbackOutcome(Resume(n), PHASES, n.status.code);
    }
  }

  lemma {:induction false} RollbackOutcome(m: Machine, phases: seq<Phase>, code: nat)
    ensures var outcome := Rollback(m, phases, code).outcome;
            outcome == RolledBack(code) || outcome.RollbackError? || outcome.Killed?
    decreases |phases|
  {
    if phases != [] {
      var n := Ssh(m, PhaseScript(phases[0]));
      hide Ssh;
      if n.status == Running {
        RollbackOutcome(n, phases[1..], code);
      }
    }
  }

  lemma CleanupReads(m: Machine, a: seq<Statement>, b: seq<Statement>, e: seq<Statement>, p: Machine, n: Machine,
                     c: Machine, r: Result)
    requires m.trace == [] && Went(m, a, p) && Went(p, b, n) && Went(n, e, c)
    requires p.status == Running && n.status == Running && Judged(p, n, c, r)
    ensures EndsAsListed(a + (b + e), |a|, |a| + |b|, m.fates, r)
  {
    hide Rollback, AllWork;
    AllWorkJoined(a, b, m.fates);
    assert m.fates[|a|..][|b|..] == m.fates[|a + b|..];
    assert a + (b + e) == (a + b) + e + [] == (a + b) + e;
    if c.status.Exited? {
      StopsLater(a + b, e, [], m.fates, |c.trace| - |a + b|, c.status.code);
    } else if c.status == Running {
      AllWorkJoined(a + b, e, m.fates);
    }
  }

  lemma AllWorkJoined(a: seq<Statement>, b: seq<Statement>, fates: seq<Fate>)
    requires AllWork(a, fates) && AllWork(b, fates[|a|..])
    ensures AllWork(a + b, fates)
  {
    forall i | 0 <= i < |a + b| && (a + b)[i].Run?
      ensures fates[i].Works?
    {
      if i >= |a| {
        assert fates[i] == fates[|a|..][i - |a|];
      }
    }
  }

  // ---- the rollback by its phases --------------------------------------------------------------------------------

  /**
   * A rollback runs restore, reload, restart, readiness and clean-up, one connection each; the first that stops names
   * it.
   */
  lemma RollbackFollowsItsPhases(m: Machine, code: nat)
    requires m.status == Running
    ensures var a := Ssh(m, [Run(RequireComplete, 1), PutBack(Credential), PutBack(Dropin), PutBack(Config),
                             Run(RemoveNexts, 1)]);
            var b := Ssh(a, [Run(Reload, 1)]);
            var c := Ssh(b, [Run(Restart, 1)]);
            var d := Ssh(c, [Run(Check, 76)]);
            var e := Ssh(d, [Run(RemoveNexts, 1), Run(RemoveRecovery, 1)]);
            var r := Rollback(m, PHASES, code);
            && r.machine == e && r.accepted.None?
            && r.outcome == match e.status
                            case Running => RolledBack(code)
                            case Dead => Killed
                            case Exited(_) =>
                              RollbackError(if a.status.Exited? then RestorePhase
                                            else if b.status.Exited? then ReloadPhase
                                            else if c.status.Exited? then RestartPhase
                                            else if d.status.Exited? then ReadinessPhase else CleanupPhase)
  {
    var restore, cleanup := RESTORE, CLEANUP;
    var a := Ssh(m, restore);
    var b := Ssh(a, [Run(Reload, 1)]);
    var c := Ssh(b, [Run(Restart, 1)]);
    var d := Ssh(c, [Run(Check, 76)]);
    StuckSsh(a, [Run(Reload, 1)]);
    StuckSsh(b, [Run(Restart, 1)]);
    StuckSsh(c, [Run(Check, 76)]);
    StuckSsh(d, cleanup);
    hide Ssh;
    PhaseByPhase(m, RestorePhase, 0, code);
    PhaseByPhase(a, ReloadPhase, 1, code);
    PhaseByPhase(b, RestartPhase, 2, code);
    PhaseByPhase(c, ReadinessPhase, 3, code);
    PhaseByPhase(d, CleanupPhase, 4, code);
    assert PHASES[0..] == PHASES && PHASES[5..] == [];
  }

  lemma StuckSsh(m: Machine, script: seq<Statement>)
    ensures m.status != Running ==> Ssh(m, script) == m
  {
    if m.status != Running {
      StuckExec(m, [CONNECT] + script);
    }
  }

  lemma PhaseByPhase(m: Machine, phase: Phase, i: nat, code: nat)
    requires i < |PHASES| && PHASES[i] == phase
    ensures var n := Ssh(m, PhaseScript(phase));
            Rollback(m, PHASES[i..], code)
            == match n.status
               case Running => Rollback(n, PHASES[i + 1..], code)
               case Dead => Result(n, Killed, None)
               case Exited(_) => Result(n, RollbackError(phase), None)
  {
    hide Ssh, PhaseScript;
    assert PHASES[i..][0] == phase && PHASES[i..][1..] == PHASES[i + 1..];
  }
}
