// Whole deployments command by command: what becomes of the credential, and of a file a probe missed.

module CredentialRuns {
  import opened Text
  import opened CredentialHost
  import opened Credential
  import opened CredentialLaws
  import opened CredentialTheorems

  // ---- counting commands --------------------------------------------------------------------

  /** How many commands the backup of one file takes: probe and mark, and the copy if the probe saw it. */
  function Probes(live: Files<Content>, misread: Files<bool>, f: File): nat {
    if !live.At(f).Absent? && !misread.At(f) then 3 else 2
  }

  /** How many commands come before the installation: the identity check and the backup, with their connections. */
  function Preparation(live: Files<Content>, misread: Files<bool>): nat {
    9 + Probes(live, misread, Credential) + Probes(live, misread, Dropin) + Probes(live, misread, Config)
  }

  /** The place of the credential's write among all the commands of a deployment. */
  function WriteIndex(live: Files<Content>, misread: Files<bool>): nat {
    Preparation(live, misread) + 2
  }

  /** `n` went on from `m` by exactly `used` commands. */
  predicate Onward(m: Machine, n: Machine, used: nat) {
    n.status == Running && n.misread == m.misread && used <= |m.fates| && n.fates == m.fates[used..]
  }

  lemma OnwardTransitive(l: Machine, m: Machine, n: Machine, u: nat, v: nat)
    requires Onward(l, m, u) && Onward(m, n, v)
    ensures Onward(l, n, u + v)
  {
    assert l.fates[u..][v..] == l.fates[u + v..];
  }

  // ---- backwards: what a deployment that succeeded has done -----------------------------------

  lemma DoUsed(m: Machine, c: Command, code: nat)
    requires Do(m, c, code).status == Running
    ensures Onward(m, Do(m, c, code), 1) && Can(m.host, c) && Do(m, c, code).host == Effect(m.host, c)
  {
  }

  lemma IdentityUsed(m: Machine)
    requires Ssh(m, IDENTITY_CHECK).status == Running
    ensures Onward(m, Ssh(m, IDENTITY_CHECK), 4) && Ssh(m, IDENTITY_CHECK).host == m.host
  {
    hide Exec, Do, Onward;
    var s := [CONNECT] + IDENTITY_CHECK;
    RanFirst(m, s);
    var m1 := Step(m, s[0]);
    DoUsed(m, Check, 255);
    RanFirst(m1, s[1..]);
    var m2 := Step(m1, s[1]);
    DoUsed(m1, Check, 1);
    OnwardTransitive(m, m1, m2, 1, 1);
    assert s[1..][1..] == s[2..];
    RanFirst(m2, s[2..]);
    var m3 := Step(m2, s[2]);
    DoUsed(m2, Check, 1);
    OnwardTransitive(m, m2, m3, 2, 1);
    assert s[2..][1..] == s[3..];
    RanFirst(m3, s[3..]);
    var m4 := Step(m3, s[3]);
    DoUsed(m3, Check, 1);
    OnwardTransitive(m, m3, m4, 3, 1);
    assert s[3..][1..] == [];
    ExecNothing(m4);
  }

  /** Nothing of a backup touches the live files or the `.next` ones. */
  predicate SameFiles(g: Host, h: Host) {
    h.live == g.live && h.next == g.next
  }

  lemma BackingUpUsed(m: Machine, f: File)
    requires m.status == Running && BackingUp(m, f).status == Running
    ensures Onward(m, BackingUp(m, f), Probes(m.host.live, m.misread, f)) && SameFiles(m.host, BackingUp(m, f).host)
  {
    var p := Probe(m);
    if !m.host.live.At(f).Absent? && !m.misread.At(f) {
      var q := Do(p, CopyOut(f), 1);
      DoUsed(q, MarkPresent(f), 1);
      DoUsed(p, CopyOut(f), 1);
    } else {
      DoUsed(p, MarkAbsent(f), 1);
    }
  }

  lemma BackupUsed(m: Machine)
    requires Ssh(m, BACKUP).status == Running
    ensures var n := Ssh(m, BACKUP);
            && Onward(m, n, Preparation(m.host.live, m.misread) - 4) && SameFiles(m.host, n.host)
  {
    hide Exec, BackingUp, Do, Onward, Probes;
    var s := [CONNECT] + BACKUP;
    RanFirst(m, s);
    var m1 := Step(m, s[0]);
    DoUsed(m, Check, 255);
    RanFirst(m1, s[1..]);
    var m2 := Step(m1, s[1]);
    DoUsed(m1, MakeRecovery, RETAINED_RECOVERY_EXIT);
    OnwardTransitive(m, m1, m2, 1, 1);
    assert s[1..][1..] == s[2..];
    RanFirst(m2, s[2..]);
    var m3 := Step(m2, s[2]);
    DoUsed(m2, Check, 1);
    OnwardTransitive(m, m2, m3, 2, 1);
    assert s[2..][1..] == s[3..];
    RanFirst(m3, s[3..]);
    var m4 := Step(m3, s[3]);
    DoUsed(m3, Check, 1);
    OnwardTransitive(m, m3, m4, 3, 1);
    assert s[3..][1..] == s[4..] == SAVING;
    SavingUsed(m4);
    assert m4.misread == m.misread by { OnwardKeeps(m, m4, 4); }
    OnwardTransitive(m, m4, Exec(m4, SAVING), 4, Preparation(m4.host.live, m4.misread) - 8);
  }

  const SAVING := [BackUp(Credential), BackUp(Dropin), BackUp(Config), Run(MarkComplete, 1)]

  lemma OnwardKeeps(m: Machine, n: Machine, used: nat)
    requires Onward(m, n, used)
    ensures n.misread == m.misread && n.status == Running && used <= |m.fates| && n.fates == m.fates[used..]
  {
  }

  /** Some backups further, with live and `.next` files as they were. */
  predicate Saving(m: Machine, n: Machine, used: nat) {
    Onward(m, n, used) && SameFiles(m.host, n.host)
  }

  lemma SavingTransitive(l: Machine, m: Machine, n: Machine, u: nat, v: nat)
    requires Saving(l, m, u) && Saving(m, n, v)
    ensures Saving(l, n, u + v)
  {
    OnwardTransitive(l, m, n, u, v);
  }

  lemma SaveOne(m: Machine, f: File, script: seq<Statement>)
    requires Exec(m, [BackUp(f)] + script).status == Running
    ensures var n := BackingUp(m, f);
            && Exec(m, [BackUp(f)] + script) == Exec(n, script) && Saving(m, n, Probes(m.host.live, m.misread, f))
            && n.host.live == m.host.live && n.misread == m.misread
  {
    RanFirst(m, [BackUp(f)] + script);
    assert ([BackUp(f)] + script)[1..] == script;
    hide Exec, BackingUp;
    BackingUpUsed(m, f);
  }

  lemma CompletionSaved(m: Machine)
    requires Exec(m, [Run(MarkComplete, 1)]).status == Running
    ensures Saving(m, Exec(m, [Run(MarkComplete, 1)]), 1)
  {
    RanFirst(m, [Run(MarkComplete, 1)]);
    DoUsed(m, MarkComplete, 1);
    assert [Run(MarkComplete, 1)][1..] == [];
    hide Do;
    ExecNothing(Do(m, MarkComplete, 1));
  }

  lemma SavingSpelled()
    ensures SAVING == [BackUp(Credential)] + ([BackUp(Dropin)] + ([BackUp(Config)] + [Run(MarkComplete, 1)]))
  {
  }

  lemma SavingUsed(m: Machine)
    requires Exec(m, SAVING).status == Running
    ensures Saving(m, Exec(m, SAVING), Preparation(m.host.live, m.misread) - 8)
  {
    hide *;
    SavingSpelled();
    var end := [Run(MarkComplete, 1)];
    SaveOne(m, Credential, [BackUp(Dropin)] + ([BackUp(Config)] + end));
    var m1 := BackingUp(m, Credential);
    SaveOne(m1, Dropin, [BackUp(Config)] + end);
    var m2 := BackingUp(m1, Dropin);
    SaveOne(m2, Config, end);
    var m3 := BackingUp(m2, Config);
    CompletionSaved(m3);
    var a := Probes(m.host.live, m.misread, Credential);
    var b, c := Probes(m.host.live, m.misread, Dropin), Probes(m.host.live, m.misread, Config);
    SavingTransitive(m, m1, m2, a, b);
    SavingTransitive(m, m2, m3, a + b, c);
    SavingTransitive(m, m3, Exec(m3, end), a + b + c, 1);
    Prepared(m.host.live, m.misread);
  }

  lemma Prepared(live: Files<Content>, misread: Files<bool>)
    ensures Preparation(live, misread)
            == 9 + Probes(live, misread, Credential) + Probes(live, misread, Dropin) + Probes(live, misread, Config)
  {
  }

  /** What a write leaves in a file that held `before`. */
  function Written(before: Content, data: string, fate: Fate): Content {
    match fate
    case Works => Whole(data)
    case Fails(Done) => Whole(data)
    case Fails(Damaged) => Torn
    case Fails(Untouched) => before
  }

  lemma QuietUsed(m: Machine, c: Command)
    requires Step(m, Quiet(c)).status == Running && m.status == Running
    ensures Onward(m, Step(m, Quiet(c)), 1)
    ensures c.Check? ==> Step(m, Quiet(c)).host == m.host
    ensures c.WriteNext? ==>
            var written := Written(m.host.next.At(c.file), c.data, m.fates[0]);
            Step(m, Quiet(c)).host == m.host.(next := m.host.next.With(c.file, written))
  {
  }

  lemma CredentialInstalled(m: Machine, secret: string)
    requires Ssh(m, InstallCredential(secret)).status == Running
    ensures |m.fates| > 2
    ensures Ssh(m, InstallCredential(secret)).host.live.credential
            == Written(m.host.next.credential, secret, m.fates[2])
  {
    hide Exec, Do, Step;
    var s := [CONNECT] + InstallCredential(secret);
    RanFirst(m, s);
    var m1 := Step(m, s[0]);
    RunUsed(m, Check, 255);
    RanFirst(m1, s[1..]);
    var m2 := Step(m1, s[1]);
    RunUsed(m1, Check, 1);
    OnwardTransitive(m, m1, m2, 1, 1);
    assert s[1..][1..] == s[2..];
    RanFirst(m2, s[2..]);
    var m3 := Step(m2, s[2]);
    QuietUsed(m2, WriteNext(Credential, secret));
    assert m2.fates[0] == m.fates[2];
    assert s[2..][1..] == s[3..];
    RanFirst(m3, s[3..]);
    var m4 := Step(m3, s[3]);
    QuietUsed(m3, Check);
    assert s[3..][1..] == s[4..];
    RanFirst(m4, s[4..]);
    var m5 := Step(m4, s[4]);
    QuietUsed(m4, Check);
    assert s[4..][1..] == s[5..];
    RanFirst(m5, s[5..]);
    RunUsed(m5, MoveNext(Credential), 1);
    assert s[5..][1..] == [];
    ExecNothing(Step(m5, s[5]));
  }

  lemma RunUsed(m: Machine, c: Command, code: nat)
    requires Step(m, Run(c, code)).status == Running
    ensures Onward(m, Step(m, Run(c, code)), 1) && Can(m.host, c) && Step(m, Run(c, code)).host == Effect(m.host, c)
  {
  }

  /** Commands that leave the live credential alone. */
  predicate SparesCredential(s: Statement) {
    match s
    case Run(c, _) => c != MoveNext(Credential) && !c.CopyBack? && !c.RemoveLive?
    case Quiet(c) => c != MoveNext(Credential) && !c.CopyBack? && !c.RemoveLive?
    case _ => false
  }

  lemma StepSparesCredential(m: Machine, s: Statement)
    requires SparesCredential(s)
    ensures Step(m, s).host.live.credential == m.host.live.credential
  {
  }

  lemma {:induction false} ExecSparesCredential(m: Machine, script: seq<Statement>)
    requires forall i :: 0 <= i < |script| ==> SparesCredential(script[i])
    ensures Exec(m, script).host.live.credential == m.host.live.credential
    decreases |script|
  {
    if script != [] {
      StepSparesCredential(m, script[0]);
      hide Step, SparesCredential;
      ExecSparesCredential(Step(m, script[0]), script[1..]);
    }
  }

  lemma DropinSparesCredential(m: Machine, payload: string)
    ensures Ssh(m, InstallDropin(payload)).host.live.credential == m.host.live.credential
  {
    var s := [CONNECT] + InstallDropin(payload);
    assert forall i :: 0 <= i < |s| ==> SparesCredential(s[i]);
    hide Exec, SparesCredential;
    ExecSparesCredential(m, s);
  }

  /**
   * The live credential after a deployment that reports success is exactly what the one write of it left in the
   * `.next` file.
   */
  lemma DeployedCredential(h: Host, job: Job, fates: seq<Fate>, misread: Files<bool>)
    requires Deploying(Start(h, fates, misread), job).outcome.Deployed?
    ensures WriteIndex(h.live, misread) < |fates|
    ensures Deploying(Start(h, fates, misread), job).machine.host.live.credential
            == Written(h.next.credential, job.secret, fates[WriteIndex(h.live, misread)])
  {
    var m := Start(h, fates, misread);
    var checked := Ssh(m, IDENTITY_CHECK);
    var saved := Ssh(checked, BACKUP);
    var all := Installation(job);
    var installed := SshAll(saved, all);
    hide Ssh, SshAll, Rollback, WriteIndex, Preparation, Written;
    if installed.status.Exited? {
      RollbackNeverDeploys(Resume(installed), PHASES, installed.status.code);
    }
    RanFirstScript(saved, all);
    var first := Ssh(saved, all[0]);
    RanFirstScript(first, all[1..]);
    assert all[1..][1..] == all[2..];
    var second := Ssh(first, all[1..][0]);
    DropinSparesCredential(first, job.payload);
    AcceptedTail(second, job);
    CleanedUp(installed);
    CredentialInstalled(saved, job.secret);
    IdentityUsed(m);
    BackupUsed(checked);
    Positions(m, checked, saved);
  }

  lemma Positions(m: Machine, checked: Machine, saved: Machine)
    requires Onward(m, checked, 4) && Onward(checked, saved, Preparation(m.host.live, m.misread) - 4)
             && |saved.fates| > 2
    ensures var w := WriteIndex(m.host.live, m.misread); w < |m.fates| && m.fates[w] == saved.fates[2]
  {
    OnwardTransitive(m, checked, saved, 4, Preparation(m.host.live, m.misread) - 4);
  }

  /**
   * A deployment that reports success installed drop-in and configuration byte for byte, runs the service from what is
   * on disk, and left no recovery material; and it installed the secret if and only if its write worked, or failed
   * after doing all its work, or failed before doing any while the secret was already in the `.next` file.
   */
  lemma DeployedMeans(h: Host, job: Job, fates: seq<Fate>, misread: Files<bool>)
    requires Deploying(Start(h, fates, misread), job).outcome.Deployed?
    ensures WriteIndex(h.live, misread) < |fates|
    ensures var fate := fates[WriteIndex(h.live, misread)];
            var now := Deploying(Start(h, fates, misread), job).machine.host;
            && now.live.dropin == Whole(job.payload) && now.live.config == Whole(job.config)
            && now.loaded == Whole(job.payload) && now.running == Some(now.live)
            && now.recovery.None? && now.next == NO_FILES
            && (now.live.credential == Whole(job.secret) <==>
                  || fate == Works || fate == Fails(Done)
                  || (fate == Fails(Untouched) && h.next.credential == Whole(job.secret)))
  {
    DeployedCredential(h, job, fates, misread);
    DeployedIsInstalled(h, job, fates, misread);
    hide Deploying, WriteIndex;
  }
}
