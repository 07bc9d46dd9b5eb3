// Deployments that lose something, for every host: a torn credential accepted, a missed file removed.

module CredentialWitnesses {
  import opened Text
  import opened CredentialHost
  import opened Credential
  import opened CredentialLaws
  import opened CredentialTheorems
  import opened CredentialRuns

  // ---- commands that work --------------------------------------------------------------------

  /** The next `k` commands work. */
  predicate Clear(fates: seq<Fate>, k: nat) {
    k <= |fates| && forall i :: 0 <= i < k ==> fates[i].Works?
  }

  predicate Ready(m: Machine, k: nat) {
    m.status == Running && Clear(m.fates, k)
  }

  lemma ReadyOnward(m: Machine, n: Machine, used: nat, k: nat)
    requires Onward(m, n, used) && Clear(m.fates, used + k)
    ensures Ready(n, k)
  {
  }

  /** A check that passes on this host. */
  predicate Still(h: Host, s: Statement) {
    (s.Run? || s.Quiet?) && Can(h, s.command)
    && (s.command.Check? || s.command.CompareNext? || s.command.CompareLive? || s.command.RequireComplete?)
  }

  predicate AllStill(h: Host, script: seq<Statement>) {
    forall i :: 0 <= i < |script| ==> Still(h, script[i])
  }

  lemma StillStep(m: Machine, s: Statement)
    requires Ready(m, 1) && Still(m.host, s)
    ensures Onward(m, Step(m, s), 1) && Step(m, s).host == m.host
  {
  }

  lemma {:induction false} StillRuns(m: Machine, script: seq<Statement>)
    requires Ready(m, |script|) && AllStill(m.host, script)
    ensures Onward(m, Exec(m, script), |script|) && Exec(m, script).host == m.host
    decreases |script|
  {
    if script != [] {
      StillStep(m, script[0]);
      hide Step, Still;
      var n := Step(m, script[0]);
      StillRuns(n, script[1..]);
      OnwardTransitive(m, n, Exec(m, script), 1, |script| - 1);
    }
  }

  lemma {:induction false} ExecConcat(m: Machine, a: seq<Statement>, b: seq<Statement>)
    ensures Exec(m, a + b) == Exec(Exec(m, a), b)
    decreases |a|
  {
    hide Step;
    if a == [] {
      assert a + b == b;
    } else {
      assert (a + b)[1..] == a[1..] + b;
      ExecConcat(Step(m, a[0]), a[1..], b);
    }
  }

  lemma ChangeStep(m: Machine, s: Statement)
    requires Ready(m, 1) && (s.Run? || s.Quiet?) && Can(m.host, s.command)
    ensures Onward(m, Step(m, s), 1) && Step(m, s).host == Effect(m.host, s.command)
  {
  }

  /** One command with checks before and after it. */
  lemma OneChange(m: Machine, a: seq<Statement>, s: Statement, b: seq<Statement>)
    requires Ready(m, |a| + 1 + |b|) && AllStill(m.host, a)
    requires (s.Run? || s.Quiet?) && Can(m.host, s.command) && AllStill(Effect(m.host, s.command), b)
    ensures var n := Exec(m, a + [s] + b); Onward(m, n, |a| + 1 + |b|) && n.host == Effect(m.host, s.command)
  {
    hide AllStill, Can, Effect, Step;
    StillRuns(m, a);
    var p := Exec(m, a);
    ReadyOnward(m, p, |a|, 1 + |b|);
    ChangeStep(p, s);
    var q := Step(p, s);
    assert Exec(p, [s]) == q by { ExecOne(p, s); }
    ReadyOnward(p, q, 1, |b|);
    StillRuns(q, b);
    ExecConcat(m, a + [s], b);
    ExecConcat(m, a, [s]);
    hide Exec, Onward;
    OnwardTransitive(m, p, q, |a|, 1);
    OnwardTransitive(m, q, Exec(q, b), |a| + 1, |b|);
  }

  lemma ExecOne(m: Machine, s: Statement)
    ensures Exec(m, [s]) == Step(m, s)
  {
    hide Step;
    assert [s][1..] == [];
  }

  // ---- up to the installation ------------------------------------------------------------------

  lemma IdentityRuns(m: Machine)
    requires Ready(m, 4)
    ensures Ssh(m, IDENTITY_CHECK).status == Running
  {
    assert AllStill(m.host, [CONNECT] + IDENTITY_CHECK);
    hide Exec;
    StillRuns(m, [CONNECT] + IDENTITY_CHECK);
  }

  lemma BackingUpRuns(m: Machine, f: File)
    requires Ready(m, Probes(m.host.live, m.misread, f)) && m.host.recovery.Some?
    ensures BackingUp(m, f).status == Running && BackingUp(m, f).host.recovery.Some?
  {
  }

  lemma SaveOneRuns(m: Machine, f: File, script: seq<Statement>, k: nat)
    requires Ready(m, Probes(m.host.live, m.misread, f) + k) && m.host.recovery.Some?
    ensures var n := BackingUp(m, f);
            && Exec(m, [BackUp(f)] + script) == Exec(n, script) && Ready(n, k) && n.host.recovery.Some?
            && n.host.live == m.host.live && n.misread == m.misread
  {
    BackingUpRuns(m, f);
    BackingUpUsed(m, f);
    ReadyOnward(m, BackingUp(m, f), Probes(m.host.live, m.misread, f), k);
    assert ([BackUp(f)] + script)[1..] == script;
    hide BackingUp;
  }

  lemma SavingRuns(m: Machine)
    requires Ready(m, Preparation(m.host.live, m.misread) - 8) && m.host.recovery.Some?
    ensures Exec(m, SAVING).status == Running
  {
    hide *;
    SavingSpelled();
    Prepared(m.host.live, m.misread);
    var end := [Run(MarkComplete, 1)];
    var b, c := Probes(m.host.live, m.misread, Dropin), Probes(m.host.live, m.misread, Config);
    SaveOneRuns(m, Credential, [BackUp(Dropin)] + ([BackUp(Config)] + end), b + c + 1);
    var m1 := BackingUp(m, Credential);
    SaveOneRuns(m1, Dropin, [BackUp(Config)] + end, c + 1);
    var m2 := BackingUp(m1, Dropin);
    SaveOneRuns(m2, Config, end, 1);
    CompletionRuns(BackingUp(m2, Config));
  }

  lemma CompletionRuns(m: Machine)
    requires Ready(m, 1) && m.host.recovery.Some?
    ensures Exec(m, [Run(MarkComplete, 1)]).status == Running
  {
    ExecOne(m, Run(MarkComplete, 1));
    ChangeStep(m, Run(MarkComplete, 1));
  }

  lemma BackupRuns(m: Machine)
    requires Ready(m, Preparation(m.host.live, m.misread) - 4) && m.host.recovery.None?
    ensures Ssh(m, BACKUP).status == Running
  {
    var a, b := [CONNECT], [Run(Check, 1), Run(Check, 1)];
    var make := Run(MakeRecovery, RETAINED_RECOVERY_EXIT);
    assert [CONNECT] + BACKUP == (a + [make] + b) + SAVING;
    var k := Preparation(m.host.live, m.misread) - 8;
    assert AllStill(m.host, a) && AllStill(Effect(m.host, MakeRecovery), b);
    assert Effect(m.host, MakeRecovery).live == m.host.live && Effect(m.host, MakeRecovery).recovery.Some?;
    hide Exec, Preparation, AllStill;
    OneChange(m, a, make, b);
    var n := Exec(m, a + [make] + b);
    ReadyOnward(m, n, 4, k);
    ExecConcat(m, a + [make] + b, SAVING);
    SavingRuns(n);
  }

  /** The machine at the start of the installation, when everything before it works. */
  lemma Prelude(h: Host, fates: seq<Fate>, misread: Files<bool>)
    requires h.recovery.None? && Clear(fates, Preparation(h.live, misread))
    ensures var saved := Ssh(Ssh(Start(h, fates, misread), IDENTITY_CHECK), BACKUP);
            && Ssh(Start(h, fates, misread), IDENTITY_CHECK).status == Running && saved.status == Running
            && saved.fates == fates[Preparation(h.live, misread)..] && saved.misread == misread
            && saved.host.live == h.live && saved.host.next == h.next
  {
    hide Ssh, Preparation;
    Prepared(h.live, misread);
    var m := Start(h, fates, misread);
    var checked := Ssh(m, IDENTITY_CHECK);
    IdentityRuns(m);
    IdentityUsed(m);
    ReadyOnward(m, checked, 4, Preparation(h.live, misread) - 4);
    BackupRuns(checked);
    BackupUsed(checked);
    OnwardTransitive(m, checked, Ssh(checked, BACKUP), 4, Preparation(h.live, misread) - 4);
  }

  // ---- the installation -------------------------------------------------------------------------

  /** How many commands follow the credential's write in a deployment that succeeds. */
  const AFTER_WRITE: nat := 48

  lemma TornStep(m: Machine, secret: string)
    requires m.status == Running && m.fates != [] && m.fates[0] == Fails(Damaged)
    ensures var n := Step(m, Quiet(WriteNext(Credential, secret)));
            Onward(m, n, 1) && n.host == m.host.(next := m.host.next.With(Credential, Torn))
  {
  }

  /** The write of the credential is not under `set -e`: it is cut short, and the script goes on. */
  lemma TornCredentialRuns(m: Machine, secret: string, k: nat)
    requires Ready(m, 2) && |m.fates| >= 3 && m.fates[2] == Fails(Damaged) && Clear(m.fates[3..], 3 + k)
    ensures var n := Ssh(m, InstallCredential(secret)); Onward(m, n, 6) && Ready(n, k)
  {
    var a, b := [CONNECT, Run(Check, 1)], [Quiet(Check), Quiet(Check)];
    var write, move := Quiet(WriteNext(Credential, secret)), Run(MoveNext(Credential), 1);
    assert [CONNECT] + InstallCredential(secret) == a + ([write] + (b + [move] + []));
    assert AllStill(m.host, a);
    hide Exec, Step;
    StillRuns(m, a);
    var m1 := Exec(m, a);
    ExecConcat(m, a, [write] + (b + [move] + []));
    assert m1.fates[0] == m.fates[2];
    TornStep(m1, secret);
    var m2 := Step(m1, write);
    ExecOne(m1, write);
    ExecConcat(m1, [write], b + [move] + []);
    assert m2.fates == m.fates[3..] by { OnwardTransitive(m, m1, m2, 2, 1); }
    assert AllStill(m2.host, b) && AllStill(Effect(m2.host, MoveNext(Credential)), []);
    OneChange(m2, b, move, []);
    var m3 := Exec(m2, b + [move] + []);
    ReadyOnward(m2, m3, 3, k);
    OnwardTransitive(m, m1, m2, 2, 1);
    OnwardTransitive(m, m2, m3, 3, 3);
  }

  const CHECKED_NEXT :=
    [Quiet(Check), Run(Check, 1), Run(Check, 1), Run(Check, 1), Run(Check, 1), Run(Check, DROPIN_BYTE_MISMATCH_EXIT)]
  const CHECKED_LIVE := [Run(Check, 1), Run(Check, 1), Run(Check, 1), Run(Check, DROPIN_BYTE_MISMATCH_EXIT)]

  lemma DropinSpelled(payload: string)
    ensures [CONNECT] + InstallDropin(payload)
            == ([CONNECT, Run(Check, 1)] + [Quiet(WriteNext(Dropin, payload))]
                + (CHECKED_NEXT + [Run(CompareNext(Dropin, payload), DROPIN_BYTE_MISMATCH_EXIT)]))
               + ([] + [Run(MoveNext(Dropin), 1)]
                  + (CHECKED_LIVE + [Run(CompareLive(Dropin, payload), DROPIN_BYTE_MISMATCH_EXIT)]))
  {
  }

  lemma ChecksHold(h: Host, payload: string)
    ensures AllStill(h, [CONNECT, Run(Check, 1)]) && AllStill(h, [])
    ensures h.next.dropin == Whole(payload) ==>
            AllStill(h, CHECKED_NEXT + [Run(CompareNext(Dropin, payload), DROPIN_BYTE_MISMATCH_EXIT)])
    ensures h.live.dropin == Whole(payload) ==>
            AllStill(h, CHECKED_LIVE + [Run(CompareLive(Dropin, payload), DROPIN_BYTE_MISMATCH_EXIT)])
  {
  }

  lemma DropinRuns(m: Machine, payload: string, k: nat)
    requires Ready(m, 16 + k)
    ensures var n := Ssh(m, InstallDropin(payload)); Ready(n, k) && n.host.live.dropin == Whole(payload)
  {
    var write, move := Quiet(WriteNext(Dropin, payload)), Run(MoveNext(Dropin), 1);
    var a, b := [CONNECT, Run(Check, 1)], CHECKED_NEXT + [Run(CompareNext(Dropin, payload), DROPIN_BYTE_MISMATCH_EXIT)];
    var c := CHECKED_LIVE + [Run(CompareLive(Dropin, payload), DROPIN_BYTE_MISMATCH_EXIT)];
    var written := Effect(m.host, write.command);
    DropinSpelled(payload);
    ChecksHold(m.host, payload);
    ChecksHold(written, payload);
    ChecksHold(Effect(written, move.command), payload);
    assert Can(written, move.command);
    hide Exec, AllStill, InstallDropin;
    OneChange(m, a, write, b);
    var n := Exec(m, a + [write] + b);
    ReadyOnward(m, n, 10, 6 + k);
    ExecConcat(m, a + [write] + b, [] + [move] + c);
    OneChange(n, [], move, c);
    ReadyOnward(n, Exec(n, [] + [move] + c), 6, k);
  }

  lemma ChangeRuns(m: Machine, c: Command, code: nat, k: nat)
    requires Ready(m, 2 + k) && Can(m.host, c)
    ensures var n := Ssh(m, [Run(c, code)]); Ready(n, k) && n.host == Effect(m.host, c)
  {
    assert AllStill(m.host, [CONNECT]) && AllStill(Effect(m.host, c), []);
    assert [CONNECT] + [Run(c, code)] == [CONNECT] + [Run(c, code)] + [];
    hide Exec, AllStill;
    OneChange(m, [CONNECT], Run(c, code), []);
    ReadyOnward(m, Ssh(m, [Run(c, code)]), 2, k);
  }

  lemma StillSsh(m: Machine, script: seq<Statement>, k: nat)
    requires Ready(m, |script| + 1 + k) && AllStill(m.host, script)
    ensures Ready(Ssh(m, script), k) && Ssh(m, script).host == m.host
  {
    assert AllStill(m.host, [CONNECT] + script);
    hide Exec, AllStill;
    StillRuns(m, [CONNECT] + script);
    ReadyOnward(m, Ssh(m, script), |script| + 1, k);
  }

  lemma SshAllNext(m: Machine, all: seq<seq<Statement>>, i: nat)
    requires i < |all| && m.status == Running
    ensures SshAll(m, all[i..]) == SshAll(Ssh(m, all[i]), all[i + 1..])
  {
    hide Ssh;
    assert all[i..][1..] == all[i + 1..];
  }

  lemma ChecksAreStill(h: Host, job: Job)
    requires h.live.dropin == Whole(job.payload)
    ensures var all := Installation(job);
            && AllStill(h, all[3]) && AllStill(h, all[5]) && AllStill(h, all[6]) && AllStill(h, all[7])
            && AllStill(h, all[9]) && AllStill(h, all[10])
  {
  }

  lemma CleanupRuns(m: Machine)
    requires Ready(m, 3)
    ensures Ssh(m, CLEANUP).status == Running
  {
    var a := [CONNECT];
    assert [CONNECT] + CLEANUP == (a + [Run(RemoveNexts, 1)] + []) + ([] + [Run(RemoveRecovery, 1)] + []);
    assert AllStill(m.host, a) && AllStill(Effect(m.host, RemoveNexts), []);
    assert forall h: Host :: AllStill(h, []);
    hide Exec, AllStill;
    OneChange(m, a, Run(RemoveNexts, 1), []);
    var n := Exec(m, a + [Run(RemoveNexts, 1)] + []);
    ReadyOnward(m, n, 2, 1);
    ExecConcat(m, a + [Run(RemoveNexts, 1)] + [], [] + [Run(RemoveRecovery, 1)] + []);
    OneChange(n, [], Run(RemoveRecovery, 1), []);
  }

  /** Everything from the drop-in on, when every command works. */
  lemma RestRuns(m: Machine, job: Job)
    requires Ready(m, 45)
    ensures var n := SshAll(m, Installation(job)[1..]); Ready(n, 3)
  {
    var all := Installation(job);
    InstallationSpelled(job);
    hide Ssh, SshAll, Ready, AllStill, Installation;
    DropinRuns(m, job.payload, 29);
    var m2 := Ssh(m, all[1]);
    ReadyRunning(m, 45);
    SshAllNext(m, all, 1);
    ChangeRuns(m2, Configure(job.config), 1, 27);
    ReadyRunning(m2, 29);
    SshAllNext(m2, all, 2);
    var m3 := Ssh(m2, all[2]);
    ChecksAreStill(m3.host, job);
    StillSsh(m3, all[3], 25);
    ReadyRunning(m3, 27);
    SshAllNext(m3, all, 3);
    var m4 := Ssh(m3, all[3]);
    ChangeRuns(m4, Reload, 80, 23);
    ReadyRunning(m4, 25);
    SshAllNext(m4, all, 4);
    LaterRuns(Ssh(m4, all[4]), job);
  }

  lemma LaterRuns(m: Machine, job: Job)
    requires Ready(m, 23) && m.host.live.dropin == Whole(job.payload)
    ensures Ready(SshAll(m, Installation(job)[5..]), 3)
  {
    var all := Installation(job);
    InstallationSpelled(job);
    hide Ssh, SshAll, Ready, AllStill, Installation;
    ChecksAreStill(m.host, job);
    StillSsh(m, all[5], 21);
    ReadyRunning(m, 23);
    SshAllNext(m, all, 5);
    var m6 := Ssh(m, all[5]);
    StillSsh(m6, all[6], 18);
    ReadyRunning(m6, 21);
    SshAllNext(m6, all, 6);
    var m7 := Ssh(m6, all[6]);
    StillSsh(m7, all[7], 9);
    ReadyRunning(m7, 18);
    SshAllNext(m7, all, 7);
    var m8 := Ssh(m7, all[7]);
    ChangeRuns(m8, Restart, 1, 7);
    ReadyRunning(m8, 9);
    SshAllNext(m8, all, 8);
    var m9 := Ssh(m8, all[8]);
    ChecksAreStill(m9.host, job);
    StillSsh(m9, all[9], 5);
    ReadyRunning(m9, 7);
    SshAllNext(m9, all, 9);
    var m10 := Ssh(m9, all[9]);
    StillSsh(m10, all[10], 3);
    ReadyRunning(m10, 5);
    SshAllNext(m10, all, 10);
    assert all[11..] == [];
    SshNothing(Ssh(m10, all[10]));
  }

  lemma ReadyRunning(m: Machine, k: nat)
    requires Ready(m, k)
    ensures m.status == Running
  {
  }

  lemma InstallationSpelled(job: Job)
    ensures var all := Installation(job);
            && |all| == 11 && all[0] == InstallCredential(job.secret) && all[1] == InstallDropin(job.payload)
            && all[2] == [Run(Configure(job.config), 1)] && all[4] == [Run(Reload, 80)] && all[8] == [Run(Restart, 1)]
            && |all[3]| == |all[5]| == |all[9]| == |all[10]| == 1 && |all[6]| == 2 && |all[7]| == 8
  {
  }

  /**
   * On any host without a recovery directory, whatever the probes miss: cut the write of the credential short and let
   * everything else work, and the deployment reports success with a torn credential live.
   */
  lemma TornCredentialIsDeployed(h: Host, job: Job, fates: seq<Fate>, misread: Files<bool>)
    requires var w := WriteIndex(h.live, misread);
             && h.recovery.None? && Clear(fates, w) && |fates| > w && fates[w] == Fails(Damaged)
             && Clear(fates[w + 1..], AFTER_WRITE)
    ensures var r := Deploying(Start(h, fates, misread), job);
            r.outcome.Deployed? && r.machine.host.live.credential == Torn
  {
    hide Ssh, SshAll, Rollback, Preparation, Exec;
    var m, p := Start(h, fates, misread), Preparation(h.live, misread);
    Prelude(h, fates, misread);
    var saved := Ssh(Ssh(m, IDENTITY_CHECK), BACKUP);
    assert saved.fates[3..] == fates[p + 3..];
    TornCredentialRuns(saved, job.secret, 45);
    InstallationSpelled(job);
    var all := Installation(job);
    assert all[0..] == all;
    SshAllNext(saved, all, 0);
    var first := Ssh(saved, all[0]);
    RestRuns(first, job);
    CleanupRuns(SshAll(saved, all));
    DeployedCredential(h, job, fates, misread);
  }

  // ---- a rollback that loses a file ---------------------------------------------------------------

  /** No rollback phase takes more commands than this. */
  const PHASE_COMMANDS: nat := 12

  lemma PutBackRuns(m: Machine, f: File, believed: Files<Content>, k: nat)
    requires Ready(m, 3 + k) && m.host.recovery.Some? && RecordsFile(m.host.recovery.value, believed, f)
    ensures Ready(PuttingBack(m, f), k)
  {
    hide Effect;
    var p := Probe(m);
    ReadyOnward(m, p, 1, 2 + k);
    if believed.At(f).Absent? {
      var q := Probe(p);
      ReadyOnward(p, q, 1, 1 + k);
      ReadyOnward(q, Do(q, RemoveLive(f), 1), 1, k);
    } else {
      var q := if f.Config? then p else Do(p, Check, 1);
      CheckRuns(p, 1 + k);
      assert Ready(q, 1 + k) && q.host.recovery.Some?;
      ReadyOnward(q, Do(q, CopyBack(f), 1), 1, k);
    }
  }

  lemma CheckRuns(m: Machine, k: nat)
    requires Ready(m, 1 + k)
    ensures Ready(Do(m, Check, 1), k) && Do(m, Check, 1).host == m.host
    ensures Ready(m, k)
  {
  }

  lemma RestoreRuns(m: Machine, believed: Files<Content>, k: nat)
    requires Ready(m, PHASE_COMMANDS + k) && Covered(m.host, believed)
    ensures Ready(Ssh(m, RESTORE), k)
  {
    var a := [CONNECT, Run(RequireComplete, 1)];
    assert [CONNECT] + RESTORE == a + PUT_BACK_ALL;
    assert AllStill(m.host, a);
    hide Exec, AllStill, RecordsFile;
    StillRuns(m, a);
    var n := Exec(m, a);
    ReadyOnward(m, n, 2, 10 + k);
    ExecConcat(m, a, PUT_BACK_ALL);
    PutBackAllRuns(n, believed, k);
  }

  lemma PutBackAllRuns(m: Machine, believed: Files<Content>, k: nat)
    requires Ready(m, 10 + k) && m.host.recovery.Some? && Records(m.host.recovery.value, believed)
    ensures Ready(Exec(m, PUT_BACK_ALL), k)
  {
    hide Exec, PuttingBack, RecordsFile, Ready;
    var s := PUT_BACK_ALL;
    PutBackRuns(m, Credential, believed, 7 + k);
    var m1 := PuttingBack(m, Credential);
    ReadyRunning(m1, 7 + k);
    FileRestored(m, Credential, believed);
    PutBackRuns(m1, Dropin, believed, 4 + k);
    var m2 := PuttingBack(m1, Dropin);
    ReadyRunning(m2, 4 + k);
    FileRestored(m1, Dropin, believed);
    PutBackRuns(m2, Config, believed, 1 + k);
    var m3 := PuttingBack(m2, Config);
    ExecFour(m, s);
    assert Step(Step(Step(m, s[0]), s[1]), s[2]) == m3;
    RemoveRuns(m3, k);
  }

  lemma RemoveRuns(m: Machine, k: nat)
    requires Ready(m, 1 + k)
    ensures Ready(Step(m, Run(RemoveNexts, 1)), k)
  {
    ChangeStep(m, Run(RemoveNexts, 1));
    ReadyOnward(m, Step(m, Run(RemoveNexts, 1)), 1, k);
  }

  lemma ExecFour(m: Machine, s: seq<Statement>)
    requires |s| == 4
    ensures Exec(m, s) == Step(Step(Step(Step(m, s[0]), s[1]), s[2]), s[3])
  {
    hide Step;
    assert s[1..][1..] == s[2..] && s[2..][1..] == s[3..] && s[3..][1..] == [];
    var m2 := Step(Step(m, s[0]), s[1]);
    assert Exec(m, s) == Exec(m2, s[2..]);
    assert Exec(Step(m2, s[2]), s[3..]) == Step(Step(m2, s[2]), s[3]);
  }

  lemma PhaseRuns(m: Machine, p: Phase, believed: Files<Content>, k: nat)
    requires Ready(m, PHASE_COMMANDS + k) && BeforePhase(m, p, believed)
    ensures Ready(Ssh(m, PhaseScript(p)), k)
  {
    hide Ssh, Records;
    Fewer(m, PHASE_COMMANDS + k, 3 + k);
    match p {
      case RestorePhase => RestoreRuns(m, believed, k);
      case ReloadPhase => ChangeRuns(m, Reload, 1, k);
      case RestartPhase => ChangeRuns(m, Restart, 1, k);
      case ReadinessPhase => ChangeRuns(m, Check, 76, k);
      case CleanupPhase => CleanupReady(m, k);
    }
  }

  lemma Fewer(m: Machine, k: nat, l: nat)
    requires Ready(m, k) && l <= k
    ensures forall i: nat :: i <= l ==> Ready(m, i)
  {
  }

  lemma CleanupReady(m: Machine, k: nat)
    requires Ready(m, 3 + k)
    ensures Ready(Ssh(m, CLEANUP), k)
  {
    hide Exec;
    CleanupRuns(m);
    CleanupUsed(m);
    ReadyOnward(m, Ssh(m, CLEANUP), 3, k);
  }

  lemma CleanupUsed(m: Machine)
    requires Ssh(m, CLEANUP).status == Running
    ensures Onward(m, Ssh(m, CLEANUP), 3)
  {
    hide Exec, Step, Onward;
    var s := [CONNECT] + CLEANUP;
    RanFirst(m, s);
    var m1 := Step(m, s[0]);
    RunUsed(m, Check, 255);
    RanFirst(m1, s[1..]);
    var m2 := Step(m1, s[1]);
    RunUsed(m1, RemoveNexts, 1);
    OnwardTransitive(m, m1, m2, 1, 1);
    assert s[1..][1..] == s[2..];
    RanFirst(m2, s[2..]);
    RunUsed(m2, RemoveRecovery, 1);
    OnwardTransitive(m, m2, Step(m2, s[2]), 2, 1);
    assert s[2..][1..] == [];
    ExecNothing(Step(m2, s[2]));
  }

  lemma {:induction false} RollbackRuns(m: Machine, i: nat, code: nat, believed: Files<Content>)
    requires i < |PHASES| && BeforePhase(m, PHASES[i], believed) && Ready(m, (|PHASES| - i) * PHASE_COMMANDS)
    ensures Rollback(m, PHASES[i..], code).outcome == RolledBack(code)
    decreases |PHASES| - i
  {
    hide BeforePhase, FullyRestored, Ssh, Ready;
    var k := (|PHASES| - i - 1) * PHASE_COMMANDS;
    var n := Ssh(m, PhaseScript(PHASES[i]));
    PhaseRuns(m, PHASES[i], believed, k);
    ReadyRunning(n, k);
    PhaseAdvances(m, i, believed);
    assert PHASES[i..][1..] == PHASES[i + 1..];
    if i + 1 < |PHASES| {
      RollbackRuns(n, i + 1, code, believed);
    }
  }

  lemma FirstFails(m: Machine, secret: string)
    requires m.status == Running && m.fates != [] && m.fates[0].Fails?
    ensures var n := Ssh(m, InstallCredential(secret));
            n.status == Exited(255) && n.host == m.host && n.fates == m.fates[1..] && n.misread == m.misread
  {
    var s := [CONNECT] + InstallCredential(secret);
    var n := Step(m, s[0]);
    assert n == Arrive(m, m.host, Exited(255));
    hide Step;
    StuckExec(n, s[1..]);
    assert Exec(m, s) == Exec(n, s[1..]);
  }

  /**
   * On any host without a recovery directory: let the backup miss some files and the connection after it fail, and
   * everything else work. The deployment reports a full rollback, and every file that was missed is gone.
   */
  lemma MissedFilesAreLost(h: Host, job: Job, fates: seq<Fate>, misread: Files<bool>)
    requires var p := Preparation(h.live, misread);
             && h.recovery.None? && Clear(fates, p) && |fates| > p && fates[p].Fails?
             && Clear(fates[p + 1..], |PHASES| * PHASE_COMMANDS)
    ensures var r := Deploying(Start(h, fates, misread), job);
            && r.outcome == RolledBack(255)
            && forall f: File :: r.machine.host.live.At(f) == if misread.At(f) then Absent else h.live.At(f)
  {
    hide Ssh, SshAll, Rollback, Preparation, Covered;
    var m, p := Start(h, fates, misread), Preparation(h.live, misread);
    Prelude(h, fates, misread);
    var checked := Ssh(m, IDENTITY_CHECK);
    IdentityUsed(m);
    BackupRecords(checked);
    var saved := Ssh(checked, BACKUP);
    FirstFails(saved, job.secret);
    InstallationSpelled(job);
    var all := Installation(job);
    assert all[0..] == all;
    SshAllNext(saved, all, 0);
    var failed := Ssh(saved, all[0]);
    SshAllStuck(failed, all[1..]);
    assert saved.fates[1..] == fates[p + 1..];
    var believed := Believed(h.live, misread);
    assert PHASES[0..] == PHASES;
    RollbackRuns(Resume(failed), 0, 255, believed);
    hide Deploying;
    NothingIsLost(h, job, fates, misread);
  }
}
