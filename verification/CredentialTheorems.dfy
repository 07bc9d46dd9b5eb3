// The credential deployment as a whole, over every way its commands may fail.

module CredentialTheorems {
  import opened Text
  import opened CredentialHost
  import opened Credential
  import opened CredentialLaws

  ghost function Start(h: Host, fates: seq<Fate>, misread: Files<bool>): Machine {
    Machine(h, fates, [], Running, misread)
  }

  /** How many host states come before acceptance; all of them if it is never reached. */
  ghost function BeforeAcceptance(r: Result): nat {
    if r.accepted.Some? then r.accepted.value else |r.machine.trace|
  }

  lemma {:induction false} InstallIsSafe(m: Machine, scripts: seq<seq<Statement>>, original: Files<Content>,
                                         believed: Files<Content>)
    requires Covered(m.host, believed) && forall i :: 0 <= i < |scripts| ==> AllKeepRecovery(scripts[i])
    ensures var n := SshAll(m, scripts);
            Continues(m, n) && SafeFrom(n, |m.trace|, original, believed) && Covered(n.host, believed)
    decreases |scripts|
  {
    hide Covered, AllKeepRecovery, SafeFrom, Ssh, RecoverySince;
    if scripts == [] || m.status != Running {
      assert Continues(m, m) && SafeFrom(m, |m.trace|, original, believed) by { NothingYet(m, original, believed); }
    } else {
      var n := Ssh(m, scripts[0]);
      SshKeepsRecovery(m, scripts[0]);
      CoveredIsSafe(m, n, original, believed);
      assert Continues(m, n) by { RecoveryContinues(m, n); }
      InstallIsSafe(n, scripts[1..], original, believed);
      SafeOnward(m, n, SshAll(n, scripts[1..]), original, believed);
    }
  }

  lemma NothingYet(m: Machine, original: Files<Content>, believed: Files<Content>)
    ensures Continues(m, m) && SafeFrom(m, |m.trace|, original, believed)
  {
  }

  lemma RecoveryContinues(m: Machine, n: Machine)
    requires RecoverySince(m, n)
    ensures Continues(m, n)
  {
  }

  lemma InstallationKeepsRecovery(job: Job)
    ensures forall i :: 0 <= i < |Installation(job)| ==> AllKeepRecovery(Installation(job)[i])
  {
  }

  /** Before the backup completes no live file changes. */
  lemma PreludeIsSafe(m: Machine, believed: Files<Content>)
    ensures var checked := Ssh(m, IDENTITY_CHECK);
            var saved := Ssh(checked, BACKUP);
            && Continues(m, checked) && SafeFrom(checked, |m.trace|, m.host.live, believed)
            && Continues(m, saved) && SafeFrom(saved, |m.trace|, m.host.live, believed)
            && checked.host.live == m.host.live
            && (saved.status == Running ==> Covered(saved.host, Believed(m.host.live, m.misread)))
  {
    hide Exec, Ssh, Covered;
    var checked := Ssh(m, IDENTITY_CHECK);
    var saved := Ssh(checked, BACKUP);
    SshKeepsLive(m, IDENTITY_CHECK);
    SshKeepsLive(checked, BACKUP);
    LiveSinceTransitive(m, checked, saved);
    SettledIsSafe(m, checked, m.host.live, believed);
    SettledIsSafe(m, saved, m.host.live, believed);
    if saved.status == Running {
      BackupRecords(checked);
    }
  }

  lemma SafeBelow(m: Machine, n: Machine, original: Files<Content>, believed: Files<Content>)
    requires Continues(m, n) && SafeFrom(m, 0, original, believed)
    ensures forall i :: 0 <= i < |m.trace| ==> Protected(n.trace[i], original, believed)
  {
    hide Protected;
    forall i | 0 <= i < |m.trace|
      ensures Protected(n.trace[i], original, believed)
    {
      assert n.trace[i] == n.trace[..|m.trace|][i];
    }
  }

  /**
   * At every instant before acceptance, whatever fails, each live file is as it was, or as the backup
   * recorded it, or the recovery directory holds a complete record; and when the plain error comes back
   * after a rollback everything is as the backup recorded it, loaded, and served.
   */
  lemma NothingIsLost(h: Host, job: Job, fates: seq<Fate>, misread: Files<bool>)
    ensures var r := Deploying(Start(h, fates, misread), job);
            var believed := Believed(h.live, misread);
            && BeforeAcceptance(r) <= |r.machine.trace|
            && (forall i :: 0 <= i < BeforeAcceptance(r) ==> Protected(r.machine.trace[i], h.live, believed))
            && (r.outcome.RolledBack? ==> FullyRestored(r.machine.host, believed))
  {
    hide Ssh, SshAll, Covered, Protected, FullyRestored, Rollback, Continues, SafeFrom, Resume;
    var m := Start(h, fates, misread);
    var believed := Believed(h.live, misread);
    var checked := Ssh(m, IDENTITY_CHECK);
    var saved := Ssh(checked, BACKUP);
    var installed := SshAll(saved, Installation(job));
    PreludeIsSafe(m, believed);
    if checked.status != Running {
      AllSafe(checked, h.live, believed);
    } else if saved.status != Running {
      AllSafe(saved, h.live, believed);
    } else {
      InstallationKeepsRecovery(job);
      InstallIsSafe(saved, Installation(job), h.live, believed);
      SafeOnward(m, saved, installed, h.live, believed);
      if installed.status.Exited? {
        RollbackFromInstall(m, installed, h.live, believed, installed.status.code);
      } else if installed.status == Running {
        SshKeepsLive(installed, CLEANUP);
        LiveContinues(installed, Ssh(installed, CLEANUP));
        SafeBelow(installed, Ssh(installed, CLEANUP), h.live, believed);
      } else {
        AllSafe(installed, h.live, believed);
      }
    }
  }

  lemma AllSafe(m: Machine, original: Files<Content>, believed: Files<Content>)
    requires SafeFrom(m, 0, original, believed)
    ensures forall i :: 0 <= i < |m.trace| ==> Protected(m.trace[i], original, believed)
  {
    hide Protected;
  }

  lemma LiveContinues(m: Machine, n: Machine)
    requires LiveSince(m, n)
    ensures Continues(m, n) && |m.trace| <= |n.trace|
  {
  }

  lemma RollbackFromInstall(m: Machine, installed: Machine, original: Files<Content>, believed: Files<Content>,
                            code: nat)
    requires m.trace == [] && Continues(m, installed) && SafeFrom(installed, 0, original, believed)
             && Covered(installed.host, believed)
    ensures var r := Rollback(Resume(installed), PHASES, code);
            && (forall i :: 0 <= i < |r.machine.trace| ==> Protected(r.machine.trace[i], original, believed))
            && (r.outcome.RolledBack? ==> FullyRestored(r.machine.host, believed))
            && r.accepted.None?
  {
    hide Covered, Protected, FullyRestored, Rollback;
    var n := Resume(installed);
    assert PHASES[0..] == PHASES;
    assert BeforePhase(n, PHASES[0], believed);
    RollbackIsSafe(n, 0, code, original, believed);
    SafeTransitive(n, Rollback(n, PHASES, code).machine, 0, original, believed);
  }

  /** No probe of the backup failed to see a file that was there. */
  predicate Honest(live: Files<Content>, misread: Files<bool>) {
    forall f: File :: misread.At(f) ==> live.At(f).Absent?
  }

  lemma HonestBelieves(live: Files<Content>, misread: Files<bool>, f: File)
    ensures Believed(live, misread).At(f) == live.At(f) <==> !(misread.At(f) && !live.At(f).Absent?)
  {
  }

  /**
   * A plain error after a rollback means a file is back exactly when its backup probe did not miss it:
   * a probe that cannot run reads as "absent", and the restore then removes the file.
   */
  lemma PlainErrorRestoresIff(h: Host, job: Job, fates: seq<Fate>, misread: Files<bool>, f: File)
    requires Deploying(Start(h, fates, misread), job).outcome.RolledBack?
    ensures var live := Deploying(Start(h, fates, misread), job).machine.host.live;
            live.At(f) == h.live.At(f) <==> !(misread.At(f) && !h.live.At(f).Absent?)
  {
    hide Deploying;
    NothingIsLost(h, job, fates, misread);
    HonestBelieves(h.live, misread, f);
  }

  /** With probes that see what is there: every file original, or completely recorded, at every instant. */
  lemma OriginalOrRecorded(h: Host, job: Job, fates: seq<Fate>, misread: Files<bool>, i: nat)
    requires Honest(h.live, misread)
    requires i < BeforeAcceptance(Deploying(Start(h, fates, misread), job))
             <= |Deploying(Start(h, fates, misread), job).machine.trace|
    ensures var now := Deploying(Start(h, fates, misread), job).machine.trace[i];
            now.live == h.live
            || (now.recovery.Some? && now.recovery.value.complete
                && forall f: File :: if h.live.At(f).Absent? then now.recovery.value.absent.At(f)
                                     else now.recovery.value.present.At(f)
                                          && now.recovery.value.copies.At(f) == h.live.At(f))
  {
    hide Deploying;
    NothingIsLost(h, job, fates, misread);
    var now := Deploying(Start(h, fates, misread), job).machine.trace[i];
    HonestBelieves(h.live, misread, Credential);
    HonestBelieves(h.live, misread, Dropin);
    HonestBelieves(h.live, misread, Config);
    assert Believed(h.live, misread) == h.live;
    if !Covered(now, h.live) {
      assert now.live.At(Credential) == h.live.At(Credential) && now.live.At(Dropin) == h.live.At(Dropin)
             && now.live.At(Config) == h.live.At(Config);
    }
  }

  // ---- an existing recovery directory ------------------------------------------------------------

  predicate Inert(s: Statement) {
    s.Run? && (s.command.Check? || s.command.CompareLive? || s.command.CompareNext?)
  }

  /** `n` continues `m` on the same host. */
  predicate SameHost(m: Machine, n: Machine) {
    && n.host == m.host
    && |m.trace| <= |n.trace|
    && (forall i :: 0 <= i < |m.trace| ==> n.trace[i] == m.trace[i])
    && (forall i :: |m.trace| <= i < |n.trace| ==> n.trace[i] == m.host)
  }

  lemma SameHostTransitive(l: Machine, m: Machine, n: Machine)
    requires SameHost(l, m) && SameHost(m, n)
    ensures SameHost(l, n)
  {
  }

  lemma InertStep(m: Machine, s: Statement)
    requires Inert(s)
    ensures SameHost(m, Step(m, s))
  {
  }

  lemma {:induction false} InertExec(m: Machine, script: seq<Statement>)
    requires forall i :: 0 <= i < |script| ==> Inert(script[i])
    ensures SameHost(m, Exec(m, script))
    decreases |script|
  {
    hide Inert, Step;
    if script != [] {
      InertStep(m, script[0]);
      InertExec(Step(m, script[0]), script[1..]);
      hide SameHost;
      SameHostTransitive(m, Step(m, script[0]), Exec(m, script));
    }
  }

  lemma InertSsh(m: Machine, script: seq<Statement>)
    requires forall i :: 0 <= i < |script| ==> Inert(script[i])
    ensures SameHost(m, Ssh(m, script))
  {
    hide Exec, SameHost;
    InertExec(m, [CONNECT] + script);
  }

  /** Recovery material of an earlier run is never touched: the run stops with the host as it found it. */
  lemma RetainedRecoveryIsUntouched(h: Host, job: Job, fates: seq<Fate>, misread: Files<bool>)
    requires h.recovery.Some?
    ensures var r := Deploying(Start(h, fates, misread), job);
            && r.machine.host == h && (forall i :: 0 <= i < |r.machine.trace| ==> r.machine.trace[i] == h)
            && (r.outcome.Refused? || r.outcome.RetainedRecovery? || r.outcome.IncompleteBackup? || r.outcome.Killed?)
  {
    hide Ssh, SshAll, Rollback;
    var m := Start(h, fates, misread);
    var checked := Ssh(m, IDENTITY_CHECK);
    InertSsh(m, IDENTITY_CHECK);
    if checked.status == Running {
      BackupRefused(checked);
      SameHostTransitive(m, checked, Ssh(checked, BACKUP));
    }
  }

  lemma BackupRefused(m: Machine)
    requires m.host.recovery.Some? && m.status == Running
    ensures SameHost(m, Ssh(m, BACKUP)) && Ssh(m, BACKUP).status != Running
  {
    var s := [CONNECT] + BACKUP;
    hide BackingUp;
    var m1 := Step(m, s[0]);
    assert Exec(m, s) == Exec(m1, s[1..]);
    InertStep(m, s[0]);
    if m1.status != Running {
      StuckExec(m1, s[1..]);
    } else {
      var m2 := Step(m1, s[1]);
      assert Exec(m1, s[1..]) == Exec(m2, s[1..][1..]);
      StuckExec(m2, s[1..][1..]);
    }
  }

  // ---- what acceptance means ---------------------------------------------------------------------------

  lemma RanFirstScript(m: Machine, scripts: seq<seq<Statement>>)
    requires scripts != [] && SshAll(m, scripts).status == Running
    ensures m.status == Running && Ssh(m, scripts[0]).status == Running
    ensures SshAll(m, scripts) == SshAll(Ssh(m, scripts[0]), scripts[1..])
  {
    hide Ssh;
    SshAllStuck(Ssh(m, scripts[0]), scripts[1..]);
  }

  lemma SshAllStuck(m: Machine, scripts: seq<seq<Statement>>)
    ensures m.status != Running ==> SshAll(m, scripts) == m
  {
  }

  lemma {:induction false} RollbackNeverDeploys(m: Machine, phases: seq<Phase>, code: nat)
    ensures !Rollback(m, phases, code).outcome.Deployed?
    decreases |phases|
  {
    hide Ssh;
    if phases != [] {
      RollbackNeverDeploys(Ssh(m, PhaseScript(phases[0])), phases[1..], code);
    }
  }

  /** The unit check compares the live drop-in with the payload, and changes nothing. */
  lemma UnitChecked(m: Machine, job: Job)
    requires Ssh(m, Installation(job)[7]).status == Running
    ensures m.host.live.dropin == Whole(job.payload)
  {
    hide Exec, Do;
    var s := [CONNECT] + Installation(job)[7];
    RanFirst(m, s);
    var m1 := Step(m, s[0]);
    DoRan(m, Check, 255);
    RanFirst(m1, s[1..]);
    var m2 := Step(m1, s[1]);
    DoRan(m1, Check, 83);
    assert s[1..][1..] == s[2..];
    RanFirst(m2, s[2..]);
    var m3 := Step(m2, s[2]);
    DoRan(m2, Check, 83);
    assert s[2..][1..] == s[3..];
    RanFirst(m3, s[3..]);
    var m4 := Step(m3, s[3]);
    DoRan(m3, Check, 83);
    assert s[3..][1..] == s[4..];
    RanFirst(m4, s[4..]);
    DoRan(m4, CompareLive(Dropin, job.payload), 83);
  }

  lemma InertIsHost(m: Machine, script: seq<Statement>)
    requires forall i :: 0 <= i < |script| ==> Inert(script[i])
    ensures Ssh(m, script).host == m.host
  {
    hide Ssh;
    InertSsh(m, script);
  }

  /** From configuration to acceptance: the unit file is the payload, and the service runs from it. */
  lemma AcceptedTail(m: Machine, job: Job)
    requires SshAll(m, Installation(job)[2..]).status == Running
    ensures var n := SshAll(m, Installation(job)[2..]);
            && n.host.live == m.host.live.(config := Whole(job.config)) && n.host.live.dropin == Whole(job.payload)
            && n.host.loaded == Whole(job.payload) && n.host.running == Some(n.host.live)
  {
    hide Ssh, SshAll, Inert;
    InstallationInert(job);
    var all := Installation(job);
    RanFirstScript(m, all[2..]);
    var m3 := Ssh(m, all[2]);
    OneCommand(m, Configure(job.config), 1);
    assert all[2..][1..] == all[3..];
    RanFirstScript(m3, all[3..]);
    var m4 := Ssh(m3, all[3]);
    InertIsHost(m3, all[3]);
    assert all[3..][1..] == all[4..];
    RanFirstScript(m4, all[4..]);
    var m5 := Ssh(m4, all[4]);
    OneCommand(m4, Reload, 80);
    assert all[4..][1..] == all[5..];
    assert m5.host == m.host.(live := m.host.live.With(Config, Whole(job.config)), loaded := m.host.live.dropin);
    AcceptedEnd(m5, job);
  }

  lemma InstallationInert(job: Job)
    ensures var all := Installation(job);
            && (forall i :: 0 <= i < |all[3]| ==> Inert(all[3][i]))
            && (forall i :: 0 <= i < |all[5]| ==> Inert(all[5][i]))
            && (forall i :: 0 <= i < |all[6]| ==> Inert(all[6][i]))
            && (forall i :: 0 <= i < |all[7]| ==> Inert(all[7][i]))
            && (forall i :: 0 <= i < |all[9]| ==> Inert(all[9][i]))
            && (forall i :: 0 <= i < |all[10]| ==> Inert(all[10][i]))
  {
  }

  lemma AcceptedEnd(m: Machine, job: Job)
    requires SshAll(m, Installation(job)[5..]).status == Running
    ensures var n := SshAll(m, Installation(job)[5..]);
            n.host == m.host.(running := Some(m.host.live.(dropin := m.host.loaded)))
            && m.host.live.dropin == Whole(job.payload)
  {
    hide Ssh, SshAll, Inert;
    InstallationInert(job);
    var all := Installation(job);
    RanFirstScript(m, all[5..]);
    var m6 := Ssh(m, all[5]);
    InertIsHost(m, all[5]);
    assert all[5..][1..] == all[6..];
    RanFirstScript(m6, all[6..]);
    var m7 := Ssh(m6, all[6]);
    InertIsHost(m6, all[6]);
    assert all[6..][1..] == all[7..];
    RanFirstScript(m7, all[7..]);
    var m8 := Ssh(m7, all[7]);
    UnitChecked(m7, job);
    InertIsHost(m7, all[7]);
    assert all[7..][1..] == all[8..];
    RanFirstScript(m8, all[8..]);
    var m9 := Ssh(m8, all[8]);
    OneCommand(m8, Restart, 1);
    assert all[8..][1..] == all[9..];
    RanFirstScript(m9, all[9..]);
    var m10 := Ssh(m9, all[9]);
    InertIsHost(m9, all[9]);
    assert all[9..][1..] == all[10..];
    RanFirstScript(m10, all[10..]);
    InertIsHost(m10, all[10]);
    assert all[10..][1..] == [];
    assert SshAll(Ssh(m10, all[10]), []) == Ssh(m10, all[10]) by { SshNothing(Ssh(m10, all[10])); }
  }

  lemma SshNothing(m: Machine)
    ensures SshAll(m, []) == m
  {
  }

  /**
   * A deployment that reports success installed the drop-in and the configuration byte for byte, runs the
   * service from what is on disk, and removed the recovery directory. Of the credential it has only moved
   * into place whatever its `.next` file held.
   */
  lemma DeployedIsInstalled(h: Host, job: Job, fates: seq<Fate>, misread: Files<bool>)
    requires Deploying(Start(h, fates, misread), job).outcome.Deployed?
    ensures var now := Deploying(Start(h, fates, misread), job).machine.host;
            && now.live.dropin == Whole(job.payload) && now.live.config == Whole(job.config)
            && now.loaded == Whole(job.payload) && now.running == Some(now.live)
            && now.recovery.None? && now.next == NO_FILES
  {
    hide Ssh, SshAll, Rollback;
    var m := Start(h, fates, misread);
    var saved := Ssh(Ssh(m, IDENTITY_CHECK), BACKUP);
    var all := Installation(job);
    var installed := SshAll(saved, all);
    if installed.status.Exited? {
      RollbackNeverDeploys(Resume(installed), PHASES, installed.status.code);
    }
    RanFirstScript(saved, all);
    RanFirstScript(Ssh(saved, all[0]), all[1..]);
    assert all[1..][1..] == all[2..];
    AcceptedTail(Ssh(Ssh(saved, all[0]), all[1..][0]), job);
    CleanedUp(installed);
  }
}
