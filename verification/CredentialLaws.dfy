// What the credential deployment guarantees at every instant of every run.

module CredentialLaws {
  import opened Text
  import opened CredentialHost
  import opened Credential

  /** What the backup takes each file to have held. */
  function Believed(live: Files<Content>, misread: Files<bool>): Files<Content> {
    Files(if misread.credential then Absent else live.credential,
          if misread.dropin then Absent else live.dropin,
          if misread.config then Absent else live.config)
  }

  /** One mark per file, and a copy of every file marked present. */
  predicate RecordsFile(r: Recovery, believed: Files<Content>, f: File) {
    if believed.At(f).Absent? then r.absent.At(f) && !r.present.At(f)
    else r.present.At(f) && !r.absent.At(f) && r.copies.At(f) == believed.At(f)
  }

  predicate Records(r: Recovery, believed: Files<Content>) {
    RecordsFile(r, believed, Credential) && RecordsFile(r, believed, Dropin) && RecordsFile(r, believed, Config)
  }

  /** The recovery directory holds a complete copy, marked `transaction.complete`. */
  predicate Covered(h: Host, believed: Files<Content>) {
    h.recovery.Some? && h.recovery.value.complete && Records(h.recovery.value, believed)
  }

  /** A file is as it was, or as the backup recorded it, or the record of it is complete. */
  predicate Protected(h: Host, original: Files<Content>, believed: Files<Content>) {
    Covered(h, believed) || forall f: File :: h.live.At(f) == original.At(f) || h.live.At(f) == believed.At(f)
  }

  // ---- scripts that leave something alone ------------------------------------------------------

  predicate TouchesLive(c: Command) {
    c.MoveNext? || c.Configure? || c.CopyBack? || c.RemoveLive?
  }

  predicate TouchesRecovery(c: Command) {
    c.MakeRecovery? || c.CopyOut? || c.MarkPresent? || c.MarkAbsent? || c.MarkComplete? || c.RemoveRecovery?
  }

  predicate KeepsLive(s: Statement) {
    match s
    case Run(c, _) => !TouchesLive(c)
    case Quiet(c) => !TouchesLive(c)
    case BackUp(_) => true
    case PutBack(_) => false
  }

  predicate KeepsRecovery(s: Statement) {
    match s
    case Run(c, _) => !TouchesRecovery(c)
    case Quiet(c) => !TouchesRecovery(c)
    case BackUp(_) => false
    case PutBack(_) => true
  }

  predicate AllKeepLive(script: seq<Statement>) {
    forall i :: 0 <= i < |script| ==> KeepsLive(script[i])
  }

  predicate AllKeepRecovery(script: seq<Statement>) {
    forall i :: 0 <= i < |script| ==> KeepsRecovery(script[i])
  }

  /** `n` continues `m`. */
  predicate Continues(m: Machine, n: Machine) {
    && |m.trace| <= |n.trace| && n.trace[..|m.trace|] == m.trace
    && n.misread == m.misread
    && (n.trace == m.trace ==> n.host == m.host)
    && (|n.trace| > |m.trace| ==> n.trace[|n.trace| - 1] == n.host)
  }

  predicate LiveSince(m: Machine, n: Machine) {
    && Continues(m, n)
    && n.host.live == m.host.live
    && forall i :: |m.trace| <= i < |n.trace| ==> n.trace[i].live == m.host.live
  }

  predicate RecoverySince(m: Machine, n: Machine) {
    && Continues(m, n)
    && n.host.recovery == m.host.recovery
    && forall i :: |m.trace| <= i < |n.trace| ==> n.trace[i].recovery == m.host.recovery
  }

  lemma ContinuesTransitive(l: Machine, m: Machine, n: Machine)
    requires Continues(l, m) && Continues(m, n)
    ensures Continues(l, n)
  {
    assert n.trace[..|l.trace|] == n.trace[..|m.trace|][..|l.trace|];
  }

  lemma LiveSinceTransitive(l: Machine, m: Machine, n: Machine)
    requires LiveSince(l, m) && LiveSince(m, n)
    ensures LiveSince(l, n)
  {
    ContinuesTransitive(l, m, n);
    forall i | |l.trace| <= i < |n.trace|
      ensures n.trace[i].live == l.host.live
    {
      if i < |m.trace| {
        assert n.trace[i] == n.trace[..|m.trace|][i];
      }
    }
  }

  lemma RecoverySinceTransitive(l: Machine, m: Machine, n: Machine)
    requires RecoverySince(l, m) && RecoverySince(m, n)
    ensures RecoverySince(l, n)
  {
    ContinuesTransitive(l, m, n);
    forall i | |l.trace| <= i < |n.trace|
      ensures n.trace[i].recovery == l.host.recovery
    {
      if i < |m.trace| {
        assert n.trace[i] == n.trace[..|m.trace|][i];
      }
    }
  }

  lemma ArriveContinues(m: Machine, h: Host, status: Status)
    requires m.fates != []
    ensures Continues(m, Arrive(m, h, status))
    ensures h.live == m.host.live ==> LiveSince(m, Arrive(m, h, status))
    ensures h.recovery == m.host.recovery ==> RecoverySince(m, Arrive(m, h, status))
  {
  }

  lemma CommandKeeps(h: Host, c: Command)
    requires Can(h, c)
    ensures !TouchesLive(c) ==> Effect(h, c).live == h.live && Partial(h, c).live == h.live
    ensures !TouchesRecovery(c) ==> Effect(h, c).recovery == h.recovery && Partial(h, c).recovery == h.recovery
  {
  }

  lemma DoContinues(m: Machine, c: Command, code: nat)
    ensures Continues(m, Do(m, c, code))
    ensures !TouchesLive(c) ==> LiveSince(m, Do(m, c, code))
    ensures !TouchesRecovery(c) ==> RecoverySince(m, Do(m, c, code))
  {
    NowhereContinues(m);
    hide Continues, LiveSince, RecoverySince, Can, Effect, Partial, TouchesLive, TouchesRecovery, Arrive;
    if m.fates != [] {
      ArriveContinues(m, m.host, Exited(code));
      if Can(m.host, c) {
        CommandKeeps(m.host, c);
        ArriveContinues(m, Effect(m.host, c), Running);
        ArriveContinues(m, Effect(m.host, c), Exited(code));
        ArriveContinues(m, Partial(m.host, c), Exited(code));
      }
    }
  }

  lemma NowhereContinues(m: Machine)
    ensures Continues(m, m) && LiveSince(m, m) && RecoverySince(m, m)
    ensures var n := m.(status := Dead); Continues(m, n) && LiveSince(m, n) && RecoverySince(m, n)
  {
  }

  lemma ProbeContinues(m: Machine)
    ensures LiveSince(m, Probe(m)) && RecoverySince(m, Probe(m))
  {
  }

  lemma StepKeepsLive(m: Machine, s: Statement)
    requires KeepsLive(s)
    ensures LiveSince(m, Step(m, s))
  {
    hide LiveSince;
    match s {
      case Run(c, code) => DoContinues(m, c, code);
      case Quiet(c) =>
        DoContinues(m, c, 1);
        assert LiveSince(m, m) by { LiveSinceSelf(m); }
        ResumedKeeps(m, Do(m, c, 1));
      case BackUp(f) =>
        assert LiveSince(m, m) by { LiveSinceSelf(m); }
        hide Do, Probe;
        var p := Probe(m);
        ProbeContinues(m);
        DoContinues(p, CopyOut(f), 1);
        DoContinues(Do(p, CopyOut(f), 1), MarkPresent(f), 1);
        DoContinues(p, MarkAbsent(f), 1);
        LiveSinceTransitive(p, Do(p, CopyOut(f), 1), Do(Do(p, CopyOut(f), 1), MarkPresent(f), 1));
        LiveSinceTransitive(m, p, Step(m, s));
    }
  }

  lemma LiveSinceSelf(m: Machine)
    ensures LiveSince(m, m) && RecoverySince(m, m)
  {
  }

  lemma ResumedKeeps(m: Machine, n: Machine)
    ensures LiveSince(m, n) ==> LiveSince(m, Resume(n))
    ensures RecoverySince(m, n) ==> RecoverySince(m, Resume(n))
    ensures Continues(m, n) ==> Continues(m, Resume(n))
  {
  }

  lemma StepKeepsRecovery(m: Machine, s: Statement)
    requires KeepsRecovery(s)
    ensures RecoverySince(m, Step(m, s))
  {
    hide RecoverySince;
    LiveSinceSelf(m);
    match s {
      case Run(c, code) => DoContinues(m, c, code);
      case Quiet(c) =>
        DoContinues(m, c, 1);
        ResumedKeeps(m, Do(m, c, 1));
      case PutBack(f) =>
        PuttingBackKeepsRecovery(m, f);
    }
  }

  lemma PuttingBackKeepsRecovery(m: Machine, f: File)
    ensures RecoverySince(m, PuttingBack(m, f))
  {
    hide RecoverySince, Do, Probe;
    LiveSinceSelf(m);
    StatusAside(m, m, Dead);
    if m.status == Running && m.fates != [] {
      CopyingKeepsRecovery(m, f);
      RemovingKeepsRecovery(m, f);
    }
  }

  lemma CopyingKeepsRecovery(m: Machine, f: File)
    ensures var p := Probe(m); RecoverySince(m, Do(if f.Config? then p else Do(p, Check, 1), CopyBack(f), 1))
  {
    hide RecoverySince, Do;
    var p := Probe(m);
    var ready := if f.Config? then p else Do(p, Check, 1);
    ProbeContinues(m);
    LiveSinceSelf(p);
    DoContinues(p, Check, 1);
    DoContinues(ready, CopyBack(f), 1);
    RecoverySinceTransitive(p, ready, Do(ready, CopyBack(f), 1));
    RecoverySinceTransitive(m, p, Do(ready, CopyBack(f), 1));
  }

  lemma RemovingKeepsRecovery(m: Machine, f: File)
    ensures var p := Probe(m);
            && RecoverySince(m, p.(status := Dead))
            && RecoverySince(m, Probe(p).(status := Exited(NO_MARK_EXIT)))
            && RecoverySince(m, Do(Probe(p), RemoveLive(f), 1))
  {
    hide RecoverySince, Do, Probe;
    var p := Probe(m);
    var q := Probe(p);
    ProbeContinues(m);
    StatusAside(m, p, Dead);
    ProbeContinues(p);
    RecoverySinceTransitive(m, p, q);
    StatusAside(m, q, Exited(NO_MARK_EXIT));
    DoContinues(q, RemoveLive(f), 1);
    RecoverySinceTransitive(m, q, Do(q, RemoveLive(f), 1));
  }

  lemma StatusAside(m: Machine, n: Machine, status: Status)
    requires RecoverySince(m, n)
    ensures RecoverySince(m, n.(status := status))
  {
  }

  lemma {:induction false} ExecKeepsLive(m: Machine, script: seq<Statement>)
    requires AllKeepLive(script)
    ensures LiveSince(m, Exec(m, script))
    decreases |script|
  {
    hide LiveSince, KeepsLive, Step;
    if script == [] {
      LiveSinceSelf(m);
    } else {
      StepKeepsLive(m, script[0]);
      ExecKeepsLive(Step(m, script[0]), script[1..]);
      LiveSinceTransitive(m, Step(m, script[0]), Exec(m, script));
    }
  }

  lemma {:induction false} ExecKeepsRecovery(m: Machine, script: seq<Statement>)
    requires AllKeepRecovery(script)
    ensures RecoverySince(m, Exec(m, script))
    decreases |script|
  {
    hide RecoverySince, KeepsRecovery, Step;
    if script == [] {
      LiveSinceSelf(m);
    } else {
      StepKeepsRecovery(m, script[0]);
      ExecKeepsRecovery(Step(m, script[0]), script[1..]);
      RecoverySinceTransitive(m, Step(m, script[0]), Exec(m, script));
    }
  }

  // ---- what completed scripts have done -----------------------------------------------------------

  lemma DoRan(m: Machine, c: Command, code: nat)
    requires Do(m, c, code).status == Running
    ensures m.status == Running && Can(m.host, c) && Do(m, c, code).host == Effect(m.host, c)
    ensures Do(m, c, code).misread == m.misread
  {
  }

  lemma StuckStep(m: Machine, s: Statement)
    requires m.status != Running
    ensures Step(m, s) == m
  {
  }

  lemma {:induction false} StuckExec(m: Machine, script: seq<Statement>)
    requires m.status != Running
    ensures Exec(m, script) == m
    decreases |script|
  {
    if script != [] {
      StuckStep(m, script[0]);
      hide Step;
      StuckExec(m, script[1..]);
    }
  }

  /** A script that ran to its end ran its first statement, and then the rest. */
  lemma RanFirst(m: Machine, script: seq<Statement>)
    requires script != [] && Exec(m, script).status == Running
    ensures m.status == Running && Step(m, script[0]).status == Running
    ensures Exec(m, script) == Exec(Step(m, script[0]), script[1..])
  {
    hide Step;
    if m.status != Running {
      StuckExec(m, script);
    }
    if Step(m, script[0]).status != Running {
      StuckExec(Step(m, script[0]), script[1..]);
    }
  }

  /** The recovery directory while files are still being saved: marks for some, none for the others. */
  predicate Recorded(h: Host, misread: Files<bool>, done: set<File>) {
    h.recovery.Some?
    && var r := h.recovery.value;
       forall f: File ::
         if f in done then RecordsFile(r, Believed(h.live, misread), f) else !r.present.At(f) && !r.absent.At(f)
  }

  lemma BackedUp(m: Machine, f: File, done: set<File>)
    requires m.status == Running && BackingUp(m, f).status == Running && Recorded(m.host, m.misread, done) && f !in done
    ensures var n := BackingUp(m, f);
            n.host.live == m.host.live && n.misread == m.misread && Recorded(n.host, n.misread, done + {f})
  {
    var p := Probe(m);
    if !m.host.live.At(f).Absent? && !m.misread.At(f) {
      DoRan(Do(p, CopyOut(f), 1), MarkPresent(f), 1);
      DoRan(p, CopyOut(f), 1);
    } else {
      DoRan(p, MarkAbsent(f), 1);
    }
  }

  /** A backup that completes started from no recovery directory and left a complete record of all three files. */
  lemma BackupRecords(m: Machine)
    requires Ssh(m, BACKUP).status == Running
    ensures m.host.recovery.None?
    ensures var n := Ssh(m, BACKUP);
            n.host.live == m.host.live && Covered(n.host, Believed(m.host.live, m.misread))
  {
    hide Exec, BackingUp, Records, RecordsFile, Recorded, Do;
    var s := [CONNECT] + BACKUP;
    RanFirst(m, s);
    var m1 := Step(m, s[0]);
    DoRan(m, Check, 255);
    RanFirst(m1, s[1..]);
    var m2 := Step(m1, s[1]);
    DoRan(m1, MakeRecovery, RETAINED_RECOVERY_EXIT);
    assert s[1..][1..] == s[2..];
    RanFirst(m2, s[2..]);
    var m3 := Step(m2, s[2]);
    DoRan(m2, Check, 1);
    assert s[2..][1..] == s[3..];
    RanFirst(m3, s[3..]);
    var m4 := Step(m3, s[3]);
    DoRan(m3, Check, 1);
    assert s[3..][1..] == s[4..];
    FreshRecovery(m4.host, m4.misread);
    BackupMiddle(m4);
  }

  lemma FreshRecovery(h: Host, misread: Files<bool>)
    requires h.recovery == Some(NEW_RECOVERY)
    ensures Recorded(h, misread, {})
  {
  }

  lemma BackupMiddle(m: Machine)
    requires Recorded(m.host, m.misread, {})
    requires Exec(m, [BackUp(Credential), BackUp(Dropin), BackUp(Config), Run(MarkComplete, 1)]).status == Running
    ensures var n := Exec(m, [BackUp(Credential), BackUp(Dropin), BackUp(Config), Run(MarkComplete, 1)]);
            n.host.live == m.host.live && Covered(n.host, Believed(m.host.live, m.misread))
  {
    hide Exec, BackingUp, RecordsFile, Recorded, Do;
    var s := [BackUp(Credential), BackUp(Dropin), BackUp(Config), Run(MarkComplete, 1)];
    RanFirst(m, s);
    var m1 := Step(m, s[0]);
    BackedUp(m, Credential, {});
    RanFirst(m1, s[1..]);
    var m2 := Step(m1, s[1]);
    BackedUp(m1, Dropin, {} + {Credential});
    assert s[1..][1..] == s[2..];
    RanFirst(m2, s[2..]);
    var m3 := Step(m2, s[2]);
    BackedUp(m2, Config, {} + {Credential} + {Dropin});
    assert s[2..][1..] == s[3..];
    RanFirst(m3, s[3..]);
    DoRan(m3, MarkComplete, 1);
    AllRecorded(m3.host, m3.misread);
    assert s[3..][1..] == [];
    var m4 := Step(m3, s[3]);
    assert Exec(m4, []) == m4 by { ExecNothing(m4); }
  }

  lemma ExecNothing(m: Machine)
    ensures Exec(m, []) == m
  {
  }

  lemma AllRecorded(h: Host, misread: Files<bool>)
    requires Recorded(h, misread, {} + {Credential} + {Dropin} + {Config})
    ensures h.recovery.Some? && Records(h.recovery.value, Believed(h.live, misread))
    ensures Records(h.recovery.value.(complete := true), Believed(h.live, misread))
  {
  }

  // ---- restoring ---------------------------------------------------------------------------------

  lemma FileRestored(m: Machine, f: File, believed: Files<Content>)
    requires PuttingBack(m, f).status == Running && m.host.recovery.Some?
             && RecordsFile(m.host.recovery.value, believed, f)
    ensures PuttingBack(m, f).host == m.host.(live := m.host.live.With(f, believed.At(f)))
  {
    hide RecordsFile, Do;
    assert m.status == Running && m.fates != [];
    var p := Probe(m);
    var ready := if f.Config? then p else Do(p, Check, 1);
    var q := Probe(p);
    if PuttingBack(m, f) == Do(ready, CopyBack(f), 1) && m.host.recovery.value.present.At(f) && m.fates[0].Works? {
      DoRan(ready, CopyBack(f), 1);
      if !f.Config? {
        DoRan(p, Check, 1);
      }
      PresentIsCopied(m.host.recovery.value, believed, f);
    } else {
      DoRan(q, RemoveLive(f), 1);
      AbsentIsRemoved(m.host.recovery.value, believed, f);
    }
  }

  lemma PresentIsCopied(r: Recovery, believed: Files<Content>, f: File)
    requires RecordsFile(r, believed, f) && r.present.At(f)
    ensures r.copies.At(f) == believed.At(f)
  {
  }

  lemma AbsentIsRemoved(r: Recovery, believed: Files<Content>, f: File)
    requires RecordsFile(r, believed, f) && r.absent.At(f)
    ensures believed.At(f) == Absent
  {
  }

  /** From any host whose record is complete, a restore that runs through puts all three files back. */
  lemma RestoreRestores(m: Machine, believed: Files<Content>)
    requires Covered(m.host, believed) && Ssh(m, RESTORE).status == Running
    ensures Ssh(m, RESTORE).host == m.host.(live := believed, next := NO_FILES)
  {
    hide Exec, PuttingBack, Records, Do;
    var s := [CONNECT] + RESTORE;
    RanFirst(m, s);
    var m1 := Step(m, s[0]);
    DoRan(m, Check, 255);
    RanFirst(m1, s[1..]);
    var m2 := Step(m1, s[1]);
    DoRan(m1, RequireComplete, 1);
    assert s[1..][1..] == s[2..] == PUT_BACK_ALL;
    AllPutBack(m2, believed);
  }

  const PUT_BACK_ALL := [PutBack(Credential), PutBack(Dropin), PutBack(Config), Run(RemoveNexts, 1)]

  lemma AllPutBack(m: Machine, believed: Files<Content>)
    requires m.host.recovery.Some? && Records(m.host.recovery.value, believed)
             && Exec(m, PUT_BACK_ALL).status == Running
    ensures Exec(m, PUT_BACK_ALL).host == m.host.(live := believed, next := NO_FILES)
  {
    hide Exec, PuttingBack, RecordsFile, Do;
    var s := PUT_BACK_ALL;
    RanFirst(m, s);
    var m1 := Step(m, s[0]);
    FileRestored(m, Credential, believed);
    RanFirst(m1, s[1..]);
    var m2 := Step(m1, s[1]);
    FileRestored(m1, Dropin, believed);
    assert s[1..][1..] == s[2..];
    RanFirst(m2, s[2..]);
    var m3 := Step(m2, s[2]);
    FileRestored(m2, Config, believed);
    assert s[2..][1..] == s[3..];
    RanFirst(m3, s[3..]);
    var m4 := Step(m3, s[3]);
    DoRan(m3, RemoveNexts, 1);
    assert s[3..][1..] == [];
    ExecNothing(m4);
  }

  lemma OneCommand(m: Machine, c: Command, code: nat)
    requires Ssh(m, [Run(c, code)]).status == Running
    ensures Can(m.host, c) && Ssh(m, [Run(c, code)]).host == Effect(m.host, c)
  {
    hide Exec, Do;
    var s := [CONNECT] + [Run(c, code)];
    RanFirst(m, s);
    var m1 := Step(m, s[0]);
    DoRan(m, Check, 255);
    RanFirst(m1, s[1..]);
    DoRan(m1, c, code);
    assert s[1..][1..] == [];
    ExecNothing(Step(m1, s[1]));
  }

  lemma CleanedUp(m: Machine)
    requires Ssh(m, CLEANUP).status == Running
    ensures Ssh(m, CLEANUP).host == m.host.(next := NO_FILES, recovery := None)
  {
    hide Exec, Do;
    var s := [CONNECT] + CLEANUP;
    RanFirst(m, s);
    var m1 := Step(m, s[0]);
    DoRan(m, Check, 255);
    RanFirst(m1, s[1..]);
    var m2 := Step(m1, s[1]);
    DoRan(m1, RemoveNexts, 1);
    assert s[1..][1..] == s[2..];
    RanFirst(m2, s[2..]);
    DoRan(m2, RemoveRecovery, 1);
    assert s[2..][1..] == [];
    ExecNothing(Step(m2, s[2]));
  }

  lemma SshKeepsLive(m: Machine, script: seq<Statement>)
    requires AllKeepLive(script)
    ensures LiveSince(m, Ssh(m, script))
  {
    assert AllKeepLive([CONNECT] + script);
    hide AllKeepLive, LiveSince, Exec;
    ExecKeepsLive(m, [CONNECT] + script);
  }

  lemma SshKeepsRecovery(m: Machine, script: seq<Statement>)
    requires AllKeepRecovery(script)
    ensures RecoverySince(m, Ssh(m, script))
  {
    assert AllKeepRecovery([CONNECT] + script);
    hide AllKeepRecovery, RecoverySince, Exec;
    ExecKeepsRecovery(m, [CONNECT] + script);
  }

  // ---- the rollback --------------------------------------------------------------------------------

  /** Every host state after the first `from` is protected. */
  predicate SafeFrom(m: Machine, from: nat, original: Files<Content>, believed: Files<Content>) {
    forall i :: from <= i < |m.trace| ==> Protected(m.trace[i], original, believed)
  }

  lemma CoveredIsSafe(m: Machine, n: Machine, original: Files<Content>, believed: Files<Content>)
    requires RecoverySince(m, n) && Covered(m.host, believed)
    ensures SafeFrom(n, |m.trace|, original, believed) && Covered(n.host, believed)
  {
    hide Records;
  }

  lemma SettledIsSafe(m: Machine, n: Machine, original: Files<Content>, believed: Files<Content>)
    requires LiveSince(m, n) && (m.host.live == original || m.host.live == believed)
    ensures SafeFrom(n, |m.trace|, original, believed)
  {
    hide Covered;
  }

  lemma SafeTransitive(m: Machine, n: Machine, from: nat, original: Files<Content>, believed: Files<Content>)
    requires from <= |m.trace| && Continues(m, n)
    requires SafeFrom(m, from, original, believed) && SafeFrom(n, |m.trace|, original, believed)
    ensures SafeFrom(n, from, original, believed)
  {
    hide Protected;
    forall i | from <= i < |n.trace|
      ensures Protected(n.trace[i], original, believed)
    {
      if i < |m.trace| {
        assert n.trace[i] == n.trace[..|m.trace|][i];
      }
    }
  }

  /** What holds when a rollback phase begins. */
  predicate BeforePhase(m: Machine, p: Phase, believed: Files<Content>) {
    && Covered(m.host, believed)
    && (p != RestorePhase ==> m.host.live == believed && m.host.next == NO_FILES)
    && (p.RestartPhase? || p.ReadinessPhase? || p.CleanupPhase? ==> m.host.loaded == believed.dropin)
    && (p.ReadinessPhase? || p.CleanupPhase? ==> m.host.running == Some(believed))
  }

  /** All three files are back, loaded, and served, and the recovery directory is gone. */
  predicate FullyRestored(h: Host, believed: Files<Content>) {
    h == Host(believed, NO_FILES, None, believed.dropin, Some(believed))
  }

  lemma PhaseKeepsSafe(m: Machine, p: Phase, original: Files<Content>, believed: Files<Content>)
    requires BeforePhase(m, p, believed)
    ensures var n := Ssh(m, PhaseScript(p)); Continues(m, n) && SafeFrom(n, |m.trace|, original, believed)
    ensures p != CleanupPhase ==> Covered(Ssh(m, PhaseScript(p)).host, believed)
  {
    hide Exec, Covered, Ssh;
    if p.CleanupPhase? {
      SshKeepsLive(m, PhaseScript(p));
      SettledIsSafe(m, Ssh(m, PhaseScript(p)), original, believed);
    } else {
      SshKeepsRecovery(m, PhaseScript(p));
      CoveredIsSafe(m, Ssh(m, PhaseScript(p)), original, believed);
    }
  }

  lemma PhaseAdvances(m: Machine, i: nat, believed: Files<Content>)
    requires i < |PHASES| && BeforePhase(m, PHASES[i], believed) && Ssh(m, PhaseScript(PHASES[i])).status == Running
    ensures var n := Ssh(m, PhaseScript(PHASES[i]));
            if i + 1 < |PHASES| then BeforePhase(n, PHASES[i + 1], believed) else FullyRestored(n.host, believed)
  {
    hide Exec, Records, Ssh;
    PhaseKeepsSafe(m, PHASES[i], believed, believed);
    match PHASES[i] {
      case RestorePhase => RestoreRestores(m, believed);
      case ReloadPhase => OneCommand(m, Reload, 1);
      case RestartPhase => OneCommand(m, Restart, 1);
      case ReadinessPhase => OneCommand(m, Check, 76);
      case CleanupPhase => CleanedUp(m);
    }
  }

  lemma {:induction false} RollbackIsSafe(m: Machine, i: nat, code: nat, original: Files<Content>,
                                          believed: Files<Content>)
    requires i < |PHASES| && BeforePhase(m, PHASES[i], believed)
    ensures var r := Rollback(m, PHASES[i..], code);
            && Continues(m, r.machine) && SafeFrom(r.machine, |m.trace|, original, believed)
            && (r.outcome.RolledBack? ==> r.outcome.code == code && FullyRestored(r.machine.host, believed))
            && (r.outcome.RolledBack? || r.outcome.RollbackError? || r.outcome.Killed?)
            && r.accepted.None?
    decreases |PHASES| - i
  {
    hide BeforePhase, FullyRestored, SafeFrom, Continues, Ssh;
    var p := PHASES[i];
    var n := Ssh(m, PhaseScript(p));
    PhaseKeepsSafe(m, p, original, believed);
    if n.status == Running {
      PhaseAdvances(m, i, believed);
      assert PHASES[i..][1..] == PHASES[i + 1..];
      if i + 1 < |PHASES| {
        RollbackIsSafe(n, i + 1, code, original, believed);
        var r := Rollback(n, PHASES[i + 1..], code);
        SafeOnward(m, n, r.machine, original, believed);
      }
    }
  }

  lemma SafeOnward(l: Machine, m: Machine, n: Machine, original: Files<Content>, believed: Files<Content>)
    requires Continues(l, m) && Continues(m, n)
    requires SafeFrom(m, |l.trace|, original, believed) && SafeFrom(n, |m.trace|, original, believed)
    ensures Continues(l, n) && SafeFrom(n, |l.trace|, original, believed)
  {
    hide SafeFrom;
    ContinuesTransitive(l, m, n);
    SafeTransitive(m, n, |l.trace|, original, believed);
  }
}
