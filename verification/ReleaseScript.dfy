// The commands of a deploy and of a rollback as one flat list each, what each must answer, and its exit code.

module ReleaseScript {
  import opened Text
  import opened ReleaseHost
  import opened ReleaseEngine
  import opened ReleaseLaws

  // ---- what a command must answer, and what its failure ends the run with ---------------------------

  /** The schema and the release a run is for, and the exit codes of a failing cutover command and of a taken lock. */
  datatype Aim = Aim(head: string, target: Tree, refused: nat, taken: nat)

  predicate Passes(e: Entry, aim: Aim) {
    e.ok
    && match e.command
       case Look(ReadSchema) => e.after.schema == aim.head
       case Look(CheckpointState) => e.turn.says == "succeeded"
       case Look(ReadLink) => e.after.current == aim.target
       case Look(WorkingDirectory) => e.turn.says == "/opt/framenest/current"
       case _ => true
  }

  function CodeFor(c: Command, ok: bool, aim: Aim): nat {
    match c
    case MakeLock => aim.taken
    case Look(Gate(code)) => code
    case Look(CheckpointState) => if ok then 12 else 20
    case Look(ReadSchema) => if ok then 13 else 20
    case Look(ReadLink) => if ok then 15 else 20
    case Look(WorkingDirectory) => if ok then 15 else 20
    case Look(DatabaseReady(_)) => aim.refused
    case LinkNext(_) => aim.refused
    case SwapNext => aim.refused
    case Restart => aim.refused
    case _ => 20
  }

  function CodeOf(e: Entry, aim: Aim): nat {
    CodeFor(e.command, e.ok, aim)
  }

  /** Commands in a row, up to the first that does not pass. */
  function Following(m: Machine, cs: seq<Command>, aim: Aim): Verdict
    decreases |cs|
  {
    if cs == [] then Verdict(m, Ok, 20)
    else
      var a := Did(m, cs[0]);
      if a.status.Gone? then Verdict(a.m, Gone, 20)
      else if Passes(EntryOf(m, cs[0]), aim) then Following(a.m, cs[1..], aim)
      else Verdict(a.m, Failed, CodeOf(EntryOf(m, cs[0]), aim))
  }

  /** The same, but for the exit code of what did not fail. */
  predicate Same(v: Verdict, w: Verdict) {
    v.m == w.m && v.status == w.status && (v.status.Failed? ==> v.code == w.code)
  }

  /** `log` is `cs` run up to the first command that does not pass, as the status says. */
  predicate FollowsTo(log: seq<Entry>, cs: seq<Command>, aim: Aim, status: Status) {
    && |log| <= |cs|
    && (forall i :: 0 <= i < |log| ==> log[i].command == cs[i])
    && (forall i :: 0 <= i < |log| - 1 ==> Passes(log[i], aim))
    && match status
       case Ok => |log| == |cs| && (log != [] ==> Passes(log[|log| - 1], aim))
       case Failed => log != [] && !Passes(log[|log| - 1], aim)
       case Gone => log != [] ==> Passes(log[|log| - 1], aim)
  }

  /** And the code is that of the command that did not pass. */
  predicate Follows(log: seq<Entry>, cs: seq<Command>, aim: Aim, status: Status, code: nat) {
    FollowsTo(log, cs, aim, status) && (status.Failed? ==> code == CodeOf(log[|log| - 1], aim))
  }

  lemma FollowsOnward(e: Entry, rest: seq<Entry>, cs: seq<Command>, aim: Aim, status: Status, code: nat)
    requires cs != [] && e.command == cs[0] && Passes(e, aim) && Follows(rest, cs[1..], aim, status, code)
    ensures Follows([e] + rest, cs, aim, status, code)
  {
    hide Passes, CodeOf;
  }

  lemma {:induction false} FollowingFollows(m: Machine, cs: seq<Command>, aim: Aim)
    ensures var v := Following(m, cs, aim);
            && m.log <= v.m.log && Follows(v.m.log[|m.log|..], cs, aim, v.status, v.code)
            && (v.status.Gone? ==> v.m.turns == []) && m.now <= v.m.now
    decreases |cs|
  {
    var v := Following(m, cs, aim);
    if cs != [] {
      DidIs(m, cs[0]);
      hide Did, Passes, CodeOf, Perform, ActOf;
      if m.turns != [] {
        var e, a := EntryOf(m, cs[0]), Did(m, cs[0]);
        if Passes(e, aim) {
          hide Follows;
          FollowingFollows(a.m, cs[1..], aim);
          var rest := v.m.log[|a.m.log|..];
          assert v.m.log[|m.log|..] == [e] + rest;
          FollowsOnward(e, rest, cs, aim, v.status, v.code);
        } else {
          assert v.m.log[|m.log|..] == [e];
        }
      } else {
        assert v.m.log[|m.log|..] == [];
      }
    } else {
      assert v.m.log[|m.log|..] == [];
    }
  }

  lemma {:induction false} FollowingConcat(m: Machine, a: seq<Command>, b: seq<Command>, aim: Aim)
    ensures var v := Following(m, a, aim);
            Following(m, a + b, aim) == if v.status.Ok? then Following(v.m, b, aim) else v
    decreases |a|
  {
    hide Did, Passes, CodeOf, EntryOf;
    if a == [] {
      assert a + b == b;
    } else {
      assert (a + b)[1..] == a[1..] + b;
      FollowingConcat(Did(m, a[0]).m, a[1..], b, aim);
    }
  }

  lemma FollowingOne(m: Machine, c: Command, aim: Aim)
    ensures var a := Did(m, c);
            Following(m, [c], aim)
            == if a.status.Gone? then Verdict(a.m, Gone, 20)
               else if Passes(EntryOf(m, c), aim) then Verdict(a.m, Ok, 20)
               else Verdict(a.m, Failed, CodeOf(EntryOf(m, c), aim))
  {
    hide Did, Passes, CodeOf, EntryOf;
    assert [c][1..] == [];
  }

  /** Whether the commands run under the lock of the run. */
  predicate AllHeld(log: seq<Entry>, held: bool) {
    forall i :: 0 <= i < |log| ==> log[i].held == held
  }

  predicate KeepsLock(cs: seq<Command>) {
    forall i :: 0 <= i < |cs| ==> !cs[i].RemoveLock? && !cs[i].MakeLock?
  }

  lemma {:induction false} FollowingHolds(m: Machine, cs: seq<Command>, aim: Aim)
    requires KeepsLock(cs)
    ensures var v := Following(m, cs, aim);
            v.m.mine == m.mine && m.log <= v.m.log && AllHeld(v.m.log[|m.log|..], m.mine)
    decreases |cs|
  {
    var v := Following(m, cs, aim);
    if cs != [] {
      DidIs(m, cs[0]);
      hide Did, Passes, CodeOf, Perform;
      if m.turns != [] {
        var e, a := EntryOf(m, cs[0]), Did(m, cs[0]);
        assert e.Act() != LockMade && e.Act() != LockRemoved && e.held == m.mine;
        hide ActOf;
        if Passes(e, aim) {
          FollowingHolds(a.m, cs[1..], aim);
          assert v.m.log[|m.log|..] == [e] + v.m.log[|a.m.log|..];
        } else {
          assert v.m.log[|m.log|..] == [e];
        }
      }
    }
  }

  // ---- the preparation of a deploy -------------------------------------------------------------------

  function Gates(codes: seq<nat>): (cs: seq<Command>)
    ensures |cs| == |codes| && forall i :: 0 <= i < |codes| ==> cs[i] == Look(Gate(codes[i]))
  {
    seq(|codes|, i requires 0 <= i < |codes| => Look(Gate(codes[i])))
  }

  /** From the lock to the published tree. */
  function PublishScript(job: Job): seq<Command> {
    [TestAbsent(Release(job.sha)), TestAbsent(Staging(job.sha))] + Gates(job.tooling) + [PrepareStaging(job.sha)]
    + Gates(job.preparation) + [Publish(job.sha)]
  }

  const CHECKPOINT_SCRIPT := [Look(ReadSchema), Look(CheckpointState), SavePrevious]

  /** Everything a deploy does before it touches `current`. */
  function Preparing(job: Job): seq<Command> {
    Gates(job.gates) + [MakeLock] + (PublishScript(job) + CHECKPOINT_SCRIPT)
  }

  function AimOf(job: Job): Aim {
    Aim(job.head, Release(job.sha), 15, 9)
  }

  lemma {:induction false} GatingIs(m: Machine, codes: seq<nat>, aim: Aim)
    ensures Same(Gating(m, codes), Following(m, Gates(codes), aim))
    decreases |codes|
  {
    if codes != [] {
      var c := Look(Gate(codes[0]));
      assert Gates(codes)[0] == c && Gates(codes)[1..] == Gates(codes[1..]);
      DidIs(m, c);
      hide Did, Perform, ActOf, Gates;
      GatingIs(Did(m, c).m, codes[1..], aim);
    }
  }

  /** A command of which nothing but success is asked. */
  predicate Bare(c: Command) {
    match c
    case Look(q) => !q.ReadSchema? && !q.CheckpointState? && !q.ReadLink? && !q.WorkingDirectory?
    case _ => true
  }

  lemma BareOne(m: Machine, c: Command, aim: Aim)
    requires Bare(c)
    ensures var a := Did(m, c); Same(Following(m, [c], aim), Verdict(a.m, a.status, CodeFor(c, false, aim)))
  {
    FollowingOne(m, c, aim);
    DidIs(m, c);
    hide Did, Perform, ActOf;
  }

  lemma PublishingIs(m: Machine, job: Job, aim: Aim)
    ensures Same(Publishing(m, job.sha, job.tooling, job.preparation), Following(m, PublishScript(job), aim))
  {
    var c1, c2 := TestAbsent(Release(job.sha)), TestAbsent(Staging(job.sha));
    var c4, c6 := PrepareStaging(job.sha), Publish(job.sha);
    var s3, s5 := Gates(job.tooling), Gates(job.preparation);
    assert PublishScript(job) == [c1] + ([c2] + (s3 + ([c4] + (s5 + [c6]))));
    hide Did, Following, Gating, Gates, PublishScript;
    var a := Did(m, c1);
    BareOne(m, c1, aim);
    FollowingConcat(m, [c1], [c2] + (s3 + ([c4] + (s5 + [c6]))), aim);
    var b := Did(a.m, c2);
    BareOne(a.m, c2, aim);
    FollowingConcat(a.m, [c2], s3 + ([c4] + (s5 + [c6])), aim);
    var t := Gating(b.m, job.tooling);
    GatingIs(b.m, job.tooling, aim);
    FollowingConcat(b.m, s3, [c4] + (s5 + [c6]), aim);
    var p := Did(t.m, c4);
    BareOne(t.m, c4, aim);
    FollowingConcat(t.m, [c4], s5 + [c6], aim);
    var g := Gating(p.m, job.preparation);
    GatingIs(p.m, job.preparation, aim);
    FollowingConcat(p.m, s5, [c6], aim);
    BareOne(g.m, c6, aim);
  }

  /** A question whose answer is looked at passes exactly when the command worked and the answer is the right one. */
  lemma QuestionIs(m: Machine, q: Question, aim: Aim)
    ensures var a, v := Asked(m, q), Following(m, [Look(q)], aim);
            && v.m == a.m && (v.status.Gone? <==> a.status.Gone?)
            && (q.ReadSchema? ==> (v.status.Ok? <==> a.status.Ok? && a.m.host.schema == aim.head))
            && (q.CheckpointState? ==> (v.status.Ok? <==> a.status.Ok? && a.said == "succeeded"))
            && (q.ReadLink? ==> (v.status.Ok? <==> a.status.Ok? && a.m.host.current == aim.target))
            && (q.WorkingDirectory? ==> (v.status.Ok? <==> a.status.Ok? && a.said == "/opt/framenest/current"))
            && (v.status.Failed? ==> v.code == CodeFor(Look(q), a.status.Ok?, aim))
  {
    FollowingOne(m, Look(q), aim);
    DidIs(m, Look(q));
    hide Did, Perform, ActOf;
  }

  lemma CheckpointingIs(m: Machine, head: string, aim: Aim)
    requires aim.head == head
    ensures Same(Checkpointing(m, head), Following(m, CHECKPOINT_SCRIPT, aim))
  {
    var c1, c2, c3 := Look(ReadSchema), Look(CheckpointState), SavePrevious;
    assert CHECKPOINT_SCRIPT == [c1] + ([c2] + [c3]);
    hide Did, Following, CHECKPOINT_SCRIPT;
    var a := Asked(m, ReadSchema);
    QuestionIs(m, ReadSchema, aim);
    FollowingConcat(m, [c1], [c2] + [c3], aim);
    QuestionIs(a.m, CheckpointState, aim);
    FollowingConcat(a.m, [c2], [c3], aim);
    BareOne(Asked(a.m, CheckpointState).m, c3, aim);
  }

  lemma LockedIs(m: Machine, job: Job)
    ensures var f := Following(m, PublishScript(job) + CHECKPOINT_SCRIPT, AimOf(job));
            var r := DeployingLocked(m, job);
            && (f.status.Gone? ==> r == Result(f.m, Killed))
            && (f.status.Failed? ==> r == Result(f.m, Exit(f.code, BeforeCutover)))
            && (f.status.Ok? ==> r == CutoverOf(f.m, job))
  {
    var aim := AimOf(job);
    var p := Publishing(m, job.sha, job.tooling, job.preparation);
    PublishingIs(m, job, aim);
    FollowingConcat(m, PublishScript(job), CHECKPOINT_SCRIPT, aim);
    CheckpointingIs(p.m, job.head, aim);
    LockedUnfolds(m, job);
    hide Following, Publishing, Checkpointing, DeployingLocked, CutoverOf, PublishScript;
  }

  lemma LockedUnfolds(m: Machine, job: Job)
    ensures var p := Publishing(m, job.sha, job.tooling, job.preparation);
            var k := Checkpointing(p.m, job.head);
            DeployingLocked(m, job)
            == if !p.status.Ok? then Ended(p.m, p.status, p.code, BeforeCutover)
               else if !k.status.Ok? then Ended(k.m, k.status, k.code, BeforeCutover)
               else CutoverOf(k.m, job)
  {
    hide Publishing, Checkpointing, CuttingOver, RollingBack, CleaningUp, Reporting;
  }

  /** Everything before the cutover is the flat list, and the cutover follows when all of it has passed. */
  lemma DeployingIs(m: Machine, job: Job)
    ensures var f := Following(m, Preparing(job), AimOf(job));
            var r := Deploying(m, job);
            && (f.status.Gone? ==> r == Result(f.m, Killed))
            && (f.status.Failed? ==>
                  var reached := if |f.m.log| <= |m.log| + |job.gates| + 1 then BeforeLock else BeforeCutover;
                  r == Result(f.m, Exit(f.code, reached)))
            && (f.status.Ok? ==> r == CutoverOf(f.m, job))
  {
    var aim := AimOf(job);
    var first, second := Gates(job.gates), PublishScript(job) + CHECKPOINT_SCRIPT;
    assert Preparing(job) == first + ([MakeLock] + second);
    var g := Gating(m, job.gates);
    GatingIs(m, job.gates, aim);
    FollowingConcat(m, first, [MakeLock] + second, aim);
    FollowingFollows(m, first, aim);
    BareOne(g.m, MakeLock, aim);
    FollowingConcat(g.m, [MakeLock], second, aim);
    FollowingFollows(g.m, [MakeLock], aim);
    var l := Did(g.m, MakeLock);
    LockedIs(l.m, job);
    FollowingFollows(l.m, second, aim);
    hide Did, Following, Gating, Gates, DeployingLocked, CutoverOf, Passes, CodeFor, PublishScript, Preparing;
  }

  /** The cutover of a deploy with what comes after it. */
  function CutoverOf(m: Machine, job: Job): Result {
    var c := CuttingOver(m, Release(job.sha), EXIT_READINESS);
    match c.status
    case Gone => Result(c.m, Killed)
    case Failed =>
      var b := RollingBack(c.m);
      Ended(b.m, b.status, if b.status.Ok? then c.code else EXIT_ROLLBACK, InCutover)
    case Ok =>
      var u := CleaningUp(c.m);
      if !u.status.Ok? then Ended(u.m, u.status, EXIT_CLEANUP, AfterCutover) else Reporting(u.m)
  }

  // ---- the preparation as the log shows it ----------------------------------------------------------------

  /** All of it has passed, and from the lock on under the lock. */
  predicate Prepared(log: seq<Entry>, job: Job) {
    |Preparing(job)| <= |log|
    && forall i :: 0 <= i < |Preparing(job)| ==>
         && log[i].command == Preparing(job)[i] && Passes(log[i], AimOf(job))
         && (log[i].held <==> i > |job.gates|)
  }

  /** A backup that was reported as done, under the lock of the run. */
  predicate BackupDone(e: Entry) {
    e.command == Look(CheckpointState) && e.ok && e.turn.says == "succeeded" && e.held
  }

  lemma PreparingParts(job: Job)
    ensures var all, n := Preparing(job), |job.gates|;
            && |all| == n + 8 + |job.tooling| + |job.preparation|
            && all[..n] == Gates(job.gates) && all[n] == MakeLock
            && all[n + 1..] == PublishScript(job) + CHECKPOINT_SCRIPT
            && all[|all| - 2] == Look(CheckpointState) && KeepsLock(Gates(job.gates)) && KeepsLock(all[n + 1..])
            && forall i :: 0 <= i < |all| ==>
                 !all[i].SwapNext? && !all[i].Restart? && (all[i] == Look(CheckpointState) ==> i == |all| - 2)
  {
  }

  /** The lock is held exactly from the command after the one that takes it. */
  lemma PreparedUnderLock(m: Machine, job: Job)
    requires !m.mine && m.log == []
    ensures var f := Following(m, Preparing(job), AimOf(job));
            && (forall i :: 0 <= i < |f.m.log| ==> (f.m.log[i].held <==> i > |job.gates|))
            && (f.status.Ok? ==> f.m.mine)
  {
    var aim, n := AimOf(job), |job.gates|;
    PreparingParts(job);
    var first, rest := Gates(job.gates), Preparing(job)[n + 1..];
    assert Preparing(job) == first + ([MakeLock] + rest);
    hide Preparing, Following, Passes, Did, Gates, Perform, ActOf;
    FollowingConcat(m, first, [MakeLock] + rest, aim);
    FollowingHolds(m, first, aim);
    FollowingFollows(m, first, aim);
    var g := Following(m, first, aim);
    assert g.m.log[0..] == g.m.log;
    if g.status.Ok? {
      FollowingConcat(g.m, [MakeLock], rest, aim);
      LockingIs(g.m, aim);
      var l := Following(g.m, [MakeLock], aim);
      if l.status.Ok? {
        FollowingHolds(l.m, rest, aim);
        FollowingFollows(l.m, rest, aim);
        LogsJoin(g.m.log, l.m.log, Following(l.m, rest, aim).m.log, n);
      }
    }
  }

  lemma LockingIs(m: Machine, aim: Aim)
    requires !m.mine
    ensures var l := Following(m, [MakeLock], aim);
            && m.log <= l.m.log && |l.m.log| <= |m.log| + 1
            && (|l.m.log| > |m.log| ==> !l.m.log[|m.log|].held)
            && (l.status.Ok? ==> l.m.mine && |l.m.log| == |m.log| + 1)
  {
    FollowingOne(m, MakeLock, aim);
    DidIs(m, MakeLock);
    if m.turns != [] {
      LockActs(EntryOf(m, MakeLock).before, MakeLock, m.turns[0].fate);
    }
    hide Did, Perform, ActOf, Meanwhile;
  }

  lemma LogsJoin(g: seq<Entry>, l: seq<Entry>, all: seq<Entry>, n: nat)
    requires |g| == n && AllHeld(g, false) && |l| == n + 1 && g <= l && !l[n].held
    requires l <= all && AllHeld(all[n + 1..], true)
    ensures forall i :: 0 <= i < |all| ==> (all[i].held <==> i > n)
  {
    forall i | 0 <= i < |all|
      ensures all[i].held <==> i > n
    {
      if i > n {
        assert all[n + 1..][i - n - 1] == all[i];
      }
    }
  }

  // ---- commands after the preparation ----------------------------------------------------------------------

  predicate Late(c: Command) {
    match c
    case Look(q) => !q.ReadSchema? && !q.CheckpointState?
    case LinkNext(_) => true
    case SwapNext => true
    case Restart => true
    case ForgetPrevious => true
    case RemoveLock => true
    case _ => false
  }

  predicate Later(m: Machine, n: Machine) {
    m.log <= n.log && forall i :: |m.log| <= i < |n.log| ==> Late(n.log[i].command)
  }

  lemma LaterTransitive(l: Machine, m: Machine, n: Machine)
    requires Later(l, m) && Later(m, n)
    ensures Later(l, n)
  {
    hide Late;
  }

  lemma DidLate(m: Machine, c: Command)
    requires Late(c)
    ensures Later(m, Did(m, c).m)
  {
    DidIs(m, c);
    hide Did, Perform, ActOf;
  }

  lemma {:induction false} GatingLate(m: Machine, codes: seq<nat>)
    ensures Later(m, Gating(m, codes).m)
    decreases |codes|
  {
    hide Did, Later;
    if codes == [] {
      NothingLate(m);
    } else {
      DidLate(m, Look(Gate(codes[0])));
      var a := Asked(m, Gate(codes[0]));
      GatingLate(a.m, codes[1..]);
      LaterTransitive(m, a.m, Gating(a.m, codes[1..]).m);
    }
  }

  lemma NothingLate(m: Machine)
    ensures Later(m, m)
  {
  }

  lemma SwitchingLate(m: Machine, target: Tree)
    ensures Later(m, Switching(m, target).m)
  {
    hide Did, Later;
    DidLate(m, LinkNext(target));
    var a := Did(m, LinkNext(target));
    DidLate(a.m, SwapNext);
    LaterTransitive(m, a.m, Did(a.m, SwapNext).m);
  }

  lemma HealthyLate(m: Machine, target: Tree, active: bool)
    ensures Later(m, Healthy(m, target, active).m)
  {
    hide Did, Later;
    NothingLate(m);
    DidLate(m, Look(Health(target)));
    var a := Asked(m, Health(target));
    DidLate(a.m, Look(DatabaseReady(target)));
    LaterTransitive(m, a.m, Asked(a.m, DatabaseReady(target)).m);
  }

  lemma {:induction false} WaitingLate(m: Machine, target: Tree, deadline: nat)
    ensures Later(m, Waiting(m, target, deadline).m)
    decreases |m.turns|
  {
    hide Later, Healthy, Terminal;
    NothingLate(m);
    if m.now < deadline {
      var a := Asked(m, ActiveState);
      var r := Asked(a.m, ServiceResult);
      DidLate(m, Look(ActiveState));
      DidLate(a.m, Look(ServiceResult));
      LaterTransitive(m, a.m, r.m);
      var d := Healthy(r.m, target, a.said == "active");
      HealthyLate(r.m, target, a.said == "active");
      LaterTransitive(m, r.m, d.m);
      Shorter(m);
      Shorter(a.m);
      HealthyShorter(r.m, target, a.said == "active");
      hide Did;
      if a.status.Ok? && r.status.Ok? && !Terminal(a.said, r.said) && d.status.Failed? && d.m.now < deadline {
        var n := Slept(d.m, deadline);
        assert Later(m, n) by { SleptLate(m, d.m, deadline); }
        WaitingLate(n, target, deadline);
        LaterTransitive(m, n, Waiting(n, target, deadline).m);
      }
    }
  }

  lemma SleptLate(l: Machine, m: Machine, deadline: nat)
    requires Later(l, m) && m.now < deadline
    ensures Later(l, Slept(m, deadline))
  {
    hide Late;
  }

  lemma HealthyShorter(m: Machine, target: Tree, active: bool)
    ensures |Healthy(m, target, active).m.turns| <= |m.turns|
  {
    Shorter(m);
    Shorter(Asked(m, Health(target)).m);
    hide Did;
  }

  lemma VerifyingLate(m: Machine, target: Tree)
    ensures Later(m, Verifying(m, target).m)
  {
    hide Did, Later, Waiting, Sanitized;
    var a := Asked(m, ReadLink);
    DidLate(m, Look(ReadLink));
    var d := Asked(a.m, WorkingDirectory);
    DidLate(a.m, Look(WorkingDirectory));
    LaterTransitive(m, a.m, d.m);
    var w := Waiting(d.m, target, d.m.now + READINESS_DEADLINE_MS);
    WaitingLate(d.m, target, d.m.now + READINESS_DEADLINE_MS);
    LaterTransitive(m, d.m, w.m);
    DidLate(w.m, Look(Journal));
    LaterTransitive(m, w.m, Asked(w.m, Journal).m);
  }

  lemma CuttingOverLate(m: Machine, target: Tree, refused: nat)
    ensures Later(m, CuttingOver(m, target, refused).m)
  {
    hide Did, Later, Switching, Verifying;
    var a := Asked(m, DatabaseReady(target));
    DidLate(m, Look(DatabaseReady(target)));
    var s := Switching(a.m, target);
    SwitchingLate(a.m, target);
    LaterTransitive(m, a.m, s.m);
    var r := Did(s.m, Restart);
    DidLate(s.m, Restart);
    LaterTransitive(m, s.m, r.m);
    VerifyingLate(r.m, target);
    LaterTransitive(m, r.m, Verifying(r.m, target).m);
  }

  lemma RollingBackLate(m: Machine)
    ensures Later(m, RollingBack(m).m)
  {
    hide Did, Later, Switching, Verifying;
    var a := Asked(m, ReadPrevious);
    DidLate(m, Look(ReadPrevious));
    if a.m.host.previous.Some? {
      var previous := a.m.host.previous.value;
      var s := Switching(a.m, previous);
      SwitchingLate(a.m, previous);
      LaterTransitive(m, a.m, s.m);
      var d := Asked(s.m, DatabaseReady(previous));
      DidLate(s.m, Look(DatabaseReady(previous)));
      LaterTransitive(m, s.m, d.m);
      var r := Did(d.m, Restart);
      DidLate(d.m, Restart);
      LaterTransitive(m, d.m, r.m);
      VerifyingLate(r.m, previous);
      LaterTransitive(m, r.m, Verifying(r.m, previous).m);
    }
  }

  lemma CleaningUpLate(m: Machine)
    ensures Later(m, CleaningUp(m).m)
  {
    hide Did, Later, Gating;
    var g := Gating(m, OWN_FILES);
    GatingLate(m, OWN_FILES);
    var f := Did(g.m, ForgetPrevious);
    DidLate(g.m, ForgetPrevious);
    LaterTransitive(m, g.m, f.m);
    DidLate(f.m, RemoveLock);
    LaterTransitive(m, f.m, Did(f.m, RemoveLock).m);
  }

  lemma CutoverLate(m: Machine, job: Job)
    ensures Later(m, CutoverOf(m, job).m)
  {
    hide Did, Later, CuttingOver, RollingBack, CleaningUp;
    var c := CuttingOver(m, Release(job.sha), EXIT_READINESS);
    CuttingOverLate(m, Release(job.sha), EXIT_READINESS);
    RollingBackLate(c.m);
    LaterTransitive(m, c.m, RollingBack(c.m).m);
    var u := CleaningUp(c.m);
    CleaningUpLate(c.m);
    LaterTransitive(m, c.m, u.m);
    DidLate(u.m, Look(CapturePointer));
    LaterTransitive(m, u.m, Asked(u.m, CapturePointer).m);
  }

  // ---- a deploy by its log --------------------------------------------------------------------------------------

  /** What the log of a deploy shows of its preparation, by how the deploy ended. */
  ghost predicate ReadsPrepared(log: seq<Entry>, ending: Ending, job: Job) {
    && (ending.Exit? && (ending.reached.BeforeLock? || ending.reached.BeforeCutover?) ==>
          && Follows(log, Preparing(job), AimOf(job), Failed, ending.code)
          && (ending.reached.BeforeLock? <==> |log| <= |job.gates| + 1))
    && (ending.Exit? && (ending.reached.InCutover? || ending.reached.AfterCutover?) ==> Prepared(log, job))
    && (ending.Killed? ==> Prepared(log, job) || Follows(log, Preparing(job), AimOf(job), Gone, 0))
    && (forall k :: 0 <= k < |log| && (log[k].command.SwapNext? || log[k].command.Restart?) ==>
          Prepared(log, job) && exists j :: 0 <= j < k && BackupDone(log[j]))
    && (forall k :: 0 <= k < |log| && log[k].command == Look(CheckpointState) && log[k].ok
                    && log[k].turn.says != "succeeded" ==>
          k == |log| - 1 && ending == Exit(12, BeforeCutover) && NothingTouched(log))
  }

  /**
   * A deploy runs the list of its preparation command by command, and touches nothing live before all of it has
   * passed, under its lock. The first command that does not pass ends it with the code that stands for it. In
   * particular nothing is ever switched or restarted before a backup was reported as done, and a backup that is not
   * ends the run with `EXIT_CHECKPOINT`.
   */
  lemma DeployFollowsItsScript(h: Host, turns: seq<Turn>, job: Job)
    ensures var r := Deploying(Machine(h, turns, 0, false, []), job); ReadsPrepared(r.m.log, r.ending, job)
  {
    var m := Machine(h, turns, 0, false, []);
    var aim, f := AimOf(job), Following(m, Preparing(job), AimOf(job));
    assert f.m.log[0..] == f.m.log && m.log == [];
    hide *;
    DeployingIs(m, job);
    FollowingFollows(m, Preparing(job), aim);
    PreparedUnderLock(m, job);
    match f.status
    case Ok =>
      CutoverLate(f.m, job);
      CutoverEnds(f.m, job);
      PreparedReads(f.m, CutoverOf(f.m, job), job, f.code);
    case Failed => StoppedReads(f.m.log, job, f.code);
    case Gone => LostReads(f.m.log, job, f.code);
  }

  lemma CutoverEnds(m: Machine, job: Job)
    ensures var e := CutoverOf(m, job).ending; e.Exit? ==> e.reached.InCutover? || e.reached.AfterCutover?
  {
    hide CuttingOver, RollingBack, CleaningUp, Did;
  }

  lemma PreparedReads(m: Machine, r: Result, job: Job, code: nat)
    requires Follows(m.log, Preparing(job), AimOf(job), Ok, code) && Later(m, r.m)
    requires forall i :: 0 <= i < |m.log| ==> (m.log[i].held <==> i > |job.gates|)
    requires r.ending.Exit? ==> r.ending.reached.InCutover? || r.ending.reached.AfterCutover?
    ensures ReadsPrepared(r.m.log, r.ending, job)
  {
    hide Preparing, Passes;
    PreparedFirst(m.log, r.m.log, job);
  }

  lemma StoppedReads(log: seq<Entry>, job: Job, code: nat)
    requires Follows(log, Preparing(job), AimOf(job), Failed, code)
    ensures ReadsPrepared(log, Exit(code, if |log| <= |job.gates| + 1 then BeforeLock else BeforeCutover), job)
  {
    hide Preparing;
    StoppedEarly(log, job, Failed, code);
  }

  lemma LostReads(log: seq<Entry>, job: Job, code: nat)
    requires Follows(log, Preparing(job), AimOf(job), Gone, code)
    ensures ReadsPrepared(log, Killed, job)
  {
    hide Preparing;
    StoppedEarly(log, job, Gone, code);
  }

  predicate NothingTouched(log: seq<Entry>) {
    forall j :: 0 <= j < |log| ==> !log[j].command.SwapNext? && !log[j].command.Restart?
  }

  lemma PreparedFirst(prepared: seq<Entry>, log: seq<Entry>, job: Job)
    requires prepared <= log && |prepared| == |Preparing(job)|
    requires Follows(prepared, Preparing(job), AimOf(job), Ok, 0)
    requires forall i :: 0 <= i < |prepared| ==> (prepared[i].held <==> i > |job.gates|)
    requires forall i :: |prepared| <= i < |log| ==> Late(log[i].command)
    ensures Prepared(log, job)
    ensures forall k :: 0 <= k < |log| && (log[k].command.SwapNext? || log[k].command.Restart?) ==>
              exists j :: 0 <= j < k && BackupDone(log[j])
    ensures forall k :: 0 <= k < |log| && log[k].command == Look(CheckpointState) ==> log[k].turn.says == "succeeded"
  {
    PreparingParts(job);
    var n := |Preparing(job)|;
    hide Preparing;
    forall i | 0 <= i < n
      ensures log[i].command == Preparing(job)[i] && Passes(log[i], AimOf(job)) && (log[i].held <==> i > |job.gates|)
    {
      assert log[i] == prepared[i];
    }
    assert BackupDone(log[n - 2]);
  }

  lemma StoppedEarly(log: seq<Entry>, job: Job, status: Status, code: nat)
    requires !status.Ok? && Follows(log, Preparing(job), AimOf(job), status, code)
    ensures NothingTouched(log)
    ensures forall k :: 0 <= k < |log| && log[k].command == Look(CheckpointState) && log[k].ok
                        && log[k].turn.says != "succeeded" ==>
              k == |log| - 1 && status.Failed? && code == 12 && |log| > |job.gates| + 1
  {
    PreparingParts(job);
    hide Preparing;
  }

  // ---- the cutover, the rollback and the clean-up by their logs -------------------------------------------------

  /** The switch, the restart, and what is asked of both before the wait. */
  function CutScript(target: Tree): seq<Command> {
    [Look(DatabaseReady(target)), LinkNext(target), SwapNext, Restart, Look(ReadLink), Look(WorkingDirectory)]
  }

  /** The same back to a remembered release: its readiness is asked after the switch. */
  function BackScript(previous: Tree): seq<Command> {
    [LinkNext(previous), SwapNext, Look(DatabaseReady(previous)), Restart, Look(ReadLink), Look(WorkingDirectory)]
  }

  /** `t` is somewhere in `s`. */
  ghost predicate Occurs(t: string, s: string) {
    exists before, after :: s == before + t + after
  }

  /** A journal that shows no credential. */
  ghost predicate Clean(s: string) {
    && !Occurs("/etc/framenest/credentials", s) && !Occurs("Authorization:", s)
    && !Occurs("Bearer ", s) && !Occurs("BEGIN ", s)
  }

  lemma ContainsIff(s: string, t: string)
    ensures Contains(s, t) <==> Occurs(t, s)
  {
    if Contains(s, t) {
      var i :| 0 <= i <= |s| && OccursAt(s, t, i);
      assert s == s[..i] + t + s[i + |t|..];
    }
    if Occurs(t, s) {
      var before, after :| s == before + t + after;
      assert s[|before|..|before| + |t|] == t;
      assert OccursAt(s, t, |before|);
    }
  }

  lemma SanitizedIff(s: string)
    ensures Sanitized(s) <==> Clean(s)
  {
    var tokens := FORBIDDEN_LOG_TOKENS;
    ContainsIff(s, tokens[0]);
    ContainsIff(s, tokens[1]);
    ContainsIff(s, tokens[2]);
    ContainsIff(s, tokens[3]);
    hide Contains, Occurs;
    if Sanitized(s) {
      assert !Contains(s, tokens[0]) && !Contains(s, tokens[1]) && !Contains(s, tokens[2]) && !Contains(s, tokens[3]);
    }
  }

  /** The service has failed for good, by what it says of its state and of its last result. */
  predicate Stopped(active: string, result: string) {
    active == "failed" || (active != "active" && active != "activating" && result != "" && result != "success")
  }

  /** The last two answers show a service that has failed for good. */
  predicate StoppedAtEnd(log: seq<Entry>) {
    var n := |log|;
    && n >= 2 && log[n - 2].ok && log[n - 1].ok
    && log[n - 2].command == Look(ActiveState) && log[n - 1].command == Look(ServiceResult)
    && Stopped(log[n - 2].turn.says, log[n - 1].turn.says)
  }

  /** The last four answers show the release up and ready. */
  predicate ReadyAtEnd(log: seq<Entry>, target: Tree) {
    var n := |log|;
    && n >= 4 && log[n - 4].ok && log[n - 3].ok && log[n - 2].ok && log[n - 1].ok
    && log[n - 4].command == Look(ActiveState) && log[n - 4].turn.says == "active"
    && log[n - 3].command == Look(ServiceResult) && !Stopped("active", log[n - 3].turn.says)
    && log[n - 2].command == Look(Health(target)) && log[n - 1].command == Look(DatabaseReady(target))
  }

  /** The last question was not answered. */
  predicate LostAtEnd(log: seq<Entry>, q: Question) {
    log != [] && !log[|log| - 1].ok && log[|log| - 1].command == Look(q)
  }

  lemma AskedIs(m: Machine, q: Question)
    ensures var a := Asked(m, q);
            if m.turns == [] then a == Reply(m, Gone, "")
            else
              && |a.m.log| == |m.log| + 1 && m.log <= a.m.log && |a.m.turns| == |m.turns| - 1
              && a.m.log[|m.log|].command == Look(q) && a.m.log[|m.log|].turn.says == a.said
              && a.status == (if a.m.log[|m.log|].ok then Ok else Failed) && m.now <= a.m.now
  {
    DidIs(m, Look(q));
    hide Did, Perform, ActOf;
  }

  lemma HealthyIs(m: Machine, target: Tree, active: bool)
    ensures var d := Healthy(m, target, active);
            && m.log <= d.m.log && |d.m.turns| <= |m.turns| && m.now <= d.m.now
            && (d.status.Ok? ==>
                  var n := |m.log|;
                  && active && |d.m.log| == n + 2 && d.m.log[n].ok && d.m.log[n + 1].ok
                  && d.m.log[n].command == Look(Health(target))
                  && d.m.log[n + 1].command == Look(DatabaseReady(target)))
  {
    AskedIs(m, Health(target));
    AskedIs(Asked(m, Health(target)).m, DatabaseReady(target));
    hide Asked;
  }

  /** How a wait can end, by its log. */
  predicate WaitEnded(before: nat, w: Verdict, target: Tree, late: bool) {
    match w.status
    case Ok => |w.m.log| >= before + 4 && ReadyAtEnd(w.m.log, target)
    case Failed =>
      || (w.code == 16 && |w.m.log| >= before + 2 && StoppedAtEnd(w.m.log))
      || (w.code == 17 && late)
      || (w.code == 20 && |w.m.log| > before && (LostAtEnd(w.m.log, ActiveState) || LostAtEnd(w.m.log, ServiceResult)))
    case Gone => true
  }

  lemma LostShown(m: Machine, q: Question)
    requires Asked(m, q).status.Failed?
    ensures LostAtEnd(Asked(m, q).m.log, q) && |Asked(m, q).m.log| > |m.log|
  {
    AskedIs(m, q);
    hide Asked;
  }

  lemma StoppedShown(m: Machine)
    requires var a := Asked(m, ActiveState); var r := Asked(a.m, ServiceResult);
             a.status.Ok? && r.status.Ok? && Terminal(a.said, r.said)
    ensures var r := Asked(Asked(m, ActiveState).m, ServiceResult);
            StoppedAtEnd(r.m.log) && |r.m.log| >= |m.log| + 2
  {
    AskedIs(m, ActiveState);
    AskedIs(Asked(m, ActiveState).m, ServiceResult);
    hide Asked;
  }

  lemma ReadyShown(m: Machine, target: Tree)
    requires var a := Asked(m, ActiveState); var r := Asked(a.m, ServiceResult);
             && a.status.Ok? && r.status.Ok? && !Terminal(a.said, r.said)
             && Healthy(r.m, target, a.said == "active").status.Ok?
    ensures var a := Asked(m, ActiveState); var r := Asked(a.m, ServiceResult);
            var d := Healthy(r.m, target, a.said == "active");
            ReadyAtEnd(d.m.log, target) && |d.m.log| >= |m.log| + 4
  {
    var a := Asked(m, ActiveState);
    var r := Asked(a.m, ServiceResult);
    AskedIs(m, ActiveState);
    AskedIs(a.m, ServiceResult);
    hide Asked, Healthy;
    HealthyIs(r.m, target, a.said == "active");
    var d := Healthy(r.m, target, a.said == "active");
    assert d.m.log[|m.log|] == a.m.log[|m.log|] && d.m.log[|m.log| + 1] == r.m.log[|m.log| + 1];
  }

  /** The machine a round of polling goes on from, if it does not end the wait. */
  function NextRound(m: Machine, target: Tree, deadline: nat): Option<Machine> {
    if deadline <= m.now then None
    else
      var a := Asked(m, ActiveState);
      var r := Asked(a.m, ServiceResult);
      var d := Healthy(r.m, target, a.said == "active");
      if a.status.Ok? && r.status.Ok? && !Terminal(a.said, r.said) && d.status.Failed? && d.m.now < deadline
      then Some(Slept(d.m, deadline)) else None
  }

  lemma RoundGoesOn(m: Machine, target: Tree, deadline: nat)
    requires NextRound(m, target, deadline).Some?
    ensures var n := NextRound(m, target, deadline).value;
            && Waiting(m, target, deadline) == Waiting(n, target, deadline)
            && |n.turns| < |m.turns| && m.log <= n.log && |n.log| > |m.log|
  {
    var a := Asked(m, ActiveState);
    var r := Asked(a.m, ServiceResult);
    AskedIs(m, ActiveState);
    AskedIs(a.m, ServiceResult);
    hide Asked, Healthy, Slept, Terminal;
    HealthyIs(r.m, target, a.said == "active");
    SleptIs(Healthy(r.m, target, a.said == "active").m, deadline);
  }

  lemma RoundEnds(m: Machine, target: Tree, deadline: nat)
    requires NextRound(m, target, deadline).None?
    ensures var w := Waiting(m, target, deadline);
            && m.log <= w.m.log && WaitEnded(|m.log|, w, target, deadline <= w.m.now)
            && (m.now < deadline && w.status.Failed? ==> |w.m.log| > |m.log|)
  {
    if m.now < deadline {
      var a := Asked(m, ActiveState);
      var r := Asked(a.m, ServiceResult);
      AskedIs(m, ActiveState);
      AskedIs(a.m, ServiceResult);
      hide Asked, Healthy, Slept, Terminal, LostAtEnd, StoppedAtEnd, ReadyAtEnd;
      if a.status.Failed? {
        LostShown(m, ActiveState);
      } else if a.status.Ok? && r.status.Failed? {
        LostShown(a.m, ServiceResult);
      } else if a.status.Ok? && r.status.Ok? {
        if Terminal(a.said, r.said) {
          StoppedShown(m);
        } else {
          HealthyIs(r.m, target, a.said == "active");
          if Healthy(r.m, target, a.said == "active").status.Ok? {
            ReadyShown(m, target);
          }
        }
      }
    }
  }

  /** A wait ends well on four good answers, and otherwise with the code of what stopped it. */
  lemma {:induction false} WaitEnds(m: Machine, target: Tree, deadline: nat)
    ensures var w := Waiting(m, target, deadline);
            && m.log <= w.m.log && WaitEnded(|m.log|, w, target, deadline <= w.m.now)
            && (m.now < deadline && w.status.Failed? ==> |w.m.log| > |m.log|)
    decreases |m.turns|
  {
    hide Waiting, NextRound, LostAtEnd, StoppedAtEnd, ReadyAtEnd;
    if NextRound(m, target, deadline).Some? {
      RoundGoesOn(m, target, deadline);
      WaitEnds(NextRound(m, target, deadline).value, target, deadline);
    } else {
      RoundEnds(m, target, deadline);
    }
  }

  lemma SleptIs(m: Machine, deadline: nat)
    requires m.now < deadline
    ensures Slept(m, deadline).log == m.log && |Slept(m, deadline).turns| == |m.turns|
  {
  }

  /** What a verification that got past its first two questions ended on, and with which code. */
  ghost predicate EndsOn(log: seq<Entry>, from: nat, target: Tree, status: Status, code: nat, late: bool) {
    && from <= |log|
    && match status
       case Ok =>
         var n := |log| - 1;
         && n >= from + 4 && ReadyAtEnd(log[..n], target)
         && log[n].command == Look(Journal) && log[n].ok && Clean(log[n].turn.says)
       case Failed =>
         && |log| > from
         && (|| (code == 16 && StoppedAtEnd(log))
             || (code == 16 && log[|log| - 1].command == Look(Journal) && log[|log| - 1].ok
                 && !Clean(log[|log| - 1].turn.says))
             || (code == 17 && late)
             || (code == 20
                 && (LostAtEnd(log, ActiveState) || LostAtEnd(log, ServiceResult) || LostAtEnd(log, Journal))))
       case Gone => true
  }

  const VERIFY_SCRIPT := [Look(ReadLink), Look(WorkingDirectory)]

  /** Verification from its third question on. */
  function WaitAndRead(m: Machine, target: Tree): Verdict {
    var w := Waiting(m, target, m.now + READINESS_DEADLINE_MS);
    if !w.status.Ok? then w
    else
      var j := Asked(w.m, Journal);
      if !j.status.Ok? then Verdict(j.m, j.status, EXIT_TRANSPORT)
      else if !Sanitized(j.said) then Verdict(j.m, Failed, EXIT_SERVICE_TERMINAL)
      else Verdict(j.m, Ok, EXIT_TRANSPORT)
  }

  lemma JournalEnds(m: Machine, from: nat, target: Tree, late: bool)
    requires |m.log| >= from + 4 && ReadyAtEnd(m.log, target)
    ensures var j := Asked(m, Journal);
            && m.log <= j.m.log
            && (j.status.Failed? ==> EndsOn(j.m.log, from, target, Failed, 20, late))
            && (j.status.Ok? && !Sanitized(j.said) ==> EndsOn(j.m.log, from, target, Failed, 16, late))
            && (j.status.Ok? && Sanitized(j.said) ==> EndsOn(j.m.log, from, target, Ok, 20, late))
  {
    AskedIs(m, Journal);
    var j := Asked(m, Journal);
    SanitizedIff(j.said);
    hide Asked, Sanitized, Clean, StoppedAtEnd, ReadyAtEnd;
    if !j.status.Gone? {
      assert j.m.log[..|j.m.log| - 1] == m.log;
    }
  }

  lemma WaitAndReadEnds(m: Machine, target: Tree)
    ensures var v := WaitAndRead(m, target);
            && m.log <= v.m.log && EndsOn(v.m.log, |m.log|, target, v.status, v.code, m.now + 30000 <= v.m.now)
  {
    WaitEnds(m, target, m.now + 30000);
    var w := Waiting(m, target, m.now + 30000);
    hide Asked, Waiting, Sanitized, WaitEnded, ReadyAtEnd, EndsOn;
    if w.status.Ok? {
      WaitedWell(|m.log|, w, target, m.now + 30000 <= w.m.now);
      JournalEnds(w.m, |m.log|, target, m.now + 30000 <= Asked(w.m, Journal).m.now);
      GoneEnds(Asked(w.m, Journal).m.log, |m.log|, target);
    } else {
      WaitEndsOn(w.m.log, |m.log|, w, target, m.now + 30000 <= w.m.now);
    }
  }

  lemma WaitedWell(before: nat, w: Verdict, target: Tree, late: bool)
    requires WaitEnded(before, w, target, late) && w.status.Ok?
    ensures |w.m.log| >= before + 4 && ReadyAtEnd(w.m.log, target)
  {
    hide ReadyAtEnd, StoppedAtEnd, LostAtEnd;
  }

  lemma WaitEndsOn(log: seq<Entry>, from: nat, w: Verdict, target: Tree, late: bool)
    requires log == w.m.log && from <= |log| && WaitEnded(from, w, target, late) && !w.status.Ok?
    requires w.status.Failed? ==> |log| > from
    ensures EndsOn(log, from, target, w.status, w.code, late)
  {
    hide StoppedAtEnd, ReadyAtEnd, LostAtEnd;
  }

  lemma GoneEnds(log: seq<Entry>, from: nat, target: Tree)
    requires from <= |log|
    ensures forall code, late :: EndsOn(log, from, target, Gone, code, late)
  {
  }

  lemma VerifyingUnfolds(m: Machine, target: Tree)
    ensures var a := Asked(m, ReadLink);
            var d := Asked(a.m, WorkingDirectory);
            Verifying(m, target)
            == if !a.status.Ok? then Verdict(a.m, a.status, 20)
               else if a.m.host.current != target then Verdict(a.m, Failed, 15)
               else if !d.status.Ok? then Verdict(d.m, d.status, 20)
               else if d.said != "/opt/framenest/current" then Verdict(d.m, Failed, 15)
               else WaitAndRead(d.m, target)
  {
    hide Asked, Waiting, Sanitized;
  }

  lemma VerifyingIs(m: Machine, target: Tree, head: string, refused: nat, taken: nat)
    ensures var f := Following(m, VERIFY_SCRIPT, Aim(head, target, refused, taken));
            Same(Verifying(m, target), if f.status.Ok? then WaitAndRead(f.m, target) else f)
  {
    var aim := Aim(head, target, refused, taken);
    var c1, c2 := Look(ReadLink), Look(WorkingDirectory);
    assert VERIFY_SCRIPT == [c1] + [c2];
    hide Asked, Following, Verifying, WaitAndRead, VERIFY_SCRIPT;
    VerifyingUnfolds(m, target);
    var a := Asked(m, ReadLink);
    QuestionIs(m, ReadLink, aim);
    FollowingConcat(m, [c1], [c2], aim);
    QuestionIs(a.m, WorkingDirectory, aim);
  }

  lemma SwitchingIs(m: Machine, target: Tree, aim: Aim)
    ensures var s := Switching(m, target);
            Same(Following(m, [LinkNext(target), SwapNext], aim), Verdict(s.m, s.status, aim.refused))
  {
    var a := Did(m, LinkNext(target));
    assert [LinkNext(target), SwapNext] == [LinkNext(target)] + [SwapNext];
    hide Did, Following;
    BareOne(m, LinkNext(target), aim);
    FollowingConcat(m, [LinkNext(target)], [SwapNext], aim);
    BareOne(a.m, SwapNext, aim);
  }

  lemma RestartingIs(m: Machine, target: Tree, head: string, refused: nat, taken: nat)
    ensures var f := Following(m, [Restart] + VERIFY_SCRIPT, Aim(head, target, refused, taken));
            var r := Did(m, Restart);
            Same(if r.status.Ok? then Verifying(r.m, target) else Verdict(r.m, r.status, refused),
                 if f.status.Ok? then WaitAndRead(f.m, target) else f)
  {
    var aim := Aim(head, target, refused, taken);
    hide Did, Following, Verifying, WaitAndRead, VERIFY_SCRIPT;
    BareOne(m, Restart, aim);
    FollowingConcat(m, [Restart], VERIFY_SCRIPT, aim);
    VerifyingIs(Did(m, Restart).m, target, head, refused, taken);
  }

  /** The cutover is its list, and then the wait and the journal. */
  lemma CuttingOverIs(m: Machine, target: Tree, head: string, refused: nat, taken: nat)
    ensures var f := Following(m, CutScript(target), Aim(head, target, refused, taken));
            Same(CuttingOver(m, target, refused), if f.status.Ok? then WaitAndRead(f.m, target) else f)
  {
    var aim := Aim(head, target, refused, taken);
    var ready, switch, rest := Look(DatabaseReady(target)), [LinkNext(target), SwapNext], [Restart] + VERIFY_SCRIPT;
    assert CutScript(target) == [ready] + (switch + rest);
    hide Did, Following, Switching, Verifying, WaitAndRead, CutScript, VERIFY_SCRIPT;
    var a := Asked(m, DatabaseReady(target));
    BareOne(m, ready, aim);
    FollowingConcat(m, [ready], switch + rest, aim);
    var s := Switching(a.m, target);
    SwitchingIs(a.m, target, aim);
    FollowingConcat(a.m, switch, rest, aim);
    RestartingIs(s.m, target, head, refused, taken);
  }

  /** The rollback reads the memory, and is its list, and then the wait and the journal; its only code is 18. */
  lemma RollingBackIs(m: Machine, head: string, taken: nat)
    ensures var a, b := Asked(m, ReadPrevious), RollingBack(m);
            && b.code == 18
            && (if a.status.Ok? && a.m.host.previous.Some? then
                  var previous := a.m.host.previous.value;
                  var f := Following(a.m, BackScript(previous), Aim(head, previous, 18, taken));
                  var v := if f.status.Ok? then WaitAndRead(f.m, previous) else f;
                  b.m == v.m && b.status == v.status
                else b.m == a.m && b.status == (if a.status.Gone? then Gone else Failed))
  {
    var a := Asked(m, ReadPrevious);
    if a.status.Ok? && a.m.host.previous.Some? {
      var previous := a.m.host.previous.value;
      var aim := Aim(head, previous, 18, taken);
      var ready, switch := Look(DatabaseReady(previous)), [LinkNext(previous), SwapNext];
      var rest := [Restart] + VERIFY_SCRIPT;
      assert BackScript(previous) == switch + ([ready] + rest);
      hide Did, Following, Switching, Verifying, WaitAndRead, BackScript, VERIFY_SCRIPT;
      var s := Switching(a.m, previous);
      SwitchingIs(a.m, previous, aim);
      FollowingConcat(a.m, switch, [ready] + rest, aim);
      var d := Asked(s.m, DatabaseReady(previous));
      BareOne(s.m, ready, aim);
      FollowingConcat(s.m, [ready], rest, aim);
      RestartingIs(d.m, previous, head, 18, taken);
    }
  }

  /**
   * From `from` on the log is the script up to the first command that does not pass; or all of the script, and then the
   * wait and the journal.
   */
  ghost predicate CutReads(log: seq<Entry>, from: nat, script: seq<Command>, aim: Aim, status: Status, code: nat,
                           late: bool) {
    && from <= |log|
    && (|| (!status.Ok? && Follows(log[from..], script, aim, status, code))
        || (&& from + |script| <= |log| && Follows(log[from..from + |script|], script, aim, Ok, 20)
            && EndsOn(log, from + |script|, aim.target, status, code, late)))
  }

  lemma ScriptThenWait(m: Machine, script: seq<Command>, aim: Aim)
    ensures var f := Following(m, script, aim);
            var v := if f.status.Ok? then WaitAndRead(f.m, aim.target) else f;
            m.log <= v.m.log && CutReads(v.m.log, |m.log|, script, aim, v.status, v.code, m.now + 30000 <= v.m.now)
  {
    var f := Following(m, script, aim);
    FollowingFollows(m, script, aim);
    if f.status.Ok? {
      WaitAndReadEnds(f.m, aim.target);
      var v := WaitAndRead(f.m, aim.target);
      hide Following, WaitAndRead, Passes, Clean, ReadyAtEnd, StoppedAtEnd, LostAtEnd;
      assert v.m.log[|m.log|..|m.log| + |script|] == f.m.log[|m.log|..];
    }
  }

  lemma AnyCode(log: seq<Entry>, from: nat, script: seq<Command>, aim: Aim, status: Status, code: nat, late: bool,
                later: bool)
    requires CutReads(log, from, script, aim, status, code, late) && (late ==> later)
    ensures CutReads(log, from, script, aim, status, code, later)
    ensures !status.Failed? ==> forall other :: CutReads(log, from, script, aim, status, other, later)
  {
    hide Passes, FollowsTo, Clean, ReadyAtEnd, StoppedAtEnd, LostAtEnd;
  }

  /** A cutover by its log: readiness, link, rename, restart, two questions, the wait and the journal, in this order. */
  lemma CutoverReads(m: Machine, target: Tree, head: string, refused: nat, taken: nat)
    ensures var c := CuttingOver(m, target, refused);
            && m.log <= c.m.log
            && CutReads(c.m.log, |m.log|, CutScript(target), Aim(head, target, refused, taken), c.status, c.code,
                        m.now + 30000 <= c.m.now)
  {
    var aim, c := Aim(head, target, refused, taken), CuttingOver(m, target, refused);
    hide CuttingOver, Following, WaitAndRead, CutScript, CutReads;
    CuttingOverIs(m, target, head, refused, taken);
    ScriptThenWait(m, CutScript(target), aim);
    var f := Following(m, CutScript(target), aim);
    var v := if f.status.Ok? then WaitAndRead(f.m, target) else f;
    var late := m.now + 30000 <= c.m.now;
    AnyCode(c.m.log, |m.log|, CutScript(target), aim, c.status, v.code, late, late);
  }

  /** A rollback by its log: the memory, link, rename, readiness, restart, and the same; it fails with 18. */
  lemma RollbackReads(m: Machine, head: string, taken: nat) returns (why: nat)
    ensures var b := RollingBack(m);
            && b.code == 18 && m.log <= b.m.log
            && (|b.m.log| > |m.log| ==> b.m.log[|m.log|].command == Look(ReadPrevious))
            && (b.status.Ok? || |b.m.log| > |m.log| + 1 ==>
                  && |m.log| < |b.m.log| && b.m.log[|m.log|].ok && b.m.log[|m.log|].after.previous.Some?
                  && var previous := b.m.log[|m.log|].after.previous.value;
                     CutReads(b.m.log, |m.log| + 1, BackScript(previous), Aim(head, previous, 18, taken), b.status, why,
                              m.now + 30000 <= b.m.now))
  {
    var a, b := Asked(m, ReadPrevious), RollingBack(m);
    AskedIs(m, ReadPrevious);
    DidIs(m, Look(ReadPrevious));
    hide RollingBack, Following, WaitAndRead, BackScript, CutReads, Did, Perform, ActOf;
    RollingBackIs(m, head, taken);
    why := 18;
    if a.status.Ok? && a.m.host.previous.Some? {
      var previous := a.m.host.previous.value;
      var aim, script := Aim(head, previous, 18, taken), BackScript(previous);
      ScriptThenWait(a.m, script, aim);
      var f := Following(a.m, script, aim);
      var v := if f.status.Ok? then WaitAndRead(f.m, previous) else f;
      why := v.code;
      AnyCode(b.m.log, |a.m.log|, script, aim, b.status, v.code, a.m.now + 30000 <= b.m.now, m.now + 30000 <= b.m.now);
      assert b.m.log[|m.log|] == a.m.log[|m.log|];
    }
  }

  /** What a deploy does once its target is in service. */
  const TAIL_SCRIPT :=
    [Look(Gate(19)), Look(Gate(19)), Look(Gate(19)), ForgetPrevious, RemoveLock, Look(CapturePointer)]

  /** Clean-up and lock in five commands. */
  lemma CleaningUpFollows(m: Machine, aim: Aim)
    ensures var u := CleaningUp(m);
            && m.log <= u.m.log && FollowsTo(u.m.log[|m.log|..], TAIL_SCRIPT[..5], aim, u.status)
            && (u.status.Ok? ==> |u.m.log| == |m.log| + 5)
  {
    var gates, unlock := Gates(OWN_FILES), [ForgetPrevious, RemoveLock];
    assert TAIL_SCRIPT[..5] == gates + unlock;
    hide Did, Following, Gating, Passes, Gates, TAIL_SCRIPT;
    var g := Gating(m, OWN_FILES);
    GatingIs(m, OWN_FILES, aim);
    FollowingConcat(m, gates, unlock, aim);
    UnlockingFollows(g.m, aim);
    FollowingFollows(m, gates + unlock, aim);
  }

  /** The end of a deploy whose cutover succeeded: clean-up, lock, and the last read, each with its code. */
  lemma TailReads(m: Machine, aim: Aim)
    ensures var u := CleaningUp(m);
            var r := if !u.status.Ok? then Ended(u.m, u.status, EXIT_CLEANUP, AfterCutover) else Reporting(u.m);
            && m.log <= r.m.log
            && var log := r.m.log[|m.log|..];
               match r.ending
               case Killed => FollowsTo(log, TAIL_SCRIPT, aim, Gone)
               case Exit(code, reached) =>
                 && reached.AfterCutover?
                 && (if code == 0 then FollowsTo(log, TAIL_SCRIPT, aim, Ok)
                     else FollowsTo(log, TAIL_SCRIPT, aim, Failed) && code == if |log| <= 5 then 19 else 20)
  {
    CleaningUpFollows(m, aim);
    var u := CleaningUp(m);
    AskedIs(u.m, CapturePointer);
    hide CleaningUp, Asked;
    if u.status.Ok? {
      var a := Asked(u.m, CapturePointer);
      assert a.m.log[|m.log|..][..5] == u.m.log[|m.log|..];
      OneMore(u.m.log[|m.log|..], a.m.log[|m.log|..], aim, a.status);
    } else {
      FewerFollow(u.m.log[|m.log|..], aim, u.status);
    }
  }

  lemma OneMore(log: seq<Entry>, more: seq<Entry>, aim: Aim, status: Status)
    requires FollowsTo(log, TAIL_SCRIPT[..5], aim, Ok) && log <= more
    requires status.Gone? ==> more == log
    requires !status.Gone? ==>
               |more| == 6 && more[5].command == Look(CapturePointer) && status == if more[5].ok then Ok else Failed
    ensures FollowsTo(more, TAIL_SCRIPT, aim, status)
  {
    assert forall i :: 0 <= i < 5 ==> more[i] == log[i] && TAIL_SCRIPT[i] == TAIL_SCRIPT[..5][i];
  }

  lemma FewerFollow(log: seq<Entry>, aim: Aim, status: Status)
    requires FollowsTo(log, TAIL_SCRIPT[..5], aim, status) && !status.Ok?
    ensures FollowsTo(log, TAIL_SCRIPT, aim, status) && |log| <= 5
  {
    hide Passes;
    assert forall i :: 0 <= i < 5 ==> TAIL_SCRIPT[i] == TAIL_SCRIPT[..5][i];
  }

  lemma UnlockingFollows(m: Machine, aim: Aim)
    ensures var u := Unlocking(m); Same(Following(m, [ForgetPrevious, RemoveLock], aim), Verdict(u.m, u.status, 20))
  {
    var f := Did(m, ForgetPrevious);
    assert [ForgetPrevious, RemoveLock] == [ForgetPrevious] + [RemoveLock];
    hide Did, Following;
    BareOne(m, ForgetPrevious, aim);
    FollowingConcat(m, [ForgetPrevious], [RemoveLock], aim);
    BareOne(f.m, RemoveLock, aim);
  }

  // ---- the rollback command -----------------------------------------------------------------------------------------

  /** What the rollback command does before it holds the lock. */
  function FindScript(sha: string): seq<Command> {
    [TestPresent(Release(sha)), Look(Gate(20)), Look(Gate(20)), MakeLock]
  }

  /** What the log of a rollback command shows, by how the command ended. */
  predicate ReadsFound(log: seq<Entry>, ending: Ending, sha: string) {
    var script, aim := FindScript(sha), Aim("", Release(sha), 20, 20);
    && (ending.Exit? && ending.reached.BeforeLock? ==> FollowsTo(log, script, aim, Failed) && ending.code == 20)
    && (ending.Exit? && !ending.reached.BeforeLock? ==>
          && |log| > 4 && FollowsTo(log[..4], script, aim, Ok)
          && log[4].command == SavePrevious && (log[4].ok <==> !ending.reached.BeforeCutover?))
  }

  /**
   * The rollback command finds its release, takes the lock and remembers where `current` points before it switches
   * anything; until it holds the lock the first command that does not pass ends it with `EXIT_TRANSPORT`.
   */
  lemma RollbackFollowsItsScript(m: Machine, sha: string)
    ensures var r := RollingBackTo(m, sha); m.log <= r.m.log && ReadsFound(r.m.log[|m.log|..], r.ending, sha)
  {
    var aim, target, script := Aim("", Release(sha), 20, 20), Release(sha), FindScript(sha);
    var f, v := Finding(m, target), Following(m, script, aim);
    FoundIs(m, sha);
    FollowingFollows(m, script, aim);
    FoundLength(sha);
    hide Following, Finding, Did, Passes, RollingBackLocked, FindScript;
    if v.status.Ok? {
      LockedBegins(v.m, target);
      var r := RollingBackLocked(v.m, target);
      assert r.m.log[|m.log|..][..4] == v.m.log[|m.log|..];
    }
  }

  lemma FoundLength(sha: string)
    ensures |FindScript(sha)| == 4
  {
  }

  /** The probes and the lock are the list; the rest follows when all of it has passed. */
  lemma FoundIs(m: Machine, sha: string)
    ensures var v := Following(m, FindScript(sha), Aim("", Release(sha), 20, 20));
            RollingBackTo(m, sha)
            == match v.status
               case Gone => Result(v.m, Killed)
               case Failed => Result(v.m, Exit(20, BeforeLock))
               case Ok => RollingBackLocked(v.m, Release(sha))
  {
    var aim, target := Aim("", Release(sha), 20, 20), Release(sha);
    var probes := [TestPresent(target)] + Gates([20, 20]);
    assert FindScript(sha) == probes + [MakeLock];
    hide Following, Finding, Did, RollingBackLocked, Gates, FindScript;
    FindingIs(m, target, aim);
    FollowingConcat(m, probes, [MakeLock], aim);
    BareOne(Finding(m, target).m, MakeLock, aim);
  }

  lemma FindingIs(m: Machine, target: Tree, aim: Aim)
    ensures var f := Finding(m, target);
            var v := Following(m, [TestPresent(target)] + Gates([20, 20]), aim);
            f.m == v.m && f.status == v.status
  {
    var a := Did(m, TestPresent(target));
    hide Did, Following, Gating, Gates;
    BareOne(m, TestPresent(target), aim);
    FollowingConcat(m, [TestPresent(target)], Gates([20, 20]), aim);
    GatingIs(a.m, [20, 20], aim);
  }

  lemma LockedBegins(m: Machine, target: Tree)
    ensures var r := RollingBackLocked(m, target);
            && m.log <= r.m.log
            && (r.ending.Exit? ==>
                  && |r.m.log| > |m.log| && r.m.log[|m.log|].command == SavePrevious
                  && !r.ending.reached.BeforeLock? && (r.m.log[|m.log|].ok <==> !r.ending.reached.BeforeCutover?))
  {
    DidIs(m, SavePrevious);
    var s := Did(m, SavePrevious);
    var c := CuttingOver(s.m, target, EXIT_TRANSPORT);
    CuttingOverLate(s.m, target, EXIT_TRANSPORT);
    UnlockingLate(s.m);
    UnlockingLate(c.m);
    RollingBackLate(c.m);
    UnlockingLate(RollingBack(c.m).m);
    AskedIs(Unlocking(c.m).m, CapturePointer);
    hide Did, Perform, ActOf, CuttingOver, RollingBack, Unlocking, Asked, Late;
  }

  lemma UnlockingLate(m: Machine)
    ensures Later(m, Unlocking(m).m)
  {
    hide Did, Later;
    DidLate(m, ForgetPrevious);
    var f := Did(m, ForgetPrevious);
    DidLate(f.m, RemoveLock);
    LaterTransitive(m, f.m, Did(f.m, RemoveLock).m);
  }
}
