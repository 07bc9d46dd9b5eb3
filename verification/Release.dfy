// The release engine: deploy and rollback as sequences of remote commands, any of which may fail.

module ReleaseEngine {
  import opened Text
  import opened ReleaseHost

  const EXIT_OK: nat := 0
  const EXIT_EXISTS: nat := 9
  const EXIT_CHECKPOINT: nat := 12
  const EXIT_MIGRATION_REQUIRED: nat := 13
  const EXIT_READINESS: nat := 15
  const EXIT_SERVICE_TERMINAL: nat := 16
  const EXIT_READINESS_TIMEOUT: nat := 17
  const EXIT_ROLLBACK: nat := 18
  const EXIT_CLEANUP: nat := 19
  const EXIT_TRANSPORT: nat := 20

  const READINESS_DEADLINE_MS: nat := 30000
  const READINESS_POLL_INTERVAL_MS: nat := 1000

  const CURRENT := "/opt/framenest/current"

  const FORBIDDEN_LOG_TOKENS := ["/etc/framenest/credentials", "Authorization:", "Bearer ", "BEGIN "]

  predicate OccursAt(s: string, t: string, i: nat) {
    i + |t| <= |s| && s[i..i + |t|] == t
  }

  predicate Contains(s: string, t: string) {
    exists i :: 0 <= i <= |s| && OccursAt(s, t, i)
  }

  predicate Sanitized(log: string) {
    forall k :: 0 <= k < |FORBIDDEN_LOG_TOKENS| ==> !Contains(log, FORBIDDEN_LOG_TOKENS[k])
  }

  // ---- one remote command -----------------------------------------------------------------

  /**
   * What one remote command meets: whether it fails, what it prints, how long it takes, and, as long as
   * this run does not hold the lock, what other operators have made of the host by then.
   */
  datatype Turn = Turn(fate: Fate, says: string, took: nat, elsewhere: Host)

  /** One command that was run: whether under this run's lock, and the host right before and right after it. */
  datatype Entry = Entry(command: Command, turn: Turn, held: bool, before: Host, after: Host, ok: bool) {
    function Act(): Act {
      ActOf(before, command, turn.fate)
    }
  }

  /** A run in progress: `mine` says that it holds the lock, `now` is its clock. */
  datatype Machine = Machine(host: Host, turns: seq<Turn>, now: nat, mine: bool, log: seq<Entry>)

  datatype Status = Ok | Failed | Gone

  datatype Reply = Reply(m: Machine, status: Status, said: string)

  /** What a part of a run comes to, and the exit code its failure carries. */
  datatype Verdict = Verdict(m: Machine, status: Status, code: nat)

  /** What other operators may have made of the host: anything, except that no published release goes away. */
  function Meanwhile(h: Host, elsewhere: Host): Host {
    elsewhere.(trees := elsewhere.trees + set t | t in h.trees && t.Release?)
  }

  /** While a run holds the lock it finds the host as its last command left it. */
  function Did(m: Machine, c: Command): Reply {
    if m.turns == [] then Reply(m, Gone, "")
    else
      var t := m.turns[0];
      var h := if m.mine then m.host else Meanwhile(m.host, t.elsewhere);
      var (after, ok) := Perform(h, c, t.fate);
      var act := ActOf(h, c, t.fate);
      Reply(
        Machine(after, m.turns[1..], m.now + t.took, (m.mine || act == LockMade) && act != LockRemoved,
                m.log + [Entry(c, t, m.mine, h, after, ok)]),
        if ok then Ok else Failed,
        t.says)
  }

  function Asked(m: Machine, q: Question): Reply {
    Did(m, Look(q))
  }

  // ---- the parts of a run ----------------------------------------------------------------------

  /** Checks whose failure, or whose wrong output, ends the run with the exit code listed for them. */
  function Gating(m: Machine, codes: seq<nat>): Verdict
    decreases |codes|
  {
    if codes == [] then Verdict(m, Ok, EXIT_TRANSPORT)
    else
      var a := Asked(m, Gate(codes[0]));
      if a.status.Ok? then Gating(a.m, codes[1..]) else Verdict(a.m, a.status, codes[0])
  }

  /** `cmd_remote_atomic_switch`: link beside, then rename over. */
  function Switching(m: Machine, target: Tree): Reply {
    var a := Did(m, LinkNext(target));
    if a.status.Ok? then Did(a.m, SwapNext) else a
  }

  predicate Terminal(active: string, result: string) {
    active == "failed" || (active != "active" && active != "activating" && result != "" && result != "success")
  }

  /** `_wait_ready`: poll the service until it is up and healthy, it has failed for good, or the deadline has passed. */
  function Waiting(m: Machine, target: Tree, deadline: nat): Verdict
    decreases |m.turns|
  {
    if deadline <= m.now then Verdict(m, Failed, EXIT_READINESS_TIMEOUT)
    else
      var a := Asked(m, ActiveState);
      if !a.status.Ok? then Verdict(a.m, a.status, EXIT_TRANSPORT)
      else
        var r := Asked(a.m, ServiceResult);
        if !r.status.Ok? then Verdict(r.m, r.status, EXIT_TRANSPORT)
        else if Terminal(a.said, r.said) then Verdict(r.m, Failed, EXIT_SERVICE_TERMINAL)
        else
          var h := Healthy(r.m, target, a.said == "active");
          if h.status.Gone? || h.status.Ok? then Verdict(h.m, h.status, EXIT_TRANSPORT)
          else if deadline <= h.m.now then Verdict(h.m, Failed, EXIT_READINESS_TIMEOUT)
          else Waiting(Slept(h.m, deadline), target, deadline)
  }

  /** The two health checks, made only when the service is active. */
  function Healthy(m: Machine, target: Tree, active: bool): Reply {
    if !active then Reply(m, Failed, "")
    else
      var h := Asked(m, Health(target));
      if h.status.Ok? then Asked(h.m, DatabaseReady(target)) else h
  }

  /** A second, or less when the deadline is nearer. */
  function Slept(m: Machine, deadline: nat): Machine
    requires m.now < deadline
  {
    var left := deadline - m.now;
    m.(now := m.now + if left < READINESS_POLL_INTERVAL_MS then left else READINESS_POLL_INTERVAL_MS)
  }

  /** `_verify_cutover`. */
  function Verifying(m: Machine, target: Tree): Verdict {
    var a := Asked(m, ReadLink);
    if !a.status.Ok? then Verdict(a.m, a.status, EXIT_TRANSPORT)
    else if a.m.host.current != target then Verdict(a.m, Failed, EXIT_READINESS)
    else
      var d := Asked(a.m, WorkingDirectory);
      if !d.status.Ok? then Verdict(d.m, d.status, EXIT_TRANSPORT)
      else if d.said != CURRENT then Verdict(d.m, Failed, EXIT_READINESS)
      else
        var w := Waiting(d.m, target, d.m.now + READINESS_DEADLINE_MS);
        if !w.status.Ok? then w
        else
          var j := Asked(w.m, Journal);
          if !j.status.Ok? then Verdict(j.m, j.status, EXIT_TRANSPORT)
          else if !Sanitized(j.said) then Verdict(j.m, Failed, EXIT_SERVICE_TERMINAL)
          else Verdict(j.m, Ok, EXIT_TRANSPORT)
  }

  /**
   * The cutover block: readiness of the target, switch, restart,
   * verification. `refused` is the exit code of a failed command.
   */
  function CuttingOver(m: Machine, target: Tree, refused: nat): Verdict {
    var a := Asked(m, DatabaseReady(target));
    if !a.status.Ok? then Verdict(a.m, a.status, refused)
    else
      var s := Switching(a.m, target);
      if !s.status.Ok? then Verdict(s.m, s.status, refused)
      else
        var r := Did(s.m, Restart);
        if !r.status.Ok? then Verdict(r.m, r.status, refused) else Verifying(r.m, target)
  }

  /**
   * `_rollback`: switch back to the remembered release, restart it, and verify it. Every failure is `EXIT_ROLLBACK`.
   */
  function RollingBack(m: Machine): Verdict {
    var a := Asked(m, ReadPrevious);
    if !a.status.Ok? then Verdict(a.m, a.status, EXIT_ROLLBACK)
    else if a.m.host.previous.None? then Verdict(a.m, Failed, EXIT_ROLLBACK)
    else
      var previous := a.m.host.previous.value;
      var s := Switching(a.m, previous);
      if !s.status.Ok? then Verdict(s.m, s.status, EXIT_ROLLBACK)
      else
        var d := Asked(s.m, DatabaseReady(previous));
        if !d.status.Ok? then Verdict(d.m, d.status, EXIT_ROLLBACK)
        else
          var r := Did(d.m, Restart);
          if !r.status.Ok? then Verdict(r.m, r.status, EXIT_ROLLBACK)
          else Verifying(r.m, previous).(code := EXIT_ROLLBACK)
  }

  /** From the lock to the published tree. */
  function Publishing(m: Machine, sha: string, tooling: seq<nat>, preparation: seq<nat>): Verdict {
    var a := Did(m, TestAbsent(Release(sha)));
    if !a.status.Ok? then Verdict(a.m, a.status, EXIT_TRANSPORT)
    else
      var b := Did(a.m, TestAbsent(Staging(sha)));
      if !b.status.Ok? then Verdict(b.m, b.status, EXIT_TRANSPORT)
      else
        var t := Gating(b.m, tooling);
        if !t.status.Ok? then t
        else
          var s := Did(t.m, PrepareStaging(sha));
          if !s.status.Ok? then Verdict(s.m, s.status, EXIT_TRANSPORT)
          else
            var g := Gating(s.m, preparation);
            if !g.status.Ok? then g
            else
              var p := Did(g.m, Publish(sha));
              Verdict(p.m, p.status, EXIT_TRANSPORT)
  }

  /** Same-schema gate, checkpoint, and the memory of where `current` points. */
  function Checkpointing(m: Machine, head: string): Verdict {
    var a := Asked(m, ReadSchema);
    if !a.status.Ok? then Verdict(a.m, a.status, EXIT_TRANSPORT)
    else if a.m.host.schema != head then Verdict(a.m, Failed, EXIT_MIGRATION_REQUIRED)
    else
      var c := Asked(a.m, CheckpointState);
      if !c.status.Ok? then Verdict(c.m, c.status, EXIT_TRANSPORT)
      else if c.said != "succeeded" then Verdict(c.m, Failed, EXIT_CHECKPOINT)
      else
        var s := Did(c.m, SavePrevious);
        Verdict(s.m, s.status, EXIT_TRANSPORT)
  }

  const OWN_FILES := [EXIT_CLEANUP, EXIT_CLEANUP, EXIT_CLEANUP]

  /** The `finally` of the rollback command. */
  function Unlocking(m: Machine): Reply {
    var f := Did(m, ForgetPrevious);
    if f.status.Ok? then Did(f.m, RemoveLock) else f
  }

  /** Four files and the lock directory, in that order. */
  function CleaningUp(m: Machine): Reply {
    var g := Gating(m, OWN_FILES);
    if g.status.Ok? then Unlocking(g.m) else Reply(g.m, g.status, "")
  }

  // ---- whole runs ---------------------------------------------------------------------------------

  /** How far a run got before its exit code was decided. */
  datatype Reached = BeforeLock | BeforeCutover | InCutover | AfterCutover

  datatype Ending = Killed | Exit(code: nat, reached: Reached)

  datatype Result = Result(m: Machine, ending: Ending)

  function Ended(m: Machine, status: Status, code: nat, reached: Reached): Result {
    Result(m, if status.Gone? then Killed else Exit(code, reached))
  }

  /**
   * `gates` are the checks before the lock, `tooling` and `preparation` those before and on the staging tree, each with
   * its exit code; `head` is the schema revision packaged with the release.
   */
  datatype Job = Job(sha: string, head: string, gates: seq<nat>, tooling: seq<nat>, preparation: seq<nat>)

  /** `_cmd_deploy`. */
  function Deploying(m: Machine, job: Job): Result {
    var g := Gating(m, job.gates);
    if !g.status.Ok? then Ended(g.m, g.status, g.code, BeforeLock)
    else
      var l := Did(g.m, MakeLock);
      if !l.status.Ok? then Ended(l.m, l.status, EXIT_EXISTS, BeforeLock)
      else DeployingLocked(l.m, job)
  }

  function DeployingLocked(m: Machine, job: Job): Result {
    var p := Publishing(m, job.sha, job.tooling, job.preparation);
    if !p.status.Ok? then Ended(p.m, p.status, p.code, BeforeCutover)
    else
      var k := Checkpointing(p.m, job.head);
      if !k.status.Ok? then Ended(k.m, k.status, k.code, BeforeCutover)
      else
        var c := CuttingOver(k.m, Release(job.sha), EXIT_READINESS);
        match c.status
        case Gone => Result(c.m, Killed)
        case Failed =>
          var b := RollingBack(c.m);
          Ended(b.m, b.status, if b.status.Ok? then c.code else EXIT_ROLLBACK, InCutover)
        case Ok =>
          var u := CleaningUp(c.m);
          if !u.status.Ok? then Ended(u.m, u.status, EXIT_CLEANUP, AfterCutover) else Reporting(u.m)
  }

  /** The last read, of the capture release. */
  function Reporting(m: Machine): Result {
    var a := Asked(m, CapturePointer);
    Ended(a.m, a.status, if a.status.Ok? then EXIT_OK else EXIT_TRANSPORT, AfterCutover)
  }

  /** `_cmd_rollback`, to a published release. */
  function RollingBackTo(m: Machine, sha: string): Result {
    var f := Finding(m, Release(sha));
    if !f.status.Ok? then Ended(f.m, f.status, EXIT_TRANSPORT, BeforeLock)
    else
      var l := Did(f.m, MakeLock);
      if !l.status.Ok? then Ended(l.m, l.status, EXIT_TRANSPORT, BeforeLock)
      else RollingBackLocked(l.m, Release(sha))
  }

  /** The three probes of the release to go back to. */
  function Finding(m: Machine, target: Tree): Verdict {
    var a := Did(m, TestPresent(target));
    if a.status.Ok? then Gating(a.m, [EXIT_TRANSPORT, EXIT_TRANSPORT]) else Verdict(a.m, a.status, EXIT_TRANSPORT)
  }

  function RollingBackLocked(m: Machine, target: Tree): Result {
    var s := Did(m, SavePrevious);
    match s.status
    case Gone => Result(s.m, Killed)
    case Failed =>
      var u := Unlocking(s.m);
      Ended(u.m, u.status, EXIT_TRANSPORT, BeforeCutover)
    case Ok =>
      var c := CuttingOver(s.m, target, EXIT_TRANSPORT);
      match c.status
      case Gone => Result(c.m, Killed)
      case Failed => AfterFailure(c.m, c.code)
      case Ok =>
        var u := Unlocking(c.m);
        if !u.status.Ok? then Ended(u.m, u.status, EXIT_TRANSPORT, AfterCutover) else Reporting(u.m)
  }

  /** The rollback inside a rollback command, and its `finally`: an error of the latter replaces every other. */
  function AfterFailure(m: Machine, code: nat): Result {
    var b := RollingBack(m);
    if b.status.Gone? then Result(b.m, Killed)
    else
      var u := Unlocking(b.m);
      Ended(u.m, u.status, if !u.status.Ok? then EXIT_TRANSPORT else if b.status.Ok? then code else EXIT_ROLLBACK,
            InCutover)
  }

  // ---- the engine as it runs ------------------------------------------------------------------------

  class ReleaseRun {
    var machine: Machine

    constructor (host: Host, turns: seq<Turn>)
      ensures machine == Machine(host, turns, 0, false, [])
    {
      machine := Machine(host, turns, 0, false, []);
    }

    /** `ssh`: one remote command. */
    method Do(c: Command) returns (status: Status, said: string)
      modifies this
      ensures Reply(machine, status, said) == Did(old(machine), c)
    {
      var r := Did(machine, c);
      machine, status, said := r.m, r.status, r.said;
    }

    method Gates(codes: seq<nat>) returns (status: Status, code: nat)
      modifies this
      ensures Verdict(machine, status, code) == Gating(old(machine), codes)
    {
      hide Did;
      assert codes[0..] == codes;
      for i := 0 to |codes|
        invariant Gating(machine, codes[i..]) == Gating(old(machine), codes)
      {
        assert codes[i..][1..] == codes[i + 1..];
        var said;
        status, said := Do(Look(Gate(codes[i])));
        if !status.Ok? {
          return status, codes[i];
        }
      }
      return Ok, EXIT_TRANSPORT;
    }

    method Switch(target: Tree) returns (status: Status, said: string)
      modifies this
      ensures Reply(machine, status, said) == Switching(old(machine), target)
    {
      hide Did;
      status, said := Do(LinkNext(target));
      if status.Ok? {
        status, said := Do(SwapNext);
      }
    }

    method CheckHealth(target: Tree, active: bool) returns (status: Status, said: string)
      modifies this
      ensures Reply(machine, status, said) == Healthy(old(machine), target, active)
    {
      hide Did;
      if !active {
        return Failed, "";
      }
      status, said := Do(Look(Health(target)));
      if status.Ok? {
        status, said := Do(Look(DatabaseReady(target)));
      }
    }

    method WaitReady(target: Tree) returns (status: Status, code: nat)
      modifies this
      ensures Verdict(machine, status, code) == Waiting(old(machine), target, old(machine).now + READINESS_DEADLINE_MS)
    {
      var deadline := machine.now + READINESS_DEADLINE_MS;
      while true
        invariant Waiting(machine, target, deadline) == Waiting(old(machine), target, deadline)
        decreases |machine.turns|
      {
        Shorter(machine);
        hide Did;
        if deadline <= machine.now {
          return Failed, EXIT_READINESS_TIMEOUT;
        }
        var active, result, said;
        status, active := Do(Look(ActiveState));
        if !status.Ok? {
          return status, EXIT_TRANSPORT;
        }
        status, result := Do(Look(ServiceResult));
        if !status.Ok? {
          return status, EXIT_TRANSPORT;
        }
        if Terminal(active, result) {
          return Failed, EXIT_SERVICE_TERMINAL;
        }
        status, said := CheckHealth(target, active == "active");
        if status.Gone? || status.Ok? {
          return status, EXIT_TRANSPORT;
        }
        if deadline <= machine.now {
          return Failed, EXIT_READINESS_TIMEOUT;
        }
        machine := Slept(machine, deadline);
      }
    }

    method VerifyCutover(target: Tree) returns (status: Status, code: nat)
      modifies this
      ensures Verdict(machine, status, code) == Verifying(old(machine), target)
    {
      hide Did, Waiting, Sanitized;
      code := EXIT_TRANSPORT;
      var said;
      status, said := Do(Look(ReadLink));
      if !status.Ok? {
        return;
      }
      if machine.host.current != target {
        return Failed, EXIT_READINESS;
      }
      status, said := Do(Look(WorkingDirectory));
      if !status.Ok? {
        return;
      }
      if said != CURRENT {
        return Failed, EXIT_READINESS;
      }
      status, code := WaitReady(target);
      if !status.Ok? {
        return;
      }
      code := EXIT_TRANSPORT;
      status, said := Do(Look(Journal));
      if status.Ok? && !Sanitized(said) {
        return Failed, EXIT_SERVICE_TERMINAL;
      }
    }

    method CutOver(target: Tree, refused: nat) returns (status: Status, code: nat)
      modifies this
      ensures Verdict(machine, status, code) == CuttingOver(old(machine), target, refused)
    {
      hide Did, Switching, Verifying;
      code := refused;
      var said;
      status, said := Do(Look(DatabaseReady(target)));
      if status.Ok? {
        status, said := Switch(target);
      }
      if status.Ok? {
        status, said := Do(Restart);
      }
      if status.Ok? {
        status, code := VerifyCutover(target);
      }
    }

    method RollBack() returns (status: Status)
      modifies this
      ensures Verdict(machine, status, EXIT_ROLLBACK) == RollingBack(old(machine))
    {
      hide Did, Switching, Verifying;
      var said, code;
      status, said := Do(Look(ReadPrevious));
      if !status.Ok? {
        return;
      }
      if machine.host.previous.None? {
        return Failed;
      }
      var previous := machine.host.previous.value;
      status, said := Switch(previous);
      if status.Ok? {
        status, said := Do(Look(DatabaseReady(previous)));
      }
      if status.Ok? {
        status, said := Do(Restart);
      }
      if status.Ok? {
        status, code := VerifyCutover(previous);
      }
    }

    method PublishTree(sha: string, tooling: seq<nat>, preparation: seq<nat>) returns (status: Status, code: nat)
      modifies this
      ensures Verdict(machine, status, code) == Publishing(old(machine), sha, tooling, preparation)
    {
      hide Did, Gating;
      code := EXIT_TRANSPORT;
      var said;
      status, said := Do(TestAbsent(Release(sha)));
      if !status.Ok? {
        return;
      }
      status, said := Do(TestAbsent(Staging(sha)));
      if !status.Ok? {
        return;
      }
      status, code := Gates(tooling);
      if !status.Ok? {
        return;
      }
      code := EXIT_TRANSPORT;
      status, said := Do(PrepareStaging(sha));
      if !status.Ok? {
        return;
      }
      status, code := Gates(preparation);
      if !status.Ok? {
        return;
      }
      code := EXIT_TRANSPORT;
      status, said := Do(Publish(sha));
    }

    method Checkpoint(head: string) returns (status: Status, code: nat)
      modifies this
      ensures Verdict(machine, status, code) == Checkpointing(old(machine), head)
    {
      hide Did;
      code := EXIT_TRANSPORT;
      var said;
      status, said := Do(Look(ReadSchema));
      if !status.Ok? {
        return;
      }
      if machine.host.schema != head {
        return Failed, EXIT_MIGRATION_REQUIRED;
      }
      status, said := Do(Look(CheckpointState));
      if !status.Ok? {
        return;
      }
      if said != "succeeded" {
        return Failed, EXIT_CHECKPOINT;
      }
      status, said := Do(SavePrevious);
    }

    method Unlock() returns (status: Status, said: string)
      modifies this
      ensures Reply(machine, status, said) == Unlocking(old(machine))
    {
      hide Did;
      status, said := Do(ForgetPrevious);
      if status.Ok? {
        status, said := Do(RemoveLock);
      }
    }

    method CleanUp() returns (status: Status, said: string)
      modifies this
      ensures Reply(machine, status, said) == CleaningUp(old(machine))
    {
      hide Did, Gating, Unlocking;
      var code;
      said := "";
      status, code := Gates(OWN_FILES);
      if status.Ok? {
        status, said := Unlock();
      }
    }

    method Report() returns (ending: Ending)
      modifies this
      ensures Result(machine, ending) == Reporting(old(machine))
    {
      hide Did;
      var status, said := Do(Look(CapturePointer));
      ending := if status.Gone? then Killed else Exit(if status.Ok? then EXIT_OK else EXIT_TRANSPORT, AfterCutover);
    }

    method Deploy(job: Job) returns (ending: Ending)
      modifies this
      ensures Result(machine, ending) == Deploying(old(machine), job)
    {
      hide Did, Gating, DeployingLocked;
      var status, code := Gates(job.gates);
      if !status.Ok? {
        return if status.Gone? then Killed else Exit(code, BeforeLock);
      }
      var said;
      status, said := Do(MakeLock);
      if !status.Ok? {
        return if status.Gone? then Killed else Exit(EXIT_EXISTS, BeforeLock);
      }
      ending := DeployLocked(job);
    }

    method DeployLocked(job: Job) returns (ending: Ending)
      modifies this
      ensures Result(machine, ending) == DeployingLocked(old(machine), job)
    {
      hide Did, Publishing, Checkpointing, CuttingOver, RollingBack, CleaningUp, Reporting;
      var status, code := PublishTree(job.sha, job.tooling, job.preparation);
      if status.Ok? {
        status, code := Checkpoint(job.head);
      }
      if !status.Ok? {
        return if status.Gone? then Killed else Exit(code, BeforeCutover);
      }
      status, code := CutOver(Release(job.sha), EXIT_READINESS);
      if status.Gone? {
        return Killed;
      }
      if status.Failed? {
        status := RollBack();
        return if status.Gone? then Killed else Exit(if status.Ok? then code else EXIT_ROLLBACK, InCutover);
      }
      var said;
      status, said := CleanUp();
      if !status.Ok? {
        return if status.Gone? then Killed else Exit(EXIT_CLEANUP, AfterCutover);
      }
      ending := Report();
    }

    method FindRelease(target: Tree) returns (status: Status, code: nat)
      modifies this
      ensures Verdict(machine, status, code) == Finding(old(machine), target)
    {
      hide Did, Gating;
      var said;
      status, said := Do(TestPresent(target));
      code := EXIT_TRANSPORT;
      if status.Ok? {
        status, code := Gates([EXIT_TRANSPORT, EXIT_TRANSPORT]);
      }
    }

    method RollBackTo(sha: string) returns (ending: Ending)
      modifies this
      ensures Result(machine, ending) == RollingBackTo(old(machine), sha)
    {
      hide Did, Finding, RollingBackLocked;
      var status, code := FindRelease(Release(sha));
      var said;
      if status.Ok? {
        status, said := Do(MakeLock);
      }
      if !status.Ok? {
        return if status.Gone? then Killed else Exit(EXIT_TRANSPORT, BeforeLock);
      }
      ending := RollBackLocked(Release(sha));
    }

    method RollBackLocked(target: Tree) returns (ending: Ending)
      modifies this
      ensures Result(machine, ending) == RollingBackLocked(old(machine), target)
    {
      hide Did, CuttingOver, RollingBack, Unlocking, Reporting;
      var status, said := Do(SavePrevious);
      if status.Gone? {
        return Killed;
      }
      if status.Failed? {
        status, said := Unlock();
        return if status.Gone? then Killed else Exit(EXIT_TRANSPORT, BeforeCutover);
      }
      var code;
      status, code := CutOver(target, EXIT_TRANSPORT);
      var late := status.Ok?;
      if status.Failed? {
        status := RollBack();
        code := if status.Ok? then code else EXIT_ROLLBACK;
      }
      if status.Gone? {
        return Killed;
      }
      status, said := Unlock();
      if !late || !status.Ok? {
        return if status.Gone? then Killed
               else Exit(if status.Ok? then code else EXIT_TRANSPORT, if late then AfterCutover else InCutover);
      }
      ending := Report();
    }
  }

  lemma Shorter(m: Machine)
    ensures forall c :: |Did(m, c).m.turns| <= |m.turns| && (Did(m, c).status.Ok? ==> |Did(m, c).m.turns| < |m.turns|)
  {
  }
}
