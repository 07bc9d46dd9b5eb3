// The credential deployment: backup, install, acceptance, and rollback of three files.

module Credential {
  import opened Text
  import opened CredentialHost

  const RETAINED_RECOVERY_EXIT: nat := 77
  const DROPIN_BYTE_MISMATCH_EXIT: nat := 78

  datatype Job = Job(secret: string, payload: string, config: string)

  // ---- the scripts -----------------------------------------------------------------------

  const IDENTITY_CHECK := [Run(Check, 1), Run(Check, 1), Run(Check, 1)]

  const BACKUP := [
    Run(MakeRecovery, RETAINED_RECOVERY_EXIT), Run(Check, 1), Run(Check, 1),
    BackUp(Credential), BackUp(Dropin), BackUp(Config),
    Run(MarkComplete, 1)]

  function InstallCredential(secret: string): seq<Statement> {
    [Run(Check, 1), Quiet(WriteNext(Credential, secret)), Quiet(Check), Quiet(Check), Run(MoveNext(Credential), 1)]
  }

  function InstallDropin(payload: string): seq<Statement> {
    [Run(Check, 1), Quiet(WriteNext(Dropin, payload)), Quiet(Check), Run(Check, 1),
     Run(Check, 1), Run(Check, 1), Run(Check, 1),
     Run(Check, DROPIN_BYTE_MISMATCH_EXIT), Run(CompareNext(Dropin, payload), DROPIN_BYTE_MISMATCH_EXIT),
     Run(MoveNext(Dropin), 1),
     Run(Check, 1), Run(Check, 1), Run(Check, 1),
     Run(Check, DROPIN_BYTE_MISMATCH_EXIT), Run(CompareLive(Dropin, payload), DROPIN_BYTE_MISMATCH_EXIT)]
  }

  /** Everything between the backup and acceptance, one ssh invocation each. */
  function Installation(job: Job): seq<seq<Statement>> {
    [InstallCredential(job.secret),
     InstallDropin(job.payload),
     [Run(Configure(job.config), 1)],
     [Run(Check, 79)],
     [Run(Reload, 80)],
     [Run(Check, 81)],
     [Run(Check, 82), Run(Check, 82)],
     [Run(Check, 83), Run(Check, 83), Run(Check, 83), Run(CompareLive(Dropin, job.payload), 83), Run(Check, 83),
      Run(Check, 82), Run(Check, 83), Run(Check, 83)],
     [Run(Restart, 1)],
     [Run(Check, 76)],
     [Run(Check, 84)]]
  }

  const RESTORE := [
    Run(RequireComplete, 1), PutBack(Credential), PutBack(Dropin), PutBack(Config), Run(RemoveNexts, 1)]

  const CLEANUP := [Run(RemoveNexts, 1), Run(RemoveRecovery, 1)]

  datatype Phase = RestorePhase | ReloadPhase | RestartPhase | ReadinessPhase | CleanupPhase

  const PHASES := [RestorePhase, ReloadPhase, RestartPhase, ReadinessPhase, CleanupPhase]

  function PhaseScript(p: Phase): seq<Statement> {
    match p
    case RestorePhase => RESTORE
    case ReloadPhase => [Run(Reload, 1)]
    case RestartPhase => [Run(Restart, 1)]
    case ReadinessPhase => [Run(Check, 76)]
    case CleanupPhase => CLEANUP
  }

  // ---- what a run amounts to ------------------------------------------------------------------

  datatype Outcome =
    | Deployed
    | Refused(code: nat)             // before the backup
    | RetainedRecovery               // the recovery directory already exists
    | IncompleteBackup
    | RolledBack(code: nat)          // the plain error, re-raised after a full rollback
    | RollbackError(phase: Phase)
    | CleanupError
    | Killed

  /** `accepted` is how many host states precede acceptance, once that is reached. */
  datatype Result = Result(machine: Machine, outcome: Outcome, accepted: Option<nat>)

  function SshAll(m: Machine, scripts: seq<seq<Statement>>): Machine
    decreases |scripts|
  {
    if scripts == [] || m.status != Running then m else SshAll(Ssh(m, scripts[0]), scripts[1..])
  }

  function Rollback(m: Machine, phases: seq<Phase>, code: nat): Result
    decreases |phases|
  {
    if phases == [] then Result(m, RolledBack(code), None)
    else
      var n := Ssh(m, PhaseScript(phases[0]));
      match n.status
      case Running => Rollback(n, phases[1..], code)
      case Dead => Result(n, Killed, None)
      case Exited(_) => Result(n, RollbackError(phases[0]), None)
  }

  function Deploying(m: Machine, job: Job): Result {
    var checked := Ssh(m, IDENTITY_CHECK);
    if checked.status != Running then
      Result(checked, if checked.status.Dead? then Killed else Refused(checked.status.code), None)
    else
      var saved := Ssh(checked, BACKUP);
      if saved.status != Running then
        Result(saved,
               if saved.status.Dead? then Killed
               else if saved.status.code == RETAINED_RECOVERY_EXIT then RetainedRecovery else IncompleteBackup,
               None)
      else
        var installed := SshAll(saved, Installation(job));
        match installed.status
        case Dead => Result(installed, Killed, None)
        case Exited(code) => Rollback(Resume(installed), PHASES, code)
        case Running =>
          var cleaned := Ssh(installed, CLEANUP);
          Result(cleaned,
                 if cleaned.status == Running then Deployed else if cleaned.status.Dead? then Killed else CleanupError,
                 Some(|installed.trace|))
  }

  // ---- the deployment as it runs ----------------------------------------------------------------

  class ProductionDeployment {
    var machine: Machine

    constructor (host: Host, fates: seq<Fate>, misread: Files<bool>)
      ensures machine == Machine(host, fates, [], Running, misread)
    {
      machine := Machine(host, fates, [], Running, misread);
    }

    /** `_ssh`: runs one script and reports its exit status; the caller may go on after a failure. */
    method Invoke(script: seq<Statement>) returns (status: Status)
      modifies this
      ensures machine == Resume(Ssh(old(machine), script)) && status == Ssh(old(machine), script).status
    {
      var after := Ssh(machine, script);
      status := after.status;
      machine := Resume(after);
    }

    method Deploy(job: Job) returns (outcome: Outcome)
      requires machine.status == Running
      modifies this
      ensures machine == Resume(Deploying(old(machine), job).machine)
      ensures outcome == Deploying(old(machine), job).outcome
    {
      ghost var start := machine;
      var transactionActive := false;
      var status := Invoke(IDENTITY_CHECK);
      if status != Running {
        return if status.Dead? then Killed else Refused(status.code);
      }
      status := Invoke(BACKUP);
      if status != Running {
        return if status.Dead? then Killed
               else if status.code == RETAINED_RECOVERY_EXIT then RetainedRecovery else IncompleteBackup;
      }
      transactionActive := true;
      ghost var saved := machine;
      var scripts, i := Installation(job), 0;
      while i < |scripts| && status == Running
        invariant 0 <= i <= |scripts|
        invariant transactionActive
        invariant status == Running ==>
                  machine.status == Running && SshAll(saved, scripts) == SshAll(machine, scripts[i..])
        invariant status != Running ==>
                  SshAll(saved, scripts).status == status && machine == Resume(SshAll(saved, scripts))
        decreases |scripts| - i
      {
        status := Invoke(scripts[i]);
        i := i + 1;
      }
      if status.Dead? {
        return Killed;
      }
      if status.Exited? && transactionActive {
        var failed := RollBack();
        return match failed
               case Some(stopped) => stopped
               case None => RolledBack(status.code);
      }
      status := Invoke(CLEANUP);
      outcome := if status == Running then Deployed else if status.Dead? then Killed else CleanupError;
    }

    /** `_rollback`: the first phase that fails ends it, with the recovery material kept. */
    method RollBack() returns (failed: Option<Outcome>)
      requires machine.status == Running
      modifies this
      ensures forall code :: machine == Resume(Rollback(old(machine), PHASES, code).machine)
      ensures forall code ::
                Rollback(old(machine), PHASES, code).outcome
                == if failed.None? then RolledBack(code) else failed.value
    {
      ghost var start := machine;
      for i := 0 to |PHASES|
        invariant machine.status == Running
        invariant forall code :: Rollback(start, PHASES, code) == Rollback(machine, PHASES[i..], code)
      {
        ghost var before := machine;
        var status := Invoke(PhaseScript(PHASES[i]));
        if status.Dead? {
          return Some(Killed);
        }
        if status.Exited? {
          return Some(RollbackError(PHASES[i]));
        }
      }
      failed := None;
    }
  }
}
