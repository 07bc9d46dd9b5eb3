// The production host as the credential deployment sees it: three live files, their `.next` files, the
// recovery directory, and the service. Scripts run one sub-command at a time; any may fail, or be the last.

module CredentialHost {
  import opened Text

  datatype File = Credential | Dropin | Config

  datatype Content = Absent | Whole(data: string) | Torn

  datatype Files<T> = Files(credential: T, dropin: T, config: T) {
    function At(f: File): T {
      match f
      case Credential => credential
      case Dropin => dropin
      case Config => config
    }

    function With(f: File, x: T): Files<T> {
      match f
      case Credential => this.(credential := x)
      case Dropin => this.(dropin := x)
      case Config => this.(config := x)
    }
  }

  /** /run/framenest-ai-credential-deploy: copies, one mark per file, and `transaction.complete`. */
  datatype Recovery = Recovery(copies: Files<Content>, present: Files<bool>, absent: Files<bool>, complete: bool)

  const NEW_RECOVERY :=
    Recovery(Files(Absent, Absent, Absent), Files(false, false, false), Files(false, false, false), false)
  const REMNANTS := Recovery(Files(Torn, Torn, Torn), Files(false, false, false), Files(false, false, false), false)
  const NO_FILES := Files(Absent, Absent, Absent)

  /** `loaded` is the drop-in systemd last read; `running` what the service was last started from. */
  datatype Host = Host(
    live: Files<Content>, next: Files<Content>, recovery: Option<Recovery>, loaded: Content,
    running: Option<Files<Content>>)

  // ---- sub-commands ---------------------------------------------------------------------

  datatype Command =
    | Check
    | MakeRecovery
    | CopyOut(file: File)
    | MarkPresent(file: File)
    | MarkAbsent(file: File)
    | MarkComplete
    | WriteNext(file: File, data: string)
    | MoveNext(file: File)
    | CompareNext(file: File, data: string)
    | CompareLive(file: File, data: string)
    | Configure(data: string)
    | Reload
    | Restart
    | RequireComplete
    | CopyBack(file: File)
    | RemoveLive(file: File)
    | RemoveNexts
    | RemoveRecovery

  /** A failing command may have done nothing, part of its work, or all of it. */
  datatype Extent = Untouched | Damaged | Done

  datatype Fate = Works | Fails(extent: Extent)

  /** Whether the command can succeed on this host at all. */
  predicate Can(h: Host, c: Command) {
    match c
    case MakeRecovery => h.recovery.None?
    case CopyOut(_) | MarkPresent(_) | MarkAbsent(_) | MarkComplete => h.recovery.Some?
    case CopyBack(_) => h.recovery.Some?
    case MoveNext(f) => !h.next.At(f).Absent?
    case CompareNext(f, data) => h.next.At(f) == Whole(data)
    case CompareLive(f, data) => h.live.At(f) == Whole(data)
    case RequireComplete => h.recovery.Some? && h.recovery.value.complete
    case _ => true
  }

  /** The command done in full. */
  function Effect(h: Host, c: Command): Host
    requires Can(h, c)
  {
    match c
    case Check | CompareNext(_, _) | CompareLive(_, _) | RequireComplete => h
    case MakeRecovery => h.(recovery := Some(NEW_RECOVERY))
    case CopyOut(f) => h.(recovery := Some(h.recovery.value.(copies := h.recovery.value.copies.With(f, h.live.At(f)))))
    case MarkPresent(f) => h.(recovery := Some(h.recovery.value.(present := h.recovery.value.present.With(f, true))))
    case MarkAbsent(f) => h.(recovery := Some(h.recovery.value.(absent := h.recovery.value.absent.With(f, true))))
    case MarkComplete => h.(recovery := Some(h.recovery.value.(complete := true)))
    case WriteNext(f, data) => h.(next := h.next.With(f, Whole(data)))
    case MoveNext(f) => h.(live := h.live.With(f, h.next.At(f)), next := h.next.With(f, Absent))
    case Configure(data) => h.(live := h.live.With(Config, Whole(data)))
    case Reload => h.(loaded := h.live.dropin)
    case Restart => h.(running := Some(h.live.(dropin := h.loaded)))
    case CopyBack(f) => h.(live := h.live.With(f, h.recovery.value.copies.At(f)))
    case RemoveLive(f) => h.(live := h.live.With(f, Absent))
    case RemoveNexts => h.(next := NO_FILES)
    case RemoveRecovery => h.(recovery := None)
  }

  /** What a command leaves behind that stops half-way. Marks, renames and directory creation are atomic. */
  function Partial(h: Host, c: Command): Host
    requires Can(h, c)
  {
    match c
    case CopyOut(f) => h.(recovery := Some(h.recovery.value.(copies := h.recovery.value.copies.With(f, Torn))))
    case WriteNext(f, _) => h.(next := h.next.With(f, Torn))
    case Configure(_) => h.(live := h.live.With(Config, Torn))
    case Restart => h.(running := None)
    case CopyBack(f) => h.(live := h.live.With(f, Torn))
    case RemoveNexts => h.(next := h.next.With(Credential, Absent))
    case RemoveRecovery => if h.recovery.None? then h else h.(recovery := Some(REMNANTS))
    case _ => h
  }

  // ---- scripts ------------------------------------------------------------------------------

  datatype Status = Running | Exited(code: nat) | Dead

  /**
   * A run in progress: what each further sub-command will meet, every host state so far, and which of the
   * backup's existence probes fail to run and so read as absent.
   */
  datatype Machine = Machine(host: Host, fates: seq<Fate>, trace: seq<Host>, status: Status, misread: Files<bool>)

  datatype Statement =
    | Run(command: Command, code: nat)    // under `set -e`
    | Quiet(command: Command)             // inside `sh -c`, where the next command follows a failure
    | BackUp(file: File)                  // if test -e live; then cp; touch .present; else touch .absent; fi
    | PutBack(file: File)                 // `cp` where there is a .present, `rm -f` where an .absent, else `exit 42`

  const NO_MARK_EXIT: nat := 42

  function Arrive(m: Machine, h: Host, status: Status): Machine
    requires m.fates != []
  {
    m.(host := h, fates := m.fates[1..], trace := m.trace + [h], status := status)
  }

  function Do(m: Machine, c: Command, code: nat): Machine {
    if m.status != Running then m
    else if m.fates == [] then m.(status := Dead)
    else if !Can(m.host, c) then Arrive(m, m.host, Exited(code))
    else
      match m.fates[0]
      case Works => Arrive(m, Effect(m.host, c), Running)
      case Fails(extent) =>
        Arrive(m, if extent.Done? then Effect(m.host, c) else if extent.Damaged? then Partial(m.host, c) else m.host,
               Exited(code))
  }

  function Resume(m: Machine): Machine {
    if m.status.Exited? then m.(status := Running) else m
  }

  /** A `test -e` used as a condition: false when it cannot run. */
  function Probe(m: Machine): Machine {
    if m.status != Running then m
    else if m.fates == [] then m.(status := Dead)
    else Arrive(m, m.host, Running)
  }

  function BackingUp(m: Machine, f: File): Machine {
    var p := Probe(m);
    if !m.host.live.At(f).Absent? && !m.misread.At(f) then Do(Do(p, CopyOut(f), 1), MarkPresent(f), 1)
    else Do(p, MarkAbsent(f), 1)
  }

  function PuttingBack(m: Machine, f: File): Machine {
    if m.status != Running then m
    else if m.fates == [] then m.(status := Dead)
    else
      var p := Probe(m);
      if m.host.recovery.Some? && m.host.recovery.value.present.At(f) && m.fates[0].Works? then
        Do(if f.Config? then p else Do(p, Check, 1), CopyBack(f), 1)
      else if p.fates == [] then p.(status := Dead)
      else
        var q := Probe(p);
        if m.host.recovery.Some? && m.host.recovery.value.absent.At(f) && p.fates[0].Works? then Do(q, RemoveLive(f), 1)
        else q.(status := Exited(NO_MARK_EXIT))
  }

  function Step(m: Machine, s: Statement): Machine {
    match s
    case Run(c, code) => Do(m, c, code)
    case Quiet(c) => if m.status != Running then m else Resume(Do(m, c, 1))
    case BackUp(f) => if m.status != Running then m else BackingUp(m, f)
    case PutBack(f) => PuttingBack(m, f)
  }

  function Exec(m: Machine, script: seq<Statement>): Machine
    decreases |script|
  {
    if script == [] then m else Exec(Step(m, script[0]), script[1..])
  }

  const CONNECT := Run(Check, 255)

  /** One ssh invocation. */
  function Ssh(m: Machine, script: seq<Statement>): Machine {
    Exec(m, [CONNECT] + script)
  }
}
