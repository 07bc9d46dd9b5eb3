// The research coordinator. For every public call a plan says which port events it performs, in
// order, given what the outside world answers; the methods below perform exactly those. A process that
// dies, or a port that raises, leaves some prefix of the plan behind.

module Research {
  import opened Text
  import opened ResearchDomain
  import opened ResearchStore

  const LEGACY_PROFILE_VERSION := "3"

  datatype Request = Request(owner: string, clientId: string, kind: OperationKind, prompt: string, consent: string)

  datatype Selection = Selected(profile: Profile, deadlineSeconds: nat) | Unselectable(code: ErrorCode)

  /** What an admission meets: configuration, guard, the limits of the day and the month, and a fresh identifier. */
  datatype Admission = Admission(
    now: int, selection: Selection, denial: Option<ErrorCode>, daily: nat, monthly: nat, operation: string)

  /** What any other call meets. `answer` is `None` when the provider raises. */
  datatype Env = Env(
    now: int, enabled: bool, answer: Option<Observation>, completes: bool, recordId: string, price: Option<nat>)

  datatype Receipt = Accepted(row: Row, newlyAdmitted: bool) | Refusal(code: ErrorCode)

  datatype Plan = Plan(events: seq<Event>, row: Option<Row>)

  datatype AdmitPlan = AdmitPlan(events: seq<Event>, receipt: Receipt)

  // ---- admission --------------------------------------------------------------------

  predicate WellFormed(req: Request) {
    !Blank(req.prompt) && req.owner != "" && req.clientId != ""
  }

  predicate Blank(s: string) {
    forall i :: 0 <= i < |s| ==> IsSpace(s[i])
  }

  predicate ReplayMatches(existing: Row, req: Request) {
    && existing.owner == req.owner
    && existing.kind == req.kind && existing.prompt == req.prompt
    && (|| existing.profile.configurationVersion == LEGACY_PROFILE_VERSION
        || existing.fingerprint == Fingerprint(req.owner, req.kind, req.prompt, req.consent))
  }

  function NewRow(req: Request, a: Admission): Row
    requires a.selection.Selected?
  {
    Row(a.operation, req.owner, req.clientId, Fingerprint(req.owner, req.kind, req.prompt, req.consent),
        req.kind, req.prompt, a.selection.profile, a.selection.deadlineSeconds, a.now,
        Admitted, NotRequired, Reserved, None, None, None, None, None, None, a.now, None, None)
  }

  /** `reserve_hold`: the reservation fits what is left of the day and of the month. */
  ghost predicate Affordable(w: World, row: Row, daily: nat, monthly: nat) {
    && Consumed(w, Day(DayOf(row.admittedAt))) + row.profile.reservation <= daily
    && Consumed(w, Month(MonthFrom(DayOf(row.admittedAt), 0))) + row.profile.reservation <= monthly
  }

  /** The store's own admission transaction. */
  ghost function StoreAdmit(w: World, row: Row, daily: nat, monthly: nat): AdmitPlan {
    var existing := FindByClient(w, row.owner, row.clientId);
    if existing.Some? then
      AdmitPlan([], if existing.value.fingerprint == row.fingerprint then Accepted(existing.value, false)
                    else Refusal(IDEMPOTENCY_CONFLICT))
    else if w.slot.Some? then AdmitPlan([], Refusal(BUSY))
    else if row.operationId in w.rows then AdmitPlan([], Refusal(STORAGE))
    else if !Affordable(w, row, daily, monthly) then AdmitPlan([], Refusal(BUDGET_EXCEEDED))
    else AdmitPlan([RowAdmitted(row)], Accepted(row, true))
  }

  ghost function AdmissionPlan(w: World, req: Request, a: Admission): AdmitPlan {
    if !WellFormed(req) then AdmitPlan([], Refusal(INVALID_REQUEST))
    else
      var existing := FindByClient(w, req.owner, req.clientId);
      if existing.Some? then
        AdmitPlan([], if ReplayMatches(existing.value, req) then Accepted(existing.value, false)
                      else Refusal(IDEMPOTENCY_CONFLICT))
      else if BlockingState(w).Some? then AdmitPlan([], Refusal(BlockingState(w).value))
      else if a.selection.Unselectable? then AdmitPlan([], Refusal(a.selection.code))
      else if a.denial.Some? then AdmitPlan([], Refusal(a.denial.value))
      else StoreAdmit(w, NewRow(req, a), a.daily, a.monthly)
  }

  // ---- finishing ------------------------------------------------------------------------

  function FinishedRow(row: Row, state: Lifecycle, code: Option<ErrorCode>, accounting: Accounting, now: int): Row {
    row.(state := state, error := code, accounting := accounting,
         cleanup := if row.handle.Some? then Pending else NotRequired,
         finishedAt := Some(now), updatedAt := now)
  }

  /** `_finish`: one save that frees the slot, then the ledger. */
  function Finishing(row: Row, state: Lifecycle, code: Option<ErrorCode>, cost: Option<nat>, now: int): Plan {
    var finished := FinishedRow(row, state, code, if cost.Some? then Reconciled else Unknown, now);
    Plan([RowSaved(finished), HoldReconciled(row.operationId, cost)], Some(finished))
  }

  function Failing(row: Row, code: Option<ErrorCode>, now: int): Plan {
    var error := if code.Some? then code.value else PROVIDER_UNAVAILABLE;
    Finishing(row, if error.INCOMPLETE_RESULT? then Incomplete else Failed, Some(error), None, now)
  }

  function Refusing(row: Row, code: Option<ErrorCode>, now: int): Plan {
    Finishing(row, Refused, Some(if code.Some? then code.value else REFUSED), None, now)
  }

  function Cancelling(row: Row, now: int): Plan {
    Finishing(row, Cancelled, Some(CANCELLED), None, now)
  }

  function Losing(row: Row, now: int): Plan {
    Finishing(row, SubmissionUnknown, Some(SUBMISSION_UNKNOWN), None, now)
  }

  // ---- completion --------------------------------------------------------------------------

  function Completing(w: World, row: Row, answer: Answer, env: Env): Plan {
    var op := row.operationId;
    if row.handle.None? then Plan([], Some(row))
    else if !env.completes || op !in w.rows || CompletionError(answer.evidence).Some? then
      var kept := row.(updatedAt := env.now);
      Plan([RowSaved(kept)], Some(kept))
    else
      var bound := ResultCompleted(op, answer, row.handle.value, env.recordId, env.now);
      var current := Apply(w, bound).rows[op];
      var finish := Finishing(current, Saved, None, if answer.usage.Some? then env.price else None, env.now);
      Plan([bound] + finish.events, finish.row)
  }

  function ValidatingRow(row: Row, o: Observation, now: int): Row
    requires o.answer.Some?
  {
    row.(state := Validating, handle := o.handle, checkpoint := Some(Checkpoint(o.answer.value)), updatedAt := now)
  }

  function TerminalOf(error: ErrorCode): Lifecycle {
    if error == REFUSED then Refused else if error == INCOMPLETE_RESULT then Incomplete else Failed
  }

  function Accepting(w: World, row: Row, o: Observation, env: Env): Plan
    requires o.answer.Some?
  {
    if row.cancelRequestedAt.Some? then Cancelling(row, env.now)
    else
      var error := CompletionError(o.answer.value.evidence);
      if error.Some? then Finishing(row, TerminalOf(error.value), error, None, env.now)
      else
        var validating := ValidatingRow(row, o, env.now);
        var rest := Completing(Apply(w, RowSaved(validating)), validating, o.answer.value, env);
        Plan([RowSaved(validating)] + rest.events, rest.row)
  }

  // ---- submission ------------------------------------------------------------------------

  function RunningRow(row: Row, o: Observation, now: int): Row {
    row.(state := Running, handle := if o.handle.Some? then o.handle else row.handle,
         submittedAt := if row.submittedAt.Some? && row.submittedAt.value != 0 then row.submittedAt else Some(now),
         updatedAt := now)
  }

  function ApplyingSubmission(w: World, row: Row, o: Observation, env: Env): Plan
    requires ValidObservation(o)
  {
    match o.kind
    case IsPending | IsRunning => Plan([RowSaved(RunningRow(row, o, env.now))], Some(RunningRow(row, o, env.now)))
    case IsComplete => Accepting(w, row, o, env)
    case IsRefused => Refusing(row, o.error, env.now)
    case IsFailed => Failing(row, o.error, env.now)
    case IsCancelled => Cancelling(row, env.now)
    case IsUncertain => Losing(row, env.now)
  }

  predicate ValidEnv(env: Env) {
    env.answer.Some? ==> ValidObservation(env.answer.value)
  }

  /** A provider that raises on submission leaves an unknown submission behind. */
  function SubmittedPlan(w: World, claimed: Row, env: Env): Plan
    requires ValidEnv(env)
  {
    if env.answer.None? then Losing(claimed, env.now) else ApplyingSubmission(w, claimed, env.answer.value, env)
  }

  function SubmissionPlan(w: World, env: Env): Plan
    requires ValidEnv(env)
  {
    var active := ActiveRow(w);
    if !env.enabled || active.None? || !active.value.state.Admitted? then Plan([], None)
    else
      var op := w.slot.value;
      var claim, enter := SubmissionClaimed(op, env.now), SubmitEntered(op);
      var claimed := Apply(w, claim).rows[op];
      var rest := SubmittedPlan(Apply(Apply(w, claim), enter), claimed, env);
      Plan([claim, enter] + rest.events, rest.row)
  }

  function RecoverPlan(w: World, env: Env): Plan {
    var active := ActiveRow(w);
    if active.Some? && active.value.state.Submitting? then Losing(active.value, env.now) else Plan([], active)
  }

  // ---- polling ---------------------------------------------------------------------------

  predicate Overdue(row: Row, now: int) {
    now - row.admittedAt >= row.deadlineSeconds * 1000
  }

  function PollPlan(w: World, env: Env): Plan
    requires ValidEnv(env)
  {
    var active := ActiveRow(w);
    if active.None? || active.value.state.Admitted? || active.value.state.Submitting? then Plan([], None)
    else
      var row := active.value;
      if row.state.Validating? then
        var answer := FromCheckpoint(row.checkpoint);
        if answer.None? then Plan([], Some(row)) else Completing(w, row, answer.value, env)
      else if row.handle.None? then Plan([], None)
      else if Overdue(row, env.now) then Finishing(row, Timeout, Some(TIMEOUT), None, env.now)
      else if env.answer.None? then Plan([], Some(row))
      else
        var o := env.answer.value;
        match o.kind
        case IsPending | IsRunning => Plan([RowSaved(row.(updatedAt := env.now))], Some(row.(updatedAt := env.now)))
        case IsComplete => Accepting(w, row, o, env)
        case IsRefused => Refusing(row, o.error, env.now)
        case IsFailed => Failing(row, o.error, env.now)
        case IsCancelled => Cancelling(row, env.now)
        case IsUncertain => Plan([], Some(row))
  }

  // ---- cancellation ------------------------------------------------------------------------

  function CancelRow(row: Row, now: int): Row {
    row.(state := CancelRequested, cancelRequestedAt := Some(now), updatedAt := now)
  }

  /** What follows the provider's answer to a cancellation. */
  function CancelAnswered(row: Row, env: Env): Plan {
    if env.answer.None? then Plan([], Some(row))
    else
      match env.answer.value.kind
      case IsCancelled =>
        var done := Cancelling(row, env.now);
        var confirmed := done.row.value.(cancelConfirmedAt := Some(env.now), updatedAt := env.now);
        Plan(done.events + [RowSaved(confirmed)], Some(confirmed))
      case IsComplete => Cancelling(row, env.now)
      case IsRefused => Refusing(row, env.answer.value.error, env.now)
      case IsFailed => Failing(row, env.answer.value.error, env.now)
      case _ => Plan([], Some(row))
  }

  /** An unknown operation is refused with `INVALID_REQUEST`, shown here as no row. */
  function CancelPlan(w: World, operation: string, env: Env): Plan {
    if operation !in w.rows then Plan([], None)
    else
      var row := w.rows[operation];
      if Terminal(row.state) then Plan([], Some(row))
      else
        var asked := if row.cancelRequestedAt.None? then CancelRow(row, env.now) else row;
        var first := if row.cancelRequestedAt.None? then [RowSaved(asked)] else [];
        var rest := if asked.handle.None? then Plan([], Some(asked)) else CancelAnswered(asked, env);
        Plan(first + rest.events, rest.row)
  }

  // ---- remote cleanup ------------------------------------------------------------------------

  function ReleasedRow(row: Row, outcome: Cleanup, now: int): Row {
    row.(cleanup := match outcome case Deleted => Deleted case CleanupFailed => CleanupFailed case _ => CleanupUnknown,
         updatedAt := now)
  }

  /** One save for each listed row whose remote release answers at all. */
  function Releasing(rows: seq<Row>, outcomes: seq<Option<Cleanup>>, now: int): (saved: seq<Row>)
    requires |outcomes| == |rows|
  {
    if rows == [] then []
    else
      var n := |rows| - 1;
      Releasing(rows[..n], outcomes[..n], now)
      + (if rows[n].handle.Some? && outcomes[n].Some? then [ReleasedRow(rows[n], outcomes[n].value, now)] else [])
  }

  function Saves(rows: seq<Row>): seq<Event> {
    seq(|rows|, i requires 0 <= i < |rows| => RowSaved(rows[i]))
  }

  lemma SavesOfNone(w: World)
    ensures Saves([]) == [] && After(w, Saves([])) == w
  {
  }

  lemma SavesOfMore(rows: seq<Row>, next: Row)
    ensures Saves(rows + [next]) == Saves(rows) + [RowSaved(next)]
  {
  }

  /** What `list_cleanup_pending` may return: distinct stored rows that still hold a remote response. */
  ghost predicate Listing(w: World, rows: seq<Row>, limit: nat) {
    && |rows| <= limit
    && (forall i :: 0 <= i < |rows| ==> RowOf(w, rows[i].operationId) == Some(rows[i]) && CleanupPending(rows[i]))
    && (forall i, j :: 0 <= i < j < |rows| ==> rows[i].operationId != rows[j].operationId)
  }

  lemma Append(log: seq<Event>, first: seq<Event>, rest: seq<Event>)
    ensures log + first + rest == log + (first + rest)
  {
  }

  lemma Append2(log: seq<Event>, e: Event, f: Event, rest: seq<Event>)
    ensures log + [e] + [f] + rest == log + ([e, f] + rest)
  {
  }

  // ---- the coordinator ------------------------------------------------------------------------

  class ResearchCoordinator {
    const ports: Ports

    constructor (ports: Ports)
      ensures this.ports == ports
    {
      this.ports := ports;
    }

    twostate predicate Performed(es: seq<Event>)
      reads ports
    {
      ports.Valid() && ports.log == old(ports.log) + es && ports.world == After(old(ports.world), es)
    }

    method Admit(req: Request, a: Admission) returns (receipt: Receipt)
      requires ports.Valid()
      modifies ports
      ensures Performed(AdmissionPlan(old(ports.world), req, a).events)
      ensures receipt == AdmissionPlan(old(ports.world), req, a).receipt
    {
      if !WellFormed(req) {
        return Refusal(INVALID_REQUEST);
      }
      var existing := FindByClient(ports.world, req.owner, req.clientId);
      if existing.Some? {
        if ReplayMatches(existing.value, req) {
          return Accepted(existing.value, false);
        }
        return Refusal(IDEMPOTENCY_CONFLICT);
      }
      var blocker := BlockingState(ports.world);
      if blocker.Some? {
        return Refusal(blocker.value);
      }
      if a.selection.Unselectable? {
        return Refusal(a.selection.code);
      }
      if a.denial.Some? {
        return Refusal(a.denial.value);
      }
      var row := NewRow(req, a);
      if ports.world.slot.Some? {
        return Refusal(BUSY);
      }
      if row.operationId in ports.world.rows {
        return Refusal(STORAGE);
      }
      var today := ports.ConsumedMicros(Day(DayOf(row.admittedAt)));
      if today + row.profile.reservation > a.daily {
        return Refusal(BUDGET_EXCEEDED);
      }
      var thisMonth := ports.ConsumedMicros(Month(MonthFrom(DayOf(row.admittedAt), 0)));
      if thisMonth + row.profile.reservation > a.monthly {
        return Refusal(BUDGET_EXCEEDED);
      }
      After1(ports.world, RowAdmitted(row));
      ports.Commit(RowAdmitted(row));
      receipt := Accepted(row, true);
    }

    method Finish(row: Row, state: Lifecycle, code: Option<ErrorCode>, cost: Option<nat>, now: int) returns (saved: Row)
      requires ports.Valid()
      modifies ports
      ensures Performed(Finishing(row, state, code, cost, now).events)
      ensures Some(saved) == Finishing(row, state, code, cost, now).row
    {
      var finished := row.(state := state, error := code, accounting := if cost.Some? then Reconciled else Unknown,
                           cleanup := if row.handle.Some? then Pending else NotRequired,
                           finishedAt := Some(now), updatedAt := now);
      ghost var e, f := RowSaved(finished), HoldReconciled(row.operationId, cost);
      After1(ports.world, e);
      assert [e, f][..1] == [e];
      saved := ports.Save(finished);
      ports.Commit(HoldReconciled(saved.operationId, cost));
    }

    method CompleteFromCheckpoint(row: Row, answer: Option<Answer>, env: Env) returns (result: Row)
      requires ports.Valid()
      modifies ports
      ensures var p := if answer.None? then Plan([], Some(row))
                       else Completing(old(ports.world), row, answer.value, env);
              Performed(p.events) && Some(result) == p.row
    {
      if row.handle.None? || answer.None? {
        return row;
      }
      ghost var w := ports.world;
      var op := row.operationId;
      if !env.completes || op !in ports.world.rows || CompletionError(answer.value.evidence).Some? {
        After1(ports.world, RowSaved(row.(updatedAt := env.now)));
        result := ports.Save(row.(updatedAt := env.now));
        return;
      }
      var bound := ResultCompleted(op, answer.value, row.handle.value, env.recordId, env.now);
      After1(ports.world, bound);
      ports.Commit(bound);
      var current := ports.world.rows[op];
      var cost := if answer.value.usage.Some? then env.price else None;
      AfterConcat(w, [bound], Finishing(current, Saved, None, cost, env.now).events);
      result := Finish(current, Saved, None, cost, env.now);
    }

    method AcceptCompletion(row: Row, o: Observation, env: Env) returns (result: Row)
      requires ports.Valid() && o.answer.Some?
      modifies ports
      ensures Performed(Accepting(old(ports.world), row, o, env).events)
      ensures Some(result) == Accepting(old(ports.world), row, o, env).row
    {
      hide Apply, After, Checkpoint;
      if row.cancelRequestedAt.Some? {
        result := Finish(row, Cancelled, Some(CANCELLED), None, env.now);
        return;
      }
      var error := CompletionError(o.answer.value.evidence);
      if error.Some? {
        result := Finish(row, TerminalOf(error.value), error, None, env.now);
        return;
      }
      ghost var w := ports.world;
      var validating := row.(state := Validating, handle := o.handle, checkpoint := Some(Checkpoint(o.answer.value)),
                             updatedAt := env.now);
      After1(w, RowSaved(validating));
      validating := ports.Save(validating);
      AfterConcat(w, [RowSaved(validating)], Completing(ports.world, validating, o.answer.value, env).events);
      result := CompleteFromCheckpoint(validating, o.answer, env);
    }

    method ApplySubmitObservation(row: Row, o: Observation, env: Env) returns (result: Row)
      requires ports.Valid() && ValidObservation(o)
      modifies ports
      ensures Performed(ApplyingSubmission(old(ports.world), row, o, env).events)
      ensures Some(result) == ApplyingSubmission(old(ports.world), row, o, env).row
    {
      match o.kind {
        case IsPending | IsRunning =>
          After1(ports.world, RowSaved(RunningRow(row, o, env.now)));
          result := ports.Save(RunningRow(row, o, env.now));
        case IsComplete =>
          result := AcceptCompletion(row, o, env);
        case IsRefused =>
          result := Finish(row, Refused, Some(if o.error.Some? then o.error.value else REFUSED), None, env.now);
        case IsFailed =>
          var code := if o.error.Some? then o.error.value else PROVIDER_UNAVAILABLE;
          result := Finish(row, if code.INCOMPLETE_RESULT? then Incomplete else Failed, Some(code), None, env.now);
        case IsCancelled =>
          result := Finish(row, Cancelled, Some(CANCELLED), None, env.now);
        case IsUncertain =>
          result := Finish(row, SubmissionUnknown, Some(SUBMISSION_UNKNOWN), None, env.now);
      }
    }

    method SubmitPending(env: Env) returns (result: Option<Row>)
      requires ports.Valid() && ValidEnv(env)
      modifies ports
      ensures Performed(SubmissionPlan(old(ports.world), env).events)
      ensures result == SubmissionPlan(old(ports.world), env).row
    {
      if !env.enabled {
        return None;
      }
      var row := ActiveRow(ports.world);
      if row.None? || !row.value.state.Admitted? {
        return None;
      }
      ghost var w := ports.world;
      var op := ports.world.slot.value;
      var claimed := ports.ClaimSubmission(op, env.now);
      if claimed.None? {
        return None;
      }
      ports.Commit(SubmitEntered(op));
      ghost var claim, enter := SubmissionClaimed(op, env.now), SubmitEntered(op);
      AfterTwo(w, claim, enter, SubmittedPlan(ports.world, claimed.value, env).events);
      Append2(old(ports.log), claim, enter, SubmittedPlan(ports.world, claimed.value, env).events);
      hide After, Apply, SubmittedPlan;
      var applied := ApplySubmission(claimed.value, env);
      result := Some(applied);
    }

    method ApplySubmission(claimed: Row, env: Env) returns (result: Row)
      requires ports.Valid() && ValidEnv(env)
      modifies ports
      ensures Performed(SubmittedPlan(old(ports.world), claimed, env).events)
      ensures Some(result) == SubmittedPlan(old(ports.world), claimed, env).row
    {
      if env.answer.None? {
        result := Finish(claimed, SubmissionUnknown, Some(SUBMISSION_UNKNOWN), None, env.now);
      } else {
        result := ApplySubmitObservation(claimed, env.answer.value, env);
      }
    }

    method Recover(env: Env) returns (result: Option<Row>)
      requires ports.Valid()
      modifies ports
      ensures Performed(RecoverPlan(old(ports.world), env).events)
      ensures result == RecoverPlan(old(ports.world), env).row
    {
      result := ActiveRow(ports.world);
      if result.Some? && result.value.state.Submitting? {
        var lost := Finish(result.value, SubmissionUnknown, Some(SUBMISSION_UNKNOWN), None, env.now);
        result := Some(lost);
      }
    }

    method PollOnce(env: Env) returns (result: Option<Row>)
      requires ports.Valid() && ValidEnv(env)
      modifies ports
      ensures Performed(PollPlan(old(ports.world), env).events)
      ensures result == PollPlan(old(ports.world), env).row
    {
      var active := ActiveRow(ports.world);
      if active.None? || active.value.state.Admitted? || active.value.state.Submitting? {
        return None;
      }
      var row, applied := active.value, active.value;
      if row.state.Validating? {
        applied := CompleteFromCheckpoint(row, FromCheckpoint(row.checkpoint), env);
        return Some(applied);
      }
      if row.handle.None? {
        return None;
      }
      if Overdue(row, env.now) {
        applied := Finish(row, Timeout, Some(TIMEOUT), None, env.now);
        return Some(applied);
      }
      if env.answer.Some? {
        var o := env.answer.value;
        match o.kind {
          case IsPending | IsRunning =>
            After1(ports.world, RowSaved(row.(updatedAt := env.now)));
            applied := ports.Save(row.(updatedAt := env.now));
          case IsComplete =>
            applied := AcceptCompletion(row, o, env);
          case IsRefused =>
            applied := Finish(row, Refused, Some(if o.error.Some? then o.error.value else REFUSED), None, env.now);
          case IsFailed =>
            var code := if o.error.Some? then o.error.value else PROVIDER_UNAVAILABLE;
            applied := Finish(row, if code.INCOMPLETE_RESULT? then Incomplete else Failed, Some(code), None, env.now);
          case IsCancelled =>
            applied := Finish(row, Cancelled, Some(CANCELLED), None, env.now);
          case IsUncertain =>
        }
      }
      result := Some(applied);
    }

    method Cancel(operation: string, env: Env) returns (result: Option<Row>)
      requires ports.Valid() && ValidEnv(env)
      modifies ports
      ensures Performed(CancelPlan(old(ports.world), operation, env).events)
      ensures result == CancelPlan(old(ports.world), operation, env).row
    {
      var found := RowOf(ports.world, operation);
      if found.None? || Terminal(found.value.state) {
        return found;
      }
      var row := found.value;
      ghost var w, first := ports.world, [];
      if row.cancelRequestedAt.None? {
        first := [RowSaved(CancelRow(row, env.now))];
        After1(w, RowSaved(CancelRow(row, env.now)));
        row := ports.Save(row.(state := CancelRequested, cancelRequestedAt := Some(env.now), updatedAt := env.now));
      }
      ghost var rest := if row.handle.None? then Plan([], Some(row)) else CancelAnswered(row, env);
      AfterConcat(w, first, rest.events);
      Append(old(ports.log), first, rest.events);
      assert first + rest.events == CancelPlan(w, operation, env).events
             && rest.row == CancelPlan(w, operation, env).row;
      hide After, Apply, CancelAnswered, CancelPlan;
      if row.handle.Some? {
        row := CancelAnswer(row, env);
      }
      result := Some(row);
    }

    method CancelAnswer(row: Row, env: Env) returns (result: Row)
      requires ports.Valid()
      modifies ports
      ensures Performed(CancelAnswered(row, env).events)
      ensures Some(result) == CancelAnswered(row, env).row
    {
      result := row;
      if env.answer.None? {
        return;
      }
      var o := env.answer.value;
      match o.kind {
        case IsCancelled =>
          ghost var w := ports.world;
          result := Finish(row, Cancelled, Some(CANCELLED), None, env.now);
          ghost var confirmed := result.(cancelConfirmedAt := Some(env.now), updatedAt := env.now);
          AfterConcat(w, Cancelling(row, env.now).events, [RowSaved(confirmed)]);
          After1(ports.world, RowSaved(confirmed));
          result := ports.Save(result.(cancelConfirmedAt := Some(env.now), updatedAt := env.now));
        case IsComplete =>
          result := Finish(row, Cancelled, Some(CANCELLED), None, env.now);
        case IsRefused =>
          result := Finish(row, Refused, Some(if o.error.Some? then o.error.value else REFUSED), None, env.now);
        case IsFailed =>
          var code := if o.error.Some? then o.error.value else PROVIDER_UNAVAILABLE;
          result := Finish(row, if code.INCOMPLETE_RESULT? then Incomplete else Failed, Some(code), None, env.now);
        case _ =>
      }
    }

    method ReleaseRemotePending(rows: seq<Row>, outcomes: seq<Option<Cleanup>>, now: int) returns (released: seq<Row>)
      requires ports.Valid() && |outcomes| == |rows|
      modifies ports
      ensures released == Releasing(rows, outcomes, now)
      ensures Performed(Saves(released))
    {
      hide Apply, After, Saves, ReleasedRow;
      released := [];
      ghost var w := ports.world;
      SavesOfNone(w);
      for i := 0 to |rows|
        invariant released == Releasing(rows[..i], outcomes[..i], now)
        invariant ports.Valid() && ports.log == old(ports.log) + Saves(released)
                  && ports.world == After(w, Saves(released))
      {
        assert rows[..i + 1][..i] == rows[..i] && outcomes[..i + 1][..i] == outcomes[..i];
        if rows[i].handle.Some? && outcomes[i].Some? {
          var next := ReleasedRow(rows[i], outcomes[i].value, now);
          SavesOfMore(released, next);
          AfterConcat(w, Saves(released), [RowSaved(next)]);
          After1(ports.world, RowSaved(next));
          next := ports.Save(next);
          released := released + [next];
        }
      }
      assert rows[..|rows|] == rows && outcomes[..|rows|] == outcomes;
    }
  }
}
