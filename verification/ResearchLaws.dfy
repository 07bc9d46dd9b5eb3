// What every run of the coordinator keeps: any sequence of public calls, each cut after any number of
// its port events by a crash or a raising port.

module ResearchLaws {
  import opened Text
  import opened ResearchDomain
  import opened ResearchStore
  import opened Research

  // ---- runs ----------------------------------------------------------------------------

  datatype Call =
    | Admit(request: Request, admission: Admission)
    | Submit(env: Env)
    | Recover(env: Env)
    | Poll(env: Env)
    | Cancel(operation: string, env: Env)
    | Release(rows: seq<Row>, outcomes: seq<Option<Cleanup>>, limit: nat, now: int)

  ghost predicate Possible(w: World, c: Call) {
    match c
    case Admit(_, _) => true
    case Release(rows, outcomes, limit, _) => |outcomes| == |rows| && Listing(w, rows, limit)
    case Submit(env) => ValidEnv(env)
    case Recover(env) => ValidEnv(env)
    case Poll(env) => ValidEnv(env)
    case Cancel(_, env) => ValidEnv(env)
  }

  ghost function EventsOf(w: World, c: Call): seq<Event>
    requires Possible(w, c)
  {
    match c
    case Admit(req, a) => AdmissionPlan(w, req, a).events
    case Submit(env) => SubmissionPlan(w, env).events
    case Recover(env) => RecoverPlan(w, env).events
    case Poll(env) => PollPlan(w, env).events
    case Cancel(op, env) => CancelPlan(w, op, env).events
    case Release(rows, outcomes, _, now) => Saves(Releasing(rows, outcomes, now))
  }

  /** A call that stops after `survived` of its events. */
  datatype Step = Step(call: Call, survived: nat)

  ghost function StepEvents(w: World, s: Step): seq<Event>
    requires Possible(w, s.call)
  {
    var es := EventsOf(w, s.call);
    if s.survived <= |es| then es[..s.survived] else es
  }

  ghost predicate PossibleRun(w: World, steps: seq<Step>)
    decreases |steps|
  {
    steps == [] || (Possible(w, steps[0].call) && PossibleRun(After(w, StepEvents(w, steps[0])), steps[1..]))
  }

  ghost function RunEvents(w: World, steps: seq<Step>): seq<Event>
    requires PossibleRun(w, steps)
    decreases |steps|
  {
    if steps == [] then []
    else
      var es := StepEvents(w, steps[0]);
      es + RunEvents(After(w, es), steps[1..])
  }

  // ---- the row invariant -------------------------------------------------------------------

  predicate GoodCheckpoint(checkpoint: Option<string>) {
    FromCheckpoint(checkpoint).Some? && CompletionError(FromCheckpoint(checkpoint).value.evidence).None?
  }

  predicate NonterminalOk(r: Row) {
    r.finishedAt.None? && r.accounting.Reserved? && r.cleanup.NotRequired?
  }

  /** The error a state comes with. */
  predicate ErrorFits(state: Lifecycle, error: Option<ErrorCode>) {
    match state
    case Cancelled => error == Some(CANCELLED)
    case Timeout => error == Some(TIMEOUT)
    case SubmissionUnknown => error == Some(SUBMISSION_UNKNOWN)
    case Incomplete => error == Some(INCOMPLETE_RESULT)
    case Failed => error.Some? && error.value != INCOMPLETE_RESULT
    case Refused => error.Some?
    case _ => error.None?
  }

  predicate TerminalOk(r: Row) {
    && r.finishedAt.Some?
    && (r.state.Timeout? ==> Overdue(r, r.finishedAt.value))
    && (r.handle.Some? <==> !r.cleanup.NotRequired?)
    && !r.accounting.Reserved?
    && (r.accounting.Reconciled? ==> r.state.Saved?)
  }

  predicate RowOk(r: Row) {
    && (if Terminal(r.state) then TerminalOk(r) else NonterminalOk(r))
    && ErrorFits(r.state, r.error)
    && (r.checkpoint.Some? ==> GoodCheckpoint(r.checkpoint) && r.handle.Some?)
    && (r.recordId.Some? ==> r.checkpoint.Some?)
    && (r.cancelRequestedAt.Some? ==> r.state.CancelRequested? || (Terminal(r.state) && !r.state.Saved?))
    && match r.state
       case Admitted | Submitting => r.handle.None? && r.checkpoint.None?
       case Running => r.checkpoint.None?
       case Validating => r.checkpoint.Some?
       case Saved => r.recordId.Some?
       case CancelRequested => r.cancelRequestedAt.Some?
       case _ => true
  }

  predicate HoldOk(h: Hold, r: Row) {
    && h.reserved == r.profile.reservation
    && (if h.state.Reserved? then h.accounted.None?
        else Terminal(r.state) && h.state == r.accounting && h.accounted.Some?
             && (h.state.Unknown? ==> h.accounted.value == h.reserved))
  }

  predicate DocumentOk(d: Document, r: Row) {
    && r.recordId == Some(d.recordId)
    && d.owner == r.owner && d.kind == r.kind && d.question == r.prompt
    && FromCheckpoint(r.checkpoint).Some?
    && var a := FromCheckpoint(r.checkpoint).value;
       d.text == a.text && d.citations == a.citations && d.evidence == a.evidence
  }

  /** Everything stored about one operation. */
  datatype Entry = Entry(
    operation: string, row: Row, hold: Option<Hold>, document: Option<Document>, submits: nat, active: bool,
    indexed: bool)

  function At(w: World, op: string): Entry
    requires op in w.rows
  {
    var r := w.rows[op];
    Entry(op, r,
          if op in w.holds then Some(w.holds[op]) else None,
          if op in w.documents then Some(w.documents[op]) else None,
          w.submits[op],
          w.slot == Some(op),
          (r.owner, r.clientId) in w.clients && w.clients[(r.owner, r.clientId)] == op)
  }

  predicate EntryOk(e: Entry) {
    && e.row.operationId == e.operation
    && RowOk(e.row)
    && e.hold.Some? && HoldOk(e.hold.value, e.row)
    && e.indexed
    && (e.active <==> !Terminal(e.row.state))
    && (e.row.recordId.Some? <==> e.document.Some?)
    && (e.document.Some? ==> DocumentOk(e.document.value, e.row))
    && e.submits <= 1
    && (e.row.state.Admitted? ==> e.submits == 0)
  }

  ghost predicate EntriesOk(w: World) {
    forall op :: op in w.rows ==> EntryOk(At(w, op))
  }

  /** The client index is the index of the rows. */
  ghost predicate IndexOk(w: World) {
    forall c :: c in w.clients ==>
        w.clients[c] in w.rows && (w.rows[w.clients[c]].owner, w.rows[w.clients[c]].clientId) == c
  }

  ghost predicate DomainsOk(w: World) {
    && w.holds.Keys == w.rows.Keys
    && w.documents.Keys <= w.rows.Keys
    && (forall op :: op in w.submits ==> op in w.rows)
    && (w.slot.Some? ==> w.slot.value in w.rows)
  }

  ghost predicate Inv(w: World) {
    EntriesOk(w) && IndexOk(w) && DomainsOk(w)
  }

  // ---- legal events ---------------------------------------------------------------------------

  /** How far a row has come: it never goes back to a lower stage. */
  function Stage(state: Lifecycle): nat {
    match state
    case Admitted => 0
    case Submitting => 1
    case Running => 2
    case Validating => 3
    case CancelRequested => 4
    case _ => 5
  }

  /** What one row may become in any number of events. */
  predicate RowLater(r: Row, s: Row) {
    && SameRequest(r, s)
    && Stage(r.state) <= Stage(s.state)
    && (Terminal(r.state) ==>
        s.state == r.state && s.handle == r.handle && s.accounting == r.accounting && s.error == r.error
        && s.finishedAt == r.finishedAt)
    && (r.cancelRequestedAt.Some? ==> s.cancelRequestedAt == r.cancelRequestedAt)
    && (r.checkpoint.Some? ==> s.checkpoint == r.checkpoint && s.handle == r.handle)
    && (r.recordId.Some? ==> s.recordId == r.recordId)
    && (Terminal(r.state) && !r.cleanup.Pending? ==> s.cleanup == r.cleanup)
    && (r.handle.Some? ==> s.handle.Some?)
  }

  predicate SaveOk(r: Row, s: Row) {
    && RowLater(r, s) && RowOk(s)
    && s.recordId == r.recordId
    && !s.state.Admitted?
    && (s.state.Saved? ==> r.state.Validating? || r.state.Saved?)
  }

  predicate Legal(w: World, e: Event) {
    match e
    case RowAdmitted(row) =>
      && w.slot.None? && row.operationId !in w.rows && (row.owner, row.clientId) !in w.clients
      && row.state.Admitted? && RowOk(row) && row.recordId.None?
      && BlockingState(w).None?
    case SubmissionClaimed(op, _) => op in w.rows && w.rows[op].state.Admitted?
    case SubmitEntered(op) => op in w.rows && w.rows[op].state.Submitting? && w.submits[op] == 0
    case RowSaved(row) => row.operationId in w.rows && SaveOk(w.rows[row.operationId], row)
    case ResultCompleted(op, answer, handle, _, _) =>
      && op in w.rows && w.rows[op].state.Validating?
      && FromCheckpoint(w.rows[op].checkpoint) == Some(answer) && w.rows[op].handle == Some(handle)
    case HoldReconciled(op, cost) =>
      && op in w.rows && Terminal(w.rows[op].state) && (cost.Some? <==> w.rows[op].accounting.Reconciled?)
      && op in w.holds && w.holds[op].state.Reserved?
  }

  predicate LegalAll(w: World, es: seq<Event>) {
    es == [] || (LegalAll(w, es[..|es| - 1]) && Legal(After(w, es[..|es| - 1]), es[|es| - 1]))
  }

  lemma {:induction false} LegalConcat(w: World, es: seq<Event>, fs: seq<Event>)
    ensures LegalAll(w, es + fs) <==> LegalAll(w, es) && LegalAll(After(w, es), fs)
  {
    hide Legal, Apply;
    if fs == [] {
      assert es + fs == es;
    } else {
      var n := |fs| - 1;
      LegalConcat(w, es, fs[..n]);
      AfterConcat(w, es, fs[..n]);
      assert (es + fs)[..|es + fs| - 1] == es + fs[..n];
    }
  }

  // ---- every event keeps the invariant -----------------------------------------------------------

  function Target(e: Event): string {
    match e
    case RowAdmitted(row) => row.operationId
    case RowSaved(row) => row.operationId
    case SubmissionClaimed(op, _) => op
    case SubmitEntered(op) => op
    case ResultCompleted(op, _, _, _, _) => op
    case HoldReconciled(op, _) => op
  }

  /** An event touches nothing stored about any operation but its own. */
  lemma OthersUntouched(w: World, e: Event, op: string)
    requires op in w.rows && At(w, op).indexed && op != Target(e)
    requires e.RowAdmitted? ==> w.slot.None? && (e.row.owner, e.row.clientId) !in w.clients
    ensures op in Apply(w, e).rows && At(Apply(w, e), op) == At(w, op)
  {
  }

  /** What one event makes of what is stored about its own operation. */
  function Applied(x: Entry, e: Event): Entry {
    match e
    case RowAdmitted(row) => x
    case SubmissionClaimed(_, now) => x.(row := x.row.(state := Submitting, updatedAt := now))
    case SubmitEntered(_) => x.(submits := x.submits + 1)
    case RowSaved(row) => x.(row := row, active := x.active && !Terminal(row.state))
    case ResultCompleted(_, answer, _, recordId, now) =>
      if x.row.recordId.Some? then x
      else
        x.(document := Some(Document(recordId, x.row.owner, x.row.kind, x.row.prompt, answer.text, answer.citations,
                                     answer.evidence)),
           row := x.row.(recordId := Some(recordId), updatedAt := now))
    case HoldReconciled(_, cost) =>
      if x.hold.None? || !x.hold.value.state.Reserved? then x
      else
        x.(hold := Some(if cost.Some? then Hold(x.hold.value.reserved, Reconciled, cost)
                        else Hold(x.hold.value.reserved, Unknown, Some(x.hold.value.reserved))))
  }

  lemma TargetApplied(w: World, e: Event)
    requires !e.RowAdmitted? && Target(e) in w.rows && Target(e) in w.holds
    requires e.SubmissionClaimed? ==> w.rows[e.operation].state.Admitted?
    requires e.RowSaved? ==> SameRequest(w.rows[e.row.operationId], e.row)
    ensures Target(e) in Apply(w, e).rows
    ensures At(Apply(w, e), Target(e)) == Applied(At(w, Target(e)), e)
  {
    if e.RowSaved? {
      assert Stored(w.rows[e.row.operationId], e.row) == e.row;
    }
  }

  /** The guard of an event as it reads on the entry it targets. */
  predicate EntryLegal(x: Entry, e: Event) {
    match e
    case RowAdmitted(row) => false
    case SubmissionClaimed(_, _) => x.row.state.Admitted?
    case SubmitEntered(_) => x.row.state.Submitting? && x.submits == 0
    case RowSaved(row) => SaveOk(x.row, row)
    case ResultCompleted(_, answer, handle, _, _) =>
      x.row.state.Validating? && FromCheckpoint(x.row.checkpoint) == Some(answer) && x.row.handle == Some(handle)
    case HoldReconciled(_, cost) =>
      Terminal(x.row.state) && (cost.Some? <==> x.row.accounting.Reconciled?) && x.hold.Some?
      && x.hold.value.state.Reserved?
  }

  lemma AppliedIsOk(x: Entry, e: Event)
    requires EntryOk(x) && EntryLegal(x, e)
    ensures EntryOk(Applied(x, e))
  {
    hide FromCheckpoint, CompletionError;
  }

  lemma AdmittedIsOk(w: World, row: Row)
    requires Inv(w) && Legal(w, RowAdmitted(row))
    ensures EntryOk(At(Apply(w, RowAdmitted(row)), row.operationId))
  {
    hide FromCheckpoint, CompletionError, BlockingState;
    assert row.operationId !in w.submits && row.operationId !in w.documents;
  }

  lemma LegalTarget(w: World, e: Event)
    requires !e.RowAdmitted? && Legal(w, e)
    ensures Target(e) in w.rows && EntryLegal(At(w, Target(e)), e)
    ensures e.SubmissionClaimed? ==> w.rows[e.operation].state.Admitted?
    ensures e.RowSaved? ==> SameRequest(w.rows[e.row.operationId], e.row)
  {
    hide RowOk, FromCheckpoint, CompletionError;
  }

  lemma EntryKept(w: World, e: Event, op: string)
    requires Inv(w) && Legal(w, e) && op in Apply(w, e).rows
    ensures EntryOk(At(Apply(w, e), op))
  {
    hide RowOk, HoldOk, DocumentOk, SaveOk, FromCheckpoint, CompletionError, BlockingState, IndexOk, DomainsOk;
    if op != Target(e) {
      assert op in w.rows && EntryOk(At(w, op));
      hide Apply, At;
      OthersUntouched(w, e, op);
    } else if e.RowAdmitted? {
      AdmittedIsOk(w, e.row);
    } else {
      LegalTarget(w, e);
      assert EntryOk(At(w, op));
      HoldsCover(w, op);
      hide Apply, Applied, At, Legal, EntryLegal, EntryOk;
      TargetApplied(w, e);
      AppliedIsOk(At(w, op), e);
    }
  }

  lemma HoldsCover(w: World, op: string)
    requires Inv(w)
    ensures op in w.rows <==> op in w.holds
  {
  }

  lemma IndexKept(w: World, e: Event)
    requires IndexOk(w) && Legal(w, e)
    ensures IndexOk(Apply(w, e))
  {
    hide RowOk, FromCheckpoint, CompletionError, BlockingState;
    var v := Apply(w, e);
    forall c | c in v.clients
      ensures v.clients[c] in v.rows && (v.rows[v.clients[c]].owner, v.rows[v.clients[c]].clientId) == c
    {
      if c in w.clients {
        assert w.clients[c] in w.rows;
      }
    }
  }

  lemma DomainsKept(w: World, e: Event)
    requires DomainsOk(w) && Legal(w, e)
    ensures DomainsOk(Apply(w, e))
  {
    hide RowOk, SaveOk, FromCheckpoint, CompletionError, BlockingState;
  }

  lemma EventKeepsInvariant(w: World, e: Event)
    requires Inv(w) && Legal(w, e)
    ensures Inv(Apply(w, e))
  {
    hide Legal, Apply, EntryOk, At, IndexOk, DomainsOk;
    DomainsKept(w, e);
    IndexKept(w, e);
    forall op | op in Apply(w, e).rows
      ensures EntryOk(At(Apply(w, e), op))
    {
      EntryKept(w, e, op);
    }
  }

  lemma EmptyIsOk()
    ensures Inv(EMPTY)
  {
  }

  lemma {:induction false} InvariantKept(w: World, es: seq<Event>)
    requires Inv(w) && LegalAll(w, es)
    ensures Inv(After(w, es))
  {
    hide Legal, Inv, Apply;
    if es != [] {
      InvariantKept(w, es[..|es| - 1]);
      EventKeepsInvariant(After(w, es[..|es| - 1]), es[|es| - 1]);
    }
  }

  // ---- every event moves forward ---------------------------------------------------------------

  predicate EntryLater(x: Entry, y: Entry) {
    && RowLater(x.row, y.row)
    && (x.hold.Some? && !x.hold.value.state.Reserved? ==> y.hold == x.hold)
    && (x.document.Some? ==> y.document == x.document)
    && x.submits <= y.submits
  }

  ghost predicate Later(w: World, v: World) {
    forall op :: op in w.rows ==> op in v.rows && EntryLater(At(w, op), At(v, op))
  }

  lemma AppliedIsLater(x: Entry, e: Event)
    requires EntryOk(x) && EntryLegal(x, e)
    ensures EntryLater(x, Applied(x, e))
  {
    hide FromCheckpoint, CompletionError;
  }

  lemma EventIsLater(w: World, e: Event)
    requires Inv(w) && Legal(w, e)
    ensures Later(w, Apply(w, e))
  {
    forall op | op in w.rows
      ensures op in Apply(w, e).rows && EntryLater(At(w, op), At(Apply(w, e), op))
    {
      EntryIsLater(w, e, op);
    }
  }

  lemma EntryIsLater(w: World, e: Event, op: string)
    requires Inv(w) && Legal(w, e) && op in w.rows
    ensures op in Apply(w, e).rows && EntryLater(At(w, op), At(Apply(w, e), op))
  {
    hide RowOk, HoldOk, DocumentOk, SaveOk, FromCheckpoint, CompletionError, BlockingState, IndexOk, DomainsOk;
    assert EntryOk(At(w, op));
    if op != Target(e) {
      hide Apply, At;
      OthersUntouched(w, e, op);
    } else {
      HoldsCover(w, op);
      assert !e.RowAdmitted?;
      LegalTarget(w, e);
      hide Apply, Applied, At, Legal, EntryLegal, EntryOk;
      TargetApplied(w, e);
      AppliedIsLater(At(w, op), e);
    }
  }

  lemma LaterTransitive(u: World, v: World, w: World)
    requires Later(u, v) && Later(v, w)
    ensures Later(u, w)
  {
    hide At;
    forall op | op in u.rows
      ensures op in w.rows && EntryLater(At(u, op), At(w, op))
    {
      assert EntryLater(At(u, op), At(v, op)) && EntryLater(At(v, op), At(w, op));
    }
  }

  lemma {:induction false} OnlyForward(w: World, es: seq<Event>)
    requires Inv(w) && LegalAll(w, es)
    ensures Later(w, After(w, es))
  {
    hide Legal, Inv, Apply, At;
    if es != [] {
      var v := After(w, es[..|es| - 1]);
      OnlyForward(w, es[..|es| - 1]);
      InvariantKept(w, es[..|es| - 1]);
      EventIsLater(v, es[|es| - 1]);
      LaterTransitive(w, v, After(w, es));
    }
  }
}
