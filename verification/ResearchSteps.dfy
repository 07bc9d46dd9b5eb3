// Every public call, from any reachable world and whatever the outside answers, emits only legal events.

module ResearchSteps {
  import opened Text
  import opened ResearchDomain
  import opened ResearchStore
  import opened Research
  import opened ResearchLaws

  /** The row is the stored one. */
  predicate Current(w: World, row: Row) {
    RowOf(w, row.operationId) == Some(row)
  }

  lemma RowIsOk(w: World, row: Row)
    requires Inv(w) && Current(w, row)
    ensures EntryOk(At(w, row.operationId)) && At(w, row.operationId).row == row && RowOk(row)
    ensures row.operationId in w.rows && row.operationId in w.holds
  {
    hide RowOk, HoldOk, DocumentOk;
    HoldsCover(w, row.operationId);
  }

  lemma StoredIsOk(w: World, op: string)
    requires Inv(w) && op in w.rows
    ensures Current(w, w.rows[op])
  {
    hide RowOk, HoldOk, DocumentOk, IndexOk, DomainsOk;
    assert EntryOk(At(w, op));
  }

  lemma LegalOne(w: World, e: Event)
    requires Legal(w, e)
    ensures LegalAll(w, [e]) && After(w, [e]) == Apply(w, e)
  {
    hide Legal;
    After1(w, e);
    assert [e][..0] == [];
  }

  lemma LegalFirst(w: World, e: Event, rest: seq<Event>)
    requires Legal(w, e) && LegalAll(Apply(w, e), rest)
    ensures LegalAll(w, [e] + rest)
  {
    hide Legal;
    LegalOne(w, e);
    LegalConcat(w, [e], rest);
  }

  /** A saved row is the current one afterwards. */
  lemma SaveIsLegal(w: World, row: Row, saved: Row)
    requires Inv(w) && Current(w, row) && SaveOk(row, saved)
    ensures Legal(w, RowSaved(saved)) && Inv(Apply(w, RowSaved(saved))) && Current(Apply(w, RowSaved(saved)), saved)
  {
    hide RowOk, Inv;
    assert SameRequest(row, saved);
    assert Legal(w, RowSaved(saved));
    EventKeepsInvariant(w, RowSaved(saved));
    assert Stored(row, saved) == saved;
  }

  /** What may end how: only a bound, validated result is saved, and only it is reconciled. */
  predicate MayFinish(row: Row, state: Lifecycle, code: Option<ErrorCode>, cost: Option<nat>, now: int) {
    && !Terminal(row.state) && Terminal(state)
    && ErrorFits(state, code) && (state.Timeout? ==> Overdue(row, now))
    && (state.Saved? ==> row.state.Validating? && row.recordId.Some?)
    && (cost.Some? ==> state.Saved?)
  }

  function AccountingOf(cost: Option<nat>): Accounting {
    if cost.Some? then Reconciled else Unknown
  }

  lemma FinishedIsOk(row: Row, state: Lifecycle, code: Option<ErrorCode>, cost: Option<nat>, now: int)
    requires RowOk(row) && MayFinish(row, state, code, cost, now)
    ensures SaveOk(row, FinishedRow(row, state, code, AccountingOf(cost), now))
  {
    hide GoodCheckpoint;
  }

  /** An unfinished request still holds its reservation. */
  lemma UnfinishedIsReserved(w: World, row: Row)
    requires Inv(w) && Current(w, row) && !Terminal(row.state)
    ensures row.operationId in w.holds && w.holds[row.operationId].state.Reserved?
  {
    RowIsOk(w, row);
    hide RowOk, DocumentOk, Inv;
  }

  lemma SettlingIsLegal(w: World, row: Row, finished: Row, cost: Option<nat>)
    requires Current(w, row) && finished.operationId == row.operationId
    requires row.operationId in w.holds && w.holds[row.operationId].state.Reserved?
    requires Terminal(finished.state) && finished.accounting == AccountingOf(cost)
    ensures Legal(Apply(w, RowSaved(finished)), HoldReconciled(row.operationId, cost))
  {
  }

  /** Every ending of an unfinished request is legal: one save, then one reconciliation. */
  lemma FinishingIsLegal(w: World, row: Row, state: Lifecycle, code: Option<ErrorCode>, cost: Option<nat>, now: int)
    requires Inv(w) && Current(w, row) && MayFinish(row, state, code, cost, now)
    ensures LegalAll(w, Finishing(row, state, code, cost, now).events)
  {
    hide Inv, LegalAll, After, EntryOk, At, Apply, Legal, Current, GoodCheckpoint;
    RowIsOk(w, row);
    var finished := FinishedRow(row, state, code, AccountingOf(cost), now);
    var save, settle := RowSaved(finished), HoldReconciled(row.operationId, cost);
    FinishedIsOk(row, state, code, cost, now);
    assert [save] + [settle] == Finishing(row, state, code, cost, now).events;
    hide SaveOk, RowOk, Finishing;
    SaveIsLegal(w, row, finished);
    UnfinishedIsReserved(w, row);
    SettlingIsLegal(w, row, finished, cost);
    LegalOne(Apply(w, save), settle);
    LegalFirst(w, save, [settle]);
  }

  // ---- completion -------------------------------------------------------------------------

  lemma TouchedIsOk(row: Row, now: int)
    requires RowOk(row) && !row.state.Admitted?
    ensures SaveOk(row, row.(updatedAt := now))
  {
    hide GoodCheckpoint;
  }

  /** Binding the record of a validated answer is legal, and leaves the row validating and bound. */
  lemma BindingIsLegal(w: World, row: Row, answer: Answer, recordId: string, now: int)
    requires Current(w, row) && row.state.Validating? && row.handle.Some?
    requires FromCheckpoint(row.checkpoint) == Some(answer)
    ensures var bound := ResultCompleted(row.operationId, answer, row.handle.value, recordId, now);
            && Legal(w, bound)
            && row.operationId in Apply(w, bound).rows
            && var current := Apply(w, bound).rows[row.operationId];
               Current(Apply(w, bound), current) && MayFinish(current, Saved, None, None, now)
               && current.operationId == row.operationId
  {
    hide FromCheckpoint;
  }

  lemma CompletingIsLegal(w: World, row: Row, answer: Answer, env: Env)
    requires Inv(w) && Current(w, row) && row.state.Validating? && FromCheckpoint(row.checkpoint) == Some(answer)
    ensures LegalAll(w, Completing(w, row, answer, env).events)
  {
    hide Inv, LegalAll, After, EntryOk, At, Apply, Legal, Current;
    RowIsOk(w, row);
    assert row.handle.Some? && CompletionError(answer.evidence).None?;
    hide RowOk;
    if !env.completes {
      var kept := row.(updatedAt := env.now);
      assert Completing(w, row, answer, env).events == [RowSaved(kept)];
      TouchedIsOk(row, env.now);
      hide *;
      SaveIsLegal(w, row, kept);
      LegalOne(w, RowSaved(kept));
    } else {
      var bound := ResultCompleted(row.operationId, answer, row.handle.value, env.recordId, env.now);
      BindingIsLegal(w, row, answer, env.recordId, env.now);
      var current := Apply(w, bound).rows[row.operationId];
      var cost := if answer.usage.Some? then env.price else None;
      var rest := Finishing(current, Saved, None, cost, env.now).events;
      assert Completing(w, row, answer, env).events == [bound] + rest;
      assert MayFinish(current, Saved, None, cost, env.now);
      hide *;
      EventKeepsInvariant(w, bound);
      FinishingIsLegal(Apply(w, bound), current, Saved, None, cost, env.now);
      LegalFirst(w, bound, rest);
    }
  }

  lemma ValidatingIsOk(row: Row, o: Observation, now: int)
    requires RowOk(row) && (row.state.Submitting? || row.state.Running?)
    requires ValidObservation(o) && o.kind.IsComplete?
    ensures SaveOk(row, ValidatingRow(row, o, now))
    ensures FromCheckpoint(ValidatingRow(row, o, now).checkpoint) == o.answer
  {
    CheckpointRoundTrip(o.answer.value);
    hide FromCheckpoint, CompletionError, Checkpoint, ValidAnswer;
  }

  /** In flight: submitted, and not yet validated or finished. */
  predicate InFlight(row: Row) {
    row.state.Submitting? || row.state.Running? || row.state.CancelRequested?
  }

  lemma AcceptingIsLegal(w: World, row: Row, o: Observation, env: Env)
    requires Inv(w) && Current(w, row) && InFlight(row) && ValidObservation(o) && o.kind.IsComplete?
    ensures LegalAll(w, Accepting(w, row, o, env).events)
  {
    hide Inv, LegalAll, After, EntryOk, At, Apply, Legal, Current, FromCheckpoint, Checkpoint, ValidAnswer;
    RowIsOk(w, row);
    if row.cancelRequestedAt.Some? {
      FinishingIsLegal(w, row, Cancelled, Some(CANCELLED), None, env.now);
    } else {
      var answer, validating := o.answer.value, ValidatingRow(row, o, env.now);
      ValidatingIsOk(row, o, env.now);
      var save, v := RowSaved(validating), Apply(w, RowSaved(validating));
      var rest := Completing(v, validating, answer, env).events;
      assert Accepting(w, row, o, env).events == [save] + rest;
      assert validating.state.Validating?;
      hide *;
      SaveIsLegal(w, row, validating);
      CompletingIsLegal(v, validating, answer, env);
      LegalFirst(w, save, rest);
    }
  }

  // ---- submission and recovery ------------------------------------------------------------

  lemma RunningIsOk(row: Row, o: Observation, now: int)
    requires RowOk(row) && row.state.Submitting?
    ensures SaveOk(row, RunningRow(row, o, now))
  {
    hide GoodCheckpoint;
  }

  lemma ApplyingIsLegal(w: World, row: Row, o: Observation, env: Env)
    requires Inv(w) && Current(w, row) && row.state.Submitting? && ValidObservation(o)
    ensures LegalAll(w, ApplyingSubmission(w, row, o, env).events)
  {
    hide Inv, LegalAll, After, EntryOk, At, Apply, Legal, Current, Finishing, Accepting, ValidAnswer, SaveOk;
    match o.kind {
      case IsPending | IsRunning =>
        RowIsOk(w, row);
        RunningIsOk(row, o, env.now);
        hide RowOk;
        SaveIsLegal(w, row, RunningRow(row, o, env.now));
        LegalOne(w, RowSaved(RunningRow(row, o, env.now)));
      case IsComplete =>
        AcceptingIsLegal(w, row, o, env);
      case IsRefused =>
        FinishingIsLegal(w, row, Refused, Some(if o.error.Some? then o.error.value else REFUSED), None, env.now);
      case IsFailed =>
        FailingIsLegal(w, row, o.error, env.now);
      case IsCancelled =>
        FinishingIsLegal(w, row, Cancelled, Some(CANCELLED), None, env.now);
      case IsUncertain =>
        FinishingIsLegal(w, row, SubmissionUnknown, Some(SUBMISSION_UNKNOWN), None, env.now);
    }
  }

  lemma FailingIsLegal(w: World, row: Row, code: Option<ErrorCode>, now: int)
    requires Inv(w) && Current(w, row) && !Terminal(row.state)
    ensures LegalAll(w, Failing(row, code, now).events)
  {
    hide Inv, LegalAll, Finishing;
    var error := if code.Some? then code.value else PROVIDER_UNAVAILABLE;
    FinishingIsLegal(w, row, if error.INCOMPLETE_RESULT? then Incomplete else Failed, Some(error), None, now);
  }

  lemma SubmittedIsLegal(w: World, row: Row, env: Env)
    requires Inv(w) && Current(w, row) && row.state.Submitting? && ValidEnv(env)
    ensures LegalAll(w, SubmittedPlan(w, row, env).events)
  {
    hide Inv, LegalAll, Finishing, ApplyingSubmission;
    if env.answer.None? {
      FinishingIsLegal(w, row, SubmissionUnknown, Some(SUBMISSION_UNKNOWN), None, env.now);
    } else {
      ApplyingIsLegal(w, row, env.answer.value, env);
    }
  }

  /** Claiming an admitted row, then entering the provider, for the first time. */
  lemma ClaimIsLegal(w: World, row: Row, now: int)
    requires Current(w, row) && row.state.Admitted? && w.submits[row.operationId] == 0
    ensures var op := row.operationId;
            var claim, enter := SubmissionClaimed(op, now), SubmitEntered(op);
            var v := Apply(Apply(w, claim), enter);
            && Legal(w, claim) && Legal(Apply(w, claim), enter)
            && op in Apply(w, claim).rows
            && Current(v, Apply(w, claim).rows[op]) && Apply(w, claim).rows[op].state.Submitting?
  {
  }

  lemma AdmittedIsUnsubmitted(w: World, row: Row)
    requires Inv(w) && Current(w, row) && row.state.Admitted?
    ensures w.submits[row.operationId] == 0
  {
    RowIsOk(w, row);
    hide Inv, RowOk, HoldOk, DocumentOk;
  }

  lemma ClaimedSequel(w: World, row: Row, env: Env)
    requires Inv(w) && Current(w, row) && row.state.Admitted? && ValidEnv(env)
    requires row.operationId in Apply(w, SubmissionClaimed(row.operationId, env.now)).rows
    ensures var op := row.operationId;
            var claim, enter := SubmissionClaimed(op, env.now), SubmitEntered(op);
            LegalAll(w, [claim, enter] + SubmittedPlan(Apply(Apply(w, claim), enter), Apply(w, claim).rows[op],
                                                       env).events)
  {
    var op := row.operationId;
    var claim, enter := SubmissionClaimed(op, env.now), SubmitEntered(op);
    hide *;
    AdmittedIsUnsubmitted(w, row);
    ClaimIsLegal(w, row, env.now);
    var u := Apply(w, claim);
    var v, claimed := Apply(u, enter), u.rows[op];
    EventKeepsInvariant(w, claim);
    EventKeepsInvariant(u, enter);
    SubmittedIsLegal(v, claimed, env);
    var rest := SubmittedPlan(v, claimed, env).events;
    LegalFirst(u, enter, rest);
    LegalFirst(w, claim, [enter] + rest);
    assert [claim] + ([enter] + rest) == [claim, enter] + rest;
  }

  lemma ActiveIsCurrent(w: World)
    requires Inv(w) && w.slot.Some?
    ensures ActiveRow(w).Some? && Current(w, ActiveRow(w).value) && ActiveRow(w).value.operationId == w.slot.value
    ensures !Terminal(ActiveRow(w).value.state)
  {
    hide RowOk, HoldOk, DocumentOk;
    assert EntryOk(At(w, w.slot.value));
  }

  lemma SubmissionIsLegal(w: World, env: Env)
    requires Inv(w) && ValidEnv(env)
    ensures LegalAll(w, SubmissionPlan(w, env).events)
  {
    hide Inv, After, Legal, SubmittedPlan, ValidEnv, Current;
    if w.slot.Some? {
      ActiveIsCurrent(w);
      if env.enabled && ActiveRow(w).value.state.Admitted? {
        hide LegalAll;
        ClaimedSequel(w, ActiveRow(w).value, env);
      }
    }
  }

  lemma RecoverIsLegal(w: World, env: Env)
    requires Inv(w)
    ensures LegalAll(w, RecoverPlan(w, env).events)
  {
    hide Inv, After, Legal, Finishing, Current;
    if w.slot.Some? {
      ActiveIsCurrent(w);
      var row := ActiveRow(w).value;
      if row.state.Submitting? {
        hide LegalAll;
        FinishingIsLegal(w, row, SubmissionUnknown, Some(SUBMISSION_UNKNOWN), None, env.now);
      }
    }
  }

  // ---- polling ------------------------------------------------------------------------------

  lemma PollIsLegal(w: World, env: Env)
    requires Inv(w) && ValidEnv(env)
    ensures LegalAll(w, PollPlan(w, env).events)
  {
    hide Inv, After, Legal, Finishing, Current, Completing, Accepting, Apply, FromCheckpoint, ValidAnswer;
    if w.slot.Some? {
      ActiveIsCurrent(w);
      var row := ActiveRow(w).value;
      if row.state.Validating? {
        if FromCheckpoint(row.checkpoint).Some? {
          CompletingIsLegal(w, row, FromCheckpoint(row.checkpoint).value, env);
        }
      } else if !row.state.Admitted? && !row.state.Submitting? && row.handle.Some? {
        if Overdue(row, env.now) {
          FinishingIsLegal(w, row, Timeout, Some(TIMEOUT), None, env.now);
        } else if env.answer.Some? {
          PolledIsLegal(w, row, env);
        }
      }
    }
  }

  lemma PolledIsLegal(w: World, row: Row, env: Env)
    requires Inv(w) && Current(w, row) && (row.state.Running? || row.state.CancelRequested?)
    requires ValidEnv(env) && env.answer.Some?
    ensures var o := env.answer.value;
            match o.kind
            case IsPending | IsRunning => LegalAll(w, [RowSaved(row.(updatedAt := env.now))])
            case IsComplete => LegalAll(w, Accepting(w, row, o, env).events)
            case IsRefused => LegalAll(w, Refusing(row, o.error, env.now).events)
            case IsFailed => LegalAll(w, Failing(row, o.error, env.now).events)
            case IsCancelled => LegalAll(w, Cancelling(row, env.now).events)
            case IsUncertain => true
  {
    hide Inv, LegalAll, After, Legal, Finishing, Current, Accepting, Apply, ValidAnswer, SaveOk;
    var o := env.answer.value;
    match o.kind {
      case IsPending | IsRunning =>
        RowIsOk(w, row);
        TouchedIsOk(row, env.now);
        hide RowOk;
        SaveIsLegal(w, row, row.(updatedAt := env.now));
        LegalOne(w, RowSaved(row.(updatedAt := env.now)));
      case IsComplete =>
        AcceptingIsLegal(w, row, o, env);
      case IsRefused =>
        FinishingIsLegal(w, row, Refused, Some(if o.error.Some? then o.error.value else REFUSED), None, env.now);
      case IsFailed =>
        FailingIsLegal(w, row, o.error, env.now);
      case IsCancelled =>
        FinishingIsLegal(w, row, Cancelled, Some(CANCELLED), None, env.now);
      case IsUncertain =>
    }
  }

  // ---- cancellation -------------------------------------------------------------------------

  lemma CancelRowIsOk(row: Row, now: int)
    requires RowOk(row) && !Terminal(row.state) && row.cancelRequestedAt.None?
    ensures SaveOk(row, CancelRow(row, now))
  {
    hide GoodCheckpoint;
  }

  lemma ConfirmedIsOk(row: Row, now: int)
    requires RowOk(row) && row.state.Cancelled?
    ensures SaveOk(row, row.(cancelConfirmedAt := Some(now), updatedAt := now))
  {
    hide GoodCheckpoint;
  }

  /** After an ending the stored row is the finished one. */
  lemma FinishedIsCurrent(w: World, row: Row, state: Lifecycle, code: Option<ErrorCode>, cost: Option<nat>, now: int)
    requires Current(w, row)
    ensures var p := Finishing(row, state, code, cost, now); p.row.Some? && Current(After(w, p.events), p.row.value)
  {
    var finished := FinishedRow(row, state, code, AccountingOf(cost), now);
    var save, settle := RowSaved(finished), HoldReconciled(row.operationId, cost);
    AfterTwo(w, save, settle, []);
    assert [save, settle] + [] == [save, settle];
    assert Stored(row, finished) == finished;
    hide After;
  }

  lemma ConfirmingIsLegal(w: World, row: Row, now: int)
    requires Inv(w) && Current(w, row) && !Terminal(row.state)
    ensures var done := Cancelling(row, now);
            LegalAll(w, done.events + [RowSaved(done.row.value.(cancelConfirmedAt := Some(now), updatedAt := now))])
  {
    hide Inv, LegalAll, After, Current, RowOk, Apply, SaveOk, Legal;
    var done := Cancelling(row, now);
    var v, finished := After(w, done.events), done.row.value;
    assert finished.state.Cancelled?;
    assert done == Finishing(row, Cancelled, Some(CANCELLED), None, now);
    assert MayFinish(row, Cancelled, Some(CANCELLED), None, now);
    hide *;
    FinishingIsLegal(w, row, Cancelled, Some(CANCELLED), None, now);
    FinishedIsCurrent(w, row, Cancelled, Some(CANCELLED), None, now);
    InvariantKept(w, done.events);
    RowIsOk(v, finished);
    var confirmed := finished.(cancelConfirmedAt := Some(now), updatedAt := now);
    ConfirmedIsOk(finished, now);
    SaveIsLegal(v, finished, confirmed);
    LegalOne(v, RowSaved(confirmed));
    LegalConcat(w, done.events, [RowSaved(confirmed)]);
  }

  lemma CancelAnsweredIsLegal(w: World, row: Row, env: Env)
    requires Inv(w) && Current(w, row) && !Terminal(row.state)
    ensures LegalAll(w, CancelAnswered(row, env).events)
  {
    hide Inv, After, Legal, Finishing, Current;
    if env.answer.Some? {
      var o := env.answer.value;
      match o.kind {
        case IsCancelled => ConfirmingIsLegal(w, row, env.now);
        case IsComplete => FinishingIsLegal(w, row, Cancelled, Some(CANCELLED), None, env.now);
        case IsRefused =>
          FinishingIsLegal(w, row, Refused, Some(if o.error.Some? then o.error.value else REFUSED), None, env.now);
        case IsFailed => FailingIsLegal(w, row, o.error, env.now);
        case _ =>
      }
    }
  }

  lemma CancelIsLegal(w: World, op: string, env: Env)
    requires Inv(w)
    ensures LegalAll(w, CancelPlan(w, op, env).events)
  {
    hide Inv, After, Legal, Current, CancelAnswered, Apply, RowOk, SaveOk;
    if op in w.rows && !Terminal(w.rows[op].state) {
      var row := w.rows[op];
      StoredIsOk(w, op);
      if row.cancelRequestedAt.Some? {
        CancelAnsweredIsLegal(w, row, env);
        assert [] + CancelAnswered(row, env).events == CancelAnswered(row, env).events;
      } else {
        var asked := CancelRow(row, env.now);
        var rest := if asked.handle.None? then [] else CancelAnswered(asked, env).events;
        assert CancelPlan(w, op, env).events == [RowSaved(asked)] + rest;
        AskedSequel(w, row, env, rest);
      }
    }
  }

  lemma AskedSequel(w: World, row: Row, env: Env, rest: seq<Event>)
    requires Inv(w) && Current(w, row) && !Terminal(row.state) && row.cancelRequestedAt.None?
    requires rest == [] || rest == CancelAnswered(CancelRow(row, env.now), env).events
    ensures LegalAll(w, [RowSaved(CancelRow(row, env.now))] + rest)
  {
    var asked := CancelRow(row, env.now);
    assert asked.state.CancelRequested?;
    assert LegalAll(Apply(w, RowSaved(asked)), []);
    hide *;
    RowIsOk(w, row);
    CancelRowIsOk(row, env.now);
    SaveIsLegal(w, row, asked);
    if rest != [] {
      CancelAnsweredIsLegal(Apply(w, RowSaved(asked)), asked, env);
    }
    LegalFirst(w, RowSaved(asked), rest);
  }

  // ---- remote cleanup ---------------------------------------------------------------------------

  lemma ReleasedIsOk(row: Row, outcome: Cleanup, now: int)
    requires RowOk(row) && CleanupPending(row)
    ensures SaveOk(row, ReleasedRow(row, outcome, now))
  {
    hide GoodCheckpoint;
  }

  ghost predicate Mentions(rows: seq<Row>, op: string) {
    exists i :: 0 <= i < |rows| && rows[i].operationId == op
  }

  ghost predicate Untouched(w: World, v: World, rows: seq<Row>) {
    forall op :: !Mentions(rows, op) ==> RowOf(v, op) == RowOf(w, op)
  }

  lemma UntouchedByMore(w: World, u: World, v: World, rest: seq<Row>, row: Row)
    requires Untouched(w, u, rest) && forall op :: op != row.operationId ==> RowOf(v, op) == RowOf(u, op)
    ensures Untouched(w, v, rest + [row])
  {
    forall op | !Mentions(rest + [row], op)
      ensures RowOf(v, op) == RowOf(w, op)
    {
      assert (rest + [row])[|rest|] == row;
      forall i | 0 <= i < |rest|
        ensures rest[i].operationId != op
      {
        assert (rest + [row])[i] == rest[i];
      }
    }
  }

  lemma ListedOnce(w: World, rows: seq<Row>, limit: nat)
    requires Listing(w, rows, limit) && rows != []
    ensures Listing(w, rows[..|rows| - 1], limit) && !Mentions(rows[..|rows| - 1], rows[|rows| - 1].operationId)
    ensures Current(w, rows[|rows| - 1]) && CleanupPending(rows[|rows| - 1])
  {
    hide CleanupPending;
  }

  /** Each listed row is still the stored one when its turn comes, because no row is listed twice. */
  lemma {:induction false} ReleasingIsLegal(w: World, rows: seq<Row>, outcomes: seq<Option<Cleanup>>, limit: nat,
                                            now: int)
    requires Inv(w) && |outcomes| == |rows| && Listing(w, rows, limit)
    ensures var es := Saves(Releasing(rows, outcomes, now));
            LegalAll(w, es) && Untouched(w, After(w, es), rows)
  {
    hide Inv, Apply, Legal, Saves, CleanupPending, Listing, Mentions, ReleasedRow, RowOf;
    if rows == [] {
      SavesOfNone(w);
    } else {
      hide After, LegalAll, Untouched;
      var n := |rows| - 1;
      var rest, row := rows[..n], rows[n];
      ListedOnce(w, rows, limit);
      ReleasingIsLegal(w, rest, outcomes[..n], limit, now);
      var saved := Releasing(rest, outcomes[..n], now);
      StillCurrent(w, After(w, Saves(saved)), rest, row);
      assert rest + [row] == rows;
      if outcomes[n].Some? && row.handle.Some? {
        ReleaseOne(w, saved, row, outcomes[n].value, now);
        UntouchedByMore(w, After(w, Saves(saved)), After(w, Saves(saved + [ReleasedRow(row, outcomes[n].value, now)])),
                        rest, row);
      } else {
        assert saved + [] == saved;
        UntouchedByMore(w, After(w, Saves(saved)), After(w, Saves(saved)), rest, row);
      }
    }
  }

  lemma StillCurrent(w: World, v: World, rest: seq<Row>, row: Row)
    requires Untouched(w, v, rest) && Current(w, row) && !Mentions(rest, row.operationId)
    ensures Current(v, row)
  {
  }

  lemma ReleaseOne(w: World, saved: seq<Row>, row: Row, outcome: Cleanup, now: int)
    requires Inv(w) && LegalAll(w, Saves(saved)) && Current(After(w, Saves(saved)), row) && CleanupPending(row)
    ensures var es := Saves(saved + [ReleasedRow(row, outcome, now)]);
            && LegalAll(w, es)
            && forall op :: op != row.operationId ==> RowOf(After(w, es), op) == RowOf(After(w, Saves(saved)), op)
  {
    var v, next := After(w, Saves(saved)), ReleasedRow(row, outcome, now);
    assert next.operationId == row.operationId;
    assert forall op :: op != row.operationId ==> RowOf(Apply(v, RowSaved(next)), op) == RowOf(v, op);
    hide *;
    SavesOfMore(saved, next);
    InvariantKept(w, Saves(saved));
    RowIsOk(v, row);
    ReleasedIsOk(row, outcome, now);
    SaveIsLegal(v, row, next);
    LegalOne(v, RowSaved(next));
    LegalConcat(w, Saves(saved), [RowSaved(next)]);
    AfterConcat(w, Saves(saved), [RowSaved(next)]);
  }

  // ---- admission ------------------------------------------------------------------------------------

  lemma AdmissionIsLegal(w: World, req: Request, a: Admission)
    requires Inv(w)
    ensures LegalAll(w, AdmissionPlan(w, req, a).events)
  {
    hide BlockingState, Fingerprint, Blank, EntriesOk, DomainsOk;
    var es := AdmissionPlan(w, req, a).events;
    if es != [] {
      var row := NewRow(req, a);
      assert es == [RowAdmitted(row)];
      assert (row.owner, row.clientId) !in w.clients;
      assert Legal(w, RowAdmitted(row));
      hide *;
      LegalOne(w, RowAdmitted(row));
    }
  }

  // ---- whole calls and runs -------------------------------------------------------------------------

  /** Every public call, in every reachable world, with every possible answer, is a sequence of legal events. */
  lemma CallIsLegal(w: World, c: Call)
    requires Inv(w) && Possible(w, c)
    ensures LegalAll(w, EventsOf(w, c))
  {
    hide Inv, LegalAll, ValidEnv, AdmissionPlan, SubmissionPlan, RecoverPlan, PollPlan, CancelPlan, Releasing, Saves,
         Listing, After;
    match c {
      case Admit(req, a) => AdmissionIsLegal(w, req, a);
      case Submit(env) => SubmissionIsLegal(w, env);
      case Recover(env) => RecoverIsLegal(w, env);
      case Poll(env) => PollIsLegal(w, env);
      case Cancel(op, env) => CancelIsLegal(w, op, env);
      case Release(rows, outcomes, limit, now) => ReleasingIsLegal(w, rows, outcomes, limit, now);
    }
  }

  lemma {:induction false} PrefixIsLegal(w: World, es: seq<Event>, n: nat)
    requires LegalAll(w, es) && n <= |es|
    ensures LegalAll(w, es[..n])
  {
    LegalConcat(w, es[..n], es[n..]);
    assert es[..n] + es[n..] == es;
  }

  lemma StepIsLegal(w: World, s: Step)
    requires Inv(w) && Possible(w, s.call)
    ensures LegalAll(w, StepEvents(w, s)) && Inv(After(w, StepEvents(w, s)))
  {
    hide Inv, LegalAll, EventsOf, Possible;
    CallIsLegal(w, s.call);
    if s.survived <= |EventsOf(w, s.call)| {
      PrefixIsLegal(w, EventsOf(w, s.call), s.survived);
    }
    InvariantKept(w, StepEvents(w, s));
  }

  /** Whatever calls are made, and wherever each is cut off, every event is legal and the invariant holds. */
  lemma {:induction false} RunIsLegal(w: World, steps: seq<Step>)
    requires Inv(w) && PossibleRun(w, steps)
    ensures LegalAll(w, RunEvents(w, steps)) && Inv(After(w, RunEvents(w, steps)))
    decreases |steps|
  {
    if steps != [] {
      var es := StepEvents(w, steps[0]);
      var v, rest := After(w, es), steps[1..];
      hide Inv, LegalAll, StepEvents, Possible, After;
      StepIsLegal(w, steps[0]);
      RunIsLegal(v, rest);
      LegalConcat(w, es, RunEvents(v, rest));
      AfterConcat(w, es, RunEvents(v, rest));
    }
  }
}
