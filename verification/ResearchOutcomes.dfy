// What each public call makes of the store, answer by answer: states, errors, accounting, documents and holds.

module ResearchOutcomes {
  import opened Text
  import opened ResearchDomain
  import opened ResearchStore
  import opened Research
  import opened ResearchLaws
  import opened ResearchSteps

  // ---- the worlds calls lead to ---------------------------------------------------------------------

  /** The hold of an ended request: at its price where that is known, at its reservation where it is not. */
  function Settled(hold: Hold, price: Option<nat>): Hold {
    if price.Some? then Hold(hold.reserved, Reconciled, price) else Hold(hold.reserved, Unknown, Some(hold.reserved))
  }

  /** The request in the slot is over: its row finished, the slot free, its hold settled. */
  function Over(w: World, op: string, state: Lifecycle, error: Option<ErrorCode>, price: Option<nat>, now: int): World
    requires op in w.rows && op in w.holds
  {
    var row := w.rows[op];
    w.(rows := w.rows[op := row.(state := state, error := error,
                                 accounting := if price.Some? then Reconciled else Unknown,
                                 cleanup := if row.handle.Some? then Pending else NotRequired,
                                 finishedAt := Some(now), updatedAt := now)],
       slot := None,
       holds := w.holds[op := Settled(w.holds[op], price)])
  }

  /** Over without a result, and charged at the reservation. */
  function Ended(w: World, op: string, state: Lifecycle, error: ErrorCode, now: int): World
    requires op in w.rows && op in w.holds
  {
    Over(w, op, state, Some(error), None, now)
  }

  function Touched(w: World, op: string, now: int): World
    requires op in w.rows
  {
    w.(rows := w.rows[op := w.rows[op].(updatedAt := now)])
  }

  /** A checked answer: its checkpoint is stored with the handle. */
  function Validated(w: World, op: string, answer: Answer, handle: Option<string>, now: int): World
    requires op in w.rows
  {
    w.(rows := w.rows[op := w.rows[op].(state := Validating, handle := handle,
                                        checkpoint := Some(Checkpoint(answer)), updatedAt := now)])
  }

  /** The price of an answer that says what it used. */
  function PriceOf(answer: Answer, env: Env): Option<nat> {
    if answer.usage.Some? then env.price else None
  }

  /** The answer of a validating request becomes a document, unless it already is one. */
  function Bound(w: World, op: string, answer: Answer, env: Env): World
    requires op in w.rows
  {
    var row := w.rows[op];
    var document :=
      Document(env.recordId, row.owner, row.kind, row.prompt, answer.text, answer.citations, answer.evidence);
    if row.recordId.Some? then w
    else
      w.(rows := w.rows[op := row.(recordId := Some(env.recordId), updatedAt := env.now)],
         documents := w.documents[op := document])
  }

  /** The request is saved with its document, at the price of its answer. */
  function Completed(w: World, op: string, answer: Answer, env: Env): World
    requires op in w.rows && op in w.holds
  {
    Over(Bound(w, op, answer, env), op, Saved, None, PriceOf(answer, env), env.now)
  }

  /** A complete answer: lost to a recorded cancel, else checked, and saved if the completion goes through. */
  function Answered(w: World, op: string, answer: Answer, handle: Option<string>, env: Env): World
    requires op in w.rows && op in w.holds
  {
    if w.rows[op].cancelRequestedAt.Some? then Ended(w, op, Cancelled, CANCELLED, env.now)
    else
      var u := Validated(w, op, answer, handle, env.now);
      if env.completes then Completed(u, op, answer, env) else u
  }

  /** How a request ends whose provider says that there is nothing to come. */
  function Dropped(w: World, op: string, o: Observation, now: int): World
    requires op in w.rows && op in w.holds
  {
    if o.kind.IsCancelled? then Ended(w, op, Cancelled, CANCELLED, now)
    else if o.kind.IsRefused? then Ended(w, op, Refused, if o.error.Some? then o.error.value else REFUSED, now)
    else if o.error == Some(INCOMPLETE_RESULT) then Ended(w, op, Incomplete, INCOMPLETE_RESULT, now)
    else Ended(w, op, Failed, if o.error.Some? then o.error.value else PROVIDER_UNAVAILABLE, now)
  }

  // ---- the parts of a call ------------------------------------------------------------------------------

  /** The row of the request in the slot, with its reservation still open. */
  predicate Active(w: World, row: Row) {
    w.slot == Some(row.operationId) && Current(w, row) && row.operationId in w.holds
    && w.holds[row.operationId].state.Reserved? && !Terminal(row.state)
  }

  lemma SlotIsActive(w: World)
    requires Inv(w) && w.slot.Some?
    ensures w.slot.value in w.rows && w.slot.value in w.holds
    ensures var row := w.rows[w.slot.value];
            Active(w, row) && row.operationId == w.slot.value && ActiveRow(w) == Some(row)
  {
    ActiveIsCurrent(w);
    hide Inv;
    UnfinishedIsReserved(w, ActiveRow(w).value);
  }

  lemma FinishingIs(w: World, row: Row, state: Lifecycle, code: Option<ErrorCode>, price: Option<nat>, now: int)
    requires Active(w, row) && Terminal(state)
    ensures var p := Finishing(row, state, code, price, now);
            && After(w, p.events) == Over(w, row.operationId, state, code, price, now)
            && row.operationId in After(w, p.events).rows
            && p.row == Some(After(w, p.events).rows[row.operationId])
  {
    var save := RowSaved(FinishedRow(row, state, code, AccountingOf(price), now));
    var settle := HoldReconciled(row.operationId, price);
    AfterTwo(w, save, settle, []);
    assert [save, settle] + [] == [save, settle];
    assert After(Apply(Apply(w, save), settle), []) == Apply(Apply(w, save), settle);
  }

  lemma BindingIs(w: World, row: Row, answer: Answer, env: Env)
    requires Active(w, row) && row.state.Validating? && row.handle.Some?
    ensures var op := row.operationId;
            var bound := ResultCompleted(op, answer, row.handle.value, env.recordId, env.now);
            && Apply(w, bound) == Bound(w, op, answer, env)
            && Active(Apply(w, bound), Apply(w, bound).rows[op]) && Apply(w, bound).rows[op].operationId == op
  {
  }

  lemma CompletingIs(w: World, row: Row, answer: Answer, env: Env)
    requires Active(w, row) && row.state.Validating? && row.handle.Some? && CompletionError(answer.evidence).None?
    ensures var p := Completing(w, row, answer, env);
            && After(w, p.events)
               == (if env.completes then Completed(w, row.operationId, answer, env)
                   else Touched(w, row.operationId, env.now))
            && p.row == Some(After(w, p.events).rows[row.operationId])
  {
    var op := row.operationId;
    if env.completes {
      var bound := ResultCompleted(op, answer, row.handle.value, env.recordId, env.now);
      BindingIs(w, row, answer, env);
      hide CompletionError, Apply, Finishing, Over, Bound;
      After1(w, bound);
      var current := Apply(w, bound).rows[op];
      var rest := Finishing(current, Saved, None, PriceOf(answer, env), env.now);
      assert Completing(w, row, answer, env) == Plan([bound] + rest.events, rest.row);
      hide Active;
      AfterConcat(w, [bound], rest.events);
      FinishingIs(Apply(w, bound), current, Saved, None, PriceOf(answer, env), env.now);
    } else {
      After1(w, RowSaved(row.(updatedAt := env.now)));
    }
  }

  lemma AcceptingIs(w: World, row: Row, o: Observation, env: Env)
    requires Active(w, row) && ValidObservation(o) && o.kind.IsComplete?
    ensures var p := Accepting(w, row, o, env);
            && After(w, p.events) == Answered(w, row.operationId, o.answer.value, o.handle, env)
            && p.row == Some(After(w, p.events).rows[row.operationId])
  {
    var op, answer := row.operationId, o.answer.value;
    assert CompletionError(answer.evidence).None?;
    hide CompletionError, Checkpoint, ValidAnswer;
    if row.cancelRequestedAt.Some? {
      FinishingIs(w, row, Cancelled, Some(CANCELLED), None, env.now);
    } else {
      var validating := ValidatingRow(row, o, env.now);
      var u := Apply(w, RowSaved(validating));
      assert u == Validated(w, op, answer, o.handle, env.now) && Active(u, validating);
      hide Apply;
      After1(w, RowSaved(validating));
      AfterConcat(w, [RowSaved(validating)], Completing(u, validating, answer, env).events);
      CompletingIs(u, validating, answer, env);
      assert Touched(u, op, env.now) == u;
    }
  }

  lemma DroppingIs(w: World, row: Row, o: Observation, now: int)
    requires Active(w, row)
    ensures o.kind.IsRefused? ==>
              var p := Refusing(row, o.error, now);
              After(w, p.events) == Dropped(w, row.operationId, o, now)
              && p.row == Some(After(w, p.events).rows[row.operationId])
    ensures o.kind.IsFailed? ==>
              var p := Failing(row, o.error, now);
              After(w, p.events) == Dropped(w, row.operationId, o, now)
              && p.row == Some(After(w, p.events).rows[row.operationId])
    ensures o.kind.IsCancelled? ==>
              var p := Cancelling(row, now);
              After(w, p.events) == Dropped(w, row.operationId, o, now)
              && p.row == Some(After(w, p.events).rows[row.operationId])
  {
    hide Finishing, Over, Active, After;
    FinishingIs(w, row, Refused, Some(if o.error.Some? then o.error.value else REFUSED), None, now);
    var code := if o.error.Some? then o.error.value else PROVIDER_UNAVAILABLE;
    FinishingIs(w, row, if code.INCOMPLETE_RESULT? then Incomplete else Failed, Some(code), None, now);
    FinishingIs(w, row, Cancelled, Some(CANCELLED), None, now);
  }

  // ---- polling --------------------------------------------------------------------------------------------

  /** What a poll makes of the request in the slot. */
  function Polled(w: World, op: string, env: Env): World
    requires op in w.rows && op in w.holds && ValidEnv(env)
  {
    var row := w.rows[op];
    match row.state
    case Validating =>
      var answer := FromCheckpoint(row.checkpoint);
      if answer.None? then w
      else if env.completes then Completed(w, op, answer.value, env) else Touched(w, op, env.now)
    case Admitted | Submitting => w
    case _ =>
      if row.handle.None? then w
      else if env.now - row.admittedAt >= 1000 * row.deadlineSeconds then Ended(w, op, Timeout, TIMEOUT, env.now)
      else if env.answer.None? then w
      else
        match env.answer.value.kind
        case IsPending | IsRunning => Touched(w, op, env.now)
        case IsComplete => Answered(w, op, env.answer.value.answer.value, env.answer.value.handle, env)
        case IsRefused | IsFailed | IsCancelled => Dropped(w, op, env.answer.value, env.now)
        case IsUncertain => w
  }

  /**
   * A poll: nothing before the provider has the request; the deadline first; then what the provider says, and for a
   * validating request another try to complete it.
   */
  lemma PollDecides(w: World, env: Env)
    requires Inv(w) && ValidEnv(env)
    ensures var p := PollPlan(w, env);
            var v := After(w, p.events);
            if w.slot.None? then v == w && p.row.None?
            else
              var op := w.slot.value;
              && op in w.rows && op in w.holds && v == Polled(w, op, env) && op in v.rows
              && (p.row.Some? ==> p.row.value == v.rows[op])
              && (p.row.None? <==>
                    || w.rows[op].state.Admitted? || w.rows[op].state.Submitting?
                    || (!w.rows[op].state.Validating? && w.rows[op].handle.None?))
  {
    hide *;
    if w.slot.None? {
      NoSlotPolled(w, env);
    } else {
      SlotIsActive(w);
      var row := w.rows[w.slot.value];
      if row.state.Validating? {
        ValidatingPolled(w, row, env);
      } else if !row.state.Admitted? && !row.state.Submitting? && row.handle.Some? {
        AnswerPolled(w, row, env);
      } else {
        NothingPolled(w, row, env);
      }
    }
  }

  lemma NoSlotPolled(w: World, env: Env)
    requires w.slot.None? && ValidEnv(env)
    ensures PollPlan(w, env) == Plan([], None) && After(w, []) == w
  {
    hide ValidEnv;
  }

  lemma NothingPolled(w: World, row: Row, env: Env)
    requires Active(w, row) && ValidEnv(env) && ActiveRow(w) == Some(row)
    requires row.state.Admitted? || row.state.Submitting? || (!row.state.Validating? && row.handle.None?)
    ensures PollPlan(w, env) == Plan([], None) && Polled(w, row.operationId, env) == w && After(w, []) == w
  {
    hide FromCheckpoint, ValidAnswer, Completed, Answered, Dropped, Over, Finishing, Completing, CompletionError,
         Accepting, Refusing, Failing, Cancelling, Touched;
  }

  lemma ValidatingIsChecked(w: World, row: Row)
    requires Inv(w) && Active(w, row) && row.state.Validating?
    ensures FromCheckpoint(row.checkpoint).Some? && row.handle.Some?
    ensures CompletionError(FromCheckpoint(row.checkpoint).value.evidence).None?
    ensures row.operationId in w.rows && w.rows[row.operationId] == row
  {
    RowIsOk(w, row);
    hide Inv, FromCheckpoint, CompletionError;
  }

  lemma ValidatingPolled(w: World, row: Row, env: Env)
    requires Inv(w) && Active(w, row) && ValidEnv(env) && ActiveRow(w) == Some(row) && row.state.Validating?
    ensures var p := PollPlan(w, env);
            && After(w, p.events) == Polled(w, row.operationId, env) && row.operationId in After(w, p.events).rows
            && p.row == Some(After(w, p.events).rows[row.operationId])
  {
    ValidatingIsChecked(w, row);
    hide Inv, FromCheckpoint, CompletionError, ValidEnv, RowOk, Active, Completing, Completed, Touched, Over, Answered,
         Dropped, Finishing, Accepting, Refusing, Failing, Cancelling, Current;
    var answer := FromCheckpoint(row.checkpoint);
    CompletingIs(w, row, answer.value, env);
  }

  lemma AnswerPolled(w: World, row: Row, env: Env)
    requires Active(w, row) && ValidEnv(env) && row.handle.Some? && ActiveRow(w) == Some(row)
    requires !row.state.Admitted? && !row.state.Submitting? && !row.state.Validating?
    ensures var p := PollPlan(w, env);
            && After(w, p.events) == Polled(w, row.operationId, env) && row.operationId in After(w, p.events).rows
            && p.row == Some(After(w, p.events).rows[row.operationId])
  {
    assert w.rows[row.operationId] == row && w.slot == Some(row.operationId) && !Terminal(row.state);
    hide FromCheckpoint, ValidAnswer, Completed, Answered, Dropped, Over, Finishing, Completing, CompletionError,
         Active, Accepting, Refusing, Failing, Cancelling, Touched;
    if Overdue(row, env.now) {
      FinishingIs(w, row, Timeout, Some(TIMEOUT), None, env.now);
    } else if env.answer.Some? {
      var o := env.answer.value;
      DroppingIs(w, row, o, env.now);
      match o.kind
      case IsPending | IsRunning => TouchingIs(w, row, env.now);
      case IsComplete => AcceptingIs(w, row, o, env);
      case _ =>
    }
  }

  lemma TouchingIs(w: World, row: Row, now: int)
    requires Active(w, row)
    ensures var touched := row.(updatedAt := now);
            && After(w, [RowSaved(touched)]) == Touched(w, row.operationId, now)
            && Touched(w, row.operationId, now).rows[row.operationId] == touched
  {
    After1(w, RowSaved(row.(updatedAt := now)));
  }

  // ---- submission and recovery -----------------------------------------------------------------------------

  /** What a submission makes of the store: the claim, one entry into the provider, and what it says. */
  function Submitted(w: World, op: string, env: Env): World
    requires op in w.rows && op in w.holds && ValidEnv(env)
  {
    if !env.enabled || !w.rows[op].state.Admitted? then w
    else
      var row := w.rows[op].(state := Submitting, updatedAt := env.now);
      var u := w.(rows := w.rows[op := row], submits := w.submits + multiset{op});
      if env.answer.None? || env.answer.value.kind.IsUncertain? then
        Ended(u, op, SubmissionUnknown, SUBMISSION_UNKNOWN, env.now)
      else
        var o := env.answer.value;
        match o.kind
        case IsPending | IsRunning =>
          u.(rows := u.rows[op := row.(state := Running, handle := if o.handle.Some? then o.handle else row.handle,
                                       submittedAt := if row.submittedAt.None? || row.submittedAt == Some(0)
                                                      then Some(env.now) else row.submittedAt)])
        case IsComplete => Answered(u, op, o.answer.value, o.handle, env)
        case _ => Dropped(u, op, o, env.now)
  }

  lemma ClaimingIs(w: World, row: Row, now: int)
    requires Active(w, row) && row.state.Admitted?
    ensures var op := row.operationId;
            var claimed := row.(state := Submitting, updatedAt := now);
            var u := Apply(Apply(w, SubmissionClaimed(op, now)), SubmitEntered(op));
            && u == w.(rows := w.rows[op := claimed], submits := w.submits + multiset{op})
            && Active(u, claimed) && op in Apply(w, SubmissionClaimed(op, now)).rows
            && Apply(w, SubmissionClaimed(op, now)).rows[op] == claimed
  {
  }

  lemma RunningIs(w: World, row: Row, o: Observation, now: int)
    requires Active(w, row)
    ensures After(w, [RowSaved(RunningRow(row, o, now))])
            == w.(rows := w.rows[row.operationId := RunningRow(row, o, now)])
  {
    After1(w, RowSaved(RunningRow(row, o, now)));
  }

  /** The claimed request after the provider's answer. */
  lemma SubmittedIs(w: World, u: World, row: Row, claimed: Row, env: Env)
    requires Active(w, row) && row.state.Admitted? && env.enabled && ValidEnv(env)
    requires claimed == row.(state := Submitting, updatedAt := env.now) && Active(u, claimed)
    requires u == w.(rows := w.rows[row.operationId := claimed], submits := w.submits + multiset{row.operationId})
    ensures var p := SubmittedPlan(u, claimed, env);
            && After(u, p.events) == Submitted(w, row.operationId, env) && row.operationId in After(u, p.events).rows
            && p.row == Some(After(u, p.events).rows[row.operationId])
  {
    assert w.rows[row.operationId] == row && u.rows[row.operationId] == claimed;
    hide ValidAnswer, Answered, Dropped, Over, Finishing, CompletionError, Active, Accepting, Refusing, Failing,
         Cancelling, Current;
    if env.answer.None? || env.answer.value.kind.IsUncertain? {
      FinishingIs(u, claimed, SubmissionUnknown, Some(SUBMISSION_UNKNOWN), None, env.now);
    } else if env.answer.value.kind.IsPending? || env.answer.value.kind.IsRunning? {
      RunningIs(u, claimed, env.answer.value, env.now);
    } else {
      SubmittedLate(w, u, row, claimed, env);
    }
  }

  lemma SubmittedLate(w: World, u: World, row: Row, claimed: Row, env: Env)
    requires Active(w, row) && row.state.Admitted? && env.enabled && ValidEnv(env)
    requires claimed == row.(state := Submitting, updatedAt := env.now) && Active(u, claimed)
    requires u == w.(rows := w.rows[row.operationId := claimed], submits := w.submits + multiset{row.operationId})
    requires env.answer.Some? && var k := env.answer.value.kind; !k.IsUncertain? && !k.IsPending? && !k.IsRunning?
    ensures var p := SubmittedPlan(u, claimed, env);
            && After(u, p.events) == Submitted(w, row.operationId, env) && row.operationId in After(u, p.events).rows
            && p.row == Some(After(u, p.events).rows[row.operationId])
  {
    assert w.rows[row.operationId] == row;
    hide ValidAnswer, Answered, Dropped, Over, Finishing, CompletionError, Active, Accepting, Refusing, Failing,
         Cancelling, Current, After;
    var o := env.answer.value;
    DroppingIs(u, claimed, o, env.now);
    if o.kind.IsComplete? {
      AcceptingIs(u, claimed, o, env);
    }
  }

  /** A submission: nothing but for an admitted request while research is enabled, and then what the provider says. */
  lemma SubmitDecides(w: World, env: Env)
    requires Inv(w) && ValidEnv(env)
    ensures var p := SubmissionPlan(w, env);
            var v := After(w, p.events);
            if w.slot.None? then v == w && p.row.None?
            else
              var op := w.slot.value;
              && op in w.rows && op in w.holds && v == Submitted(w, op, env) && op in v.rows
              && (p.row.Some? ==> p.row.value == v.rows[op])
              && (p.row.Some? <==> env.enabled && w.rows[op].state.Admitted?)
  {
    hide Inv, SubmittedPlan, ValidEnv, Active, Ended, Answered, Dropped, Apply;
    if w.slot.Some? {
      SlotIsActive(w);
      var op, row := w.slot.value, w.rows[w.slot.value];
      if env.enabled && row.state.Admitted? {
        ClaimingIs(w, row, env.now);
        hide Submitted;
        var claim, enter := SubmissionClaimed(op, env.now), SubmitEntered(op);
        var u := Apply(Apply(w, claim), enter);
        var claimed := row.(state := Submitting, updatedAt := env.now);
        AfterTwo(w, claim, enter, SubmittedPlan(u, claimed, env).events);
        SubmittedIs(w, u, row, claimed, env);
      }
    }
  }

  /** Recovery ends a request found submitting as unknown, and changes nothing else. */
  lemma RecoverDecides(w: World, env: Env)
    requires Inv(w)
    ensures var p := RecoverPlan(w, env);
            var v := After(w, p.events);
            if w.slot.None? then v == w && p.row.None?
            else
              var op := w.slot.value;
              && op in w.rows && op in w.holds
              && v == (if w.rows[op].state.Submitting?
                       then Ended(w, op, SubmissionUnknown, SUBMISSION_UNKNOWN, env.now) else w)
              && op in v.rows && p.row == Some(v.rows[op])
  {
    hide Inv, Active, Over, Finishing;
    if w.slot.Some? {
      SlotIsActive(w);
      FinishingIs(w, w.rows[w.slot.value], SubmissionUnknown, Some(SUBMISSION_UNKNOWN), None, env.now);
    }
  }

  // ---- cancellation --------------------------------------------------------------------------------------------

  /** What a cancellation makes of an unfinished request. */
  function CancelledWorld(w: World, op: string, env: Env): World
    requires op in w.rows && op in w.holds
  {
    var row := w.rows[op];
    var asked := if row.cancelRequestedAt.Some? then row
                 else row.(state := CancelRequested, cancelRequestedAt := Some(env.now), updatedAt := env.now);
    var u := w.(rows := w.rows[op := asked]);
    if row.handle.None? || env.answer.None? then u
    else
      match env.answer.value.kind
      case IsCancelled =>
        var v := Ended(u, op, Cancelled, CANCELLED, env.now);
        v.(rows := v.rows[op := v.rows[op].(cancelConfirmedAt := Some(env.now))])
      case IsComplete => Ended(u, op, Cancelled, CANCELLED, env.now)
      case IsRefused | IsFailed => Dropped(u, op, env.answer.value, env.now)
      case _ => u
  }

  lemma ConfirmingIs(w: World, row: Row, now: int)
    requires Active(w, row)
    ensures var done := Cancelling(row, now);
            var v := Ended(w, row.operationId, Cancelled, CANCELLED, now);
            var confirmed := done.row.value.(cancelConfirmedAt := Some(now), updatedAt := now);
            After(w, done.events + [RowSaved(confirmed)])
            == v.(rows := v.rows[row.operationId := v.rows[row.operationId].(cancelConfirmedAt := Some(now))])
            && After(w, done.events + [RowSaved(confirmed)]).rows[row.operationId] == confirmed
  {
    FinishingIs(w, row, Cancelled, Some(CANCELLED), None, now);
    var done := Cancelling(row, now);
    var v := Ended(w, row.operationId, Cancelled, CANCELLED, now);
    var confirmed := done.row.value.(cancelConfirmedAt := Some(now), updatedAt := now);
    AfterConcat(w, done.events, [RowSaved(confirmed)]);
    After1(v, RowSaved(confirmed));
  }

  lemma CancelAnsweredIs(w: World, row: Row, env: Env)
    requires Active(w, row)
    ensures var p := CancelAnswered(row, env);
            var op := row.operationId;
            var v := After(w, p.events);
            && op in v.rows && p.row == Some(v.rows[op])
            && v == if env.answer.None? then w
                    else
                      match env.answer.value.kind
                      case IsCancelled =>
                        var v := Ended(w, op, Cancelled, CANCELLED, env.now);
                        v.(rows := v.rows[op := v.rows[op].(cancelConfirmedAt := Some(env.now))])
                      case IsComplete => Ended(w, op, Cancelled, CANCELLED, env.now)
                      case IsRefused | IsFailed => Dropped(w, op, env.answer.value, env.now)
                      case _ => w
  {
    assert w.rows[row.operationId] == row;
    hide Active, Finishing, Over, Dropped, Refusing, Failing;
    FinishingIs(w, row, Cancelled, Some(CANCELLED), None, env.now);
    if env.answer.Some? {
      DroppingIs(w, row, env.answer.value, env.now);
      if env.answer.value.kind.IsCancelled? {
        ConfirmingIs(w, row, env.now);
      }
    }
  }

  lemma AskingIs(w: World, row: Row, now: int)
    requires Active(w, row)
    ensures var asked := CancelRow(row, now);
            && Apply(w, RowSaved(asked)) == w.(rows := w.rows[row.operationId := asked])
            && Active(Apply(w, RowSaved(asked)), asked)
  {
  }

  /** A cancellation: nothing for an unknown or finished request; else it is recorded first, and the provider asked. */
  lemma CancelDecides(w: World, op: string, env: Env)
    requires Inv(w) && ValidEnv(env)
    ensures var p := CancelPlan(w, op, env);
            var v := After(w, p.events);
            if op !in w.rows then v == w && p.row.None?
            else if Terminal(w.rows[op].state) then v == w && p.row == Some(w.rows[op])
            else op in w.holds && v == CancelledWorld(w, op, env) && op in v.rows && p.row == Some(v.rows[op])
  {
    if op in w.rows && !Terminal(w.rows[op].state) {
      UnfinishedIsActive(w, op);
      var row := w.rows[op];
      hide *;
      if row.cancelRequestedAt.Some? {
        AskedBefore(w, row, env);
      } else {
        AskedNow(w, row, env);
      }
    }
  }

  lemma AskedBefore(w: World, row: Row, env: Env)
    requires Active(w, row) && row.cancelRequestedAt.Some?
    ensures var p := CancelPlan(w, row.operationId, env);
            && After(w, p.events) == CancelledWorld(w, row.operationId, env)
            && row.operationId in After(w, p.events).rows
            && p.row == Some(After(w, p.events).rows[row.operationId])
  {
    assert w.rows[row.operationId] == row && !Terminal(row.state);
    assert w.rows[row.operationId := row] == w.rows;
    hide Active, CancelAnswered, Over, Dropped;
    CancelAnsweredIs(w, row, env);
    var rest: seq<Event> := if row.handle.None? then [] else CancelAnswered(row, env).events;
    assert [] + rest == rest;
  }

  lemma AskedNow(w: World, row: Row, env: Env)
    requires Active(w, row) && row.cancelRequestedAt.None?
    ensures var p := CancelPlan(w, row.operationId, env);
            && After(w, p.events) == CancelledWorld(w, row.operationId, env)
            && row.operationId in After(w, p.events).rows
            && p.row == Some(After(w, p.events).rows[row.operationId])
  {
    assert w.rows[row.operationId] == row && !Terminal(row.state);
    var asked := CancelRow(row, env.now);
    AskingIs(w, row, env.now);
    After1(w, RowSaved(asked));
    hide Active, CancelAnswered, Over, Dropped, Apply;
    var rest: seq<Event> := if asked.handle.None? then [] else CancelAnswered(asked, env).events;
    AfterConcat(w, [RowSaved(asked)], rest);
    CancelAnsweredIs(Apply(w, RowSaved(asked)), asked, env);
  }

  lemma UnfinishedIsActive(w: World, op: string)
    requires Inv(w) && op in w.rows && !Terminal(w.rows[op].state)
    ensures Active(w, w.rows[op]) && w.rows[op].operationId == op && op in w.holds
    ensures After(w, []) == w
  {
    StoredIsOk(w, op);
    UnfinishedIsReserved(w, w.rows[op]);
    hide RowOk, HoldOk, DocumentOk;
    assert EntryOk(At(w, op));
  }

  // ---- the price of a saved result ---------------------------------------------------------------------------

  lemma AnswerIsChecked(a: Answer)
    requires ValidAnswer(a)
    ensures FromCheckpoint(Some(Checkpoint(a))) == Some(a)
  {
    CheckpointRoundTrip(a);
  }

  /** The answer the checkpoint of a saved row holds, and what the row and its hold say about its price. */
  ghost predicate PricedAt(w: World, v: World, op: string, env: Env)
    requires op in w.holds && op in v.rows && op in v.holds
  {
    && FromCheckpoint(v.rows[op].checkpoint).Some?
    && var answer := FromCheckpoint(v.rows[op].checkpoint).value;
       if answer.usage.Some? && env.price.Some? then
         v.rows[op].accounting.Reconciled? && v.holds[op] == Hold(w.holds[op].reserved, Reconciled, env.price)
       else
         v.rows[op].accounting.Unknown?
         && v.holds[op] == Hold(w.holds[op].reserved, Unknown, Some(w.holds[op].reserved))
  }

  lemma CompletedIsPriced(w: World, op: string, answer: Answer, env: Env)
    requires op in w.rows && op in w.holds && FromCheckpoint(w.rows[op].checkpoint) == Some(answer)
    ensures var v := Completed(w, op, answer, env); op in v.rows && op in v.holds && PricedAt(w, v, op, env)
  {
    hide FromCheckpoint;
  }

  lemma AnsweredIsPriced(w: World, op: string, answer: Answer, handle: Option<string>, env: Env)
    requires op in w.rows && op in w.holds && ValidAnswer(answer) && !w.rows[op].state.Saved?
    ensures var v := Answered(w, op, answer, handle, env);
            op in v.rows && op in v.holds && (v.rows[op].state.Saved? ==> PricedAt(w, v, op, env))
  {
    AnswerIsChecked(answer);
    hide FromCheckpoint, Checkpoint, ValidAnswer, Completed, PricedAt;
    var u := Validated(w, op, answer, handle, env.now);
    assert u.holds == w.holds && u.rows[op].checkpoint == Some(Checkpoint(answer));
    CompletedIsPriced(u, op, answer, env);
    SamePricing(u, w, Completed(u, op, answer, env), op, env);
  }

  lemma SamePricing(u: World, w: World, v: World, op: string, env: Env)
    requires op in u.holds && op in w.holds && u.holds[op] == w.holds[op] && op in v.rows && op in v.holds
    ensures PricedAt(u, v, op, env) <==> PricedAt(w, v, op, env)
  {
    hide FromCheckpoint;
  }

  /** The environment of a submission or a poll; no other call saves a result. */
  function EnvOf(c: Call): Option<Env> {
    match c
    case Submit(env) => Some(env)
    case Poll(env) => Some(env)
    case _ => None
  }

  lemma PolledIsPriced(w: World, op: string, env: Env)
    requires op in w.rows && op in w.holds && ValidEnv(env) && !w.rows[op].state.Saved?
    ensures var v := Polled(w, op, env);
            op in v.rows && op in v.holds && (v.rows[op].state.Saved? ==> PricedAt(w, v, op, env))
  {
    hide FromCheckpoint, ValidAnswer, Completed, Answered, PricedAt, CompletionError;
    var row := w.rows[op];
    if row.state.Validating? {
      if FromCheckpoint(row.checkpoint).Some? {
        CompletedIsPriced(w, op, FromCheckpoint(row.checkpoint).value, env);
      }
    } else if env.answer.Some? && env.answer.value.kind.IsComplete? {
      AnsweredIsPriced(w, op, env.answer.value.answer.value, env.answer.value.handle, env);
    }
  }

  lemma SubmittedIsPriced(w: World, op: string, env: Env)
    requires op in w.rows && op in w.holds && ValidEnv(env) && !w.rows[op].state.Saved?
    ensures var v := Submitted(w, op, env);
            op in v.rows && op in v.holds && (v.rows[op].state.Saved? ==> PricedAt(w, v, op, env))
  {
    hide FromCheckpoint, ValidAnswer, Answered, PricedAt, CompletionError;
    if env.enabled && w.rows[op].state.Admitted? && env.answer.Some? && env.answer.value.kind.IsComplete? {
      var row := w.rows[op].(state := Submitting, updatedAt := env.now);
      var u := w.(rows := w.rows[op := row], submits := w.submits + multiset{op});
      AnsweredIsPriced(u, op, env.answer.value.answer.value, env.answer.value.handle, env);
      SamePricing(u, w, Submitted(w, op, env), op, env);
    }
  }

  /** The request is not saved, or its price is where it belongs. */
  ghost predicate WellPriced(w: World, v: World, op: string, env: Option<Env>) {
    && op in w.holds && op in v.rows && op in v.holds
    && (v.rows[op].state.Saved? ==> env.Some? && PricedAt(w, v, op, env.value))
  }

  lemma PollIsPriced(w: World, op: string, env: Env)
    requires Inv(w) && w.slot == Some(op) && op in w.rows && Active(w, w.rows[op]) && ValidEnv(env)
    ensures WellPriced(w, After(w, PollPlan(w, env).events), op, Some(env))
  {
    assert op in w.holds && !w.rows[op].state.Saved? by { SlotIsActive(w); }
    hide *;
    PollDecides(w, env);
    PolledIsPriced(w, op, env);
    PricedWell(w, After(w, PollPlan(w, env).events), op, env);
  }

  lemma PricedWell(w: World, v: World, op: string, env: Env)
    requires op in w.holds && op in v.rows && op in v.holds && (v.rows[op].state.Saved? ==> PricedAt(w, v, op, env))
    ensures WellPriced(w, v, op, Some(env))
  {
    hide PricedAt;
  }

  lemma SubmitIsPriced(w: World, op: string, env: Env)
    requires Inv(w) && w.slot == Some(op) && op in w.rows && Active(w, w.rows[op]) && ValidEnv(env)
    ensures WellPriced(w, After(w, SubmissionPlan(w, env).events), op, Some(env))
  {
    assert op in w.holds && !w.rows[op].state.Saved? by { SlotIsActive(w); }
    hide *;
    SubmitDecides(w, env);
    SubmittedIsPriced(w, op, env);
    PricedWell(w, After(w, SubmissionPlan(w, env).events), op, env);
  }

  lemma RecoverIsPriced(w: World, op: string, env: Env)
    requires Inv(w) && w.slot == Some(op) && op in w.rows && Active(w, w.rows[op])
    ensures WellPriced(w, After(w, RecoverPlan(w, env).events), op, None)
  {
    RecoverDecides(w, env);
    hide Inv, Over, RecoverPlan, After;
    SlotIsActive(w);
    OverIs(w, op, SubmissionUnknown, Some(SUBMISSION_UNKNOWN), None, env.now);
  }

  lemma CancelIsPriced(w: World, other: string, op: string, env: Env)
    requires Inv(w) && w.slot == Some(op) && op in w.rows && Active(w, w.rows[op]) && ValidEnv(env)
    ensures WellPriced(w, After(w, CancelPlan(w, other, env).events), op, None)
  {
    CancelDecides(w, other, env);
    SlotIsActive(w);
    if other in w.rows {
      HoldsCover(w, other);
    }
    CancelSavesNothing(w, other, op, env);
    hide Inv, CancelPlan, After, CancelledWorld, ValidEnv;
  }

  lemma AdmitIsPriced(w: World, req: Request, a: Admission, op: string)
    requires w.slot == Some(op) && op in w.rows && op in w.holds && !w.rows[op].state.Saved?
    ensures WellPriced(w, After(w, AdmissionPlan(w, req, a).events), op, None)
  {
    hide BlockingState, WellFormed, Fingerprint, PricedAt;
  }

  lemma ReleaseIsPriced(w: World, rows: seq<Row>, outcomes: seq<Option<Cleanup>>, limit: nat, now: int, op: string)
    requires Inv(w) && |outcomes| == |rows| && Listing(w, rows, limit)
    requires op in w.rows && op in w.holds && !Terminal(w.rows[op].state)
    ensures WellPriced(w, After(w, Saves(Releasing(rows, outcomes, now))), op, None)
  {
    assert !Mentions(rows, op);
    ReleasingIsLegal(w, rows, outcomes, limit, now);
    var es := Saves(Releasing(rows, outcomes, now));
    InvariantKept(w, es);
    HoldsCover(After(w, es), op);
    hide Inv, After, Saves, Releasing, Listing, Mentions, LegalAll;
    assert RowOf(After(w, es), op) == RowOf(w, op);
  }

  /**
   * A known price reaches the ledger: when a whole call makes a request saved, the call is a submission or a poll, and
   * the row is reconciled and its hold accounted at the price if and only if the checked answer says what it used and
   * the call knows the price; otherwise both are unknown, accounted at the reservation.
   */
  lemma SavedIsPriced(w: World, c: Call, op: string)
    requires Inv(w) && Possible(w, c) && op in w.rows && !Terminal(w.rows[op].state)
    ensures WellPriced(w, After(w, EventsOf(w, c)), op, EnvOf(c))
  {
    UnfinishedIsActive(w, op);
    assert w.slot == Some(op) && !w.rows[op].state.Saved?;
    hide *;
    if c.Submit? || c.Poll? || c.Recover? {
      SupervisedIsPriced(w, c, op);
    } else if c.Cancel? {
      CallUnfolded(w, c);
      CancelIsPriced(w, c.operation, op, c.env);
    } else {
      OtherIsPriced(w, c, op);
    }
  }

  lemma SupervisedIsPriced(w: World, c: Call, op: string)
    requires Inv(w) && Possible(w, c) && w.slot == Some(op) && op in w.rows && Active(w, w.rows[op])
    requires c.Submit? || c.Poll? || c.Recover?
    ensures WellPriced(w, After(w, EventsOf(w, c)), op, EnvOf(c))
  {
    hide *;
    CallUnfolded(w, c);
    match c
    case Submit(env) => SubmitIsPriced(w, op, env);
    case Poll(env) => PollIsPriced(w, op, env);
    case Recover(env) => RecoverIsPriced(w, op, env);
  }

  lemma OtherIsPriced(w: World, c: Call, op: string)
    requires Inv(w) && Possible(w, c) && w.slot == Some(op) && op in w.rows && op in w.holds
    requires !Terminal(w.rows[op].state) && !w.rows[op].state.Saved? && (c.Admit? || c.Release?)
    ensures WellPriced(w, After(w, EventsOf(w, c)), op, EnvOf(c))
  {
    hide *;
    CallUnfolded(w, c);
    match c
    case Admit(req, a) => AdmitIsPriced(w, req, a, op);
    case Release(rows, outcomes, limit, now) => ReleaseIsPriced(w, rows, outcomes, limit, now, op);
  }

  lemma CallUnfolded(w: World, c: Call)
    requires Possible(w, c)
    ensures match c
            case Submit(env) =>
              ValidEnv(env) && EventsOf(w, c) == SubmissionPlan(w, env).events && EnvOf(c) == Some(env)
            case Poll(env) => ValidEnv(env) && EventsOf(w, c) == PollPlan(w, env).events && EnvOf(c) == Some(env)
            case Recover(env) => EventsOf(w, c) == RecoverPlan(w, env).events && EnvOf(c).None?
            case Cancel(op, env) =>
              ValidEnv(env) && EventsOf(w, c) == CancelPlan(w, op, env).events && EnvOf(c).None?
            case Admit(req, a) => EventsOf(w, c) == AdmissionPlan(w, req, a).events && EnvOf(c).None?
            case Release(rows, outcomes, limit, now) =>
              && |outcomes| == |rows| && Listing(w, rows, limit)
              && EventsOf(w, c) == Saves(Releasing(rows, outcomes, now)) && EnvOf(c).None?
  {
    hide ValidEnv, SubmissionPlan, PollPlan, RecoverPlan, CancelPlan, AdmissionPlan, Listing, Releasing, Saves;
  }

  lemma OverIs(w: World, op: string, state: Lifecycle, error: Option<ErrorCode>, price: Option<nat>, now: int)
    requires op in w.rows && op in w.holds
    ensures var v := Over(w, op, state, error, price, now);
            op in v.rows && op in v.holds && v.rows[op].state == state
  {
  }

  lemma CancelSavesNothing(w: World, other: string, op: string, env: Env)
    requires op in w.rows && op in w.holds && !w.rows[op].state.Saved?
    requires other in w.rows ==> other in w.holds
    ensures other in w.rows ==>
              var v := CancelledWorld(w, other, env); op in v.rows && op in v.holds && !v.rows[op].state.Saved?
  {
  }

  // ---- remote cleanup -----------------------------------------------------------------------------------------

  /** A listed row after its remote release: what the provider says of it, if it says anything. */
  function Released(row: Row, outcome: Option<Cleanup>, now: int): Row {
    match outcome
    case None => row
    case Some(Deleted) => row.(cleanup := Deleted, updatedAt := now)
    case Some(CleanupFailed) => row.(cleanup := CleanupFailed, updatedAt := now)
    case Some(_) => row.(cleanup := CleanupUnknown, updatedAt := now)
  }

  /** Each of the first rows released, and nothing else changed. */
  ghost predicate AllReleased(w: World, v: World, rows: seq<Row>, outcomes: seq<Option<Cleanup>>, now: int)
    requires |outcomes| == |rows|
  {
    && v == w.(rows := v.rows) && v.rows.Keys == w.rows.Keys
    && (forall i :: 0 <= i < |rows| ==>
          RowOf(v, rows[i].operationId) == Some(Released(rows[i], outcomes[i], now)))
    && (forall op :: !Mentions(rows, op) ==> RowOf(v, op) == RowOf(w, op))
  }

  lemma ReleaseOneMore(w: World, v: World, rows: seq<Row>, outcomes: seq<Option<Cleanup>>, row: Row,
                       outcome: Option<Cleanup>, now: int)
    requires |outcomes| == |rows| && AllReleased(w, v, rows, outcomes, now) && !Mentions(rows, row.operationId)
    requires Current(w, row) && row.handle.Some? && w.slot != Some(row.operationId)
    ensures var more := if outcome.Some? then [RowSaved(ReleasedRow(row, outcome.value, now))] else [];
            AllReleased(w, After(v, more), rows + [row], outcomes + [outcome], now)
  {
    var op := row.operationId;
    assert RowOf(v, op) == Some(row);
    var u := if outcome.Some? then Apply(v, RowSaved(ReleasedRow(row, outcome.value, now))) else v;
    if outcome.Some? {
      After1(v, RowSaved(ReleasedRow(row, outcome.value, now)));
    }
    assert RowOf(u, op) == Some(Released(row, outcome, now));
    assert forall other :: other != op ==> RowOf(u, other) == RowOf(v, other);
    hide Apply, After, ReleasedRow, Released;
    forall i | 0 <= i < |rows + [row]|
      ensures RowOf(u, (rows + [row])[i].operationId)
              == Some(Released((rows + [row])[i], (outcomes + [outcome])[i], now))
    {
      if i < |rows| {
        assert rows[i].operationId != op;
      }
    }
    forall other | !Mentions(rows + [row], other)
      ensures RowOf(u, other) == RowOf(w, other)
    {
      assert (rows + [row])[|rows|] == row;
      assert forall i :: 0 <= i < |rows| ==> (rows + [row])[i] == rows[i];
    }
  }

  /** Remote cleanup: each listed row takes the outcome its release answers, and nothing else changes. */
  lemma {:induction false} ReleaseDecides(w: World, rows: seq<Row>, outcomes: seq<Option<Cleanup>>, limit: nat,
                                          now: int)
    requires Inv(w) && |outcomes| == |rows| && Listing(w, rows, limit)
    ensures AllReleased(w, After(w, Saves(Releasing(rows, outcomes, now))), rows, outcomes, now)
  {
    hide *;
    if rows == [] {
      NoneReleased(w, now);
      assert outcomes == [];
    } else {
      var n := |rows| - 1;
      var rest, row := rows[..n], rows[n];
      var saved := Releasing(rest, outcomes[..n], now);
      assert rest + [row] == rows && outcomes[..n] + [outcomes[n]] == outcomes;
      ReleasingMore(rows, outcomes, now);
      ListedOnce(w, rows, limit);
      FinishedIsNotActive(w, row);
      ReleaseDecides(w, rest, outcomes[..n], limit, now);
      ReleaseOneMore(w, After(w, Saves(saved)), rest, outcomes[..n], row, outcomes[n], now);
      SavesAppended(w, saved, row, outcomes[n], now);
    }
  }

  lemma NoneReleased(w: World, now: int)
    ensures AllReleased(w, After(w, Saves(Releasing([], [], now))), [], [], now)
  {
    SavesOfNone(w);
  }

  lemma ReleasingMore(rows: seq<Row>, outcomes: seq<Option<Cleanup>>, now: int)
    requires |outcomes| == |rows| && rows != []
    ensures var n := |rows| - 1;
            Releasing(rows, outcomes, now)
            == Releasing(rows[..n], outcomes[..n], now) + MoreReleased(rows[n], outcomes[n], now)
  {
    hide ReleasedRow;
  }

  function MoreReleased(row: Row, outcome: Option<Cleanup>, now: int): seq<Row> {
    if row.handle.Some? && outcome.Some? then [ReleasedRow(row, outcome.value, now)] else []
  }

  lemma SavesAppended(w: World, saved: seq<Row>, row: Row, outcome: Option<Cleanup>, now: int)
    requires row.handle.Some?
    ensures var more := if outcome.Some? then [RowSaved(ReleasedRow(row, outcome.value, now))] else [];
            After(w, Saves(saved + MoreReleased(row, outcome, now))) == After(After(w, Saves(saved)), more)
  {
    hide After, Saves, ReleasedRow;
    var more: seq<Event> := if outcome.Some? then [RowSaved(ReleasedRow(row, outcome.value, now))] else [];
    AfterConcat(w, Saves(saved), more);
    if outcome.Some? {
      SavesOfMore(saved, ReleasedRow(row, outcome.value, now));
    } else {
      assert saved + [] == saved && Saves(saved) + [] == Saves(saved);
    }
  }

  lemma FinishedIsNotActive(w: World, row: Row)
    requires Inv(w) && Current(w, row) && CleanupPending(row)
    ensures w.slot != Some(row.operationId) && row.handle.Some?
  {
    RowIsOk(w, row);
    hide RowOk, HoldOk, DocumentOk;
  }

  // ---- admission ------------------------------------------------------------------------------------------------

  /** A row of the same owner and client identifier is stored. */
  predicate Known(w: World, req: Request) {
    (req.owner, req.clientId) in w.clients && w.clients[(req.owner, req.clientId)] in w.rows
  }

  /** Why the ledger is closed, if it is. */
  ghost predicate Closed(w: World, code: ErrorCode) {
    var unknown := exists op :: op in w.holds && w.holds[op].state.Unknown?;
    var overrun := exists op :: op in w.holds && Overcharged(w.holds[op]);
    var gap := exists op :: op in w.holds && w.holds[op].state.Reserved? && op in w.rows && Terminal(w.rows[op].state);
    || (code == ACCOUNTING_UNKNOWN && (unknown || (!overrun && gap)))
    || (code == BUDGET_EXCEEDED && !unknown && overrun)
  }

  predicate Overcharged(h: Hold) {
    h.accounted.Some? && h.accounted.value > h.reserved
  }

  /** What the day and the month have consumed leaves room for the reservation. */
  ghost predicate Fits(w: World, reservation: nat, a: Admission) {
    var day := a.now / 86400000;
    && Consumed(w, Day(day)) + reservation <= a.daily
    && Consumed(w, Month(MonthFrom(day, 0))) + reservation <= a.monthly
  }

  /** The row a new request is stored as. */
  function Admitting(req: Request, a: Admission): Row
    requires a.selection.Selected?
  {
    Row(a.operation, req.owner, req.clientId, Fingerprint(req.owner, req.kind, req.prompt, req.consent), req.kind,
        req.prompt, a.selection.profile, a.selection.deadlineSeconds, a.now, Admitted, NotRequired, Reserved,
        None, None, None, None, None, None, a.now, None, None)
  }

  /**
   * An admission stores a new request if and only if it is well formed and not known, the ledger is open, a provider is
   * selected and nothing denies it, the slot is free and the identifier new, and the day and the month leave room; and
   * then the store has its row, its client, its reservation and the slot.
   */
  lemma AdmitDecides(w: World, req: Request, a: Admission)
    ensures var p := AdmissionPlan(w, req, a);
            var v := After(w, p.events);
            if (exists i :: 0 <= i < |req.prompt| && !IsSpace(req.prompt[i])) && req.owner != "" && req.clientId != ""
               && !Known(w, req) && (forall code :: !Closed(w, code)) && a.selection.Selected? && a.denial.None?
               && w.slot.None? && a.operation !in w.rows && Fits(w, a.selection.profile.reservation, a)
            then
              var row := Admitting(req, a);
              && p.receipt == Accepted(row, true)
              && v == w.(rows := w.rows[a.operation := row],
                         clients := w.clients[(req.owner, req.clientId) := a.operation],
                         slot := Some(a.operation),
                         holds := w.holds[a.operation := Hold(row.profile.reservation, Reserved, None)])
            else v == w && (p.receipt.Refusal? || !p.receipt.newlyAdmitted)
  {
    LedgerIs(w);
    hide BlockingState, Consumed, Fingerprint, MonthFrom, Closed;
    if AdmissionPlan(w, req, a).events != [] {
      After1(w, RowAdmitted(Admitting(req, a)));
    }
  }

  lemma LedgerIs(w: World)
    ensures forall code :: BlockingState(w) == Some(code) <==> Closed(w, code)
    ensures BlockingState(w).None? <==> forall code :: !Closed(w, code)
  {
    assert BlockingState(w).Some? ==> Closed(w, BlockingState(w).value);
  }

  /** The reason of a refusal: the first that applies, in this order. */
  lemma RefusalMeans(w: World, req: Request, a: Admission)
    ensures var receipt := AdmissionPlan(w, req, a).receipt;
            if req.owner == "" || req.clientId == "" || (forall i :: 0 <= i < |req.prompt| ==> IsSpace(req.prompt[i]))
            then
              receipt == Refusal(INVALID_REQUEST)
            else if Known(w, req) then
              var row := w.rows[w.clients[(req.owner, req.clientId)]];
              var same := && row.owner == req.owner && row.kind == req.kind && row.prompt == req.prompt
                          && (row.profile.configurationVersion == "3"
                              || row.fingerprint == Fingerprint(req.owner, req.kind, req.prompt, req.consent));
              receipt == if same then Accepted(row, false) else Refusal(IDEMPOTENCY_CONFLICT)
            else
              && (forall code :: Closed(w, code) ==> receipt == Refusal(code))
              && ((forall code :: !Closed(w, code)) ==>
                    if a.selection.Unselectable? then receipt == Refusal(a.selection.code)
                    else if a.denial.Some? then receipt == Refusal(a.denial.value)
                    else if w.slot.Some? then receipt == Refusal(BUSY)
                    else if a.operation in w.rows then receipt == Refusal(STORAGE)
                    else if Fits(w, a.selection.profile.reservation, a)
                    then receipt == Accepted(Admitting(req, a), true)
                    else receipt == Refusal(BUDGET_EXCEEDED))
  {
    LedgerIs(w);
    hide BlockingState, Consumed, Fingerprint, MonthFrom, Closed;
  }
}
