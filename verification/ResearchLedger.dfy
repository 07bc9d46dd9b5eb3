// Reservations: a call that is not cut off settles the one it ends; a crash in between leaves a gap that
// nothing closes, and no request is admitted after it.

module ResearchLedger {
  import opened Text
  import opened ResearchDomain
  import opened ResearchStore
  import opened Research
  import opened ResearchLaws
  import opened ResearchSteps
  import opened ResearchLimits

  /** A finished request whose reservation was never settled. */
  predicate Gap(w: World, op: string) {
    op in w.rows && Terminal(w.rows[op].state) && op in w.holds && w.holds[op].state.Reserved?
  }

  /** A crash right after the save that ends a request leaves its reservation unsettled. */
  lemma CrashAfterEndingLeavesGap(w: World, row: Row)
    requires Inv(w) && Legal(w, RowSaved(row)) && Terminal(row.state) && !Terminal(w.rows[row.operationId].state)
    ensures Gap(Apply(w, RowSaved(row)), row.operationId)
  {
    hide Inv, RowOk;
    StoredIsOk(w, row.operationId);
    UnfinishedIsReserved(w, w.rows[row.operationId]);
  }

  /** Events that settle no other reservation, and settle this one if they end its request. */
  predicate Settles(es: seq<Event>, op: string) {
    && (forall e :: e in es ==> !e.RowAdmitted? && (e.HoldReconciled? ==> e.operation == op))
    && ((exists e :: e in es && e.HoldReconciled?) || (forall e :: e in es && e.RowSaved? ==> !Terminal(e.row.state)))
  }

  lemma FinishingSettles(row: Row, state: Lifecycle, code: Option<ErrorCode>, cost: Option<nat>, now: int)
    ensures Settles(Finishing(row, state, code, cost, now).events, row.operationId)
  {
    assert HoldReconciled(row.operationId, cost) in Finishing(row, state, code, cost, now).events;
  }

  lemma MoreSettles(e: Event, es: seq<Event>, op: string)
    requires Settles(es, op) && !e.HoldReconciled? && !e.RowAdmitted? && (e.RowSaved? ==> !Terminal(e.row.state))
    ensures Settles([e] + es, op)
  {
    if exists f :: f in es && f.HoldReconciled? {
      var f :| f in es && f.HoldReconciled?;
      assert f in [e] + es;
    }
  }

  lemma CompletingSettles(w: World, row: Row, answer: Answer, env: Env)
    requires row.operationId in w.rows ==> w.rows[row.operationId].operationId == row.operationId
    requires !Terminal(row.state)
    ensures Settles(Completing(w, row, answer, env).events, row.operationId)
  {
    hide Finishing, CompletionError, Settles;
    NothingSettles(row.operationId);
    if row.handle.Some? && env.completes && row.operationId in w.rows && CompletionError(answer.evidence).None? {
      var bound := ResultCompleted(row.operationId, answer, row.handle.value, env.recordId, env.now);
      var current := Apply(w, bound).rows[row.operationId];
      FinishingSettles(current, Saved, None, if answer.usage.Some? then env.price else None, env.now);
      MoreSettles(bound, Finishing(current, Saved, None, if answer.usage.Some? then env.price else None,
                                   env.now).events, row.operationId);
    } else {
      SaveSettles(row.(updatedAt := env.now), row.operationId);
    }
  }

  lemma SaveSettles(row: Row, op: string)
    requires !Terminal(row.state)
    ensures Settles([RowSaved(row)], op)
  {
  }

  lemma NothingSettles(op: string)
    ensures Settles([], op)
  {
  }

  lemma AcceptingSettles(w: World, row: Row, o: Observation, env: Env)
    requires Current(w, row) && o.answer.Some?
    ensures Settles(Accepting(w, row, o, env).events, row.operationId)
  {
    hide Finishing, Completing, CompletionError, Settles, Checkpoint, Apply;
    FinishingSettles(row, Cancelled, Some(CANCELLED), None, env.now);
    var error := CompletionError(o.answer.value.evidence);
    if error.Some? {
      FinishingSettles(row, TerminalOf(error.value), error, None, env.now);
    } else {
      var validating := ValidatingRow(row, o, env.now);
      StoredKeepsName(w, row, validating);
      CompletingSettles(Apply(w, RowSaved(validating)), validating, o.answer.value, env);
      MoreSettles(RowSaved(validating),
                  Completing(Apply(w, RowSaved(validating)), validating, o.answer.value, env).events, row.operationId);
    }
  }

  lemma StoredKeepsName(w: World, row: Row, saved: Row)
    requires Current(w, row) && saved.operationId == row.operationId
    ensures var v := Apply(w, RowSaved(saved));
            row.operationId in v.rows && v.rows[row.operationId].operationId == row.operationId
  {
  }

  lemma FailingSettles(row: Row, code: Option<ErrorCode>, now: int)
    ensures Settles(Failing(row, code, now).events, row.operationId)
  {
    hide Finishing, Settles;
    var error := if code.Some? then code.value else PROVIDER_UNAVAILABLE;
    FinishingSettles(row, if error.INCOMPLETE_RESULT? then Incomplete else Failed, Some(error), None, now);
  }

  lemma SubmittedSettles(w: World, row: Row, env: Env)
    requires Current(w, row) && ValidEnv(env)
    ensures Settles(SubmittedPlan(w, row, env).events, row.operationId)
  {
    hide Finishing, Accepting, Settles, ValidAnswer, CompletionError;
    FinishingSettles(row, SubmissionUnknown, Some(SUBMISSION_UNKNOWN), None, env.now);
    FinishingSettles(row, Cancelled, Some(CANCELLED), None, env.now);
    if env.answer.Some? {
      var o := env.answer.value;
      if o.kind.IsComplete? {
        AcceptingSettles(w, row, o, env);
      } else {
        FailingSettles(row, o.error, env.now);
        FinishingSettles(row, Refused, Some(if o.error.Some? then o.error.value else REFUSED), None, env.now);
        SaveSettles(RunningRow(row, o, env.now), row.operationId);
      }
    }
  }

  lemma PollSettles(w: World, row: Row, env: Env)
    requires Current(w, row) && w.slot == Some(row.operationId) && ValidEnv(env) && !Terminal(row.state)
    ensures Settles(PollPlan(w, env).events, row.operationId)
  {
    hide Finishing, Accepting, Completing, Settles, ValidAnswer, CompletionError, FromCheckpoint;
    NothingSettles(row.operationId);
    if row.state.Validating? {
      if FromCheckpoint(row.checkpoint).Some? {
        CompletingSettles(w, row, FromCheckpoint(row.checkpoint).value, env);
      }
    } else if row.handle.Some? {
      FinishingSettles(row, Timeout, Some(TIMEOUT), None, env.now);
      FinishingSettles(row, Cancelled, Some(CANCELLED), None, env.now);
      SaveSettles(row.(updatedAt := env.now), row.operationId);
      if env.answer.Some? {
        FailingSettles(row, env.answer.value.error, env.now);
        FinishingSettles(row, Refused,
                         Some(if env.answer.value.error.Some? then env.answer.value.error.value else REFUSED),
                         None, env.now);
        if env.answer.value.kind.IsComplete? {
          AcceptingSettles(w, row, env.answer.value, env);
        }
      }
    }
  }

  lemma CancelAnsweredSettles(row: Row, env: Env)
    ensures Settles(CancelAnswered(row, env).events, row.operationId)
  {
    hide Finishing, Settles;
    NothingSettles(row.operationId);
    if env.answer.Some? {
      FailingSettles(row, env.answer.value.error, env.now);
      FinishingSettles(row, Refused,
                       Some(if env.answer.value.error.Some? then env.answer.value.error.value else REFUSED),
                       None, env.now);
      FinishingSettles(row, Cancelled, Some(CANCELLED), None, env.now);
      if env.answer.value.kind.IsCancelled? {
        ConfirmingSettles(row, env.now);
      }
    }
  }

  lemma ConfirmingSettles(row: Row, now: int)
    ensures var done := Cancelling(row, now);
            Settles(done.events + [RowSaved(done.row.value.(cancelConfirmedAt := Some(now), updatedAt := now))],
                    row.operationId)
  {
    var done := Cancelling(row, now);
    assert HoldReconciled(row.operationId, None) in done.events
           + [RowSaved(done.row.value.(cancelConfirmedAt := Some(now), updatedAt := now))];
  }

  lemma CancelSettles(w: World, row: Row, env: Env)
    requires Current(w, row) && !Terminal(row.state)
    ensures Settles(CancelPlan(w, row.operationId, env).events, row.operationId)
  {
    hide CancelAnswered, Settles;
    NothingSettles(row.operationId);
    CancelAnsweredSettles(row, env);
    if row.cancelRequestedAt.None? {
      var asked := CancelRow(row, env.now);
      CancelAnsweredSettles(asked, env);
      MoreSettles(RowSaved(asked), if asked.handle.None? then [] else CancelAnswered(asked, env).events,
                  row.operationId);
    } else {
      var rest: seq<Event> := if row.handle.None? then [] else CancelAnswered(row, env).events;
      assert [] + rest == rest;
    }
  }

  /** Any call that concerns the active request settles its reservation exactly if it ends it. */
  lemma CallSettles(w: World, c: Call, op: string)
    requires Inv(w) && Possible(w, c) && w.slot == Some(op) && !Elsewhere(c, op)
    ensures Settles(EventsOf(w, c), op)
  {
    hide Inv, Settles, SubmittedPlan, PollPlan, CancelPlan, Finishing, ValidEnv, RowOk;
    ActiveIsCurrent(w);
    var row := ActiveRow(w).value;
    NothingSettles(op);
    match c {
      case Submit(env) =>
        if env.enabled && row.state.Admitted? {
          var claim, enter := SubmissionClaimed(op, env.now), SubmitEntered(op);
          AdmittedIsUnsubmitted(w, row);
          ClaimIsLegal(w, row, env.now);
          var v, claimed := Apply(Apply(w, claim), enter), Apply(w, claim).rows[op];
          assert claimed.operationId == op;
          hide Apply;
          var rest := SubmittedPlan(v, claimed, env).events;
          SubmittedSettles(v, claimed, env);
          MoreSettles(enter, rest, op);
          MoreSettles(claim, [enter] + rest, op);
          assert [claim] + ([enter] + rest) == [claim, enter] + rest;
        }
      case Recover(env) =>
        FinishingSettles(row, SubmissionUnknown, Some(SUBMISSION_UNKNOWN), None, env.now);
      case Poll(env) =>
        PollSettles(w, row, env);
      case Cancel(_, env) =>
        CancelSettles(w, row, env);
    }
  }

  // ---- whole calls leave no gap ------------------------------------------------------------------

  ghost predicate NoGap(w: World) {
    forall op :: !Gap(w, op)
  }

  lemma {:induction false} SettledAfter(w: World, es: seq<Event>, e: Event)
    requires Inv(w) && LegalAll(w, es) && e in es && e.HoldReconciled?
    ensures e.operation in After(w, es).holds && !After(w, es).holds[e.operation].state.Reserved?
  {
    hide Inv, Legal, Apply;
    var n := |es| - 1;
    if es[n] == e {
      ReconciledNow(After(w, es[..n]), e);
    } else {
      SettledAfter(w, es[..n], e);
      InvariantKept(w, es[..n]);
      SettledStays(After(w, es[..n]), es[n], e.operation);
    }
  }

  lemma ReconciledNow(w: World, e: Event)
    requires e.HoldReconciled? && Legal(w, e)
    ensures e.operation in Apply(w, e).holds && !Apply(w, e).holds[e.operation].state.Reserved?
  {
  }

  lemma SettledStays(w: World, e: Event, op: string)
    requires Inv(w) && Legal(w, e) && op in w.holds && !w.holds[op].state.Reserved?
    ensures op in Apply(w, e).holds && Apply(w, e).holds[op] == w.holds[op]
  {
    hide RowOk, EntriesOk, IndexOk, SaveOk, BlockingState, FromCheckpoint;
    HoldsCover(w, op);
  }

  lemma {:induction false} UnendedStays(w: World, es: seq<Event>, op: string)
    requires op in w.rows && !Terminal(w.rows[op].state) && LegalAll(w, es)
    requires forall e :: e in es && e.RowSaved? ==> !Terminal(e.row.state)
    ensures op in After(w, es).rows && !Terminal(After(w, es).rows[op].state)
  {
    hide Legal, Apply;
    if es != [] {
      var n := |es| - 1;
      UnendedStays(w, es[..n], op);
      UnendedNow(After(w, es[..n]), es[n], op);
    }
  }

  lemma UnendedNow(w: World, e: Event, op: string)
    requires op in w.rows && !Terminal(w.rows[op].state) && Legal(w, e)
    requires e.RowSaved? ==> !Terminal(e.row.state)
    ensures op in Apply(w, e).rows && !Terminal(Apply(w, e).rows[op].state)
  {
    hide RowOk, SaveOk, BlockingState, FromCheckpoint;
  }

  lemma NoGapAt(w: World, c: Call, op: string)
    requires Inv(w) && Possible(w, c) && NoGap(w)
    ensures !Gap(After(w, EventsOf(w, c)), op)
  {
    hide Inv, LegalAll, EventsOf, Possible, After, Later, RowOk, Current;
    if op !in w.rows {
      NewIsUnfinished(w, c, op);
    } else if Terminal(w.rows[op].state) {
      assert !Gap(w, op);
      HoldsCover(w, op);
      CallIsLegal(w, c);
      OnlyForward(w, EventsOf(w, c));
      SettledForGood(w, After(w, EventsOf(w, c)), op);
    } else {
      ActiveLeavesNoGap(w, c, op);
    }
  }

  lemma ActiveLeavesNoGap(w: World, c: Call, op: string)
    requires Inv(w) && Possible(w, c) && op in w.rows && !Terminal(w.rows[op].state)
    ensures !Gap(After(w, EventsOf(w, c)), op)
  {
    hide Inv, LegalAll, EventsOf, StepEvents, Possible, After, RowOk, Current, At;
    var es := EventsOf(w, c);
    ActiveIsUnfinished(w, op);
    if Elsewhere(c, op) {
      ElsewhereIsQuiet(w, Step(c, |es|), op);
      WholeStep(w, c);
      RowIsAt(w, After(w, es), op);
    } else {
      CallIsLegal(w, c);
      CallSettles(w, c, op);
      if e :| e in es && e.HoldReconciled? {
        SettledAfter(w, es, e);
      } else {
        UnendedStays(w, es, op);
      }
    }
  }

  lemma WholeStep(w: World, c: Call)
    requires Possible(w, c)
    ensures StepEvents(w, Step(c, |EventsOf(w, c)|)) == EventsOf(w, c)
  {
    hide EventsOf, Possible;
    var es := EventsOf(w, c);
    assert es[..|es|] == es;
  }

  lemma SettledForGood(w: World, v: World, op: string)
    requires Later(w, v) && op in w.rows && op in w.holds && !w.holds[op].state.Reserved?
    ensures op in v.holds && v.holds[op] == w.holds[op]
  {
    hide RowLater;
    assert EntryLater(At(w, op), At(v, op));
  }

  lemma {:induction false} UnmentionedIsAbsent(w: World, es: seq<Event>, op: string)
    requires op !in w.rows && forall e :: e in es ==> !e.RowAdmitted?
    ensures op !in After(w, es).rows
  {
    hide Apply;
    if es != [] {
      UnmentionedIsAbsent(w, es[..|es| - 1], op);
      AbsentNow(After(w, es[..|es| - 1]), es[|es| - 1], op);
    }
  }

  lemma AbsentNow(w: World, e: Event, op: string)
    requires op !in w.rows && !e.RowAdmitted?
    ensures op !in Apply(w, e).rows
  {
  }

  /** Whether the call is about the active request. */
  predicate Concerns(w: World, c: Call) {
    w.slot.Some? && !Elsewhere(c, w.slot.value)
  }

  /** Any other call admits a request, or saves cleanups, or does nothing. */
  lemma OtherCallsArePlain(w: World, c: Call)
    requires Inv(w) && Possible(w, c) && !Concerns(w, c)
    ensures forall e :: e in EventsOf(w, c) ==> if c.Admit? then e.RowAdmitted? else e.RowSaved?
  {
    hide Inv, AdmissionPlan, Releasing, CancelPlan, SubmissionPlan, RecoverPlan, PollPlan, Listing, ValidEnv;
    match c {
      case Admit(req, a) => AdmissionsArePlain(w, req, a);
      case Release(rows, outcomes, _, now) =>
      case Cancel(op, env) =>
        if op in w.rows {
          ActiveIsUnfinished(w, op);
        }
        hide RowOk, Current;
        FinishedCancelIsNothing(w, op, env);
      case Submit(env) => IdleIsNothing(w, env);
      case Recover(env) => IdleIsNothing(w, env);
      case Poll(env) => IdleIsNothing(w, env);
    }
  }

  lemma AdmissionsArePlain(w: World, req: Request, a: Admission)
    ensures forall e :: e in AdmissionPlan(w, req, a).events ==> e.RowAdmitted?
  {
    hide WellFormed, ReplayMatches, BlockingState, FindByClient, NewRow;
  }

  lemma FinishedCancelIsNothing(w: World, op: string, env: Env)
    requires op in w.rows ==> Terminal(w.rows[op].state)
    ensures CancelPlan(w, op, env).events == []
  {
  }

  lemma IdleIsNothing(w: World, env: Env)
    requires w.slot.None? && ValidEnv(env)
    ensures SubmissionPlan(w, env).events == [] && RecoverPlan(w, env).events == [] && PollPlan(w, env).events == []
  {
  }

  lemma OnlyAdmissionAdmits(w: World, c: Call)
    requires Inv(w) && Possible(w, c) && !c.Admit?
    ensures forall e :: e in EventsOf(w, c) ==> !e.RowAdmitted?
  {
    hide Inv, EventsOf, Possible;
    if Concerns(w, c) {
      CallSettles(w, c, w.slot.value);
    } else {
      OtherCallsArePlain(w, c);
    }
  }

  /** A request that is new after a call was admitted by it, and is unfinished. */
  lemma NewIsUnfinished(w: World, c: Call, op: string)
    requires Inv(w) && Possible(w, c) && op !in w.rows
    ensures var v := After(w, EventsOf(w, c)); op in v.rows ==> !Terminal(v.rows[op].state)
  {
    if c.Admit? {
      AdmittedIsUnfinished(w, c.request, c.admission, op);
    } else {
      hide EventsOf, Possible, Inv, After;
      OnlyAdmissionAdmits(w, c);
      UnmentionedIsAbsent(w, EventsOf(w, c), op);
    }
  }

  lemma AdmittedIsUnfinished(w: World, req: Request, a: Admission, op: string)
    requires op !in w.rows
    ensures var v := After(w, AdmissionPlan(w, req, a).events); op in v.rows ==> !Terminal(v.rows[op].state)
  {
    hide BlockingState, WellFormed, ReplayMatches, FindByClient, Fingerprint, After;
    var es := AdmissionPlan(w, req, a).events;
    if es == [] {
      SavesOfNone(w);
    } else {
      var row := NewRow(req, a);
      assert es == [RowAdmitted(row)];
      After1(w, RowAdmitted(row));
    }
  }

  /** The ledger never falls behind a call that runs to its end. */
  lemma WholeCallsLeaveNoGap(w: World, c: Call)
    requires Inv(w) && Possible(w, c) && NoGap(w)
    ensures NoGap(After(w, EventsOf(w, c)))
  {
    hide Inv, EventsOf, Possible, After, Gap;
    forall op
      ensures !Gap(After(w, EventsOf(w, c)), op)
    {
      NoGapAt(w, c, op);
    }
  }

  // ---- nothing closes a gap ------------------------------------------------------------------------

  lemma {:induction false} HoldUntouched(w: World, es: seq<Event>, op: string)
    requires Inv(w) && LegalAll(w, es) && op in w.rows && forall e :: e in es && e.HoldReconciled? ==> e.operation != op
    ensures op in After(w, es).rows && op in After(w, es).holds && After(w, es).holds[op] == w.holds[op]
  {
    hide Inv, Legal, Apply;
    HoldsCover(w, op);
    if es != [] {
      var n := |es| - 1;
      HoldUntouched(w, es[..n], op);
      HoldUntouchedNow(After(w, es[..n]), es[n], op);
    }
  }

  lemma HoldUntouchedNow(w: World, e: Event, op: string)
    requires op in w.rows && op in w.holds && Legal(w, e) && (e.HoldReconciled? ==> e.operation != op)
    ensures op in Apply(w, e).rows && op in Apply(w, e).holds && Apply(w, e).holds[op] == w.holds[op]
  {
    hide RowOk, SaveOk, BlockingState, FromCheckpoint;
  }

  lemma SettlesOnlyTheActive(w: World, c: Call)
    requires Inv(w) && Possible(w, c)
    ensures forall e :: e in EventsOf(w, c) && e.HoldReconciled? ==> w.slot == Some(e.operation)
  {
    hide Inv, EventsOf, Possible;
    if Concerns(w, c) {
      CallSettles(w, c, w.slot.value);
    } else {
      OtherCallsArePlain(w, c);
    }
  }

  /** No call, whole or cut, settles a reservation its request has already outlived. */
  lemma GapStays(w: World, op: string, s: Step)
    requires Inv(w) && Possible(w, s.call) && Gap(w, op)
    ensures Gap(After(w, StepEvents(w, s)), op)
  {
    hide Inv, EventsOf, Possible, After, LegalAll, Later;
    var es := StepEvents(w, s);
    ActiveIsUnfinished(w, op);
    SettlesOnlyTheActive(w, s.call);
    StepIsLegal(w, s);
    assert forall e :: e in es && e.HoldReconciled? ==> e.operation != op;
    HoldUntouched(w, es, op);
    OnlyForward(w, es);
    EndedStays(w, After(w, es), op);
  }

  lemma EndedStays(w: World, v: World, op: string)
    requires Later(w, v) && op in w.rows && Terminal(w.rows[op].state)
    ensures op in v.rows && Terminal(v.rows[op].state)
  {
    assert EntryLater(At(w, op), At(v, op));
  }

  /** A reservation that blocks admission: a gap, or one settled without a known cost. */
  predicate Unsettled(w: World, op: string) {
    Gap(w, op) || (op in w.holds && op in w.rows && w.holds[op].state.Unknown?)
  }

  lemma UnsettledStays(w: World, op: string, s: Step)
    requires Inv(w) && Possible(w, s.call) && Unsettled(w, op)
    ensures Unsettled(After(w, StepEvents(w, s)), op)
  {
    hide Inv, StepEvents, Possible, After, LegalAll, Later, Gap;
    if Gap(w, op) {
      GapStays(w, op, s);
    } else {
      StepIsLegal(w, s);
      OnlyForward(w, StepEvents(w, s));
      SettledForGood(w, After(w, StepEvents(w, s)), op);
      KeptRow(w, After(w, StepEvents(w, s)), op);
    }
  }

  lemma KeptRow(w: World, v: World, op: string)
    requires Later(w, v) && op in w.rows
    ensures op in v.rows
  {
    hide EntryLater;
  }

  lemma UnsettledRefuses(w: World, op: string)
    requires Unsettled(w, op)
    ensures forall req, a :: AdmissionPlan(w, req, a).events == []
  {
    assert BlockingState(w).Some?;
    hide BlockingState, WellFormed, ReplayMatches, FindByClient, NewRow;
  }

  /** After one crash in the gap, or one request of unknown cost, no run ever admits a request again. */
  lemma {:induction false} UnsettledBlocksForever(w: World, op: string, steps: seq<Step>)
    requires Inv(w) && Unsettled(w, op) && PossibleRun(w, steps)
    ensures var v := After(w, RunEvents(w, steps));
            Unsettled(v, op) && forall req, a :: AdmissionPlan(v, req, a).events == []
    decreases |steps|
  {
    hide Inv, LegalAll, StepEvents, After, EventsOf, Possible, Unsettled, AdmissionPlan;
    if steps == [] {
      UnsettledRefuses(w, op);
      assert After(w, []) == w by { SavesOfNone(w); }
    } else {
      var es := StepEvents(w, steps[0]);
      var v := After(w, es);
      UnsettledStays(w, op, steps[0]);
      StepIsLegal(w, steps[0]);
      UnsettledBlocksForever(v, op, steps[1..]);
      AfterConcat(w, es, RunEvents(v, steps[1..]));
    }
  }
}
