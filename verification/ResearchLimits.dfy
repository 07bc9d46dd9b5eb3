// Replays, lost submissions, requests no call can finish, and the ledger behind a crash.

module ResearchLimits {
  import opened Text
  import opened ResearchDomain
  import opened ResearchStore
  import opened Research
  import opened ResearchLaws
  import opened ResearchSteps

  // ---- replay ------------------------------------------------------------------------------

  predicate Legacy(p: Profile) {
    p.configurationVersion == LEGACY_PROFILE_VERSION
  }

  /** Whether a later request repeats an earlier one. Consent is not compared for legacy profiles. */
  predicate Repeats(earlier: Request, p: Profile, later: Request) {
    later.kind == earlier.kind && later.prompt == earlier.prompt && (Legacy(p) || later.consent == earlier.consent)
  }

  lemma IndexedIsFound(w: World, op: string)
    requires Inv(w) && op in w.rows
    ensures FindByClient(w, w.rows[op].owner, w.rows[op].clientId) == Some(w.rows[op])
  {
    hide RowOk, HoldOk, DocumentOk, IndexOk, DomainsOk;
    assert EntryOk(At(w, op));
  }

  lemma AdmissionStores(w: World, req: Request, a: Admission)
    requires Inv(w) && AdmissionPlan(w, req, a).receipt.Accepted? && AdmissionPlan(w, req, a).receipt.newlyAdmitted
    ensures var v := After(w, AdmissionPlan(w, req, a).events);
            Inv(v) && a.selection.Selected? && RowOf(v, a.operation) == Some(NewRow(req, a))
  {
    hide Inv, LegalAll, BlockingState, WellFormed, ReplayMatches, FindByClient, NewRow, After, Apply;
    AdmissionIsLegal(w, req, a);
    InvariantKept(w, AdmissionPlan(w, req, a).events);
    var row := NewRow(req, a);
    After1(w, RowAdmitted(row));
    assert AdmissionPlan(w, req, a).events == [RowAdmitted(row)];
    NewRowStored(w, req, a);
  }

  lemma NewRowStored(w: World, req: Request, a: Admission)
    requires a.selection.Selected?
    ensures RowOf(Apply(w, RowAdmitted(NewRow(req, a))), a.operation) == Some(NewRow(req, a))
  {
    hide Fingerprint;
  }

  /**
   * Once a request is admitted, and after any further run, the same client identifier is answered from
   * the stored row whatever configuration, guard or budget then say, and nothing is written: the row itself
   * for a repeat, a conflict for anything else.
   */
  lemma ReplayAnswersFromTheStore(w: World, first: Request, a: Admission, steps: seq<Step>, later: Request,
                                  b: Admission)
    requires Inv(w) && AdmissionPlan(w, first, a).receipt.Accepted? && AdmissionPlan(w, first, a).receipt.newlyAdmitted
    requires PossibleRun(After(w, AdmissionPlan(w, first, a).events), steps)
    requires WellFormed(later) && later.owner == first.owner && later.clientId == first.clientId
    ensures a.selection.Selected?
    ensures var v := After(w, AdmissionPlan(w, first, a).events);
            var u := After(v, RunEvents(v, steps));
            var plan := AdmissionPlan(u, later, b);
            && a.operation in u.rows
            && plan.events == []
            && plan.receipt == if Repeats(first, a.selection.profile, later) then Accepted(u.rows[a.operation], false)
                               else Refusal(IDEMPOTENCY_CONFLICT)
  {
    hide Inv, LegalAll, RunEvents, PossibleRun, BlockingState, Fingerprint, WellFormed, After, Apply, RowOk, HoldOk,
         DocumentOk, StoreAdmit;
    AdmissionStores(w, first, a);
    var v := After(w, AdmissionPlan(w, first, a).events);
    hide AdmissionPlan;
    RunIsLegal(v, steps);
    OnlyForward(v, RunEvents(v, steps));
    var u := After(v, RunEvents(v, steps));
    var op := a.operation;
    assert op in u.rows && EntryLater(At(v, op), At(u, op));
    var row := u.rows[op];
    assert SameRequest(NewRow(first, a), row);
    IndexedIsFound(u, op);
    FingerprintIdentifies(first.owner, first.kind, first.prompt, first.consent, later.owner, later.kind, later.prompt,
                          later.consent);
    ReplayOnRow(u, row, later, b);
  }

  lemma ReplayOnRow(u: World, row: Row, later: Request, b: Admission)
    requires FindByClient(u, later.owner, later.clientId) == Some(row) && WellFormed(later)
    ensures var plan := AdmissionPlan(u, later, b);
            plan.events == []
            && plan.receipt == if ReplayMatches(row, later) then Accepted(row, false) else Refusal(IDEMPOTENCY_CONFLICT)
  {
  }

  // ---- calls that do not concern the active request ------------------------------------------

  lemma {:induction false} NotTargeted(w: World, es: seq<Event>, op: string)
    requires Inv(w) && LegalAll(w, es) && op in w.rows && forall i :: 0 <= i < |es| ==> Target(es[i]) != op
    ensures op in After(w, es).rows && At(After(w, es), op) == At(w, op)
  {
    hide Legal, Inv, Apply, At;
    if es != [] {
      var n := |es| - 1;
      NotTargeted(w, es[..n], op);
      InvariantKept(w, es[..n]);
      StoredIsIndexed(After(w, es[..n]), es[n], op);
      OthersUntouched(After(w, es[..n]), es[n], op);
    }
  }

  lemma StoredIsIndexed(w: World, e: Event, op: string)
    requires Inv(w) && op in w.rows && Legal(w, e)
    ensures At(w, op).indexed
    ensures e.RowAdmitted? ==> w.slot.None? && (e.row.owner, e.row.clientId) !in w.clients
  {
    hide RowOk, HoldOk, DocumentOk, IndexOk, DomainsOk, SaveOk, BlockingState;
    assert EntryOk(At(w, op));
  }

  lemma {:induction false} ReleaseTargets(rows: seq<Row>, outcomes: seq<Option<Cleanup>>, now: int, k: nat)
    requires |outcomes| == |rows| && k < |Releasing(rows, outcomes, now)|
    ensures exists i :: 0 <= i < |rows| && rows[i].operationId == Releasing(rows, outcomes, now)[k].operationId
  {
    var n := |rows| - 1;
    if k < |Releasing(rows[..n], outcomes[..n], now)| {
      ReleaseTargets(rows[..n], outcomes[..n], now, k);
      var i :| 0 <= i < n && rows[..n][i].operationId == Releasing(rows[..n], outcomes[..n], now)[k].operationId;
      assert rows[i] == rows[..n][i];
    } else {
      assert rows[n].operationId == Releasing(rows, outcomes, now)[k].operationId;
    }
  }

  /** Admitting, cleaning up, and cancelling some other request. */
  predicate Elsewhere(c: Call, op: string) {
    c.Admit? || c.Release? || (c.Cancel? && c.operation != op)
  }

  lemma ActiveIsUnfinished(w: World, op: string)
    requires Inv(w) && op in w.rows
    ensures w.slot == Some(op) <==> !Terminal(w.rows[op].state)
    ensures RowOk(w.rows[op]) && Current(w, w.rows[op]) && w.rows[op].operationId == op
  {
    hide RowOk, HoldOk, DocumentOk, IndexOk, DomainsOk;
    assert EntryOk(At(w, op));
  }

  lemma ElsewhereMissesActive(w: World, c: Call, op: string)
    requires Inv(w) && Possible(w, c) && w.slot == Some(op) && Elsewhere(c, op)
    ensures forall i :: 0 <= i < |EventsOf(w, c)| ==> Target(EventsOf(w, c)[i]) != op
  {
    hide Inv, RowOk, Releasing, CancelAnswered, WellFormed, ReplayMatches, BlockingState, CancelRow;
    assert op in w.rows by { ActiveIsCurrent(w); }
    ActiveIsUnfinished(w, op);
    match c {
      case Admit(_, _) =>
      case Cancel(other, _) =>
        if other in w.rows {
          ActiveIsUnfinished(w, other);
        }
      case Release(rows, outcomes, _, now) =>
        var saved := Releasing(rows, outcomes, now);
        forall i | 0 <= i < |saved|
          ensures saved[i].operationId != op
        {
          ReleaseTargets(rows, outcomes, now, i);
        }
    }
  }

  /** Such a call leaves everything stored about the active request as it is, wherever it is cut. */
  lemma ElsewhereIsQuiet(w: World, s: Step, op: string)
    requires Inv(w) && Possible(w, s.call) && w.slot == Some(op) && Elsewhere(s.call, op)
    ensures op in w.rows && op in After(w, StepEvents(w, s)).rows && At(After(w, StepEvents(w, s)), op) == At(w, op)
  {
    hide Inv, LegalAll, EventsOf, Possible, After, At;
    assert op in w.rows by { ActiveIsCurrent(w); }
    ElsewhereMissesActive(w, s.call, op);
    StepIsLegal(w, s);
    NotTargeted(w, StepEvents(w, s), op);
  }

  // ---- a submission lost in a crash --------------------------------------------------------------

  /** A cancellation of a request the provider has not named only records itself. */
  lemma CancelWithoutHandle(w: World, op: string, env: Env)
    requires op in w.rows && !Terminal(w.rows[op].state) && w.rows[op].handle.None?
    ensures CancelPlan(w, op, env).events
            == if w.rows[op].cancelRequestedAt.None? then [RowSaved(CancelRow(w.rows[op], env.now))] else []
  {
  }

  lemma CutOfOne(w: World, e: Event, n: nat)
    ensures After(w, if n <= 1 then [e][..n] else [e]) == if n == 0 then w else Apply(w, e)
  {
    After1(w, e);
    assert [e][..0] == [] && [e][..1] == [e];
  }

  /** What a claimed, unanswered request is after a call. */
  predicate LossFate(row: Row, s: Step, next: Option<Row>) {
    && next.Some?
    && (next.value.state.SubmissionUnknown? <==> s.call.Recover? && s.survived >= 1)
    && (next.value.state.CancelRequested? <==> s.call.Cancel? && s.call.operation == row.operationId && s.survived >= 1)
    && (!next.value.state.SubmissionUnknown? && !next.value.state.CancelRequested? ==> next.value == row)
  }

  predicate SubmitsNothing(es: seq<Event>) {
    forall i :: 0 <= i < |es| ==> !es[i].SubmitEntered?
  }

  /**
   * A request found between its claim and the provider's answer. Only recovery classifies it, as an
   * unknown submission; only its own cancellation changes it otherwise; no call submits it again.
   */
  lemma LostSubmission(w: World, op: string, s: Step)
    requires Inv(w) && op in w.rows && w.rows[op].state.Submitting? && Possible(w, s.call)
    ensures LossFate(w.rows[op], s, RowOf(After(w, StepEvents(w, s)), op)) && SubmitsNothing(StepEvents(w, s))
  {
    hide GoodCheckpoint, Inv, Possible, After, StepEvents, LossFate, SubmitsNothing, EventsOf;
    var row := w.rows[op];
    ActiveIsUnfinished(w, op);
    assert row.handle.None? && row.cancelRequestedAt.None? && row.operationId == op;
    hide RowOk, CancelRow, At, Current;
    if Elsewhere(s.call, op) {
      ElsewhereKeepsLost(w, row, s);
      OnlySubmissionSubmits(w, s);
    } else if s.call.Recover? {
      RecoverFromLoss(w, row, s);
    } else if s.call.Cancel? {
      CancelOfLost(w, row, s);
    } else {
      ClaimedIsNotReclaimed(w, row, s);
    }
  }

  lemma ElsewhereKeepsLost(w: World, row: Row, s: Step)
    requires Inv(w) && Current(w, row) && row.state.Submitting? && w.slot == Some(row.operationId)
    requires Possible(w, s.call) && Elsewhere(s.call, row.operationId)
    ensures LossFate(row, s, RowOf(After(w, StepEvents(w, s)), row.operationId))
  {
    hide Inv, Possible, StepEvents, After, At;
    ElsewhereIsQuiet(w, s, row.operationId);
    RowIsAt(w, After(w, StepEvents(w, s)), row.operationId);
  }

  lemma RowIsAt(w: World, v: World, op: string)
    requires op in w.rows && op in v.rows && At(w, op) == At(v, op)
    ensures w.rows[op] == v.rows[op]
  {
    assert At(w, op).row == At(v, op).row;
  }

  lemma OnlySubmissionSubmits(w: World, s: Step)
    requires Possible(w, s.call) && (s.call.Admit? || s.call.Release? || s.call.Cancel?)
    ensures SubmitsNothing(StepEvents(w, s))
  {
    OnlySubmissionSubmitsEver(w, s.call);
    hide EventsOf, Possible;
  }

  lemma OnlySubmissionSubmitsEver(w: World, c: Call)
    requires Possible(w, c) && (c.Admit? || c.Release? || c.Cancel?)
    ensures SubmitsNothing(EventsOf(w, c))
  {
    hide Releasing, BlockingState, WellFormed, ReplayMatches, Listing, FinishedRow, CancelRow;
  }

  /** Submission looks for an admitted request and polling for one in flight. */
  lemma ClaimedIsNotReclaimed(w: World, row: Row, s: Step)
    requires Current(w, row) && row.state.Submitting? && w.slot == Some(row.operationId)
    requires Possible(w, s.call) && (s.call.Submit? || s.call.Poll?)
    ensures LossFate(row, s, RowOf(After(w, StepEvents(w, s)), row.operationId)) && SubmitsNothing(StepEvents(w, s))
  {
    assert EventsOf(w, s.call) == [];
    hide SubmittedPlan, Completing, Accepting, Finishing;
  }

  lemma CancelOfLost(w: World, row: Row, s: Step)
    requires Current(w, row) && row.state.Submitting? && row.handle.None? && row.cancelRequestedAt.None?
    requires s.call.Cancel? && s.call.operation == row.operationId && Possible(w, s.call)
    ensures LossFate(row, s, RowOf(After(w, StepEvents(w, s)), row.operationId)) && SubmitsNothing(StepEvents(w, s))
  {
    var e := RowSaved(CancelRow(row, s.call.env.now));
    assert EventsOf(w, s.call) == [e] by { CancelWithoutHandle(w, row.operationId, s.call.env); }
    CutOfOne(w, e, s.survived);
    assert Stored(row, CancelRow(row, s.call.env.now)) == CancelRow(row, s.call.env.now);
    hide After, EventsOf, Possible;
  }

  lemma RecoverFromLoss(w: World, row: Row, s: Step)
    requires Current(w, row) && row.state.Submitting? && w.slot == Some(row.operationId) && s.call.Recover?
             && Possible(w, s.call)
    ensures LossFate(row, s, RowOf(After(w, StepEvents(w, s)), row.operationId)) && SubmitsNothing(StepEvents(w, s))
  {
    var lost := FinishedRow(row, SubmissionUnknown, Some(SUBMISSION_UNKNOWN), Unknown, s.call.env.now);
    var save, settle := RowSaved(lost), HoldReconciled(row.operationId, None);
    assert EventsOf(w, s.call) == [save, settle];
    hide EventsOf, After, Possible;
    After1(w, save);
    AfterTwo(w, save, settle, []);
    assert [save, settle] + [] == [save, settle];
    assert [save, settle][..0] == [] && [save, settle][..1] == [save] && [save, settle][..2] == [save, settle];
    assert After(w, []) == w by { SavesOfNone(w); }
  }

  // ---- requests no call can finish -------------------------------------------------------------

  /** Submitted or cancelled without a remote name to poll by. */
  predicate Stuck(row: Row) {
    row.handle.None? && (row.state.Running? || row.state.CancelRequested?)
  }

  lemma StuckStays(w: World, op: string, s: Step)
    requires Inv(w) && op in w.rows && Stuck(w.rows[op]) && Possible(w, s.call)
    ensures var v := After(w, StepEvents(w, s)); op in v.rows && Stuck(v.rows[op])
  {
    hide GoodCheckpoint, Inv, Possible, After, StepEvents, EventsOf;
    ActiveIsUnfinished(w, op);
    hide RowOk, CancelRow, At, Current;
    if Elsewhere(s.call, op) {
      ElsewhereIsQuiet(w, s, op);
      RowIsAt(w, After(w, StepEvents(w, s)), op);
    } else if s.call.Cancel? {
      CancelOfStuck(w, op, s);
    } else {
      StuckIsPassedOver(w, op, s);
    }
  }

  lemma StuckIsPassedOver(w: World, op: string, s: Step)
    requires op in w.rows && Stuck(w.rows[op]) && w.slot == Some(op)
    requires Possible(w, s.call) && (s.call.Submit? || s.call.Poll? || s.call.Recover?)
    ensures After(w, StepEvents(w, s)) == w
  {
    assert EventsOf(w, s.call) == [] by { hide SubmittedPlan, Completing, Accepting, Finishing; }
    hide EventsOf, Possible;
  }

  lemma CancelOfStuck(w: World, op: string, s: Step)
    requires op in w.rows && Stuck(w.rows[op]) && w.rows[op].operationId == op
    requires s.call.Cancel? && s.call.operation == op && Possible(w, s.call)
    ensures var v := After(w, StepEvents(w, s)); op in v.rows && Stuck(v.rows[op])
  {
    var e := RowSaved(CancelRow(w.rows[op], s.call.env.now));
    CancelWithoutHandle(w, op, s.call.env);
    assert EventsOf(w, s.call) == [] || EventsOf(w, s.call) == [e];
    assert Stored(w.rows[op], e.row) == e.row;
    hide EventsOf, Possible;
    CutOfOne(w, e, s.survived);
    assert StepEvents(w, s) == [] || StepEvents(w, s) == if s.survived <= 1 then [e][..s.survived] else [e];
    assert After(w, []) == w by { SavesOfNone(w); }
    hide After;
  }

  /** Such a request stays, keeps the slot, and no other is ever admitted. */
  lemma {:induction false} StuckForever(w: World, op: string, steps: seq<Step>)
    requires Inv(w) && op in w.rows && Stuck(w.rows[op]) && PossibleRun(w, steps)
    ensures var v := After(w, RunEvents(w, steps)); op in v.rows && Stuck(v.rows[op]) && v.slot == Some(op)
    ensures forall req, a :: AdmissionPlan(After(w, RunEvents(w, steps)), req, a).events == []
    decreases |steps|
  {
    hide AdmissionPlan, Inv, LegalAll, StepEvents, After, EventsOf, Possible;
    if steps == [] {
      ActiveIsUnfinished(w, op);
      HeldSlotRefuses(w);
      assert After(w, []) == w by { SavesOfNone(w); }
    } else {
      var es := StepEvents(w, steps[0]);
      var v := After(w, es);
      StuckStays(w, op, steps[0]);
      StepIsLegal(w, steps[0]);
      StuckForever(v, op, steps[1..]);
      AfterConcat(w, es, RunEvents(v, steps[1..]));
    }
  }

  lemma HeldSlotRefuses(v: World)
    requires v.slot.Some?
    ensures forall req, a :: AdmissionPlan(v, req, a).events == []
  {
    hide BlockingState, WellFormed, ReplayMatches, FindByClient, NewRow;
  }

  /** The call that finishes a request which is not stuck. */
  function Finisher(row: Row): Call {
    var calm := Env(row.admittedAt + row.deadlineSeconds * 1000, true, None, true, "", None);
    if row.state.Admitted? then Submit(calm) else if row.state.Submitting? then Recover(calm) else Poll(calm)
  }

  lemma FinishingEnds(w: World, before: seq<Event>, row: Row, state: Lifecycle, code: Option<ErrorCode>,
                      cost: Option<nat>, now: int)
    requires Current(After(w, before), row) && Terminal(state)
    ensures var v := After(w, before + Finishing(row, state, code, cost, now).events);
            row.operationId in v.rows && Terminal(v.rows[row.operationId].state)
  {
    assert Finishing(row, state, code, cost, now).row.value.operationId == row.operationId;
    assert Finishing(row, state, code, cost, now).row.value.state == state;
    hide After, Finishing;
    FinishedIsCurrent(After(w, before), row, state, code, cost, now);
    AfterConcat(w, before, Finishing(row, state, code, cost, now).events);
  }

  /** Every unfinished request that is not stuck is one call away from its end. */
  lemma FinisherFinishes(w: World, op: string)
    requires Inv(w) && op in w.rows && !Terminal(w.rows[op].state) && !Stuck(w.rows[op])
    ensures Possible(w, Finisher(w.rows[op]))
    ensures var v := After(w, EventsOf(w, Finisher(w.rows[op]))); op in v.rows && Terminal(v.rows[op].state)
  {
    hide Inv, After, FromCheckpoint, CompletionError, Finishing, Apply, Checkpoint;
    ActiveIsUnfinished(w, op);
    var row, now := w.rows[op], w.rows[op].admittedAt + w.rows[op].deadlineSeconds * 1000;
    assert After(w, []) == w by { SavesOfNone(w); }
    if row.state.Admitted? {
      FinishAdmitted(w, row, Finisher(row).env);
    } else if row.state.Submitting? {
      FinishingEnds(w, [], row, SubmissionUnknown, Some(SUBMISSION_UNKNOWN), None, now);
      assert [] + Losing(row, now).events == Losing(row, now).events;
    } else if row.state.Validating? {
      FinishValidating(w, row, Finisher(row).env);
    } else {
      assert row.handle.Some?;
      FinishingEnds(w, [], row, Timeout, Some(TIMEOUT), None, now);
      assert [] + Finishing(row, Timeout, Some(TIMEOUT), None, now).events
             == Finishing(row, Timeout, Some(TIMEOUT), None, now).events;
    }
  }

  lemma FinishAdmitted(w: World, row: Row, env: Env)
    requires Inv(w) && Current(w, row) && row.state.Admitted? && w.slot == Some(row.operationId) && env.enabled
             && env.answer.None?
    ensures var v := After(w, SubmissionPlan(w, env).events);
            row.operationId in v.rows && Terminal(v.rows[row.operationId].state)
  {
    hide Inv, After, Finishing;
    var op := row.operationId;
    var claim, enter := SubmissionClaimed(op, env.now), SubmitEntered(op);
    AdmittedIsUnsubmitted(w, row);
    ClaimIsLegal(w, row, env.now);
    var claimed := Apply(w, claim).rows[op];
    assert claimed.operationId == op;
    AfterTwo(w, claim, enter, []);
    assert [claim, enter] + [] == [claim, enter];
    assert After(Apply(Apply(w, claim), enter), [])
           == Apply(Apply(w, claim), enter) by { SavesOfNone(Apply(Apply(w, claim), enter)); }
    FinishingEnds(w, [claim, enter], claimed, SubmissionUnknown, Some(SUBMISSION_UNKNOWN), None, env.now);
  }

  lemma FinishValidating(w: World, row: Row, env: Env)
    requires Inv(w) && Current(w, row) && row.state.Validating? && w.slot == Some(row.operationId) && env.completes
             && ValidEnv(env)
    ensures var v := After(w, PollPlan(w, env).events);
            row.operationId in v.rows && Terminal(v.rows[row.operationId].state)
  {
    hide Inv, After, Finishing, FromCheckpoint, CompletionError, Apply, Legal;
    var op := row.operationId;
    RowIsOk(w, row);
    assert row.handle.Some? && GoodCheckpoint(row.checkpoint);
    var answer := FromCheckpoint(row.checkpoint).value;
    var bound := ResultCompleted(op, answer, row.handle.value, env.recordId, env.now);
    BindingIsLegal(w, row, answer, env.recordId, env.now);
    After1(w, bound);
    var current := Apply(w, bound).rows[op];
    var cost := if answer.usage.Some? then env.price else None;
    FinishingEnds(w, [bound], current, Saved, None, cost, env.now);
    assert PollPlan(w, env).events == [bound] + Finishing(current, Saved, None, cost, env.now).events;
  }

  /** An unfinished request can be brought to an end, by some call, exactly when it is not stuck. */
  lemma CanFinishIff(w: World, op: string)
    requires Inv(w) && op in w.rows && !Terminal(w.rows[op].state)
    ensures (exists c :: Possible(w, c) && Ends(w, c, op)) <==> !Stuck(w.rows[op])
  {
    hide Inv, Possible, EventsOf, After;
    if !Stuck(w.rows[op]) {
      FinisherFinishes(w, op);
      assert Ends(w, Finisher(w.rows[op]), op);
    } else {
      forall c | Possible(w, c)
        ensures !Ends(w, c, op)
      {
        var s := Step(c, |EventsOf(w, c)|);
        StuckStays(w, op, s);
        assert EventsOf(w, c)[..|EventsOf(w, c)|] == EventsOf(w, c);
        assert StepEvents(w, s) == EventsOf(w, c);
      }
    }
  }

  ghost predicate Ends(w: World, c: Call, op: string)
    requires Possible(w, c)
  {
    var v := After(w, EventsOf(w, c));
    op in v.rows && Terminal(v.rows[op].state)
  }
}
