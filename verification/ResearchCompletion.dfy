// A completion that commits and then raises: the coordinator saves the row it read before, and the binding is gone.

module ResearchCompletion {
  import opened Text
  import opened ResearchDomain
  import opened ResearchStore
  import opened Research
  import opened ResearchLaws

  /** `complete` commits, raises, and the row as it was before the call is saved with a new time. */
  function CommittingAndRaising(row: Row, answer: Answer, env: Env): Plan
    requires row.handle.Some?
  {
    var kept := row.(updatedAt := env.now);
    Plan([ResultCompleted(row.operationId, answer, row.handle.value, env.recordId, env.now), RowSaved(kept)],
         Some(kept))
  }

  /** The request in the slot is validating and bound to nothing, and yet its document is stored. */
  ghost predicate Orphaned(w: World, op: string) {
    && w.slot == Some(op) && op in w.rows && op in w.documents
    && w.rows[op].operationId == op && w.rows[op].state.Validating? && w.rows[op].recordId.None?
    && forall other :: other in w.rows && other != op ==> Terminal(w.rows[other].state)
  }

  /**
   * The row of a request being completed survives such a call if and only if it was bound before it; otherwise its
   * document is stored and the row no longer says so.
   */
  lemma BindingSurvivesIff(w: World, op: string, answer: Answer, env: Env)
    requires Inv(w) && op in w.rows && w.rows[op].state.Validating? && w.rows[op].handle.Some?
    ensures var row := w.rows[op];
            var v := After(w, CommittingAndRaising(row, answer, env).events);
            && op in v.rows && op in v.documents
            && (v.rows[op].recordId.Some? <==> row.recordId.Some?)
            && (row.recordId.Some? ==> v == w.(rows := w.rows[op := row.(updatedAt := env.now)]))
            && (row.recordId.None? ==> Orphaned(v, op))
  {
    var row := w.rows[op];
    var bound := ResultCompleted(op, answer, row.handle.value, env.recordId, env.now);
    ActiveRowIs(w, op);
    forall other | other in w.rows && other != op
      ensures Terminal(w.rows[other].state)
    {
      ActiveRowIs(w, other);
    }
    hide Inv, After, Apply, Orphaned;
    TwoEvents(w, bound, RowSaved(row.(updatedAt := env.now)));
    StaleSave(w, op, answer, env.recordId, env.now);
    if row.recordId.None? {
      LeftOrphaned(w, After(w, CommittingAndRaising(row, answer, env).events), op, env.now);
    }
  }

  lemma LeftOrphaned(w: World, v: World, op: string, now: int)
    requires w.slot == Some(op) && op in w.rows && w.rows[op].operationId == op && w.rows[op].state.Validating?
    requires w.rows[op].recordId.None?
             && forall other :: other in w.rows && other != op ==> Terminal(w.rows[other].state)
    requires v.rows == w.rows[op := w.rows[op].(updatedAt := now)] && v.slot == w.slot && op in v.documents
    ensures Orphaned(v, op)
  {
  }

  lemma TwoEvents(w: World, e: Event, f: Event)
    ensures After(w, [e, f]) == Apply(Apply(w, e), f)
  {
    hide Apply;
    AfterTwo(w, e, f, []);
    assert [e, f] + [] == [e, f];
  }

  /** Both transactions on the store, from what they find there. */
  lemma StaleSave(w: World, op: string, answer: Answer, recordId: string, now: int)
    requires op in w.rows && w.rows[op].operationId == op && w.rows[op].handle.Some? && !Terminal(w.rows[op].state)
    requires w.rows[op].recordId.Some? ==> op in w.documents
    ensures var row := w.rows[op];
            var v := Apply(Apply(w, ResultCompleted(op, answer, row.handle.value, recordId, now)),
                           RowSaved(row.(updatedAt := now)));
            && v.rows == w.rows[op := row.(updatedAt := now)] && v.slot == w.slot && op in v.documents
            && (row.recordId.Some? ==> v == w.(rows := v.rows))
  {
    var row := w.rows[op];
    var u := Apply(w, ResultCompleted(op, answer, row.handle.value, recordId, now));
    var kept := row.(updatedAt := now);
    assert u.rows.Keys == w.rows.Keys && Stored(u.rows[op], kept) == kept;
    assert Apply(u, RowSaved(kept)).rows == w.rows[op := kept];
  }

  lemma ActiveRowIs(w: World, op: string)
    requires Inv(w) && op in w.rows
    ensures w.slot == Some(op) <==> !Terminal(w.rows[op].state)
    ensures w.rows[op].operationId == op && (w.rows[op].recordId.Some? <==> op in w.documents)
  {
    hide RowOk, HoldOk, DocumentOk, IndexOk, DomainsOk;
    assert EntryOk(At(w, op));
  }

  // ---- what becomes of it -----------------------------------------------------------------------

  /** A second document for one operation violates a uniqueness constraint, so a completion of an orphan raises. */
  ghost predicate PortAllows(w: World, c: Call) {
    c.Poll? && c.env.completes && w.slot.Some? && RowOf(w, w.slot.value).Some? ==>
      w.rows[w.slot.value].recordId.Some? || w.slot.value !in w.documents
  }

  lemma OrphanIsPassedOver(w: World, op: string, c: Call)
    requires Orphaned(w, op) && Possible(w, c) && PortAllows(w, c) && !(c.Cancel? && c.operation == op) && !c.Release?
    ensures var es := EventsOf(w, c);
            es == [] || (c.Poll? && es == [RowSaved(w.rows[op].(updatedAt := c.env.now))])
  {
    hide BlockingState, WellFormed, ReplayMatches, FindByClient, NewRow, FromCheckpoint, CompletionError, Affordable,
         Fingerprint;
    match c {
      case Admit(_, _) =>
      case Submit(_) =>
      case Recover(_) =>
      case Poll(_) =>
      case Cancel(_, _) =>
    }
  }

  lemma TouchKeepsOrphan(w: World, op: string, now: int)
    requires Orphaned(w, op)
    ensures Orphaned(After(w, [RowSaved(w.rows[op].(updatedAt := now))]), op)
  {
    After1(w, RowSaved(w.rows[op].(updatedAt := now)));
  }

  lemma {:induction false} SavesKeepOrphan(w: World, op: string, es: seq<Event>)
    requires Orphaned(w, op)
    requires forall e :: e in es ==> e.RowSaved? && e.row.operationId != op && Terminal(e.row.state)
    ensures Orphaned(After(w, es), op)
  {
    if es != [] {
      SavesKeepOrphan(w, op, es[..|es| - 1]);
      assert es[|es| - 1] in es;
    }
  }

  lemma {:induction false} ReleasedAreOthers(w: World, op: string, rows: seq<Row>, outcomes: seq<Option<Cleanup>>,
                                             now: int)
    requires |outcomes| == |rows|
    requires forall i :: 0 <= i < |rows| ==> rows[i].operationId != op && Terminal(rows[i].state)
    ensures forall r :: r in Releasing(rows, outcomes, now) ==> r.operationId != op && Terminal(r.state)
  {
    if rows != [] {
      ReleasedAreOthers(w, op, rows[..|rows| - 1], outcomes[..|rows| - 1], now);
    }
  }

  /** No call but its own cancellation does anything about an orphan, cut anywhere. */
  lemma OrphanStays(w: World, op: string, s: Step)
    requires Orphaned(w, op) && Possible(w, s.call) && PortAllows(w, s.call)
             && !(s.call.Cancel? && s.call.operation == op)
    ensures Orphaned(After(w, StepEvents(w, s)), op)
  {
    var es := StepEvents(w, s);
    if s.call.Release? {
      var rows := s.call.rows;
      assert forall i :: 0 <= i < |rows| ==> rows[i].operationId != op && Terminal(rows[i].state);
      hide Orphaned, Listing;
      ReleasedAreOthers(w, op, rows, s.call.outcomes, s.call.now);
      SavesKeepOrphan(w, op, es);
    } else {
      OrphanIsPassedOver(w, op, s.call);
      hide EventsOf, Possible, PortAllows;
      if es != [] {
        assert es == EventsOf(w, s.call);
        TouchKeepsOrphan(w, op, s.call.env.now);
      }
    }
  }

  /** A run of calls none of which cancels the operation, against a store that keeps its constraint. */
  ghost predicate Feasible(w: World, op: string, steps: seq<Step>)
    decreases |steps|
  {
    steps == []
    || (Possible(w, steps[0].call) && PortAllows(w, steps[0].call)
        && !(steps[0].call.Cancel? && steps[0].call.operation == op)
        && Feasible(After(w, StepEvents(w, steps[0])), op, steps[1..]))
  }

  lemma {:induction false} FeasibleIsPossible(w: World, op: string, steps: seq<Step>)
    requires Feasible(w, op, steps)
    ensures PossibleRun(w, steps)
    decreases |steps|
  {
    hide StepEvents, Possible, PortAllows, After;
    if steps != [] {
      FeasibleIsPossible(After(w, StepEvents(w, steps[0])), op, steps[1..]);
    }
  }

  /**
   * Until it is cancelled an orphan is validated again and again and never saved, and as it keeps the slot nothing else
   * is admitted.
   */
  lemma {:induction false} OrphanForever(w: World, op: string, steps: seq<Step>)
    requires Orphaned(w, op) && Feasible(w, op, steps)
    ensures PossibleRun(w, steps)
    ensures var v := After(w, RunEvents(w, steps));
            Orphaned(v, op) && forall req, a :: AdmissionPlan(v, req, a).events == []
    decreases |steps|
  {
    FeasibleIsPossible(w, op, steps);
    hide StepEvents, Possible, PortAllows, AdmissionPlan, Orphaned;
    if steps == [] {
      OrphanShutsTheDoor(w, op);
    } else {
      var es := StepEvents(w, steps[0]);
      OrphanStays(w, op, steps[0]);
      hide After;
      OrphanForever(After(w, es), op, steps[1..]);
      AfterConcat(w, es, RunEvents(After(w, es), steps[1..]));
    }
  }

  lemma OrphanShutsTheDoor(w: World, op: string)
    requires Orphaned(w, op)
    ensures forall req, a :: AdmissionPlan(w, req, a).events == []
  {
    hide BlockingState, WellFormed, ReplayMatches, FindByClient, NewRow, Affordable;
  }

  /**
   * Its cancellation ends an orphan exactly when the provider gives a definite answer; it never ends it as saved, and
   * the document stays behind without a row that names it.
   */
  lemma CancelOfOrphan(w: World, op: string, env: Env)
    requires Orphaned(w, op) && w.rows[op].cancelRequestedAt.None? && w.rows[op].handle.Some? && ValidEnv(env)
    ensures var v := After(w, CancelPlan(w, op, env).events);
            && op in v.rows && op in v.documents && v.rows[op].recordId.None? && !v.rows[op].state.Saved?
            && (Terminal(v.rows[op].state) <==>
                  env.answer.Some? && (var kind := env.answer.value.kind;
                                       kind.IsCancelled? || kind.IsComplete? || kind.IsRefused? || kind.IsFailed?))
  {
    var asked := CancelRow(w.rows[op], env.now);
    var rest := CancelAnswered(asked, env).events;
    AfterConcat(w, [RowSaved(asked)], rest);
    After1(w, RowSaved(asked));
    var u := Apply(w, RowSaved(asked));
    hide FromCheckpoint;
    assert CancelPlan(w, op, env).events == [RowSaved(asked)] + rest;
    EndingsOf(u, op, asked, env);
  }

  lemma {:induction false} KeptUnsaved(w: World, op: string, es: seq<Event>, last: Row)
    requires op in w.rows && op in w.documents && w.rows[op].recordId.None? && w.rows[op].state.CancelRequested?
    requires es != [] ==> es[0].RowSaved?
    requires forall e :: e in es ==>
               e.HoldReconciled?
               || (e.RowSaved? && e.row.operationId == op && e.row.recordId.None? && e.row.state == last.state)
    ensures var v := After(w, es);
            && op in v.rows && op in v.documents && v.rows[op].recordId.None?
            && v.rows[op].state == if es == [] then w.rows[op].state else last.state
  {
    if es != [] {
      var n := |es| - 1;
      KeptUnsaved(w, op, es[..n], last);
      assert es[n] in es;
      OneMoreEnding(After(w, es[..n]), op, es[n]);
      hide Apply;
    }
  }

  lemma OneMoreEnding(w: World, op: string, e: Event)
    requires op in w.rows && op in w.documents && w.rows[op].recordId.None?
    requires e.HoldReconciled? || (e.RowSaved? && e.row.operationId == op && e.row.recordId.None?)
    ensures var v := Apply(w, e);
            && op in v.rows && op in v.documents && v.rows[op].recordId.None?
            && v.rows[op].state == if e.RowSaved? then e.row.state else w.rows[op].state
  {
  }

  lemma EndingsOf(w: World, op: string, row: Row, env: Env)
    requires op in w.rows && op in w.documents && w.rows[op] == row && row.operationId == op && row.recordId.None?
    requires row.state.CancelRequested?
    ensures var v := After(w, CancelAnswered(row, env).events);
            && op in v.rows && op in v.documents && v.rows[op].recordId.None? && !v.rows[op].state.Saved?
            && (Terminal(v.rows[op].state) <==>
                  env.answer.Some? && (var kind := env.answer.value.kind;
                                       kind.IsCancelled? || kind.IsComplete? || kind.IsRefused? || kind.IsFailed?))
  {
    var p := CancelAnswered(row, env);
    KeptUnsaved(w, op, p.events, p.row.value);
  }
}
