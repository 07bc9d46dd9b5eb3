// What holds of every run of the research coordinator, and exactly where it can get stuck.

module ResearchTheorems {
  import opened Text
  import opened ResearchDomain
  import opened ResearchStore
  import opened Research
  import opened ResearchLaws
  import opened ResearchSteps

  /** The world after the first `n` events of a run from the empty store. */
  ghost function WorldAt(steps: seq<Step>, n: nat): World
    requires PossibleRun(EMPTY, steps) && n <= |RunEvents(EMPTY, steps)|
  {
    After(EMPTY, RunEvents(EMPTY, steps)[..n])
  }

  lemma Reachable(steps: seq<Step>, n: nat)
    requires PossibleRun(EMPTY, steps) && n <= |RunEvents(EMPTY, steps)|
    ensures Inv(WorldAt(steps, n))
  {
    hide Inv, LegalAll, After, RunEvents, PossibleRun;
    var es := RunEvents(EMPTY, steps);
    EmptyIsOk();
    RunIsLegal(EMPTY, steps);
    PrefixIsLegal(EMPTY, es, n);
    InvariantKept(EMPTY, es[..n]);
  }

  lemma LegalAt(w: World, es: seq<Event>, i: nat)
    requires LegalAll(w, es) && i < |es|
    ensures Legal(After(w, es[..i]), es[i])
  {
    hide Legal, After;
    PrefixIsLegal(w, es, i + 1);
    assert es[..i + 1][..i] == es[..i];
  }

  lemma NextWorld(w: World, es: seq<Event>, i: nat)
    requires i < |es|
    ensures After(w, es[..i + 1]) == Apply(After(w, es[..i]), es[i])
  {
    hide Apply;
    assert es[..i + 1][..i] == es[..i];
  }

  lemma Between(w: World, es: seq<Event>, i: nat, j: nat)
    requires Inv(w) && LegalAll(w, es) && i <= j <= |es|
    ensures Inv(After(w, es[..i])) && Inv(After(w, es[..j]))
    ensures Later(After(w, es[..i]), After(w, es[..j]))
  {
    hide Inv, LegalAll, After, Later;
    PrefixIsLegal(w, es, i);
    PrefixIsLegal(w, es, j);
    InvariantKept(w, es[..i]);
    InvariantKept(w, es[..j]);
    var middle := es[i..j];
    assert es[..i] + middle == es[..j];
    LegalConcat(w, es[..i], middle);
    AfterConcat(w, es[..i], middle);
    OnlyForward(After(w, es[..i]), middle);
  }

  // ---- the provider is entered at most once -----------------------------------------------

  lemma SubmitIsCounted(w: World, op: string)
    ensures op in w.rows ==> op in Apply(w, SubmitEntered(op)).rows && At(Apply(w, SubmitEntered(op)), op).submits >= 1
  {
  }

  lemma NoSecondSubmit(w: World, es: seq<Event>, i: nat, j: nat)
    requires Inv(w) && LegalAll(w, es) && i < j < |es| && es[i].SubmitEntered?
    ensures es[j] != es[i]
  {
    var op := es[i].operation;
    var u, v := After(w, es[..i + 1]), After(w, es[..j]);
    LegalAt(w, es, i);
    LegalAt(w, es, j);
    NextWorld(w, es, i);
    Between(w, es, i + 1, j);
    SubmitIsCounted(After(w, es[..i]), op);
    hide Apply, After, LegalAll, Inv, RowLater;
    assert op in u.rows && EntryLater(At(u, op), At(v, op));
    assert v.submits[op] >= 1;
  }

  /** Over any calls, crashes and restarts, generation is requested at most once per operation. */
  lemma SubmittedAtMostOnce(steps: seq<Step>)
    requires PossibleRun(EMPTY, steps)
    ensures var es := RunEvents(EMPTY, steps);
            forall i, j :: 0 <= i < j < |es| && es[i].SubmitEntered? ==> es[j] != es[i]
  {
    hide Inv, LegalAll, RunEvents, PossibleRun;
    EmptyIsOk();
    RunIsLegal(EMPTY, steps);
    var es := RunEvents(EMPTY, steps);
    forall i, j | 0 <= i < j < |es| && es[i].SubmitEntered?
      ensures es[j] != es[i]
    {
      NoSecondSubmit(EMPTY, es, i, j);
    }
  }

  // ---- what every reachable row satisfies ---------------------------------------------------

  /** At every point of every run, including between any two port calls. */
  lemma EveryReachableRow(steps: seq<Step>, n: nat, op: string)
    requires PossibleRun(EMPTY, steps) && n <= |RunEvents(EMPTY, steps)| && op in WorldAt(steps, n).rows
    ensures var w := WorldAt(steps, n);
            var r := w.rows[op];
            // the slot belongs to the one unfinished request
            && (w.slot == Some(op) <==> !Terminal(r.state))
            // a saved result is a finished one, was never cancelled, and has its document
            && (r.state.Saved? ==>
                  && r.cancelRequestedAt.None? && r.handle.Some?
                  && FromCheckpoint(r.checkpoint).Some?
                  && CompletionError(FromCheckpoint(r.checkpoint).value.evidence).None?
                  && op in w.documents
                  && w.documents[op].text == FromCheckpoint(r.checkpoint).value.text
                  && w.documents[op].citations == FromCheckpoint(r.checkpoint).value.citations
                  && w.documents[op].question == r.prompt && w.documents[op].owner == r.owner)
            && (r.accounting.Reconciled? ==> r.state.Saved?)
            // the error belongs to the state, and a timeout comes only after the deadline
            && ErrorFits(r.state, r.error)
            && (Terminal(r.state) <==> r.finishedAt.Some?)
            && (r.state.Timeout? ==> r.finishedAt.value - r.admittedAt >= r.deadlineSeconds * 1000)
            // a remote response left behind by a finished request is always marked for cleanup
            && (Terminal(r.state) && r.handle.Some? ==> !r.cleanup.NotRequired?)
            && (Terminal(r.state) && r.handle.None? ==> r.cleanup.NotRequired?)
  {
    Reachable(steps, n);
    var w := WorldAt(steps, n);
    hide WorldAt, RunEvents, PossibleRun, IndexOk, DomainsOk, RowOk, HoldOk, DocumentOk, FromCheckpoint,
         CompletionError, LegalAll, After;
    assert EntryOk(At(w, op));
    RowReads(w.rows[op]);
    DocumentReads(At(w, op));
  }

  lemma RowReads(r: Row)
    requires RowOk(r)
    ensures r.state.Saved? ==>
            r.cancelRequestedAt.None? && r.handle.Some? && r.recordId.Some? && GoodCheckpoint(r.checkpoint)
    ensures r.accounting.Reconciled? ==> r.state.Saved?
    ensures Terminal(r.state) ==> (r.handle.Some? <==> !r.cleanup.NotRequired?)
    ensures ErrorFits(r.state, r.error) && (Terminal(r.state) <==> r.finishedAt.Some?)
    ensures r.state.Timeout? ==> r.finishedAt.value - r.admittedAt >= r.deadlineSeconds * 1000
  {
    hide GoodCheckpoint;
  }

  lemma DocumentReads(x: Entry)
    requires EntryOk(x)
    ensures x.row.recordId.Some? ==>
              && x.document.Some? && FromCheckpoint(x.row.checkpoint).Some?
              && x.document.value.text == FromCheckpoint(x.row.checkpoint).value.text
              && x.document.value.citations == FromCheckpoint(x.row.checkpoint).value.citations
              && x.document.value.question == x.row.prompt && x.document.value.owner == x.row.owner
  {
    hide RowOk, HoldOk, FromCheckpoint;
  }

  /** Two requests of one owner under one client identifier are the same request. */
  lemma OneRowPerClient(steps: seq<Step>, n: nat, op: string, op': string)
    requires PossibleRun(EMPTY, steps) && n <= |RunEvents(EMPTY, steps)|
    requires op in WorldAt(steps, n).rows && op' in WorldAt(steps, n).rows
    requires var w := WorldAt(steps, n);
             w.rows[op].owner == w.rows[op'].owner && w.rows[op].clientId == w.rows[op'].clientId
    ensures op == op'
  {
    Reachable(steps, n);
    var w := WorldAt(steps, n);
    hide WorldAt, RunEvents, PossibleRun, IndexOk, RowOk, HoldOk, DocumentOk, LegalAll, After;
    assert EntryOk(At(w, op)) && EntryOk(At(w, op'));
  }

  // ---- how a row may move over time ------------------------------------------------------------

  /** From any point of a run to any later one. */
  lemma RowsOnlyMoveForward(steps: seq<Step>, i: nat, j: nat, op: string)
    requires PossibleRun(EMPTY, steps) && i <= j <= |RunEvents(EMPTY, steps)| && op in WorldAt(steps, i).rows
    ensures op in WorldAt(steps, j).rows
    ensures var r, s := WorldAt(steps, i).rows[op], WorldAt(steps, j).rows[op];
            && (Terminal(r.state) ==> s.state == r.state && s.accounting == r.accounting && s.handle == r.handle)
            && (!r.state.Admitted? ==> !s.state.Admitted?)
            && (!r.state.Admitted? && !r.state.Submitting? ==> !s.state.Admitted? && !s.state.Submitting?)
            && (r.cancelRequestedAt.Some? ==> !s.state.Saved?)
            && (r.checkpoint.Some? ==> s.checkpoint == r.checkpoint && s.handle == r.handle)
            && (r.recordId.Some? ==> s.recordId == r.recordId)
            && s.prompt == r.prompt && s.owner == r.owner && s.fingerprint == r.fingerprint
  {
    hide Inv, LegalAll, RunEvents, PossibleRun;
    EmptyIsOk();
    RunIsLegal(EMPTY, steps);
    Between(EMPTY, RunEvents(EMPTY, steps), i, j);
    var u, v := WorldAt(steps, i), WorldAt(steps, j);
    EndOk(v, op);
    hide WorldAt, After, RowOk;
    assert op in v.rows && EntryLater(At(u, op), At(v, op));
  }

  lemma EndOk(v: World, op: string)
    requires Inv(v)
    ensures op in v.rows && v.rows[op].cancelRequestedAt.Some? ==> !v.rows[op].state.Saved?
  {
    hide IndexOk, DomainsOk, HoldOk, DocumentOk, GoodCheckpoint;
    if op in v.rows {
      assert EntryOk(At(v, op));
    }
  }

  lemma SameCompletion(w: World, es: seq<Event>, i: nat, j: nat)
    requires Inv(w) && LegalAll(w, es) && i < j < |es|
    requires es[i].ResultCompleted? && es[j].ResultCompleted? && es[i].operation == es[j].operation
    ensures es[i].answer == es[j].answer && es[i].handle == es[j].handle
  {
    var op := es[i].operation;
    var u, v := After(w, es[..i]), After(w, es[..j]);
    LegalAt(w, es, i);
    LegalAt(w, es, j);
    Between(w, es, i, j);
    UnboundIsChecked(u, op);
    hide After, LegalAll, Inv, FromCheckpoint, Stage;
    assert EntryLater(At(u, op), At(v, op));
  }

  lemma UnboundIsChecked(w: World, op: string)
    requires Inv(w)
    ensures op in w.rows && w.rows[op].state.Validating? ==> w.rows[op].checkpoint.Some?
  {
    hide IndexOk, DomainsOk, HoldOk, DocumentOk, GoodCheckpoint;
    if op in w.rows {
      assert EntryOk(At(w, op));
    }
  }

  /** However often completion is retried, and across however many crashes, it is asked for the same thing. */
  lemma CompletionsAgree(steps: seq<Step>)
    requires PossibleRun(EMPTY, steps)
    ensures var es := RunEvents(EMPTY, steps);
            forall i, j :: 0 <= i < j < |es| && es[i].ResultCompleted? && es[j].ResultCompleted?
                           && es[i].operation == es[j].operation ==>
              es[i].answer == es[j].answer && es[i].handle == es[j].handle
  {
    hide Inv, LegalAll, RunEvents, PossibleRun;
    EmptyIsOk();
    RunIsLegal(EMPTY, steps);
    var es := RunEvents(EMPTY, steps);
    forall i, j | 0 <= i < j < |es| && es[i].ResultCompleted? && es[j].ResultCompleted?
                  && es[i].operation == es[j].operation
      ensures es[i].answer == es[j].answer && es[i].handle == es[j].handle
    {
      SameCompletion(EMPTY, es, i, j);
    }
  }
}
