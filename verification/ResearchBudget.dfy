// The budget of a day and of a month, over every run of the coordinator.

module ResearchBudget {
  import opened Text
  import opened ResearchDomain
  import opened ResearchStore
  import opened Research
  import opened ResearchLaws
  import opened ResearchSteps
  import opened ResearchLimits
  import opened ResearchLedger

  // ---- sums ----------------------------------------------------------------------------

  /** `more` is `fewer` with one amount changed or added. */
  lemma TotalChanged(fewer: map<string, nat>, more: map<string, nat>, op: string)
    requires op in more && more - {op} == fewer - {op}
    ensures Total(more) == Total(fewer) + more[op] - if op in fewer then fewer[op] else 0
  {
    TotalWithout(more, op);
    if op in fewer {
      TotalWithout(fewer, op);
    } else {
      assert fewer - {op} == fewer;
    }
  }

  // ---- what the limits bound ----------------------------------------------------------------

  /** A settled cost above its reservation. */
  predicate Overrun(h: Hold) {
    h.accounted.Some? && h.accounted.value > h.reserved
  }

  /** Still reserved, or settled so that nothing more may be admitted. */
  predicate Open(h: Hold) {
    h.state.Reserved? || h.state.Unknown? || Overrun(h)
  }

  function Excess(h: Hold): nat {
    if !h.state.Reserved? && Overrun(h) then h.accounted.value - h.reserved else 0
  }

  function Capped(holds: map<string, Hold>, rows: map<string, Row>, p: Period): map<string, nat> {
    map op | op in holds && op in rows && InPeriod(p, rows[op].admittedAt) :: Charge(holds[op]) - Excess(holds[op])
  }

  function Limit(p: Period, daily: nat, monthly: nat): nat {
    if p.Day? then daily else monthly
  }

  /** All but what a settlement overran is within the limits. */
  ghost predicate WithinLimits(w: World, daily: nat, monthly: nat) {
    forall p: Period :: Total(Capped(w.holds, w.rows, p)) <= Limit(p, daily, monthly)
  }

  /** At most one hold is open. */
  ghost predicate OneOpen(w: World) {
    forall op, other :: op in w.holds && other in w.holds && Open(w.holds[op]) && Open(w.holds[other]) ==> op == other
  }

  ghost predicate Budgeted(w: World, daily: nat, monthly: nat) {
    WithinLimits(w, daily, monthly) && OneOpen(w)
  }

  /** An admission that passed the store's check under limits no higher than these. */
  ghost predicate Funded(w: World, e: Event, daily: nat, monthly: nat) {
    e.RowAdmitted? ==> Affordable(w, e.row, daily, monthly)
  }

  // ---- one event ---------------------------------------------------------------------------------

  lemma AdmittedHold(w: World, row: Row)
    requires Legal(w, RowAdmitted(row))
    ensures var v, op := Apply(w, RowAdmitted(row)), row.operationId;
            && op !in w.rows && w.slot.None? && BlockingState(w).None?
            && v.holds == w.holds[op := Hold(row.profile.reservation, Reserved, None)] && v.rows == w.rows[op := row]
  {
    hide BlockingState;
  }

  lemma SettledHold(w: World, op: string, cost: Option<nat>)
    requires Legal(w, HoldReconciled(op, cost))
    ensures var v := Apply(w, HoldReconciled(op, cost));
            && op in w.holds && w.holds[op].state.Reserved? && Open(w.holds[op])
            && op in v.holds && v.holds == w.holds[op := v.holds[op]] && v.rows == w.rows
            && (w.holds[op].accounted.None? ==> Charge(v.holds[op]) - Excess(v.holds[op]) <= w.holds[op].reserved)
  {
    hide BlockingState;
  }

  lemma NotBlocked(w: World, op: string)
    requires BlockingState(w).None? && op in w.holds
    ensures !Overrun(w.holds[op]) && !w.holds[op].state.Unknown?
            && (w.holds[op].state.Reserved? && op in w.rows ==> !Terminal(w.rows[op].state))
  {
  }

  /** When a request can be admitted no hold is open. */
  lemma NothingIsOpen(w: World, row: Row)
    requires Inv(w) && Legal(w, RowAdmitted(row))
    ensures forall op :: op in w.holds ==> !Open(w.holds[op])
  {
    hide Inv, Legal, BlockingState, RowOk, Overrun, Apply;
    AdmittedHold(w, row);
    forall op | op in w.holds
      ensures !Open(w.holds[op])
    {
      HoldsCover(w, op);
      NotBlocked(w, op);
      ActiveIsUnfinished(w, op);
    }
  }

  lemma CappedWithOne(holds: map<string, Hold>, rows: map<string, Row>, op: string, hold: Hold, row: Row, p: Period)
    requires op !in rows
    ensures var fewer, more := Capped(holds, rows, p), Capped(holds[op := hold], rows[op := row], p);
            && op !in fewer
            && (if InPeriod(p, row.admittedAt)
                then op in more && more[op] == Charge(hold) - Excess(hold) && more - {op} == fewer - {op}
                else more == fewer)
  {
    hide InPeriod, Charge, Excess;
  }

  lemma CappedWithOther(holds: map<string, Hold>, rows: map<string, Row>, op: string, hold: Hold, p: Period)
    requires op in holds
    ensures var before, after := Capped(holds, rows, p), Capped(holds[op := hold], rows, p);
            && (op in before <==> op in after) && after - {op} == before - {op}
            && (op in after ==>
                after[op] == Charge(hold) - Excess(hold) && before[op] == Charge(holds[op]) - Excess(holds[op]))
            && (op !in after ==> after == before)
  {
    hide InPeriod, Charge, Excess;
  }

  lemma CappedStays(holds: map<string, Hold>, before: map<string, Row>, after: map<string, Row>, p: Period)
    requires after.Keys == before.Keys && forall op :: op in before ==> after[op].admittedAt == before[op].admittedAt
    ensures Capped(holds, after, p) == Capped(holds, before, p)
  {
    hide InPeriod, Charge, Excess;
  }

  lemma CappedIsCharged(w: World, p: Period)
    requires forall op :: op in w.holds ==> !Open(w.holds[op])
    ensures Capped(w.holds, w.rows, p) == Charges(w.holds, w.rows, p)
  {
    hide InPeriod, Charge;
  }

  lemma AffordableIn(w: World, row: Row, daily: nat, monthly: nat, p: Period)
    requires Affordable(w, row, daily, monthly) && InPeriod(p, row.admittedAt)
    ensures Consumed(w, p) + row.profile.reservation <= Limit(p, daily, monthly)
  {
    hide Consumed;
  }

  lemma AdmissionKeepsLimits(w: World, row: Row, daily: nat, monthly: nat, p: Period)
    requires Inv(w) && Legal(w, RowAdmitted(row)) && Affordable(w, row, daily, monthly)
    requires Total(Capped(w.holds, w.rows, p)) <= Limit(p, daily, monthly)
    ensures var v := Apply(w, RowAdmitted(row)); Total(Capped(v.holds, v.rows, p)) <= Limit(p, daily, monthly)
  {
    hide Inv, Legal, BlockingState, Total, Capped, Affordable, InPeriod, Apply, Open, Charges;
    NothingIsOpen(w, row);
    AdmittedHold(w, row);
    var v, op := Apply(w, RowAdmitted(row)), row.operationId;
    var hold := Hold(row.profile.reservation, Reserved, None);
    CappedWithOne(w.holds, w.rows, op, hold, row, p);
    CappedIsCharged(w, p);
    if InPeriod(p, row.admittedAt) {
      TotalChanged(Capped(w.holds, w.rows, p), Capped(v.holds, v.rows, p), op);
      AffordableIn(w, row, daily, monthly, p);
    }
  }

  lemma SettlementKeepsLimits(w: World, op: string, cost: Option<nat>, p: Period)
    requires Legal(w, HoldReconciled(op, cost)) && op in w.holds && w.holds[op].accounted.None?
    ensures var v := Apply(w, HoldReconciled(op, cost));
            Total(Capped(v.holds, v.rows, p)) <= Total(Capped(w.holds, w.rows, p))
  {
    hide Legal, Total, Capped, InPeriod, Apply;
    SettledHold(w, op, cost);
    var v := Apply(w, HoldReconciled(op, cost));
    CappedWithOther(w.holds, w.rows, op, v.holds[op], p);
    if op in Capped(v.holds, v.rows, p) {
      TotalChanged(Capped(w.holds, w.rows, p), Capped(v.holds, v.rows, p), op);
    }
  }

  lemma OthersKeepHolds(w: World, e: Event)
    requires Legal(w, e) && !e.RowAdmitted? && !e.HoldReconciled?
    ensures var v := Apply(w, e);
            v.holds == w.holds && v.rows.Keys == w.rows.Keys
            && forall op :: op in w.rows ==> v.rows[op].admittedAt == w.rows[op].admittedAt
  {
    hide BlockingState, SaveOk, FromCheckpoint;
  }

  lemma OpensOne(w: World, v: World, op: string, hold: Hold)
    requires v.holds == w.holds[op := hold]
    requires (forall other :: other in w.holds ==> !Open(w.holds[other]))
             || (OneOpen(w) && op in w.holds && Open(w.holds[op]))
    ensures OneOpen(v)
  {
    hide Open;
  }

  lemma EventKeepsOneOpen(w: World, e: Event)
    requires Inv(w) && Legal(w, e) && OneOpen(w)
    ensures OneOpen(Apply(w, e))
  {
    hide Inv, Legal, Apply, OneOpen, Open;
    match e {
      case RowAdmitted(row) =>
        NothingIsOpen(w, row);
        AdmittedHold(w, row);
        OpensOne(w, Apply(w, e), row.operationId, Hold(row.profile.reservation, Reserved, None));
      case HoldReconciled(op, cost) =>
        SettledHold(w, op, cost);
        OpensOne(w, Apply(w, e), op, Apply(w, e).holds[op]);
      case _ =>
        OthersKeepHolds(w, e);
        SameHoldsOpen(w, Apply(w, e));
    }
  }

  lemma SameHoldsOpen(w: World, v: World)
    requires v.holds == w.holds && OneOpen(w)
    ensures OneOpen(v)
  {
  }

  /** What is reserved is not accounted yet. */
  lemma ReservedIsNotAccounted(w: World, op: string)
    requires Inv(w) && op in w.holds && w.holds[op].state.Reserved?
    ensures w.holds[op].accounted.None?
  {
    HoldsCover(w, op);
    hide RowOk, DocumentOk, IndexOk, DomainsOk;
    assert EntryOk(At(w, op));
  }

  lemma EventKeepsLimit(w: World, e: Event, daily: nat, monthly: nat, p: Period)
    requires Inv(w) && Legal(w, e) && Funded(w, e, daily, monthly)
             && Total(Capped(w.holds, w.rows, p)) <= Limit(p, daily, monthly)
    ensures Total(Capped(Apply(w, e).holds, Apply(w, e).rows, p)) <= Limit(p, daily, monthly)
  {
    hide Inv, Legal, Apply, Affordable, Total, Capped;
    match e {
      case RowAdmitted(row) =>
        AdmissionKeepsLimits(w, row, daily, monthly, p);
      case HoldReconciled(op, cost) =>
        SettledHold(w, op, cost);
        ReservedIsNotAccounted(w, op);
        SettlementKeepsLimits(w, op, cost, p);
      case _ =>
        OthersKeepHolds(w, e);
        CappedStays(w.holds, w.rows, Apply(w, e).rows, p);
    }
  }

  lemma EventKeepsBudget(w: World, e: Event, daily: nat, monthly: nat)
    requires Inv(w) && Legal(w, e) && Funded(w, e, daily, monthly) && Budgeted(w, daily, monthly)
    ensures Budgeted(Apply(w, e), daily, monthly)
  {
    hide Inv, Legal, OneOpen, Apply, Funded, Total, Capped;
    EventKeepsOneOpen(w, e);
    forall p: Period
      ensures Total(Capped(Apply(w, e).holds, Apply(w, e).rows, p)) <= Limit(p, daily, monthly)
    {
      EventKeepsLimit(w, e, daily, monthly, p);
    }
  }

  // ---- whole runs ----------------------------------------------------------------------------------

  /** No admission of the run is made under higher limits. */
  predicate LimitedTo(c: Call, daily: nat, monthly: nat) {
    c.Admit? ==> c.admission.daily <= daily && c.admission.monthly <= monthly
  }

  lemma {:induction false} PlainEventsKeepBudget(w: World, es: seq<Event>, daily: nat, monthly: nat)
    requires Inv(w) && LegalAll(w, es) && Budgeted(w, daily, monthly) && forall e :: e in es ==> !e.RowAdmitted?
    ensures Budgeted(After(w, es), daily, monthly)
  {
    hide Inv, Legal, Apply, Budgeted;
    if es != [] {
      var n := |es| - 1;
      PlainEventsKeepBudget(w, es[..n], daily, monthly);
      InvariantKept(w, es[..n]);
      EventKeepsBudget(After(w, es[..n]), es[n], daily, monthly);
    }
  }

  lemma AdmissionIsFunded(w: World, req: Request, a: Admission, daily: nat, monthly: nat)
    requires a.daily <= daily && a.monthly <= monthly && AdmissionPlan(w, req, a).events != []
    ensures a.selection.Selected?
    ensures AdmissionPlan(w, req, a).events == [RowAdmitted(NewRow(req, a))]
            && Affordable(w, NewRow(req, a), daily, monthly)
  {
    hide BlockingState, FindByClient, WellFormed, ReplayMatches, NewRow, Consumed;
  }

  lemma StepKeepsBudget(w: World, s: Step, daily: nat, monthly: nat)
    requires Inv(w) && Possible(w, s.call) && LimitedTo(s.call, daily, monthly) && Budgeted(w, daily, monthly)
    ensures Budgeted(After(w, StepEvents(w, s)), daily, monthly)
  {
    hide Inv, LegalAll, Possible, After, Budgeted, AdmissionPlan, Legal, Apply, Affordable;
    var es := StepEvents(w, s);
    StepIsLegal(w, s);
    if s.call.Admit? {
      if es == [] {
        NothingHappens(w);
      } else {
        AdmissionIsFunded(w, s.call.request, s.call.admission, daily, monthly);
        var row := NewRow(s.call.request, s.call.admission);
        assert es == [RowAdmitted(row)];
        OneLegal(w, RowAdmitted(row));
        After1(w, RowAdmitted(row));
        EventKeepsBudget(w, RowAdmitted(row), daily, monthly);
      }
    } else {
      hide EventsOf;
      OnlyAdmissionAdmits(w, s.call);
      PlainEventsKeepBudget(w, es, daily, monthly);
    }
  }

  lemma NothingHappens(w: World)
    ensures After(w, []) == w
  {
  }

  lemma OneLegal(w: World, e: Event)
    requires LegalAll(w, [e])
    ensures Legal(w, e)
  {
    hide Legal, Apply;
    assert [e][..0] == [];
  }

  lemma {:induction false} RunKeepsBudget(w: World, steps: seq<Step>, daily: nat, monthly: nat)
    requires Inv(w) && PossibleRun(w, steps) && Budgeted(w, daily, monthly)
    requires forall i :: 0 <= i < |steps| ==> LimitedTo(steps[i].call, daily, monthly)
    ensures var v := After(w, RunEvents(w, steps)); Inv(v) && Budgeted(v, daily, monthly)
    decreases |steps|
  {
    hide Inv, LegalAll, StepEvents, After, EventsOf, Possible, Budgeted, LimitedTo;
    if steps == [] {
      NothingHappens(w);
    } else {
      var es := StepEvents(w, steps[0]);
      StepIsLegal(w, steps[0]);
      StepKeepsBudget(w, steps[0], daily, monthly);
      RunKeepsBudget(After(w, es), steps[1..], daily, monthly);
      AfterConcat(w, es, RunEvents(After(w, es), steps[1..]));
    }
  }

  lemma NothingIsSpent(daily: nat, monthly: nat)
    ensures Budgeted(EMPTY, daily, monthly)
  {
    forall p: Period
      ensures Total(Capped(EMPTY.holds, EMPTY.rows, p)) <= Limit(p, daily, monthly)
    {
      assert Capped(EMPTY.holds, EMPTY.rows, p) == map[];
    }
  }

  lemma ChargedOverCapped(w: World, p: Period, op: string)
    requires op in w.holds && forall other :: other in w.holds && Excess(w.holds[other]) > 0 ==> other == op
    ensures Consumed(w, p) - Excess(w.holds[op]) <= Total(Capped(w.holds, w.rows, p)) <= Consumed(w, p)
  {
    var capped, charged := Capped(w.holds, w.rows, p), Charges(w.holds, w.rows, p);
    ChargedElsewhere(w, p, op);
    hide InPeriod, Charge, Total;
    if op in charged {
      TotalChanged(capped, charged, op);
    } else {
      assert capped == capped - {op} == charged - {op} == charged;
    }
  }

  lemma ChargedElsewhere(w: World, p: Period, op: string)
    requires op in w.holds && forall other :: other in w.holds && Excess(w.holds[other]) > 0 ==> other == op
    ensures Capped(w.holds, w.rows, p) - {op} == Charges(w.holds, w.rows, p) - {op}
    ensures op in Capped(w.holds, w.rows, p) <==> op in Charges(w.holds, w.rows, p)
    ensures op in Capped(w.holds, w.rows, p) ==>
              Charges(w.holds, w.rows, p)[op] == Capped(w.holds, w.rows, p)[op] + Excess(w.holds[op])
  {
    hide InPeriod, Charge, Excess;
  }

  lemma NoExcess(w: World, p: Period)
    requires forall op :: op in w.holds ==> Excess(w.holds[op]) == 0
    ensures Capped(w.holds, w.rows, p) == Charges(w.holds, w.rows, p)
  {
    hide InPeriod, Charge, Excess;
  }

  lemma OverrunCloses(w: World, op: string)
    requires op in w.holds && Excess(w.holds[op]) > 0
    ensures forall req, a :: AdmissionPlan(w, req, a).events == []
  {
    assert BlockingState(w).Some?;
    hide BlockingState, WellFormed, ReplayMatches, FindByClient, NewRow, Affordable, Excess;
  }

  /**
   * Over every run, whatever answers, prices, crashes and restarts it meets: what a day or a month has consumed is
   * within the highest limit an admission was made under, unless a single settlement came out above its reservation.
   * Then all but that excess is within the limit, and nothing is admitted any more.
   */
  lemma {:induction false} BudgetIsKept(steps: seq<Step>, daily: nat, monthly: nat, p: Period)
    requires PossibleRun(EMPTY, steps) && forall i :: 0 <= i < |steps| ==> LimitedTo(steps[i].call, daily, monthly)
    ensures var v := After(EMPTY, RunEvents(EMPTY, steps));
            || Consumed(v, p) <= Limit(p, daily, monthly)
            || exists op ::
                 && op in v.holds && Excess(v.holds[op]) > 0
                 && (forall other :: other in v.holds && Excess(v.holds[other]) > 0 ==> other == op)
                 && Consumed(v, p) - Excess(v.holds[op]) <= Limit(p, daily, monthly)
                 && forall req, a :: AdmissionPlan(v, req, a).events == []
  {
    hide Inv, After, RunEvents, PossibleRun, AdmissionPlan, Total, Capped, Charges, LimitedTo;
    EmptyIsOk();
    NothingIsSpent(daily, monthly);
    RunKeepsBudget(EMPTY, steps, daily, monthly);
    var v := After(EMPTY, RunEvents(EMPTY, steps));
    assert Total(Capped(v.holds, v.rows, p)) <= Limit(p, daily, monthly);
    if op :| op in v.holds && Excess(v.holds[op]) > 0 {
      assert forall other :: other in v.holds && Excess(v.holds[other]) > 0 ==> other == op;
      ChargedOverCapped(v, p, op);
      OverrunCloses(v, op);
    } else {
      NoExcess(v, p);
    }
  }

  /** Why one hold blocks further admissions, if it does. */
  function Blocker(w: World, op: string): Option<ErrorCode>
    requires op in w.holds
  {
    var h := w.holds[op];
    if h.state.Unknown? then Some(ACCOUNTING_UNKNOWN)
    else if Overrun(h) then Some(BUDGET_EXCEEDED)
    else if h.state.Reserved? && op in w.rows && Terminal(w.rows[op].state) then Some(ACCOUNTING_UNKNOWN)
    else None
  }

  /** The highest limit any admission of a run is made under. */
  function Highest(steps: seq<Step>): nat {
    if steps == [] then 0
    else
      var n := |steps| - 1;
      var before, c := Highest(steps[..n]), steps[n].call;
      if !c.Admit? then before
      else
        var limit := if c.admission.daily < c.admission.monthly then c.admission.monthly else c.admission.daily;
        if before < limit then limit else before
  }

  lemma {:induction false} SomeLimitHolds(steps: seq<Step>)
    ensures forall i :: 0 <= i < |steps| ==> LimitedTo(steps[i].call, Highest(steps), Highest(steps))
  {
    if steps != [] {
      var n := |steps| - 1;
      SomeLimitHolds(steps[..n]);
      forall i | 0 <= i < |steps|
        ensures LimitedTo(steps[i].call, Highest(steps), Highest(steps))
      {
        if i < n {
          assert LimitedTo(steps[..n][i].call, Highest(steps[..n]), Highest(steps[..n]));
        }
      }
    }
  }

  /**
   * No reachable store has two holds that block: the reason reported does not depend on the order in which the ledger
   * is read.
   */
  lemma OneBlocker(steps: seq<Step>, op: string)
    requires PossibleRun(EMPTY, steps)
    requires op in After(EMPTY, RunEvents(EMPTY, steps)).holds
    requires Blocker(After(EMPTY, RunEvents(EMPTY, steps)), op).Some?
    ensures var v := After(EMPTY, RunEvents(EMPTY, steps));
            && BlockingState(v) == Blocker(v, op)
            && forall other :: other in v.holds && other != op ==> Blocker(v, other).None?
  {
    hide Inv, After, RunEvents, PossibleRun, LimitedTo, WithinLimits, Highest;
    var daily := Highest(steps);
    var monthly := daily;
    SomeLimitHolds(steps);
    EmptyIsOk();
    NothingIsSpent(daily, monthly);
    RunKeepsBudget(EMPTY, steps, daily, monthly);
    var v := After(EMPTY, RunEvents(EMPTY, steps));
    forall other | other in v.holds && other != op
      ensures Blocker(v, other).None? && !Open(v.holds[other])
    {
      assert Open(v.holds[op]);
    }
    BlockedByOne(v, op);
  }

  lemma BlockedByOne(w: World, op: string)
    requires op in w.holds && Blocker(w, op).Some?
    requires forall other :: other in w.holds && other != op ==> !Open(w.holds[other])
    ensures BlockingState(w) == Blocker(w, op)
  {
    if w.holds[op].state.Unknown? {
    } else if Overrun(w.holds[op]) {
      assert forall other :: other in w.holds ==> !w.holds[other].state.Unknown?;
    } else {
      assert forall other :: other in w.holds ==> !w.holds[other].state.Unknown? && !Overrun(w.holds[other]);
    }
  }

  // ---- the calendar ---------------------------------------------------------------------------------

  /** The day a month begins on. */
  function FirstDay(month: int): int
    decreases if month < 0 then -month else month
  {
    if month == 0 then 0
    else if month > 0 then FirstDay(month - 1) + DaysIn(month - 1)
    else FirstDay(month + 1) - DaysIn(month)
  }

  lemma FirstDayFollows(month: int)
    ensures FirstDay(month + 1) == FirstDay(month) + DaysIn(month)
  {
  }

  /** The month of a day is the one it falls in, before 1970 as well as after. */
  lemma {:induction false} MonthHoldsTheDay(days: int, month: int)
    ensures var m := MonthFrom(days, month); FirstDay(m) <= FirstDay(month) + days < FirstDay(m + 1)
    decreases if days < 0 then 1 - days else days
  {
    hide DaysIn, FirstDay;
    if days < 0 {
      EarlierMonthHoldsTheDay(days, month);
    } else {
      FirstDayFollows(month);
      if days >= DaysIn(month) {
        MonthHoldsTheDay(days - DaysIn(month), month + 1);
      }
    }
  }

  lemma {:induction false} EarlierMonthHoldsTheDay(days: int, month: int)
    requires days < 0
    ensures var m := MonthBefore(days, month); FirstDay(m) <= FirstDay(month) + days < FirstDay(m + 1)
    decreases -days
  {
    hide DaysIn, FirstDay;
    FirstDayFollows(month - 1);
    var last := days + DaysIn(month - 1);
    if last < 0 {
      EarlierMonthHoldsTheDay(last, month - 1);
    }
  }
}
