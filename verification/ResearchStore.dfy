// The durable side of research: request rows, the single active slot, budget holds, saved documents,
// and what the provider has been asked. Every port call that changes any of it is one event.

module ResearchStore {
  import opened Text
  import opened ResearchDomain

  datatype Profile = Profile(providerId: string, modelId: string, configurationVersion: string, reservation: nat)

  datatype Row = Row(
    operationId: string, owner: string, clientId: string, fingerprint: string,
    kind: OperationKind, prompt: string, profile: Profile, deadlineSeconds: nat, admittedAt: int,
    state: Lifecycle, cleanup: Cleanup, accounting: Accounting,
    handle: Option<string>, error: Option<ErrorCode>, checkpoint: Option<string>, recordId: Option<string>,
    submittedAt: Option<int>, finishedAt: Option<int>, updatedAt: int,
    cancelRequestedAt: Option<int>, cancelConfirmedAt: Option<int>)

  datatype Hold = Hold(reserved: nat, state: Accounting, accounted: Option<nat>)

  datatype Document = Document(
    recordId: string, owner: string, kind: OperationKind, question: string,
    text: string, citations: seq<Citation>, evidence: Evidence)

  datatype World = World(
    rows: map<string, Row>, clients: map<(string, string), string>, slot: Option<string>,
    holds: map<string, Hold>, documents: map<string, Document>, submits: multiset<string>)

  const EMPTY := World(map[], map[], None, map[], map[], multiset{})

  datatype Event =
    | RowAdmitted(row: Row)
    | SubmissionClaimed(operation: string, now: int)
    | SubmitEntered(operation: string)
    | RowSaved(row: Row)
    | ResultCompleted(operation: string, answer: Answer, handle: string, recordId: string, now: int)
    | HoldReconciled(operation: string, cost: Option<nat>)

  // ---- reading --------------------------------------------------------------------

  function RowOf(w: World, operation: string): Option<Row> {
    if operation in w.rows then Some(w.rows[operation]) else None
  }

  function FindByClient(w: World, owner: string, clientId: string): Option<Row> {
    if (owner, clientId) in w.clients then RowOf(w, w.clients[(owner, clientId)]) else None
  }

  function ActiveRow(w: World): Option<Row> {
    if w.slot.Some? then RowOf(w, w.slot.value) else None
  }

  predicate CleanupPending(row: Row) {
    row.cleanup.Pending? && row.handle.Some? && Terminal(row.state)
  }

  /** Why the ledger refuses further generation, if it does. */
  function BlockingState(w: World): Option<ErrorCode> {
    if exists op :: op in w.holds && w.holds[op].state.Unknown? then Some(ACCOUNTING_UNKNOWN)
    else if exists op ::
              op in w.holds && w.holds[op].accounted.Some? && w.holds[op].accounted.value > w.holds[op].reserved
    then Some(BUDGET_EXCEEDED)
    else if exists op :: op in w.holds && w.holds[op].state.Reserved? && op in w.rows && Terminal(w.rows[op].state)
    then Some(ACCOUNTING_UNKNOWN)
    else None
  }

  // ---- the budget of a day and of a month ------------------------------------------------

  const DAY_MS: nat := 86400000

  /** A UTC day, counted from 1 January 1970, or a UTC month, counted from January 1970. */
  datatype Period = Day(number: int) | Month(number: int)

  function DayOf(at: int): int {
    at / DAY_MS
  }

  predicate LeapYear(year: int) {
    year % 4 == 0 && (year % 100 != 0 || year % 400 == 0)
  }

  function DaysIn(month: int): (days: nat)
    ensures 28 <= days <= 31
  {
    var year, m := 1970 + month / 12, month % 12;
    if m == 1 then (if LeapYear(year) then 29 else 28)
    else if m == 3 || m == 5 || m == 8 || m == 10 then 30
    else 31
  }

  /** The month of a day that comes `days` after the first of `month`. */
  function MonthFrom(days: int, month: int): int
    decreases if days < 0 then 1 - days else days
  {
    if days < 0 then MonthBefore(days, month)
    else if days < DaysIn(month) then month
    else MonthFrom(days - DaysIn(month), month + 1)
  }

  function MonthBefore(days: int, month: int): int
    requires days < 0
    decreases -days
  {
    var last := days + DaysIn(month - 1);
    if last >= 0 then month - 1 else MonthBefore(last, month - 1)
  }

  predicate InPeriod(p: Period, at: int) {
    match p
    case Day(d) => DayOf(at) == d
    case Month(m) => MonthFrom(DayOf(at), 0) == m
  }

  /** What a hold counts: its reservation, and once it is settled what was accounted. */
  function Charge(h: Hold): nat {
    if h.state.Reserved? then h.reserved else if h.accounted.Some? then h.accounted.value else 0
  }

  /** The charges of a period, by operation. A hold is made when its request is admitted. */
  function Charges(holds: map<string, Hold>, rows: map<string, Row>, p: Period): map<string, nat> {
    map op | op in holds && op in rows && InPeriod(p, rows[op].admittedAt) :: Charge(holds[op])
  }

  ghost function Total(amounts: map<string, nat>): nat
    decreases |amounts|
  {
    if amounts == map[] then 0
    else
      var op :| op in amounts;
      amounts[op] + Total(amounts - {op})
  }

  lemma {:induction false} TotalWithout(amounts: map<string, nat>, op: string)
    requires op in amounts
    ensures Total(amounts) == amounts[op] + Total(amounts - {op})
    decreases |amounts|
  {
    var first :| first in amounts && Total(amounts) == amounts[first] + Total(amounts - {first});
    if first != op {
      TotalWithout(amounts - {first}, op);
      TotalWithout(amounts - {op}, first);
      assert amounts - {first} - {op} == amounts - {op} - {first};
    }
  }

  lemma ChargesWithout(holds: map<string, Hold>, rows: map<string, Row>, op: string, p: Period)
    requires op in holds
    ensures var all, fewer := Charges(holds, rows, p), Charges(holds - {op}, rows, p);
            fewer == all - {op} && (op in all <==> op in rows && InPeriod(p, rows[op].admittedAt))
            && (op in all ==> all[op] == Charge(holds[op]))
  {
    hide InPeriod, Charge;
  }

  /** The charge of one hold is counted once. */
  lemma OneCharge(holds: map<string, Hold>, rows: map<string, Row>, op: string, p: Period)
    requires op in holds
    ensures Total(Charges(holds, rows, p))
            == Total(Charges(holds - {op}, rows, p))
                + if op in rows && InPeriod(p, rows[op].admittedAt) then Charge(holds[op]) else 0
  {
    ChargesWithout(holds, rows, op, p);
    hide Charges, Total, InPeriod, Charge;
    var all := Charges(holds, rows, p);
    if op in all {
      TotalWithout(all, op);
    } else {
      assert all - {op} == all;
    }
  }

  lemma NoCharges(rows: map<string, Row>, p: Period)
    ensures Total(Charges(map[], rows, p)) == 0
  {
    assert Charges(map[], rows, p) == map[];
  }

  /** `_consumed_micros`. */
  ghost function Consumed(w: World, p: Period): nat {
    Total(Charges(w.holds, w.rows, p))
  }

  // ---- writing --------------------------------------------------------------------

  /** The columns fixed at admission. */
  predicate SameRequest(r: Row, s: Row) {
    && r.operationId == s.operationId && r.owner == s.owner && r.clientId == s.clientId
    && r.fingerprint == s.fingerprint && r.kind == s.kind && r.prompt == s.prompt && r.profile == s.profile
    && r.deadlineSeconds == s.deadlineSeconds && r.admittedAt == s.admittedAt
  }

  /** The columns a save writes. */
  predicate SameMutable(r: Row, s: Row) {
    && r.state == s.state && r.cleanup == s.cleanup && r.accounting == s.accounting && r.handle == s.handle
    && r.error == s.error && r.checkpoint == s.checkpoint && r.recordId == s.recordId
    && r.submittedAt == s.submittedAt && r.finishedAt == s.finishedAt && r.updatedAt == s.updatedAt
    && r.cancelRequestedAt == s.cancelRequestedAt && r.cancelConfirmedAt == s.cancelConfirmedAt
  }

  /** `save` writes the mutable columns of a row and no other. */
  function Stored(row: Row, saved: Row): Row {
    row.(state := saved.state, cleanup := saved.cleanup, accounting := saved.accounting, handle := saved.handle,
          checkpoint := saved.checkpoint, recordId := saved.recordId, error := saved.error,
          submittedAt := saved.submittedAt, finishedAt := saved.finishedAt, updatedAt := saved.updatedAt,
          cancelRequestedAt := saved.cancelRequestedAt, cancelConfirmedAt := saved.cancelConfirmedAt)
  }

  function Apply(w: World, e: Event): World {
    match e
    case RowAdmitted(row) =>
      w.(rows := w.rows[row.operationId := row],
         clients := w.clients[(row.owner, row.clientId) := row.operationId],
         slot := Some(row.operationId),
         holds := w.holds[row.operationId := Hold(row.profile.reservation, Reserved, None)])
    case SubmissionClaimed(op, now) =>
      if op in w.rows && w.rows[op].state.Admitted?
      then w.(rows := w.rows[op := w.rows[op].(state := Submitting, updatedAt := now)]) else w
    case SubmitEntered(op) => w.(submits := w.submits + multiset{op})
    case RowSaved(row) =>
      var op := row.operationId;
      if op !in w.rows then w
      else
        w.(rows := w.rows[op := Stored(w.rows[op], row)],
           slot := if Terminal(row.state) && w.slot == Some(op) then None else w.slot)
    case ResultCompleted(op, answer, handle, recordId, now) =>
      if op !in w.rows || w.rows[op].recordId.Some? then w
      else
        var row := w.rows[op];
        var document :=
          Document(recordId, row.owner, row.kind, row.prompt, answer.text, answer.citations, answer.evidence);
        w.(documents := w.documents[op := document],
           rows := w.rows[op := row.(recordId := Some(recordId), updatedAt := now)])
    case HoldReconciled(op, cost) =>
      if op !in w.holds || !w.holds[op].state.Reserved? then w
      else
        var hold := w.holds[op];
        w.(holds := w.holds[op := if cost.Some? then Hold(hold.reserved, Reconciled, cost)
                                  else Hold(hold.reserved, Unknown, Some(hold.reserved))])
  }

  function After(w: World, es: seq<Event>): World {
    if es == [] then w else Apply(After(w, es[..|es| - 1]), es[|es| - 1])
  }

  lemma {:induction false} AfterConcat(w: World, es: seq<Event>, fs: seq<Event>)
    ensures After(w, es + fs) == After(After(w, es), fs)
  {
    if fs == [] {
      assert es + fs == es;
    } else {
      AfterConcat(w, es, fs[..|fs| - 1]);
      assert (es + fs)[..|es + fs| - 1] == es + fs[..|fs| - 1];
    }
  }

  lemma After1(w: World, e: Event)
    ensures After(w, [e]) == Apply(w, e)
  {
    assert [e][..0] == [];
  }

  lemma AfterTwo(w: World, e: Event, f: Event, rest: seq<Event>)
    ensures After(w, [e, f] + rest) == After(Apply(Apply(w, e), f), rest)
  {
    After1(w, e);
    assert [e, f][..1] == [e];
    AfterConcat(w, [e, f], rest);
  }

  // ---- the ports as the coordinator holds them --------------------------------------

  class Ports {
    var world: World
    ghost var log: seq<Event>

    ghost predicate Valid()
      reads this
    {
      world == After(EMPTY, log)
    }

    constructor ()
      ensures Valid() && log == []
    {
      world, log := EMPTY, [];
    }

    /** One committed transaction, or one entry into the provider. */
    method Commit(e: Event)
      requires Valid()
      modifies this
      ensures Valid()
      ensures log == old(log) + [e] && world == Apply(old(world), e)
    {
      world := Apply(world, e);
      log := log + [e];
      assert log[..|log| - 1] == old(log);
    }

    method ClaimSubmission(operation: string, now: int) returns (claimed: Option<Row>)
      requires Valid()
      modifies this
      ensures Valid()
      ensures claimed.Some? <==> operation in old(world.rows) && old(world.rows)[operation].state.Admitted?
      ensures claimed.Some? ==>
                && log == old(log) + [SubmissionClaimed(operation, now)]
                && world == Apply(old(world), SubmissionClaimed(operation, now))
                && claimed == RowOf(world, operation)
      ensures claimed.None? ==> log == old(log) && world == old(world)
    {
      if operation in world.rows && world.rows[operation].state.Admitted? {
        Commit(SubmissionClaimed(operation, now));
        claimed := Some(world.rows[operation]);
      } else {
        claimed := None;
      }
    }

    /**
     * `save`: the mutable columns of one stored row, and the slot if the row is terminal and holds it. A row that is
     * not stored is an error there and changes nothing here; no reachable call saves one.
     */
    method Save(row: Row) returns (saved: Row)
      requires Valid()
      modifies this
      ensures Valid() && saved == row
      ensures log == old(log) + [RowSaved(row)] && world == Apply(old(world), RowSaved(row))
      ensures row.operationId !in old(world).rows ==> world == old(world)
      ensures row.operationId in old(world).rows ==>
                var op := row.operationId;
                && world.rows.Keys == old(world).rows.Keys
                && SameRequest(old(world).rows[op], world.rows[op]) && SameMutable(row, world.rows[op])
                && (forall other :: other in world.rows && other != op ==> world.rows[other] == old(world).rows[other])
                && (Terminal(row.state) && old(world).slot == Some(op) ==> world.slot.None?)
                && (!Terminal(row.state) || old(world).slot != Some(op) ==> world.slot == old(world).slot)
      ensures world.clients == old(world).clients && world.holds == old(world).holds
      ensures world.documents == old(world).documents && world.submits == old(world).submits
    {
      Commit(RowSaved(row));
      saved := row;
    }

    /** `_consumed_micros`, hold by hold. */
    method ConsumedMicros(p: Period) returns (total: nat)
      ensures total == Consumed(world, p)
    {
      hide InPeriod, Charge, Charges, Total;
      total := 0;
      var left := world.holds;
      while left != map[]
        invariant total + Total(Charges(left, world.rows, p)) == Consumed(world, p)
        decreases |left|
      {
        var op :| op in left;
        OneCharge(left, world.rows, op, p);
        if op in world.rows && InPeriod(p, world.rows[op].admittedAt) {
          total := total + Charge(left[op]);
        }
        left := left - {op};
      }
      NoCharges(world.rows, p);
    }
  }
}
