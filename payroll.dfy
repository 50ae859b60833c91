/**
 * Payroll batches: a batch is created as a DRAFT, collects approved and
 * unpaid allocations while it is a draft, and then moves through SUBMITTED,
 * APPROVED, EXPORTED and PAID, one route per step. A batch's stored total
 * and record count are meant to be the sum and the number of the allocation
 * rows, in all four industry tables and the override table, that carry its id.
 */
module Payroll {
  import opened Common
  import opened Store
  import opened EndpointAuth

  // ---------- The transition table ----------

  /** `ValidTransitions`: the statuses each status may move to. */
  function ValidTransitions(s: BatchStatus): (next: seq<BatchStatus>)
    ensures s == Paid || s == Cancelled <==> next == []
    ensures next != [] ==> Cancelled in next && |next| == 2
  {
    match s
    case Draft => [Submitted, Cancelled]
    case Submitted => [Approved, Cancelled]
    case Approved => [Exported, Cancelled]
    case Exported => [Paid, Cancelled]
    case Paid => []
    case Cancelled => []
  }

  // ---------- Batch totals ----------

  predicate InBatch(a: Allocation, batchId: int)
  {
    a.payrollBatchId == Some(batchId)
  }

  /** What a row adds to the total of batch `batchId`. */
  function Contribution(a: Allocation, batchId: int): real
  {
    if InBatch(a, batchId) then a.allocatedAmount else 0.0
  }

  function Counted(a: Allocation, batchId: int): nat
  {
    if InBatch(a, batchId) then 1 else 0
  }

  /** The sum of `AllocatedAmount` over the rows that carry the batch id. */
  function BatchTotal(rows: seq<Allocation>, batchId: int): real
  {
    if rows == [] then 0.0
    else BatchTotal(rows[..|rows| - 1], batchId) + Contribution(rows[|rows| - 1], batchId)
  }

  /** The number of rows that carry the batch id. */
  function BatchCount(rows: seq<Allocation>, batchId: int): (n: nat)
    ensures n <= |rows|
  {
    if rows == [] then 0
    else BatchCount(rows[..|rows| - 1], batchId) + Counted(rows[|rows| - 1], batchId)
  }

  /** Replacing one row changes the totals by that row's difference only. */
  lemma {:induction false} BatchTotalsUpdate(rows: seq<Allocation>, k: nat, a: Allocation, batchId: int)
    requires k < |rows|
    ensures BatchTotal(rows[k := a], batchId)
            == BatchTotal(rows, batchId) - Contribution(rows[k], batchId) + Contribution(a, batchId)
    ensures BatchCount(rows[k := a], batchId)
            == BatchCount(rows, batchId) - Counted(rows[k], batchId) + Counted(a, batchId)
  {
    var n := |rows|;
    if k == n - 1 {
      assert rows[k := a][..n - 1] == rows[..n - 1];
    } else {
      assert rows[k := a][..n - 1] == rows[..n - 1][k := a];
      BatchTotalsUpdate(rows[..n - 1], k, a, batchId);
    }
  }

  /** Two tables that agree on which rows carry the batch id, and on those
      rows' amounts, give the batch the same totals. */
  lemma {:induction false} BatchTotalsCongruent(rows: seq<Allocation>, rows': seq<Allocation>, batchId: int)
    requires |rows| == |rows'|
    requires forall i :: 0 <= i < |rows| ==> InBatch(rows[i], batchId) == InBatch(rows'[i], batchId)
    requires forall i :: 0 <= i < |rows| && InBatch(rows[i], batchId) ==> rows[i].allocatedAmount == rows'[i].allocatedAmount
    ensures BatchTotal(rows', batchId) == BatchTotal(rows, batchId)
    ensures BatchCount(rows', batchId) == BatchCount(rows, batchId)
  {
    if rows != [] {
      BatchTotalsCongruent(rows[..|rows| - 1], rows'[..|rows| - 1], batchId);
    }
  }

  /** A batch id no row carries has total 0 and count 0. */
  lemma {:induction false} UnusedBatchIsEmpty(rows: seq<Allocation>, batchId: int)
    requires forall i :: 0 <= i < |rows| ==> !InBatch(rows[i], batchId)
    ensures BatchTotal(rows, batchId) == 0.0 && BatchCount(rows, batchId) == 0
  {
    if rows != [] {
      UnusedBatchIsEmpty(rows[..|rows| - 1], batchId);
    }
  }

  /** The batch's stored totals are those of the rows that carry its id. */
  predicate TotalsAgree(b: PayrollBatch, rows: seq<Allocation>)
  {
    b.totalAmount == BatchTotal(rows, b.batchId) && b.recordCount == BatchCount(rows, b.batchId)
  }

  // ---------- Creating and updating a draft ----------

  datatype CreateBatchRequest = CreateBatchRequest(description: Option<string>, periodStart: Option<int>, periodEnd: Option<int>)

  datatype BatchRef = BatchRef(batchId: int, status: BatchStatus)

  /** A new batch: a DRAFT with nothing in it. The name defaults to "Batch "
      and today's date; the pay period to the last 14 days; the pay date is a
      week from today. `today` is a day number and `todayText` its
      yyyy-MM-dd rendering. */
  function NewBatch(id: int, request: CreateBatchRequest, actor: int, today: int, todayText: string, now: int)
    : (b: PayrollBatch)
    ensures b.batchId == id && b.status == Draft && b.totalAmount == 0.0 && b.recordCount == 0
    ensures b.batchName == (if request.description.Some? then request.description.value else "Batch " + todayText)
    ensures b.payPeriodStart == (if request.periodStart.Some? then request.periodStart.value else today - 14)
    ensures b.payPeriodEnd == (if request.periodEnd.Some? then request.periodEnd.value else today)
    ensures b.payDate == today + 7
    ensures b.createdAt == now && b.createdBy == Some(actor) && b.updatedAt == now && b.updatedBy.None?
    ensures b.submittedAt.None? && b.approvedAt.None? && b.exportedAt.None?
  {
    PayrollBatch(id, request.description.GetOr("Batch " + todayText),
                 request.periodStart.GetOr(today - 14), request.periodEnd.GetOr(today), today + 7,
                 Draft, 0.0, 0, now, Some(actor), now, None, None, None, None, None, None, None)
  }

  /** A new batch agrees with the rows from the start: no row can carry an id the table has not given out yet. */
  lemma NewBatchTotalsAgree(rows: seq<Allocation>, batches: seq<PayrollBatch>, request: CreateBatchRequest,
                            actor: int, today: int, todayText: string, now: int)
    requires forall i :: 0 <= i < |rows| && rows[i].payrollBatchId.Some? ==>
               exists j :: 0 <= j < |batches| && batches[j].batchId == rows[i].payrollBatchId.value
    ensures TotalsAgree(NewBatch(NextId(batches, (b: PayrollBatch) => b.batchId), request, actor, today, todayText, now), rows)
  {
    var id := NextId(batches, (b: PayrollBatch) => b.batchId);
    assert forall i :: 0 <= i < |rows| ==> !InBatch(rows[i], id);
    UnusedBatchIsEmpty(rows, id);
  }

  /** `CreateBatch`. */
  method CreateBatch(db: SparkDb, s: Session, request: CreateBatchRequest, today: int, todayText: string, now: int)
    returns (r: Result<BatchRef>)
    modifies db`batches
    ensures s.userId.None? ==> r == Err(Unauthorized) && db.batches == old(db.batches)
    ensures s.userId.Some? ==>
              && var id := NextId(old(db.batches), (b: PayrollBatch) => b.batchId);
                 && db.batches == old(db.batches) + [NewBatch(id, request, s.userId.value, today, todayText, now)]
                 && r == Ok(BatchRef(id, Draft))
  {
    var auth := RequireAuth(s);
    if !auth.Passed() {
      return Err(auth.error.value);
    }
    var id := NextId(db.batches, (b: PayrollBatch) => b.batchId);
    db.batches := db.batches + [NewBatch(id, request, auth.userId, today, todayText, now)];
    r := Ok(BatchRef(id, Draft));
  }

  /** The fields an update may change: each one supplied replaces the old value. */
  function UpdateFields(b: PayrollBatch, request: CreateBatchRequest, actor: int, now: int): (b': PayrollBatch)
    ensures b'.batchName == (if request.description.Some? then request.description.value else b.batchName)
    ensures b'.payPeriodStart == (if request.periodStart.Some? then request.periodStart.value else b.payPeriodStart)
    ensures b'.payPeriodEnd == (if request.periodEnd.Some? then request.periodEnd.value else b.payPeriodEnd)
    ensures b'.updatedAt == now && b'.updatedBy == Some(actor)
    ensures b'.(batchName := b.batchName, payPeriodStart := b.payPeriodStart, payPeriodEnd := b.payPeriodEnd,
                updatedAt := b.updatedAt, updatedBy := b.updatedBy) == b
  {
    b.(batchName := request.description.GetOr(b.batchName),
       payPeriodStart := request.periodStart.GetOr(b.payPeriodStart),
       payPeriodEnd := request.periodEnd.GetOr(b.payPeriodEnd),
       updatedAt := now, updatedBy := Some(actor))
  }

  /** An empty update changes nothing but the update stamp, and a second identical update only re-stamps. */
  lemma UpdateFieldsOnlyStamps(b: PayrollBatch, request: CreateBatchRequest, actor: int, now: int, later: int)
    ensures UpdateFields(b, CreateBatchRequest(None, None, None), actor, now) == b.(updatedAt := now, updatedBy := Some(actor))
    ensures UpdateFields(UpdateFields(b, request, actor, now), request, actor, later) == UpdateFields(b, request, actor, later)
  {
  }

  /** `UpdateBatch`: only a DRAFT batch may be edited. */
  method UpdateBatch(db: SparkDb, s: Session, id: int, request: CreateBatchRequest, now: int)
    returns (r: Result<int>)
    modifies db`batches
    ensures s.userId.None? ==> r == Err(Unauthorized)
    ensures s.userId.Some? && FindBatch(old(db.batches), id).None? ==> r == Err(NotFound("Batch not found"))
    ensures s.userId.Some? && FindBatch(old(db.batches), id).Some?
            && old(db.batches)[FindBatch(old(db.batches), id).value].status != Draft ==>
              r == Err(BadRequest("Can only update DRAFT batches"))
    ensures s.userId.Some? && FindBatch(old(db.batches), id).Some?
            && old(db.batches)[FindBatch(old(db.batches), id).value].status == Draft ==>
              r.Ok?
    ensures r.Err? ==> db.batches == old(db.batches)
    ensures r.Ok? ==>
              && s.userId.Some? && FindBatch(old(db.batches), id).Some?
              && var k := FindBatch(old(db.batches), id).value;
                 && old(db.batches)[k].status == Draft
                 && db.batches == old(db.batches)[k := UpdateFields(old(db.batches)[k], request, s.userId.value, now)]
                 && r.value == id
  {
    var auth := RequireAuth(s);
    if !auth.Passed() {
      return Err(auth.error.value);
    }
    var found := FindBatch(db.batches, id);
    if found.None? {
      return Err(NotFound("Batch not found"));
    }
    var batch := db.batches[found.value];
    if batch.status != Draft {
      return Err(BadRequest("Can only update DRAFT batches"));
    }
    db.batches := db.batches[found.value := UpdateFields(batch, request, auth.userId, now)];
    r := Ok(batch.batchId);
  }

  // ---------- Lifecycle transitions ----------

  /** `TransitionBatch` on one batch: it must be in `expected`; it moves to
      `next`, is stamped as updated, and the one `*At`/`*By` pair that
      belongs to `next` is stamped. */
  function Transition(b: PayrollBatch, expected: BatchStatus, next: BatchStatus, actor: int, now: int)
    : (r: Result<PayrollBatch>)
    ensures b.status != expected <==> r.Err?
    ensures r.Err? ==> r.error == BadRequest("Batch must be " + expected.Name() + " to transition to " + next.Name())
    ensures r.Ok? ==>
              && r.value.status == next && r.value.updatedAt == now && r.value.updatedBy == Some(actor)
              && (r.value.submittedAt, r.value.submittedBy)
                 == (if next == Submitted then (Some(now), Some(actor)) else (b.submittedAt, b.submittedBy))
              && (r.value.approvedAt, r.value.approvedBy)
                 == (if next == Approved then (Some(now), Some(actor)) else (b.approvedAt, b.approvedBy))
              && (r.value.exportedAt, r.value.exportedBy)
                 == (if next == Exported then (Some(now), Some(actor)) else (b.exportedAt, b.exportedBy))
              && r.value.batchId == b.batchId && r.value.totalAmount == b.totalAmount
              && r.value.recordCount == b.recordCount && r.value.batchName == b.batchName
              && r.value.createdAt == b.createdAt && r.value.payDate == b.payDate
    ensures r.Ok? ==>
              r.value.(status := b.status, updatedAt := b.updatedAt, updatedBy := b.updatedBy,
                       submittedAt := b.submittedAt, submittedBy := b.submittedBy,
                       approvedAt := b.approvedAt, approvedBy := b.approvedBy,
                       exportedAt := b.exportedAt, exportedBy := b.exportedBy) == b
  {
    if b.status != expected then
      Err(BadRequest("Batch must be " + expected.Name() + " to transition to " + next.Name()))
    else
      var moved := b.(status := next, updatedAt := now, updatedBy := Some(actor));
      Ok(match next
         case Submitted => moved.(submittedAt := Some(now), submittedBy := Some(actor))
         case Approved => moved.(approvedAt := Some(now), approvedBy := Some(actor))
         case Exported => moved.(exportedAt := Some(now), exportedBy := Some(actor))
         case _ => moved)
  }

  /** The status a route expects and the one it moves to. */
  datatype Route = Submit | Approve | Export | MarkPaid
  {
    function Expected(): BatchStatus
    {
      match this
      case Submit => Draft
      case Approve => Submitted
      case Export => Approved
      case MarkPaid => Exported
    }

    function Target(): BatchStatus
    {
      match this
      case Submit => Submitted
      case Approve => Approved
      case Export => Exported
      case MarkPaid => Paid
    }

  }

  /** The gate a route's handler passes first: sign-in for submit, authority 5 for the others. */
  function RouteGate(route: Route, s: Session): (g: Gate)
    ensures g.Passed() <==> s.userId.Some? && (route == Submit || GetAuthorityLevel(s) >= 5)
    ensures s.userId.None? ==> g.error == Some(Unauthorized)
    ensures s.userId.Some? ==> g.userId == s.userId.value
  {
    if route == Submit then RequireAuth(s) else RequireAuthority(s, 5)
  }

  /** Every route moves along an entry of the transition table, none of them
      to CANCELLED, and each status is accepted by at most one route. */
  lemma RoutesFollowTable(route: Route, other: Route)
    ensures route.Target() in ValidTransitions(route.Expected())
    ensures route.Target() != Cancelled
    ensures route.Expected() == other.Expected() ==> route == other
  {
  }

  /** The routes succeed only in order: from DRAFT, submit, approve, export
      and mark-paid each succeed once, and repeating a route fails. */
  lemma {:induction false} LifecycleInOrder(b: PayrollBatch, route: Route, actor: int, now: int, later: int)
    requires b.status == route.Expected()
    ensures Transition(b, route.Expected(), route.Target(), actor, now).Ok?
    ensures Transition(Transition(b, route.Expected(), route.Target(), actor, now).value,
                       route.Expected(), route.Target(), actor, later).Err?
  {
    var b' := Transition(b, route.Expected(), route.Target(), actor, now).value;
    assert b'.status == route.Target();
    assert route.Target() != route.Expected() by {
      match route
      case Submit =>
      case Approve =>
      case Export =>
      case MarkPaid =>
    }
  }

  /** `TransitionBatch`: sign-in, the batch, its expected status, then the move. */
  method TransitionBatch(db: SparkDb, s: Session, id: int, expected: BatchStatus, next: BatchStatus, now: int)
    returns (r: Result<BatchRef>)
    modifies db`batches
    ensures s.userId.None? ==> r == Err(Unauthorized)
    ensures s.userId.Some? && FindBatch(old(db.batches), id).None? ==> r == Err(NotFound("Batch not found"))
    ensures s.userId.Some? && FindBatch(old(db.batches), id).Some? ==>
              var k := FindBatch(old(db.batches), id).value;
              match Transition(old(db.batches)[k], expected, next, s.userId.value, now)
              case Err(e) => r == Err(e)
              case Ok(b') => db.batches == old(db.batches)[k := b'] && r == Ok(BatchRef(b'.batchId, next))
    ensures r.Err? ==> db.batches == old(db.batches)
  {
    var auth := RequireAuth(s);
    if !auth.Passed() {
      return Err(auth.error.value);
    }
    var found := FindBatch(db.batches, id);
    if found.None? {
      return Err(NotFound("Batch not found"));
    }
    var moved := Transition(db.batches[found.value], expected, next, auth.userId, now);
    if moved.Err? {
      return Err(moved.error);
    }
    db.batches := db.batches[found.value := moved.value];
    r := Ok(BatchRef(moved.value.batchId, next));
  }

  /** `SubmitBatch`, `ApproveBatch`, `ExportBatch`: approve and export first demand authority 5. */
  method RunRoute(db: SparkDb, s: Session, id: int, route: Route, now: int) returns (r: Result<BatchRef>)
    requires route != MarkPaid
    modifies db`batches
    ensures !RouteGate(route, s).Passed() ==>
              r == Err(RouteGate(route, s).error.value) && db.batches == old(db.batches)
    ensures RouteGate(route, s).Passed() && FindBatch(old(db.batches), id).None? ==>
              r == Err(NotFound("Batch not found"))
    ensures RouteGate(route, s).Passed() && FindBatch(old(db.batches), id).Some? ==>
              var k := FindBatch(old(db.batches), id).value;
              match Transition(old(db.batches)[k], route.Expected(), route.Target(), s.userId.value, now)
              case Err(e) => r == Err(e)
              case Ok(b') => db.batches == old(db.batches)[k := b'] && r == Ok(BatchRef(b'.batchId, route.Target()))
    ensures r.Err? ==> db.batches == old(db.batches)
  {
    var gate := RouteGate(route, s);
    if !gate.Passed() {
      return Err(gate.error.value);
    }
    r := TransitionBatch(db, s, id, route.Expected(), route.Target(), now);
  }

  // ---------- Adding allocations ----------

  /** A row taken into batch `batchId`. */
  function Tagged(a: Allocation, batchId: int, now: int): Allocation
  {
    a.(payrollBatchId := Some(batchId), updatedAt := now)
  }

  /** A row may join a batch when it is approved and not yet paid. */
  predicate Eligible(a: Allocation)
  {
    a.isApproved && !a.isPaid
  }

  /** One iteration of the loop: the row the item names joins the batch when it is eligible. */
  function TagItem(rows: seq<Allocation>, item: BatchItem, batchId: int, now: int): (r: (seq<Allocation>, bool))
    ensures |r.0| == |rows|
    ensures r.1 <==> ItemRow(rows, item).Some? && Eligible(rows[ItemRow(rows, item).value])
    ensures !r.1 ==> r.0 == rows
    ensures r.1 ==> r.0 == rows[ItemRow(rows, item).value := Tagged(rows[ItemRow(rows, item).value], batchId, now)]
  {
    match ItemRow(rows, item)
    case None => (rows, false)
    case Some(k) =>
      if Eligible(rows[k]) then (rows[k := Tagged(rows[k], batchId, now)], true) else (rows, false)
  }

  /** The loop over the request's items: the new table and the `added` counter. */
  function TagItems(rows: seq<Allocation>, items: seq<BatchItem>, batchId: int, now: int): (r: (seq<Allocation>, nat))
    ensures |r.0| == |rows|
    ensures r.1 <= |items|
  {
    if items == [] then (rows, 0)
    else
      var prev := TagItems(rows, items[..|items| - 1], batchId, now);
      var step := TagItem(prev.0, items[|items| - 1], batchId, now);
      (step.0, prev.1 + if step.1 then 1 else 0)
  }

  /** Each row is either left alone or was an eligible row of an industry
      table that is now in the batch; override rows are never taken. */
  lemma {:induction false} TagItemsChangesOnlyEligible(rows: seq<Allocation>, items: seq<BatchItem>, batchId: int, now: int)
    ensures forall j :: 0 <= j < |rows| ==>
              TagItems(rows, items, batchId, now).0[j] == rows[j]
              || (Eligible(rows[j]) && rows[j].source.Participant?
                  && TagItems(rows, items, batchId, now).0[j] == Tagged(rows[j], batchId, now))
  {
    if items != [] {
      TagItemsChangesOnlyEligible(rows, items[..|items| - 1], batchId, now);
    }
  }

  /** The batch's row count grows by at most `added`, and no row leaves it.
      (An item named twice is counted twice in `added` but once in the batch.) */
  lemma {:induction false} TagItemsCountBounds(rows: seq<Allocation>, items: seq<BatchItem>, batchId: int, now: int)
    ensures BatchCount(rows, batchId) <= BatchCount(TagItems(rows, items, batchId, now).0, batchId)
            <= BatchCount(rows, batchId) + TagItems(rows, items, batchId, now).1
  {
    if items != [] {
      var prev := TagItems(rows, items[..|items| - 1], batchId, now);
      TagItemsCountBounds(rows, items[..|items| - 1], batchId, now);
      var step := TagItem(prev.0, items[|items| - 1], batchId, now);
      if step.1 {
        var k := ItemRow(prev.0, items[|items| - 1]).value;
        BatchTotalsUpdate(prev.0, k, Tagged(prev.0[k], batchId, now), batchId);
      }
    }
  }

  /** When every requested row exists, is eligible and is named once, `added` is the number of items. */
  lemma {:induction false} TagItemsAddsAllEligible(rows: seq<Allocation>, items: seq<BatchItem>, batchId: int, now: int)
    requires forall i :: 0 <= i < |items| ==> ItemRow(rows, items[i]).Some? && Eligible(rows[ItemRow(rows, items[i]).value])
    ensures TagItems(rows, items, batchId, now).1 == |items|
  {
    if items != [] {
      var init := items[..|items| - 1];
      TagItemsAddsAllEligible(rows, init, batchId, now);
      var prev := TagItems(rows, init, batchId, now).0;
      var item := items[|items| - 1];
      TagItemsChangesOnlyEligible(rows, init, batchId, now);
      ItemRowStable(rows, prev, item, batchId, now);
    }
  }

  /** Tagging keeps ids, sources and eligibility, so an item still names the same eligible row. */
  lemma ItemRowStable(rows: seq<Allocation>, prev: seq<Allocation>, item: BatchItem, batchId: int, now: int)
    requires |prev| == |rows|
    requires forall j :: 0 <= j < |rows| ==> prev[j] == rows[j] || (Eligible(rows[j]) && prev[j] == Tagged(rows[j], batchId, now))
    requires ItemRow(rows, item).Some? && Eligible(rows[ItemRow(rows, item).value])
    ensures ItemRow(prev, item) == ItemRow(rows, item) && Eligible(prev[ItemRow(prev, item).value])
  {
    var industry := ParseIndustry(item.industry).value;
    IndexWhereCongruent(rows, prev, (a: Allocation) => a.source.Participant? && a.source.industry == industry && a.allocationId == item.allocationId);
  }

  /** One loop iteration of `AddAllocationsToBatch`. */
  method TagOneItem(db: SparkDb, item: BatchItem, batchId: int, now: int) returns (added: bool)
    modifies db`allocations
    ensures (db.allocations, added) == TagItem(old(db.allocations), item, batchId, now)
  {
    var industry := ParseIndustry(item.industry);
    if industry.None? {
      return false;
    }
    var found := FindAllocation(db.allocations, industry.value, item.allocationId);
    if found.Some? && db.allocations[found.value].isApproved && !db.allocations[found.value].isPaid {
      db.allocations := db.allocations[found.value := Tagged(db.allocations[found.value], batchId, now)];
      return true;
    }
    return false;
  }

  /** One more item extends the loop's result by that item's step. */
  lemma TagItemsStep(rows: seq<Allocation>, items: seq<BatchItem>, i: nat, batchId: int, now: int)
    requires i < |items|
    ensures TagItems(rows, items[..i + 1], batchId, now).0
            == TagItem(TagItems(rows, items[..i], batchId, now).0, items[i], batchId, now).0
    ensures TagItems(rows, items[..i + 1], batchId, now).1
            == TagItems(rows, items[..i], batchId, now).1
               + if TagItem(TagItems(rows, items[..i], batchId, now).0, items[i], batchId, now).1 then 1 else 0
  {
    assert items[..i + 1][..i] == items[..i];
  }

  /** The loop of `AddAllocationsToBatch` over the request's items. */
  method TagAllItems(db: SparkDb, items: seq<BatchItem>, id: int, now: int) returns (added: nat)
    modifies db`allocations
    ensures (db.allocations, added) == TagItems(old(db.allocations), items, id, now)
  {
    ghost var start := db.allocations;
    added := 0;
    var i := 0;
    while i < |items|
      invariant 0 <= i <= |items|
      invariant db.allocations == TagItems(start, items[..i], id, now).0
      invariant added == TagItems(start, items[..i], id, now).1
    {
      ghost var before := db.allocations;
      var tagged := TagOneItem(db, items[i], id, now);
      TagItemsStep(start, items, i, id, now);
      if tagged {
        added := added + 1;
      }
      i := i + 1;
    }
    assert items[..|items|] == items;
  }

  datatype AddSummary = AddSummary(batchId: int, added: nat, totalAmount: real, recordCount: nat)

  /** `RecalculateBatchTotals`: the batch's stored totals become those of
      the rows its aggregate queries read. As written those queries read the
      database, where the rows tagged by the same request are not saved yet,
      so the handler as written passes the committed rows, not the tagged ones. */
  function Recalculate(b: PayrollBatch, rows: seq<Allocation>): (b': PayrollBatch)
    ensures TotalsAgree(b', rows)
    ensures b'.(totalAmount := b.totalAmount, recordCount := b.recordCount) == b
  {
    b.(totalAmount := BatchTotal(rows, b.batchId), recordCount := BatchCount(rows, b.batchId))
  }

  /** As written, adding an approved, unpaid row of 100.00 to an empty draft
      reports `added` 1 but, recomputing over the committed rows, a total of 0
      and a count of 0; recomputing over the tagged rows gives 100.00 and 1. */
  lemma AddedRowsMissingFromTotalsAsWritten(b: PayrollBatch, row: Allocation, now: int)
    requires b.batchId == 1 && b.status == Draft
    requires row == Allocation(5, Participant(Roofing, 1), 9, 3, None, 100.0, true, Some(0), Some(2), false, None, None, 0, 0)
    ensures TagItems([row], [BatchItem("Roofing", 5)], 1, now).1 == 1
    ensures Recalculate(b, [row]).totalAmount == 0.0
    ensures Recalculate(b, [row]).recordCount == 0
    ensures !TotalsAgree(Recalculate(b, [row]), TagItems([row], [BatchItem("Roofing", 5)], 1, now).0)
    ensures Recalculate(b, TagItems([row], [BatchItem("Roofing", 5)], 1, now).0).totalAmount == 100.0
    ensures Recalculate(b, TagItems([row], [BatchItem("Roofing", 5)], 1, now).0).recordCount == 1
  {
    var item := BatchItem("Roofing", 5);
    CapitalisedRoofingKeyParses();
    SingleRowNamed(row, item);
    TagSingleRow(row, item, 1, now);
    SingleRowTotals(row, 1);
    SingleRowTotals(Tagged(row, 1, now), 1);
  }

  /** Eligibility does not look at the row's current batch: a row of batch 2
      named in a request for batch 1 moves to batch 1, and batch 2, whose
      totals are not recomputed, loses it from its rows. */
  lemma RowMovesBetweenBatches(row: Allocation, now: int)
    requires row == Allocation(5, Participant(Roofing, 1), 9, 3, None, 100.0, true, Some(0), Some(2), false, None, Some(2), 0, 0)
    ensures TagItems([row], [BatchItem("roofing", 5)], 1, now).1 == 1
    ensures BatchCount([row], 2) == 1 && BatchTotal([row], 2) == 100.0
    ensures BatchCount(TagItems([row], [BatchItem("roofing", 5)], 1, now).0, 2) == 0
  {
    var item := BatchItem("roofing", 5);
    RoofingKeyParses();
    SingleRowNamed(row, item);
    TagSingleRow(row, item, 1, now);
    SingleRowTotals(row, 2);
    SingleRowTotals(Tagged(row, 1, now), 2);
  }

  /** The industry key "roofing" names the roofing tables. */
  lemma RoofingKeyParses()
    ensures ParseIndustry("roofing") == Some(Roofing)
  {
    assert ToLower("roofing") == "roofing";
  }

  /** So does the capitalised spelling "Roofing". */
  lemma CapitalisedRoofingKeyParses()
    ensures ParseIndustry("Roofing") == Some(Roofing)
  {
    assert ToLower("Roofing") == "roofing";
  }

  /** An item naming the industry and id of a table's only row finds that row. */
  lemma SingleRowNamed(row: Allocation, item: BatchItem)
    requires row.source.Participant? && ParseIndustry(item.industry) == Some(row.source.industry)
    requires row.allocationId == item.allocationId
    ensures ItemRow([row], item) == Some(0)
  {
  }

  /** A one-row table and a one-item request naming that eligible row: the row is tagged and counted. */
  lemma TagSingleRow(row: Allocation, item: BatchItem, batchId: int, now: int)
    requires ItemRow([row], item) == Some(0) && Eligible(row)
    ensures TagItems([row], [item], batchId, now) == ([Tagged(row, batchId, now)], 1)
  {
    assert [item][..0] == [];
    assert TagItems([row], [], batchId, now) == ([row], 0);
    assert [row][0 := Tagged(row, batchId, now)] == [Tagged(row, batchId, now)];
  }

  /** The totals of a one-row table are that row's share. */
  lemma SingleRowTotals(row: Allocation, batchId: int)
    ensures BatchCount([row], batchId) == Counted(row, batchId)
    ensures BatchTotal([row], batchId) == Contribution(row, batchId)
  {
    assert [row][..0] == [];
  }

  /** `AddAllocationsToBatch`: only a DRAFT batch takes rows; each item's row
      joins when it exists and is approved and unpaid (an unknown industry is
      skipped); then the batch's totals are recomputed, over the tagged rows. */
  method AddAllocationsToBatch(db: SparkDb, s: Session, id: int, items: seq<BatchItem>, now: int)
    returns (r: Result<AddSummary>)
    modifies db`allocations, db`batches
    ensures s.userId.None? ==> r == Err(Unauthorized)
    ensures s.userId.Some? && FindBatch(old(db.batches), id).None? ==> r == Err(NotFound("Batch not found"))
    ensures s.userId.Some? && FindBatch(old(db.batches), id).Some?
            && old(db.batches)[FindBatch(old(db.batches), id).value].status != Draft ==>
              r == Err(BadRequest("Can only add allocations to DRAFT batches"))
    ensures s.userId.Some? && FindBatch(old(db.batches), id).Some?
            && old(db.batches)[FindBatch(old(db.batches), id).value].status == Draft ==>
              r.Ok?
    ensures r.Err? ==> db.allocations == old(db.allocations) && db.batches == old(db.batches)
    ensures r.Ok? ==>
              && s.userId.Some? && FindBatch(old(db.batches), id).Some?
              && var k := FindBatch(old(db.batches), id).value;
                 && old(db.batches)[k].status == Draft
                 && db.allocations == TagItems(old(db.allocations), items, id, now).0
                 && db.batches == old(db.batches)[k := Recalculate(old(db.batches)[k], db.allocations)]
                 && TotalsAgree(db.batches[k], db.allocations)
                 && r.value == AddSummary(id, TagItems(old(db.allocations), items, id, now).1,
                                          db.batches[k].totalAmount, db.batches[k].recordCount)
  {
    var auth := RequireAuth(s);
    if !auth.Passed() {
      return Err(auth.error.value);
    }
    var found := FindBatch(db.batches, id);
    if found.None? {
      return Err(NotFound("Batch not found"));
    }
    var batch := db.batches[found.value];
    if batch.status != Draft {
      return Err(BadRequest("Can only add allocations to DRAFT batches"));
    }
    var added := TagAllItems(db, items, id, now);
    var updated := Recalculate(batch, db.allocations);
    db.batches := db.batches[found.value := updated];
    r := Ok(AddSummary(batch.batchId, added, updated.totalAmount, updated.recordCount));
  }

  // ---------- Marking a batch paid ----------

  /** A row of the batch once it is paid. */
  function PaidRow(a: Allocation, now: int): Allocation
  {
    a.(isPaid := true, paidAt := Some(now), updatedAt := now)
  }

  /** Every row of every table that carries the batch id is paid now; the others are left alone. */
  function MarkPaidRows(rows: seq<Allocation>, batchId: int, now: int): (r: seq<Allocation>)
    ensures |r| == |rows|
    ensures forall i :: 0 <= i < |rows| ==> r[i] == if InBatch(rows[i], batchId) then PaidRow(rows[i], now) else rows[i]
  {
    if rows == [] then []
    else
      MarkPaidRows(rows[..|rows| - 1], batchId, now)
      + [if InBatch(rows[|rows| - 1], batchId) then PaidRow(rows[|rows| - 1], now) else rows[|rows| - 1]]
  }

  /** Paying a batch keeps every batch's totals, and paying it again only moves the stamps. */
  lemma MarkPaidKeepsTotals(rows: seq<Allocation>, batchId: int, other: int, now: int, later: int)
    ensures BatchTotal(MarkPaidRows(rows, batchId, now), other) == BatchTotal(rows, other)
    ensures BatchCount(MarkPaidRows(rows, batchId, now), other) == BatchCount(rows, other)
    ensures MarkPaidRows(MarkPaidRows(rows, batchId, now), batchId, later) == MarkPaidRows(rows, batchId, later)
    ensures forall i :: 0 <= i < |rows| && InBatch(rows[i], batchId) ==>
              MarkPaidRows(rows, batchId, now)[i].isPaid && MarkPaidRows(rows, batchId, now)[i].paidAt == Some(now)
  {
    BatchTotalsCongruent(rows, MarkPaidRows(rows, batchId, now), other);
  }

  datatype PaidSummary = PaidSummary(batchId: int, status: BatchStatus, totalMarkedPaid: nat)

  /** `MarkBatchPaid`: authority 5 and an EXPORTED batch; the batch becomes
      PAID and every row that carries its id is stamped paid now. The count
      is the number of such rows over the five tables. */
  method MarkBatchPaid(db: SparkDb, s: Session, id: int, now: int) returns (r: Result<PaidSummary>)
    modifies db`allocations, db`batches
    ensures !RequireAuthority(s, 5).Passed() ==> r == Err(RequireAuthority(s, 5).error.value)
    ensures RequireAuthority(s, 5).Passed() && FindBatch(old(db.batches), id).None? ==> r == Err(NotFound("Batch not found"))
    ensures RequireAuthority(s, 5).Passed() && FindBatch(old(db.batches), id).Some?
            && old(db.batches)[FindBatch(old(db.batches), id).value].status != Exported ==>
              r == Err(BadRequest("Batch must be EXPORTED to mark as PAID"))
    ensures RequireAuthority(s, 5).Passed() && FindBatch(old(db.batches), id).Some?
            && old(db.batches)[FindBatch(old(db.batches), id).value].status == Exported ==>
              r.Ok?
    ensures r.Err? ==> db.allocations == old(db.allocations) && db.batches == old(db.batches)
    ensures r.Ok? ==>
              && RequireAuthority(s, 5).Passed() && FindBatch(old(db.batches), id).Some?
              && var k := FindBatch(old(db.batches), id).value;
                 && old(db.batches)[k].status == Exported
                 && db.batches == old(db.batches)[k := old(db.batches)[k].(status := Paid, updatedAt := now,
                                                                            updatedBy := Some(s.userId.value))]
                 && db.allocations == MarkPaidRows(old(db.allocations), id, now)
                 && r.value == PaidSummary(id, Paid, BatchCount(old(db.allocations), id))
  {
    var gate := RequireAuthority(s, 5);
    if !gate.Passed() {
      return Err(gate.error.value);
    }
    var found := FindBatch(db.batches, id);
    if found.None? {
      return Err(NotFound("Batch not found"));
    }
    var batch := db.batches[found.value];
    if batch.status != Exported {
      return Err(BadRequest("Batch must be EXPORTED to mark as PAID"));
    }
    db.batches := db.batches[found.value := batch.(status := Paid, updatedAt := now, updatedBy := Some(gate.userId))];
    var rows := db.allocations;
    ghost var start := rows;
    var marked: nat := 0;
    var i := 0;
    while i < |rows|
      invariant 0 <= i <= |rows| && |rows| == |start|
      invariant forall j :: 0 <= j < i ==> rows[j] == if InBatch(start[j], id) then PaidRow(start[j], now) else start[j]
      invariant forall j :: i <= j < |rows| ==> rows[j] == start[j]
      invariant marked == BatchCount(start[..i], id)
    {
      assert start[..i + 1][..i] == start[..i];
      if rows[i].payrollBatchId == Some(id) {
        rows := rows[i := PaidRow(rows[i], now)];
        marked := marked + 1;
      }
      i := i + 1;
    }
    assert start[..|start|] == start;
    db.allocations := rows;
    r := Ok(PaidSummary(batch.batchId, Paid, marked));
  }
}
