/**
 * Approving allocations and listing them. Approval sets the approval flag and
 * stamps who approved and when; it does not look at whether the row is
 * already approved, paid or in a batch. The listings filter the unified
 * allocation view and order it by creation time, newest first; callers below
 * authority 4 see only the rows of the users accessible to them.
 */
module AllocationApproval {
  import opened Common
  import opened Store
  import opened EndpointAuth
  import opened Ordering

  // ---------- Approval ----------

  /** The row once approved by `actor` at `now`. */
  function ApproveRow(a: Allocation, actor: int, now: int): (a': Allocation)
    ensures a'.isApproved && a'.approvedAt == Some(now) && a'.approvedBy == Some(actor) && a'.updatedAt == now
    ensures a'.(approvedAt := a.approvedAt, approvedBy := a.approvedBy, updatedAt := a.updatedAt, isApproved := a.isApproved) == a
  {
    a.(isApproved := true, approvedAt := Some(now), approvedBy := Some(actor), updatedAt := now)
  }

  /** Approving again keeps the row approved and only replaces the stamps. */
  lemma ApproveRowAgain(a: Allocation, actor: int, now: int, actor': int, later: int)
    ensures ApproveRow(ApproveRow(a, actor, now), actor', later) == ApproveRow(a, actor', later)
    ensures ApproveRow(ApproveRow(a, actor, now), actor', later).isApproved
  {
  }

  datatype Approval = Approval(allocationId: int, approved: bool)

  /** `ApproveAllocation`: authority 4, a known industry, an existing row of that industry's table. */
  method ApproveAllocation(db: SparkDb, s: Session, industry: string, id: int, now: int) returns (r: Result<Approval>)
    modifies db`allocations
    ensures !RequireAuthority(s, 4).Passed() ==> r == Err(RequireAuthority(s, 4).error.value)
    ensures RequireAuthority(s, 4).Passed() && ParseIndustry(industry).None? ==> r == Err(BadRequest("Invalid industry"))
    ensures RequireAuthority(s, 4).Passed() && ParseIndustry(industry).Some?
            && FindAllocation(old(db.allocations), ParseIndustry(industry).value, id).None? ==>
              r == Err(NotFound("Allocation not found"))
    ensures RequireAuthority(s, 4).Passed() && ParseIndustry(industry).Some?
            && FindAllocation(old(db.allocations), ParseIndustry(industry).value, id).Some? ==>
              r.Ok?
    ensures r.Err? ==> db.allocations == old(db.allocations)
    ensures r.Ok? ==>
              && RequireAuthority(s, 4).Passed() && ParseIndustry(industry).Some?
              && FindAllocation(old(db.allocations), ParseIndustry(industry).value, id).Some?
              && var k := FindAllocation(old(db.allocations), ParseIndustry(industry).value, id).value;
                 && db.allocations == old(db.allocations)[k := ApproveRow(old(db.allocations)[k], s.userId.value, now)]
                 && r.value == Approval(id, true)
  {
    var gate := RequireAuthority(s, 4);
    if !gate.Passed() {
      return Err(gate.error.value);
    }
    var table := ParseIndustry(industry);
    if table.None? {
      return Err(BadRequest("Invalid industry"));
    }
    var found := FindAllocation(db.allocations, table.value, id);
    if found.None? {
      return Err(NotFound("Allocation not found"));
    }
    db.allocations := db.allocations[found.value := ApproveRow(db.allocations[found.value], gate.userId, now)];
    r := Ok(Approval(id, true));
  }

  /** `ApproveOverride`: the same update on one row of the override table. */
  method ApproveOverride(db: SparkDb, s: Session, id: int, now: int) returns (r: Result<Approval>)
    modifies db`allocations
    ensures !RequireAuthority(s, 4).Passed() ==> r == Err(RequireAuthority(s, 4).error.value)
    ensures RequireAuthority(s, 4).Passed() && FindOverride(old(db.allocations), id).None? ==>
              r == Err(NotFound("Override allocation not found"))
    ensures RequireAuthority(s, 4).Passed() && FindOverride(old(db.allocations), id).Some? ==> r.Ok?
    ensures r.Err? ==> db.allocations == old(db.allocations)
    ensures r.Ok? ==>
              && RequireAuthority(s, 4).Passed() && FindOverride(old(db.allocations), id).Some?
              && var k := FindOverride(old(db.allocations), id).value;
                 && db.allocations == old(db.allocations)[k := ApproveRow(old(db.allocations)[k], s.userId.value, now)]
                 && r.value == Approval(id, true)
  {
    var gate := RequireAuthority(s, 4);
    if !gate.Passed() {
      return Err(gate.error.value);
    }
    var found := FindOverride(db.allocations, id);
    if found.None? {
      return Err(NotFound("Override allocation not found"));
    }
    db.allocations := db.allocations[found.value := ApproveRow(db.allocations[found.value], gate.userId, now)];
    r := Ok(Approval(id, true));
  }

  // ---------- Batch approval ----------

  /** One item of a batch approval: the row it names is approved, when there is one. */
  function ApproveItem(rows: seq<Allocation>, item: BatchItem, actor: int, now: int): (r: (seq<Allocation>, bool))
    ensures |r.0| == |rows|
    ensures r.1 <==> ItemRow(rows, item).Some?
    ensures !r.1 ==> r.0 == rows
    ensures r.1 ==> r.0 == rows[ItemRow(rows, item).value := ApproveRow(rows[ItemRow(rows, item).value], actor, now)]
  {
    match ItemRow(rows, item)
    case None => (rows, false)
    case Some(k) => (rows[k := ApproveRow(rows[k], actor, now)], true)
  }

  /** The loop over the items: the new table and the `approved` counter. */
  function ApproveItems(rows: seq<Allocation>, items: seq<BatchItem>, actor: int, now: int): (r: (seq<Allocation>, nat))
    ensures |r.0| == |rows|
    ensures r.1 <= |items|
  {
    if items == [] then (rows, 0)
    else
      var prev := ApproveItems(rows, items[..|items| - 1], actor, now);
      var step := ApproveItem(prev.0, items[|items| - 1], actor, now);
      (step.0, prev.1 + if step.1 then 1 else 0)
  }

  /** How many items name a row that exists. */
  function CountFound(rows: seq<Allocation>, items: seq<BatchItem>): (n: nat)
    ensures n <= |items|
    ensures n == |items| <==> forall i :: 0 <= i < |items| ==> ItemRow(rows, items[i]).Some?
  {
    if items == [] then 0
    else
      var init := items[..|items| - 1];
      assert forall i :: 0 <= i < |init| ==> init[i] == items[i];
      CountFound(rows, init) + if ItemRow(rows, items[|items| - 1]).Some? then 1 else 0
  }

  /** Approval keeps ids and sources, so an item names the same row before and after. */
  lemma ItemRowAfterApproval(rows: seq<Allocation>, rows': seq<Allocation>, item: BatchItem)
    requires |rows'| == |rows|
    requires forall j :: 0 <= j < |rows| ==>
               rows'[j].allocationId == rows[j].allocationId && rows'[j].source == rows[j].source
    ensures ItemRow(rows', item) == ItemRow(rows, item)
  {
    if ParseIndustry(item.industry).Some? {
      var industry := ParseIndustry(item.industry).value;
      IndexWhereCongruent(rows, rows', (a: Allocation) => a.source.Participant? && a.source.industry == industry && a.allocationId == item.allocationId);
    }
  }

  /** Each row is left alone or approved by `actor` at `now`; ids and sources never change. */
  lemma {:induction false} ApproveItemsRows(rows: seq<Allocation>, items: seq<BatchItem>, actor: int, now: int)
    ensures forall j :: 0 <= j < |rows| ==>
              ApproveItems(rows, items, actor, now).0[j] == rows[j]
              || ApproveItems(rows, items, actor, now).0[j] == ApproveRow(rows[j], actor, now)
  {
    if items != [] {
      ApproveItemsRows(rows, items[..|items| - 1], actor, now);
    }
  }

  /** `Approved` counts exactly the items that name an existing row; so it
      equals `Total` exactly when every item was found. */
  lemma {:induction false} ApprovedCountsFoundItems(rows: seq<Allocation>, items: seq<BatchItem>, actor: int, now: int)
    ensures ApproveItems(rows, items, actor, now).1 == CountFound(rows, items)
    ensures ApproveItems(rows, items, actor, now).1 == |items| <==>
              forall i :: 0 <= i < |items| ==> ItemRow(rows, items[i]).Some?
  {
    if items != [] {
      var init := items[..|items| - 1];
      ApprovedCountsFoundItems(rows, init, actor, now);
      ApproveItemsRows(rows, init, actor, now);
      ItemRowAfterApproval(rows, ApproveItems(rows, init, actor, now).0, items[|items| - 1]);
    }
  }

  lemma ApproveItemsStep(rows: seq<Allocation>, items: seq<BatchItem>, i: nat, actor: int, now: int)
    requires i < |items|
    ensures ApproveItems(rows, items[..i + 1], actor, now).0
            == ApproveItem(ApproveItems(rows, items[..i], actor, now).0, items[i], actor, now).0
    ensures ApproveItems(rows, items[..i + 1], actor, now).1
            == ApproveItems(rows, items[..i], actor, now).1
               + if ApproveItem(ApproveItems(rows, items[..i], actor, now).0, items[i], actor, now).1 then 1 else 0
  {
    assert items[..i + 1][..i] == items[..i];
  }

  /** One iteration of the batch-approve loop. */
  method ApproveOneItem(db: SparkDb, item: BatchItem, actor: int, now: int) returns (approved: bool)
    modifies db`allocations
    ensures (db.allocations, approved) == ApproveItem(old(db.allocations), item, actor, now)
  {
    var industry := ParseIndustry(item.industry);
    if industry.None? {
      return false;
    }
    var found := FindAllocation(db.allocations, industry.value, item.allocationId);
    if found.None? {
      return false;
    }
    db.allocations := db.allocations[found.value := ApproveRow(db.allocations[found.value], actor, now)];
    return true;
  }

  datatype BatchApproval = BatchApproval(approved: nat, total: nat, errors: seq<string>)

  /** `BatchApproveAllocations`: authority 4; every item naming an existing
      row approves it, the others are skipped. */
  method BatchApproveAllocations(db: SparkDb, s: Session, items: seq<BatchItem>, now: int) returns (r: Result<BatchApproval>)
    modifies db`allocations
    ensures !RequireAuthority(s, 4).Passed() ==> r == Err(RequireAuthority(s, 4).error.value) && db.allocations == old(db.allocations)
    ensures RequireAuthority(s, 4).Passed() ==>
              && db.allocations == ApproveItems(old(db.allocations), items, s.userId.value, now).0
              && r == Ok(BatchApproval(ApproveItems(old(db.allocations), items, s.userId.value, now).1, |items|, []))
  {
    var gate := RequireAuthority(s, 4);
    if !gate.Passed() {
      return Err(gate.error.value);
    }
    ghost var start := db.allocations;
    var approved: nat := 0;
    var i := 0;
    while i < |items|
      invariant 0 <= i <= |items|
      invariant db.allocations == ApproveItems(start, items[..i], gate.userId, now).0
      invariant approved == ApproveItems(start, items[..i], gate.userId, now).1
    {
      var one := ApproveOneItem(db, items[i], gate.userId, now);
      ApproveItemsStep(start, items, i, gate.userId, now);
      if one {
        approved := approved + 1;
      }
      i := i + 1;
    }
    assert items[..|items|] == items;
    r := Ok(BatchApproval(approved, |items|, []));
  }

  // ---------- Listings ----------

  /** The optional query-string filters of `GetAllocations`. */
  datatype AllocationFilter = AllocationFilter(
    industry: Option<string>,
    userId: Option<int>,
    saleId: Option<int>,
    isApproved: Option<bool>,
    isPaid: Option<bool>)

  /** The filters that apply to every allocation table. */
  predicate MatchesCommon(a: Allocation, f: AllocationFilter)
  {
    && (f.userId.None? || a.userId == f.userId.value)
    && (f.saleId.None? || a.saleId == f.saleId.value)
    && (f.isApproved.None? || a.isApproved == f.isApproved.value)
    && (f.isPaid.None? || a.isPaid == f.isPaid.value)
  }

  /** A row of the unified view of the four industry tables, passing the
      filters; an absent or empty industry filter is not applied. */
  predicate MatchesAllocation(a: Allocation, f: AllocationFilter)
  {
    && a.source.Participant?
    && (f.industry.None? || f.industry.value == "" || IndustryLabel(a.source.industry) == f.industry.value)
    && MatchesCommon(a, f)
  }

  /** Callers below authority 4 see only rows of accessible users. */
  predicate InScope(a: Allocation, level: int, accessible: set<int>)
  {
    level >= 4 || a.userId in accessible
  }

  function ByCreatedAt(a: Allocation): (int, int)
  {
    (a.createdAt, 0)
  }

  /** `GetAllocations` before paging. `accessible` is the set of user ids the
      permissions service grants the caller. */
  function GetAllocations(rows: seq<Allocation>, s: Session, f: AllocationFilter, accessible: set<int>)
    : (r: Result<seq<Allocation>>)
    ensures s.userId.None? <==> r == Err(Unauthorized)
    ensures r.Ok? ==> SortedDesc(r.value, ByCreatedAt)
    ensures r.Ok? ==> forall a :: a in r.value <==>
              a in rows && MatchesAllocation(a, f) && InScope(a, GetAuthorityLevel(s), accessible)
  {
    if !RequireAuth(s).Passed() then Err(Unauthorized)
    else
      var level := GetAuthorityLevel(s);
      var kept := Filter(rows, (a: Allocation) => MatchesAllocation(a, f) && InScope(a, level, accessible));
      var sorted := SortDesc(kept, ByCreatedAt);
      assert forall a :: a in sorted <==> a in kept by {
        forall a
          ensures a in sorted <==> a in kept
        {
          SortDescMembers(kept, ByCreatedAt, a);
        }
      }
      Ok(sorted)
  }

  /** `GetOverrides` before paging: the same filters, less the industry, on the override table. */
  function GetOverrides(rows: seq<Allocation>, s: Session, f: AllocationFilter, accessible: set<int>)
    : (r: Result<seq<Allocation>>)
    ensures s.userId.None? <==> r == Err(Unauthorized)
    ensures r.Ok? ==> SortedDesc(r.value, ByCreatedAt)
    ensures r.Ok? ==> forall a :: a in r.value <==>
              a in rows && a.source.Override? && MatchesCommon(a, f) && InScope(a, GetAuthorityLevel(s), accessible)
  {
    if !RequireAuth(s).Passed() then Err(Unauthorized)
    else
      var level := GetAuthorityLevel(s);
      var kept := Filter(rows, (a: Allocation) => a.source.Override? && MatchesCommon(a, f) && InScope(a, level, accessible));
      var sorted := SortDesc(kept, ByCreatedAt);
      assert forall a :: a in sorted <==> a in kept by {
        forall a
          ensures a in sorted <==> a in kept
        {
          SortDescMembers(kept, ByCreatedAt, a);
        }
      }
      Ok(sorted)
  }

  /** A filter that accepts fewer rows lists fewer rows. */
  lemma NarrowerFilterListsFewer(rows: seq<Allocation>, s: Session, f: AllocationFilter, f': AllocationFilter,
                                 accessible: set<int>, a: Allocation)
    requires forall b :: MatchesAllocation(b, f') ==> MatchesAllocation(b, f)
    requires s.userId.Some?
    requires a in GetAllocations(rows, s, f', accessible).value
    ensures a in GetAllocations(rows, s, f, accessible).value
  {
  }

  /** Setting one more filter narrows the listing; here the user filter. */
  lemma UserFilterNarrows(f: AllocationFilter, user: int, b: Allocation)
    requires f.userId.None?
    requires MatchesAllocation(b, f.(userId := Some(user)))
    ensures MatchesAllocation(b, f) && b.userId == user
  {
  }
}
