/**
 * The sales endpoints: the listing with its authority scoping, filters and
 * sort choice; the access check shared by the detail, allocation and note
 * views; the choice of the industry extension shown in the detail; and
 * cancellation.
 */
module Sales {
  import opened Common
  import opened Store
  import opened EndpointAuth
  import opened Ordering

  // ---------- Scoping ----------

  /** Some participant of the sale is a user the caller may see. */
  predicate HasAccessibleParticipant(sale: Sale, accessible: set<int>)
  {
    exists i :: 0 <= i < |sale.participants| && sale.participants[i].userId in accessible
  }

  /** Authority 4 and above sees every sale; below that, only sales with an accessible participant. */
  predicate InScope(sale: Sale, level: int, accessible: set<int>)
  {
    level >= 4 || HasAccessibleParticipant(sale, accessible)
  }

  /**
   * The gate of the detail, allocation and note views: authenticated, the sale
   * exists, and it is in the caller's scope. `accessible` is what the
   * permissions service returns for the caller.
   */
  function OpenSale(sales: seq<Sale>, s: Session, accessible: set<int>, saleId: int): (r: Result<nat>)
    ensures s.userId.None? ==> r == Err(Unauthorized)
    ensures s.userId.Some? && FindSale(sales, saleId).None? ==> r == Err(NotFound("Sale not found"))
    ensures (&& s.userId.Some? && FindSale(sales, saleId).Some?
             && !InScope(sales[FindSale(sales, saleId).value], GetAuthorityLevel(s), accessible))
            ==> r == Err(Forbidden)
    ensures r.Ok? <==> && s.userId.Some? && FindSale(sales, saleId).Some?
                       && InScope(sales[FindSale(sales, saleId).value], GetAuthorityLevel(s), accessible)
    ensures r.Ok? ==> r.value < |sales| && sales[r.value].saleId == saleId
  {
    var gate := RequireAuth(s);
    if !gate.Passed() then Err(gate.error.value)
    else match FindSale(sales, saleId)
      case None => Err(NotFound("Sale not found"))
      case Some(k) =>
        if GetAuthorityLevel(s) < 4 && !HasAccessibleParticipant(sales[k], accessible) then Err(Forbidden)
        else Ok(k)
  }

  // ---------- Listing ----------

  datatype SaleFilter = SaleFilter(
    status: Option<string>,
    dateFrom: Option<int>,
    dateTo: Option<int>,
    projectTypeId: Option<int>,
    userId: Option<int>,
    customerId: Option<int>,
    generationTypeId: Option<int>,
    contractAmountMin: Option<real>,
    contractAmountMax: Option<real>,
    installerId: Option<int>)

  /** The installer filter looks at the solar installer and at the roofing partner. */
  predicate InstalledBy(sale: Sale, installerId: int)
  {
    || (sale.solarSale.Some? && sale.solarSale.value.installerId == Some(installerId))
    || (sale.roofingSale.Some? && sale.roofingSale.value.partnerId == Some(installerId))
  }

  /** The filters of `GetSales`; an empty status is not applied, and a missing contract amount fails a bound. */
  predicate MatchesFilter(sale: Sale, f: SaleFilter)
  {
    && (f.status.None? || f.status.value == "" || sale.saleStatus == f.status.value)
    && (f.dateFrom.None? || sale.saleDate >= f.dateFrom.value)
    && (f.dateTo.None? || sale.saleDate <= f.dateTo.value)
    && (f.projectTypeId.None? || sale.projectTypeId == f.projectTypeId)
    && (f.userId.None? || exists i :: 0 <= i < |sale.participants| && sale.participants[i].userId == f.userId.value)
    && (f.customerId.None? || sale.customerId == f.customerId)
    && (f.generationTypeId.None? || sale.generationTypeId == f.generationTypeId)
    && (f.contractAmountMin.None? || (sale.contractAmount.Some? && sale.contractAmount.value >= f.contractAmountMin.value))
    && (f.contractAmountMax.None? || (sale.contractAmount.Some? && sale.contractAmount.value <= f.contractAmountMax.value))
    && (f.installerId.None? || InstalledBy(sale, f.installerId.value))
  }

  datatype SortKey = SaleDate | ContractAmount | SaleStatus | CustomerLastName

  datatype SortOrder = SortOrder(key: SortKey, ascending: bool)

  /**
   * The sort switch: `sortBy` is matched ignoring case, `sortDir` only when it
   * is exactly "asc"; an unknown or absent `sortBy` sorts by sale date, newest first.
   */
  function ChooseOrder(sortBy: Option<string>, sortDir: Option<string>): (o: SortOrder)
    ensures sortBy.None? ==> o == SortOrder(SaleDate, false)
    ensures o.ascending ==> sortDir == Some("asc")
    ensures sortBy.Some? && ToLower(sortBy.value) == "date" ==> o.key == SaleDate
    ensures sortBy.Some? && ToLower(sortBy.value) == "amount" ==> o.key == ContractAmount
    ensures sortBy.Some? && ToLower(sortBy.value) == "status" ==> o.key == SaleStatus
    ensures sortBy.Some? && ToLower(sortBy.value) == "customer" ==> o.key == CustomerLastName
    ensures sortBy.Some? && ToLower(sortBy.value) in {"date", "amount", "status", "customer"} ==>
              (o.ascending <==> sortDir == Some("asc"))
  {
    var asc := sortDir == Some("asc");
    if sortBy.None? then SortOrder(SaleDate, false)
    else
      var k := ToLower(sortBy.value);
      if k == "date" then SortOrder(SaleDate, asc)
      else if k == "amount" then SortOrder(ContractAmount, asc)
      else if k == "status" then SortOrder(SaleStatus, asc)
      else if k == "customer" then SortOrder(CustomerLastName, asc)
      else SortOrder(SaleDate, false)
  }

  /** Only the four known keys honour the direction; any other key falls back to date, descending. */
  lemma UnknownSortFallsBack(sortBy: string, sortDir: Option<string>)
    requires ToLower(sortBy) !in {"date", "amount", "status", "customer"}
    ensures ChooseOrder(Some(sortBy), sortDir) == SortOrder(SaleDate, false)
  {
  }

  /** Example: the direction is not case-folded, so "ASC" sorts descending. */
  lemma DirectionIsCaseSensitive(sortBy: string)
    ensures !ChooseOrder(Some(sortBy), Some("ASC")).ascending
  {
  }

  /** A known key with "asc" sorts ascending by that key, whatever the case of the key. */
  lemma KnownSortHonoursDirection(sortBy: string)
    requires ToLower(sortBy) in {"date", "amount", "status", "customer"}
    ensures ChooseOrder(Some(sortBy), Some("asc")).ascending
    ensures !ChooseOrder(Some(sortBy), Some("desc")).ascending
  {
  }

  datatype SaleListing = SaleListing(sales: seq<Sale>, order: SortOrder)

  /** `GetSales` before paging: the scoped, filtered sales and the order they are to be listed in. */
  function GetSales(sales: seq<Sale>, s: Session, accessible: set<int>, f: SaleFilter,
                    sortBy: Option<string>, sortDir: Option<string>): (r: Result<SaleListing>)
    ensures r.Err? <==> s.userId.None?
    ensures r.Err? ==> r.error == Unauthorized
    ensures r.Ok? ==> r.value.order == ChooseOrder(sortBy, sortDir)
    ensures r.Ok? ==> forall x :: x in r.value.sales <==>
              x in sales && InScope(x, GetAuthorityLevel(s), accessible) && MatchesFilter(x, f)
  {
    var gate := RequireAuth(s);
    if !gate.Passed() then Err(gate.error.value)
    else
      var level := GetAuthorityLevel(s);
      Ok(SaleListing(Filter(sales, (x: Sale) => InScope(x, level, accessible) && MatchesFilter(x, f)),
                     ChooseOrder(sortBy, sortDir)))
  }

  /** With no filters, a sale is listed exactly when its detail view opens. */
  lemma {:induction false} ListingAgreesWithDetail(sales: seq<Sale>, s: Session, accessible: set<int>, k: nat,
                                                   sortBy: Option<string>, sortDir: Option<string>)
    requires s.userId.Some? && k < |sales|
    requires FindSale(sales, sales[k].saleId) == Some(k)
    ensures var noFilter := SaleFilter(None, None, None, None, None, None, None, None, None, None);
            sales[k] in GetSales(sales, s, accessible, noFilter, sortBy, sortDir).value.sales
            <==> OpenSale(sales, s, accessible, sales[k].saleId).Ok?
  {
    var noFilter := SaleFilter(None, None, None, None, None, None, None, None, None, None);
    assert MatchesFilter(sales[k], noFilter);
    assert sales[k] in sales;
  }

  // ---------- Detail ----------

  /** Whether the sale has the extension row of `industry`. */
  predicate HasExtension(sale: Sale, industry: Industry)
  {
    match industry
    case Solar => sale.solarSale.Some?
    case Pest => sale.hasPestSale
    case Roofing => sale.roofingSale.Some?
    case Fiber => sale.hasFiberSale
  }

  /** The order in which the detail view tries the extensions. */
  function Precedence(industry: Industry): nat
  {
    match industry
    case Solar => 0
    case Pest => 1
    case Roofing => 2
    case Fiber => 3
  }

  /** The `IndustryDetail` of the detail view: the first present extension of Solar, Pest, Roofing, Fiber. */
  function IndustryDetail(sale: Sale): (r: Option<Industry>)
    ensures r.Some? ==> HasExtension(sale, r.value)
    ensures r.Some? ==> forall i :: Precedence(i) < Precedence(r.value) ==> !HasExtension(sale, i)
    ensures r.None? <==> forall i :: !HasExtension(sale, i)
  {
    if sale.solarSale.Some? then assert HasExtension(sale, Solar); Some(Solar)
    else if sale.hasPestSale then assert HasExtension(sale, Pest); Some(Pest)
    else if sale.roofingSale.Some? then assert HasExtension(sale, Roofing); Some(Roofing)
    else if sale.hasFiberSale then assert HasExtension(sale, Fiber); Some(Fiber)
    else None
  }

  /** A sale with exactly one extension shows that one. */
  lemma SingleExtensionShown(sale: Sale, industry: Industry)
    requires HasExtension(sale, industry)
    requires forall i :: i != industry ==> !HasExtension(sale, i)
    ensures IndustryDetail(sale) == Some(industry)
  {
  }

  datatype SaleDetail = SaleDetail(sale: Sale, industryDetail: Option<Industry>)

  /** `GetSaleDetail`: the access gate, then the sale with its industry extension. */
  function GetSaleDetail(sales: seq<Sale>, s: Session, accessible: set<int>, saleId: int): (r: Result<SaleDetail>)
    ensures r.Err? <==> OpenSale(sales, s, accessible, saleId).Err?
    ensures r.Err? ==> r.error == OpenSale(sales, s, accessible, saleId).error
    ensures r.Ok? ==> r.value.sale in sales && r.value.sale.saleId == saleId
    ensures r.Ok? ==> r.value.industryDetail == IndustryDetail(r.value.sale)
  {
    match OpenSale(sales, s, accessible, saleId)
    case Err(e) => Err(e)
    case Ok(k) => Ok(SaleDetail(sales[k], IndustryDetail(sales[k])))
  }

  // ---------- Cancelling ----------

  /** A cancelled sale: status CANCELLED, stamped with who, when and why; nothing else changes. */
  function Cancelled(sale: Sale, actor: int, reason: Option<string>, now: int): (c: Sale)
    ensures c.saleStatus == "CANCELLED"
    ensures c.cancelledAt == Some(now) && c.cancelledBy == Some(actor) && c.cancellationReason == reason
    ensures c.updatedAt == now && c.updatedBy == Some(actor)
    ensures c.(saleStatus := sale.saleStatus, cancelledAt := sale.cancelledAt, cancelledBy := sale.cancelledBy,
               cancellationReason := sale.cancellationReason, updatedAt := sale.updatedAt,
               updatedBy := sale.updatedBy) == sale
  {
    sale.(saleStatus := "CANCELLED", cancelledAt := Some(now), cancelledBy := Some(actor),
          cancellationReason := reason, updatedAt := now, updatedBy := Some(actor))
  }

  /** After a cancel the same id still finds the same, now cancelled, row: a second cancel is refused. */
  lemma CancelledStaysFound(sales: seq<Sale>, saleId: int, actor: int, reason: Option<string>, now: int)
    requires FindSale(sales, saleId).Some?
    ensures var k := FindSale(sales, saleId).value;
            var sales' := sales[k := Cancelled(sales[k], actor, reason, now)];
            FindSale(sales', saleId) == Some(k) && sales'[k].saleStatus == "CANCELLED"
  {
    var k := FindSale(sales, saleId).value;
    var sales' := sales[k := Cancelled(sales[k], actor, reason, now)];
    IndexWhereCongruent(sales, sales', (x: Sale) => x.saleId == saleId);
  }

  /** `CancelSale`: authority 4; an unknown sale or one already cancelled is refused and nothing changes. */
  method CancelSale(db: SparkDb, s: Session, saleId: int, reason: Option<string>, now: int) returns (r: Result<Sale>)
    modifies db`sales
    ensures !RequireAuthority(s, 4).Passed() ==> r == Err(RequireAuthority(s, 4).error.value)
    ensures RequireAuthority(s, 4).Passed() && FindSale(old(db.sales), saleId).None? ==> r == Err(NotFound("Sale not found"))
    ensures (&& RequireAuthority(s, 4).Passed() && FindSale(old(db.sales), saleId).Some?
             && old(db.sales)[FindSale(old(db.sales), saleId).value].saleStatus == "CANCELLED")
            ==> r == Err(BadRequest("Sale is already cancelled"))
    ensures (&& RequireAuthority(s, 4).Passed() && FindSale(old(db.sales), saleId).Some?
             && old(db.sales)[FindSale(old(db.sales), saleId).value].saleStatus != "CANCELLED")
            ==> r.Ok?
    ensures r.Err? ==> db.sales == old(db.sales)
    ensures r.Ok? ==>
              && RequireAuthority(s, 4).Passed() && FindSale(old(db.sales), saleId).Some?
              && var k := FindSale(old(db.sales), saleId).value;
                 && old(db.sales)[k].saleStatus != "CANCELLED"
                 && r.value == Cancelled(old(db.sales)[k], s.userId.value, reason, now)
                 && db.sales == old(db.sales)[k := r.value]
  {
    var gate := RequireAuthority(s, 4);
    if !gate.Passed() {
      return Err(gate.error.value);
    }
    var found := FindSale(db.sales, saleId);
    if found.None? {
      return Err(NotFound("Sale not found"));
    }
    var sale := db.sales[found.value];
    if sale.saleStatus == "CANCELLED" {
      return Err(BadRequest("Sale is already cancelled"));
    }
    var c := Cancelled(sale, gate.userId, reason, now);
    db.sales := db.sales[found.value := c];
    r := Ok(c);
  }
}
