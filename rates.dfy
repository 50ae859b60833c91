/**
 * The commission rate catalog: one rate table per industry, listed with
 * optional filters, created active, updated field by field (an absent field
 * means "no change"), and deleted by deactivation, which takes the rate out
 * of the resolver's candidates.
 */
module RateCatalog {
  import opened Common
  import opened Store
  import opened EndpointAuth
  import opened Ordering
  import opened RoofingCalculator

  const InvalidIndustryList := "Invalid industry. Use: solar, pest, roofing, fiber"

  /** `FindAsync(rateId)` on the rate table of `industry`. */
  function FindRate(rates: seq<CommissionRate>, industry: Industry, rateId: int): (r: Option<nat>)
    ensures r.Some? ==> r.value < |rates| && rates[r.value].industry == industry && rates[r.value].rateId == rateId
    ensures r.None? ==> forall j :: 0 <= j < |rates| ==> !(rates[j].industry == industry && rates[j].rateId == rateId)
  {
    IndexWhere(rates, (x: CommissionRate) => x.industry == industry && x.rateId == rateId)
  }

  // ---------- Listing ----------

  datatype RateFilter = RateFilter(userId: Option<int>, roleId: Option<int>, stateCode: Option<string>, isActive: Option<bool>)

  /** The filters of `GetRatesGeneric`; an absent or empty state code is not applied. */
  predicate MatchesFilter(x: CommissionRate, f: RateFilter)
  {
    && (f.userId.None? || x.userId == f.userId.value)
    && (f.roleId.None? || x.roleId == f.roleId)
    && (f.stateCode.None? || f.stateCode.value == "" || x.stateCode == f.stateCode)
    && (f.isActive.None? || x.isActive == f.isActive.value)
  }

  function ByStartDate(x: CommissionRate): (int, int)
  {
    (x.effectiveStartDate, 0)
  }

  /** `GetRates` before paging: authority 3, a known industry, the filters, newest start date first. */
  function GetRates(rates: seq<CommissionRate>, s: Session, industry: string, f: RateFilter)
    : (r: Result<seq<CommissionRate>>)
    ensures !RequireAuthority(s, 3).Passed() ==> r == Err(RequireAuthority(s, 3).error.value)
    ensures RequireAuthority(s, 3).Passed() && ParseIndustry(industry).None? ==> r == Err(BadRequest(InvalidIndustryList))
    ensures r.Ok? <==> RequireAuthority(s, 3).Passed() && ParseIndustry(industry).Some?
    ensures r.Ok? ==> SortedDesc(r.value, ByStartDate)
    ensures r.Ok? ==> forall x :: x in r.value <==>
              x in rates && x.industry == ParseIndustry(industry).value && MatchesFilter(x, f)
  {
    var gate := RequireAuthority(s, 3);
    if !gate.Passed() then Err(gate.error.value)
    else match ParseIndustry(industry)
      case None => Err(BadRequest(InvalidIndustryList))
      case Some(table) =>
        var kept := Filter(rates, (x: CommissionRate) => x.industry == table && MatchesFilter(x, f));
        var sorted := SortDesc(kept, ByStartDate);
        assert forall x :: x in sorted <==> x in kept by {
          forall x
            ensures x in sorted <==> x in kept
          {
            SortDescMembers(kept, ByStartDate, x);
          }
        }
        Ok(sorted)
  }

  /** `GetRatesForUser` before paging: the rates of one user in one industry. */
  lemma RatesForUser(rates: seq<CommissionRate>, s: Session, industry: string, userId: int, x: CommissionRate)
    requires GetRates(rates, s, industry, RateFilter(Some(userId), None, None, None)).Ok?
    ensures x in GetRates(rates, s, industry, RateFilter(Some(userId), None, None, None)).value <==>
              x in rates && x.industry == ParseIndustry(industry).value && x.userId == userId
  {
  }

  // ---------- Creating ----------

  datatype RateCreateRequest = RateCreateRequest(
    userId: int,
    roleId: Option<int>,
    installerId: Option<int>,
    stateCode: Option<string>,
    percentMp1: Option<real>,
    flatMp1: Option<real>,
    percentMp2: Option<real>,
    flatMp2: Option<real>,
    effectiveStartDate: Option<int>,
    effectiveEndDate: Option<int>)

  /** A new rate: active, starting today unless a start date is given, every other field as requested. */
  function NewRate(id: int, industry: Industry, request: RateCreateRequest, actor: int, today: int, now: int)
    : (x: CommissionRate)
    ensures x.rateId == id && x.industry == industry && x.isActive
    ensures x.effectiveStartDate == (if request.effectiveStartDate.Some? then request.effectiveStartDate.value else today)
    ensures && x.userId == request.userId && x.roleId == request.roleId && x.installerId == request.installerId
            && x.stateCode == request.stateCode && x.percentMp1 == request.percentMp1 && x.flatMp1 == request.flatMp1
            && x.percentMp2 == request.percentMp2 && x.flatMp2 == request.flatMp2
            && x.effectiveEndDate == request.effectiveEndDate
    ensures x.createdAt == now && x.updatedAt == now && x.createdBy == Some(actor) && x.updatedBy.None?
  {
    CommissionRate(id, industry, request.userId, request.roleId, request.installerId, request.stateCode,
                   request.percentMp1, request.flatMp1, request.percentMp2, request.flatMp2, true,
                   request.effectiveStartDate.GetOr(today), request.effectiveEndDate, now, Some(actor), now, None)
  }

  /** The identity value the rate table of `industry` gives its next row. */
  function NextRateId(rates: seq<CommissionRate>, industry: Industry): (id: int)
    ensures forall j :: 0 <= j < |rates| && rates[j].industry == industry ==> rates[j].rateId < id
  {
    NextId(rates, (x: CommissionRate) => if x.industry == industry then x.rateId else 0)
  }

  /** A new rate, of the user it names, is a candidate for every sale in its window that its scope fits. */
  lemma NewRateIsCandidate(id: int, industry: Industry, request: RateCreateRequest, actor: int, today: int, now: int,
                           q: RateQuery)
    requires q.industry == industry && q.userId == request.userId
    requires (if request.effectiveStartDate.Some? then request.effectiveStartDate.value else today) <= q.saleDate
    requires request.effectiveEndDate.None? || request.effectiveEndDate.value >= q.saleDate
    requires request.roleId.None? && request.installerId.None? && request.stateCode.None?
    ensures Matches(NewRate(id, industry, request, actor, today, now), q)
    ensures FindBestMatchingRate([NewRate(id, industry, request, actor, today, now)], q)
            == Some(NewRate(id, industry, request, actor, today, now))
  {
    assert BestMatch([NewRate(id, industry, request, actor, today, now)], q) == Some(0);
  }

  datatype CreatedRate = CreatedRate(rateId: int, industry: string)

  /** `CreateRate`: authority 4 and a known industry. */
  method CreateRate(db: SparkDb, s: Session, industry: string, request: RateCreateRequest, today: int, now: int)
    returns (r: Result<CreatedRate>)
    modifies db`rates
    ensures !RequireAuthority(s, 4).Passed() ==> r == Err(RequireAuthority(s, 4).error.value)
    ensures RequireAuthority(s, 4).Passed() && ParseIndustry(industry).None? ==> r == Err(BadRequest(InvalidIndustryList))
    ensures RequireAuthority(s, 4).Passed() && ParseIndustry(industry).Some? ==> r.Ok?
    ensures r.Err? ==> db.rates == old(db.rates)
    ensures r.Ok? ==>
              && RequireAuthority(s, 4).Passed() && ParseIndustry(industry).Some?
              && var table := ParseIndustry(industry).value;
                 var id := NextRateId(old(db.rates), table);
                 && db.rates == old(db.rates) + [NewRate(id, table, request, s.userId.value, today, now)]
                 && r.value == CreatedRate(id, IndustryKey(table))
  {
    var gate := RequireAuthority(s, 4);
    if !gate.Passed() {
      return Err(gate.error.value);
    }
    var table := ParseIndustry(industry);
    if table.None? {
      return Err(BadRequest(InvalidIndustryList));
    }
    var id := NextRateId(db.rates, table.value);
    db.rates := db.rates + [NewRate(id, table.value, request, gate.userId, today, now)];
    r := Ok(CreatedRate(id, IndustryKey(table.value)));
  }

  // ---------- Updating ----------

  datatype RateUpdateRequest = RateUpdateRequest(
    roleId: Option<int>,
    installerId: Option<int>,
    stateCode: Option<string>,
    percentMp1: Option<real>,
    flatMp1: Option<real>,
    percentMp2: Option<real>,
    flatMp2: Option<real>,
    isActive: Option<bool>,
    effectiveStartDate: Option<int>,
    effectiveEndDate: Option<int>)

  /** `ApplyUpdate`: each supplied field replaces the old value; the update is always stamped. */
  function ApplyUpdate(x: CommissionRate, request: RateUpdateRequest, actor: int, now: int): (y: CommissionRate)
    ensures && y.roleId == SuppliedOpt(x.roleId, request.roleId)
            && y.installerId == SuppliedOpt(x.installerId, request.installerId)
            && y.stateCode == SuppliedOpt(x.stateCode, request.stateCode)
            && y.percentMp1 == SuppliedOpt(x.percentMp1, request.percentMp1)
            && y.flatMp1 == SuppliedOpt(x.flatMp1, request.flatMp1)
            && y.percentMp2 == SuppliedOpt(x.percentMp2, request.percentMp2)
            && y.flatMp2 == SuppliedOpt(x.flatMp2, request.flatMp2)
            && y.effectiveEndDate == SuppliedOpt(x.effectiveEndDate, request.effectiveEndDate)
    ensures y.isActive == Supplied(x.isActive, request.isActive)
    ensures y.effectiveStartDate == Supplied(x.effectiveStartDate, request.effectiveStartDate)
    ensures y.updatedBy == Some(actor) && y.updatedAt == now
    ensures && y.rateId == x.rateId && y.industry == x.industry && y.userId == x.userId
            && y.createdAt == x.createdAt && y.createdBy == x.createdBy
  {
    CommissionRate(x.rateId, x.industry, x.userId,
                   SuppliedOpt(x.roleId, request.roleId),
                   SuppliedOpt(x.installerId, request.installerId),
                   SuppliedOpt(x.stateCode, request.stateCode),
                   SuppliedOpt(x.percentMp1, request.percentMp1),
                   SuppliedOpt(x.flatMp1, request.flatMp1),
                   SuppliedOpt(x.percentMp2, request.percentMp2),
                   SuppliedOpt(x.flatMp2, request.flatMp2),
                   Supplied(x.isActive, request.isActive),
                   Supplied(x.effectiveStartDate, request.effectiveStartDate),
                   SuppliedOpt(x.effectiveEndDate, request.effectiveEndDate),
                   x.createdAt, x.createdBy, now, Some(actor))
  }

  /** An update never clears a field that has a value: absent means "no change", not "set to null". */
  lemma UpdateNeverClears(x: CommissionRate, request: RateUpdateRequest, actor: int, now: int)
    ensures x.roleId.Some? ==> ApplyUpdate(x, request, actor, now).roleId.Some?
    ensures x.installerId.Some? ==> ApplyUpdate(x, request, actor, now).installerId.Some?
    ensures x.stateCode.Some? ==> ApplyUpdate(x, request, actor, now).stateCode.Some?
    ensures x.percentMp1.Some? ==> ApplyUpdate(x, request, actor, now).percentMp1.Some?
    ensures x.flatMp1.Some? ==> ApplyUpdate(x, request, actor, now).flatMp1.Some?
    ensures x.percentMp2.Some? ==> ApplyUpdate(x, request, actor, now).percentMp2.Some?
    ensures x.flatMp2.Some? ==> ApplyUpdate(x, request, actor, now).flatMp2.Some?
    ensures x.effectiveEndDate.Some? ==> ApplyUpdate(x, request, actor, now).effectiveEndDate.Some?
  {
  }

  /** An empty update only stamps, and applying the same update twice is applying it once. */
  lemma UpdateStampsAndRepeats(x: CommissionRate, request: RateUpdateRequest, actor: int, now: int, later: int)
    ensures ApplyUpdate(x, RateUpdateRequest(None, None, None, None, None, None, None, None, None, None), actor, now)
            == x.(updatedBy := Some(actor), updatedAt := now)
    ensures ApplyUpdate(ApplyUpdate(x, request, actor, now), request, actor, later) == ApplyUpdate(x, request, actor, later)
  {
  }

  /** `UpdateRate`: authority 4, a known industry, an existing rate of that table. */
  method UpdateRate(db: SparkDb, s: Session, industry: string, rateId: int, request: RateUpdateRequest, now: int)
    returns (r: Result<int>)
    modifies db`rates
    ensures !RequireAuthority(s, 4).Passed() ==> r == Err(RequireAuthority(s, 4).error.value)
    ensures RequireAuthority(s, 4).Passed() && ParseIndustry(industry).None? ==> r == Err(BadRequest("Invalid industry"))
    ensures (&& RequireAuthority(s, 4).Passed() && ParseIndustry(industry).Some?
             && FindRate(old(db.rates), ParseIndustry(industry).value, rateId).None?)
            ==> r == Err(NotFound("Rate not found"))
    ensures (&& RequireAuthority(s, 4).Passed() && ParseIndustry(industry).Some?
             && FindRate(old(db.rates), ParseIndustry(industry).value, rateId).Some?)
            ==> r.Ok?
    ensures r.Err? ==> db.rates == old(db.rates)
    ensures r.Ok? ==>
              && RequireAuthority(s, 4).Passed() && ParseIndustry(industry).Some?
              && FindRate(old(db.rates), ParseIndustry(industry).value, rateId).Some?
              && var k := FindRate(old(db.rates), ParseIndustry(industry).value, rateId).value;
                 && db.rates == old(db.rates)[k := ApplyUpdate(old(db.rates)[k], request, s.userId.value, now)]
                 && r.value == rateId
  {
    var gate := RequireAuthority(s, 4);
    if !gate.Passed() {
      return Err(gate.error.value);
    }
    var table := ParseIndustry(industry);
    if table.None? {
      return Err(BadRequest("Invalid industry"));
    }
    var found := FindRate(db.rates, table.value, rateId);
    if found.None? {
      return Err(NotFound("Rate not found"));
    }
    db.rates := db.rates[found.value := ApplyUpdate(db.rates[found.value], request, gate.userId, now)];
    r := Ok(rateId);
  }

  // ---------- Deleting ----------

  /** A deleted rate: the row stays, inactive. */
  function Deactivate(x: CommissionRate, actor: int, now: int): (y: CommissionRate)
    ensures !y.isActive && y.updatedBy == Some(actor) && y.updatedAt == now
    ensures y.(isActive := x.isActive, updatedBy := x.updatedBy, updatedAt := x.updatedAt) == x
  {
    x.(isActive := false, updatedBy := Some(actor), updatedAt := now)
  }

  /** After a delete the resolver never picks that row, whatever the sale; and
      where it picked another row before, it still picks a row. */
  lemma {:induction false} DeletedRateNotResolved(rates: seq<CommissionRate>, k: nat, actor: int, now: int, q: RateQuery)
    requires k < |rates|
    ensures BestMatch(rates[k := Deactivate(rates[k], actor, now)], q) != Some(k)
    ensures BestMatch(rates, q).Some? && BestMatch(rates, q) != Some(k) ==>
              BestMatch(rates[k := Deactivate(rates[k], actor, now)], q).Some?
  {
    var rates' := rates[k := Deactivate(rates[k], actor, now)];
    if BestMatch(rates, q).Some? && BestMatch(rates, q) != Some(k) {
      var i := BestMatch(rates, q).value;
      assert rates'[i] == rates[i];
      assert Matches(rates'[i], q);
    }
  }

  /** `DeleteRate`: authority 4, a known industry, an existing rate; the rate is deactivated, never removed. */
  method DeleteRate(db: SparkDb, s: Session, industry: string, rateId: int, now: int) returns (r: Result<int>)
    modifies db`rates
    ensures !RequireAuthority(s, 4).Passed() ==> r == Err(RequireAuthority(s, 4).error.value)
    ensures RequireAuthority(s, 4).Passed() && ParseIndustry(industry).None? ==> r == Err(BadRequest("Invalid industry"))
    ensures (&& RequireAuthority(s, 4).Passed() && ParseIndustry(industry).Some?
             && FindRate(old(db.rates), ParseIndustry(industry).value, rateId).None?)
            ==> r == Err(NotFound("Rate not found"))
    ensures (&& RequireAuthority(s, 4).Passed() && ParseIndustry(industry).Some?
             && FindRate(old(db.rates), ParseIndustry(industry).value, rateId).Some?)
            ==> r.Ok?
    ensures |db.rates| == |old(db.rates)|
    ensures r.Err? ==> db.rates == old(db.rates)
    ensures r.Ok? ==>
              && RequireAuthority(s, 4).Passed() && ParseIndustry(industry).Some?
              && FindRate(old(db.rates), ParseIndustry(industry).value, rateId).Some?
              && var k := FindRate(old(db.rates), ParseIndustry(industry).value, rateId).value;
                 && db.rates == old(db.rates)[k := Deactivate(old(db.rates)[k], s.userId.value, now)]
                 && r.value == rateId
  {
    var gate := RequireAuthority(s, 4);
    if !gate.Passed() {
      return Err(gate.error.value);
    }
    var table := ParseIndustry(industry);
    if table.None? {
      return Err(BadRequest("Invalid industry"));
    }
    var found := FindRate(db.rates, table.value, rateId);
    if found.None? {
      return Err(NotFound("Rate not found"));
    }
    db.rates := db.rates[found.value := Deactivate(db.rates[found.value], gate.userId, now)];
    r := Ok(rateId);
  }
}
