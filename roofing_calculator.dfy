/**
 * The roofing commission calculator: which amount a milestone pays on, which
 * commission rate applies to a participant, how much a rate pays, the walk up
 * the management chain for override commissions, and the read-only preview
 * of a milestone.
 */
module RoofingCalculator {
  import opened Common
  import opened Money
  import opened Store

  /** The upper bound on override levels walked above a sales rep. */
  const MaxOverrideLevels: int := 5

  /** The amount a milestone's commissions are computed on: MP1 pays on the
      frontend amount received, MP2 on the backend amount; either falls back
      to half the contract amount (zero without one). */
  function GetCommissionableAmount(sale: Sale, milestoneNumber: int): real
  {
    var received :=
      if sale.roofingSale.None? then None
      else if milestoneNumber == 1 then sale.roofingSale.value.frontendReceivedAmount
      else sale.roofingSale.value.backendReceivedAmount;
    if received.Some? then received.value else sale.contractAmount.GetOr(0.0) * 0.5
  }

  /** A received amount, when present, is exactly what the milestone pays on;
      without one the milestone pays on half the contract amount. Any milestone
      number other than 1 reads the backend amount. */
  lemma CommissionableAmountSpec(sale: Sale, m: int)
    ensures m == 1 && sale.roofingSale.Some? && sale.roofingSale.value.frontendReceivedAmount.Some?
      ==> GetCommissionableAmount(sale, m) == sale.roofingSale.value.frontendReceivedAmount.value
    ensures m != 1 && sale.roofingSale.Some? && sale.roofingSale.value.backendReceivedAmount.Some?
      ==> GetCommissionableAmount(sale, m) == sale.roofingSale.value.backendReceivedAmount.value
    ensures sale.roofingSale.None? ==> GetCommissionableAmount(sale, m) == sale.contractAmount.GetOr(0.0) / 2.0
    ensures GetCommissionableAmount(sale, m) == GetCommissionableAmount(sale, if m == 1 then 1 else 2)
  {
  }

  /** With nothing received yet, MP1 and MP2 each pay on half the contract,
      so the two bases add up to the whole contract amount. */
  lemma FallbackBasesCoverContract(sale: Sale)
    requires sale.roofingSale.None? || (sale.roofingSale.value.frontendReceivedAmount.None?
                                        && sale.roofingSale.value.backendReceivedAmount.None?)
    ensures GetCommissionableAmount(sale, 1) + GetCommissionableAmount(sale, 2) == sale.contractAmount.GetOr(0.0)
    ensures GetCommissionableAmount(sale, 1) == GetCommissionableAmount(sale, 2)
  {
  }

  // ---------- Rate resolution ----------

  /** The arguments of one rate lookup. */
  datatype RateQuery = RateQuery(
    industry: Industry,
    userId: int,
    roleId: Option<int>,
    installerId: Option<int>,
    stateCode: Option<string>,
    saleDate: int)

  /** The lookup used for manager overrides: role, installer and state all absent. */
  function OverrideQuery(managerUserId: int, saleDate: int): RateQuery
  {
    RateQuery(Roofing, managerUserId, None, None, None, saleDate)
  }

  /** A rate is a candidate when it belongs to the user, is active and in
      effect on the sale date, and each scoping column is either empty or
      equal to the query's value (an empty query value only matches an
      empty column). */
  predicate Matches(r: CommissionRate, q: RateQuery)
  {
    && r.industry == q.industry
    && r.userId == q.userId
    && r.isActive
    && r.effectiveStartDate <= q.saleDate
    && (r.effectiveEndDate.None? || r.effectiveEndDate.value >= q.saleDate)
    && (r.roleId.None? || r.roleId == q.roleId)
    && (r.installerId.None? || r.installerId == q.installerId)
    && (r.stateCode.None? || r.stateCode == q.stateCode)
  }

  /** How many scoping columns are set and equal to the query (an empty state code does not score). */
  function Specificity(r: CommissionRate, q: RateQuery): (n: nat)
    ensures n <= 3
  {
    (if r.roleId.Some? && r.roleId == q.roleId then 1 else 0)
    + (if r.installerId.Some? && r.installerId == q.installerId then 1 else 0)
    + (if r.stateCode.Some? && |r.stateCode.value| > 0 && r.stateCode == q.stateCode then 1 else 0)
  }

  /** Filtering by `Matches` and taking the first of the candidates ordered
      by descending specificity: the position of the candidate with the
      highest specificity, ties going to the one stored first. */
  function BestMatch(rates: seq<CommissionRate>, q: RateQuery): (r: Option<nat>)
    ensures r.None? <==> forall j :: 0 <= j < |rates| ==> !Matches(rates[j], q)
    ensures r.Some? ==> r.value < |rates| && Matches(rates[r.value], q)
    ensures r.Some? ==> forall j :: 0 <= j < |rates| && Matches(rates[j], q) ==>
                          Specificity(rates[j], q) <= Specificity(rates[r.value], q)
    ensures r.Some? ==> forall j :: 0 <= j < r.value && Matches(rates[j], q) ==>
                          Specificity(rates[j], q) < Specificity(rates[r.value], q)
  {
    BestMatchFrom(rates, q, 0)
  }

  /** `BestMatch` over the rates at or after `i`. */
  function BestMatchFrom(rates: seq<CommissionRate>, q: RateQuery, i: nat): (r: Option<nat>)
    requires i <= |rates|
    ensures r.None? <==> forall j :: i <= j < |rates| ==> !Matches(rates[j], q)
    ensures r.Some? ==> i <= r.value < |rates| && Matches(rates[r.value], q)
    ensures r.Some? ==> forall j :: i <= j < |rates| && Matches(rates[j], q) ==>
                          Specificity(rates[j], q) <= Specificity(rates[r.value], q)
    ensures r.Some? ==> forall j :: i <= j < r.value && Matches(rates[j], q) ==>
                          Specificity(rates[j], q) < Specificity(rates[r.value], q)
    decreases |rates| - i
  {
    if i == |rates| then None
    else
      var rest := BestMatchFrom(rates, q, i + 1);
      if Matches(rates[i], q) && (rest.None? || Specificity(rates[i], q) >= Specificity(rates[rest.value], q)) then
        Some(i)
      else rest
  }

  /** `FindBestMatchingRateAsync`. */
  function FindBestMatchingRate(rates: seq<CommissionRate>, q: RateQuery): (r: Option<CommissionRate>)
    ensures r.Some? ==> r.value in rates && Matches(r.value, q)
    ensures r.None? ==> forall x :: x in rates ==> !Matches(x, q)
  {
    match BestMatch(rates, q)
    case None => None
    case Some(i) => Some(rates[i])
  }

  /** A more specific candidate always beats a less specific one. */
  lemma MoreSpecificRateWins(rates: seq<CommissionRate>, q: RateQuery, i: nat, j: nat)
    requires i < |rates| && j < |rates|
    requires Matches(rates[i], q) && Matches(rates[j], q)
    requires Specificity(rates[i], q) > Specificity(rates[j], q)
    ensures BestMatch(rates, q) != Some(j)
    ensures FindBestMatchingRate(rates, q).Some?
    ensures Specificity(FindBestMatchingRate(rates, q).value, q) >= Specificity(rates[i], q)
  {
  }

  /** An override lookup leaves role, installer and state empty, so only rates
      with all three columns empty can match, every candidate scores 0, and
      the first candidate in the table wins. */
  lemma {:induction false} OverrideLookupTakesFirstUnscoped(rates: seq<CommissionRate>, managerUserId: int, saleDate: int)
    ensures var q := OverrideQuery(managerUserId, saleDate);
      BestMatch(rates, q) == IndexWhere(rates, (r: CommissionRate) => Matches(r, q))
    ensures var r := FindBestMatchingRate(rates, OverrideQuery(managerUserId, saleDate));
      r.Some? ==> r.value.roleId.None? && r.value.installerId.None? && r.value.stateCode.None?
  {
    var q := OverrideQuery(managerUserId, saleDate);
    var p := (r: CommissionRate) => Matches(r, q);
    var b := BestMatch(rates, q);
    if b.Some? {
      assert forall j :: 0 <= j < b.value ==> !p(rates[j]);
      assert p(rates[b.value]);
    }
  }

  // ---------- Allocation amounts ----------

  /** The exact amount a rate pays on a base: percent of the base plus the flat amount, for the milestone's pair of columns. */
  function RawAmount(base: real, milestoneNumber: int, rate: CommissionRate): real
  {
    var percent := if milestoneNumber == 1 then rate.percentMp1 else rate.percentMp2;
    var flat := if milestoneNumber == 1 then rate.flatMp1 else rate.flatMp2;
    (if percent.Some? then base * percent.value / 100.0 else 0.0) + flat.GetOr(0.0)
  }

  /** `CalculateAllocationAmount`: the exact amount rounded to whole cents, ties to even. */
  function CalculateAllocationAmount(base: real, milestoneNumber: int, rate: CommissionRate): (amount: real)
    ensures IsCents(amount)
    ensures -0.005 <= amount - RawAmount(base, milestoneNumber, rate) <= 0.005
  {
    Round2(RawAmount(base, milestoneNumber, rate))
  }

  /** Example: a contract of 10,000 with nothing received and an 8% MP1 rate pays 400.00 on MP1. */
  lemma EightPercentOfHalfContract(sale: Sale, rate: CommissionRate)
    requires sale.contractAmount == Some(10000.0) && sale.roofingSale.None?
    requires rate.percentMp1 == Some(8.0) && rate.flatMp1.None?
    ensures CalculateAllocationAmount(GetCommissionableAmount(sale, 1), 1, rate) == 400.0
  {
    assert RawAmount(5000.0, 1, rate) == 400.0;
    Round2Nearest(400.0, 400.0);
  }

  /** Example: a 10% rate plus a 5.00 flat amount on a base of 100 pays 15.00. */
  lemma PercentPlusFlat(rate: CommissionRate)
    requires rate.percentMp2 == Some(10.0) && rate.flatMp2 == Some(5.0)
    ensures CalculateAllocationAmount(100.0, 2, rate) == 15.0
  {
    assert RawAmount(100.0, 2, rate) == 15.0;
    Round2Nearest(15.0, 15.0);
  }

  // ---------- Override walk (preview) ----------

  /** The manager of `userId` when `userId` has an active employee record
      naming a manager and that manager has an active record; the walk up
      the chain stops wherever this is absent. */
  function ActiveManager(employees: map<int, Employee>, userId: int): (m: Option<int>)
    ensures m.Some? ==> m.value in employees && employees[m.value].isActive
  {
    if userId in employees && employees[userId].isActive && employees[userId].managerId.Some? then
      var manager := employees[userId].managerId.value;
      if manager in employees && employees[manager].isActive then Some(manager) else None
    else None
  }

  /** One override line of the preview. */
  datatype OverrideLine = OverrideLine(userId: int, overrideLevel: int, amount: real, rateId: int)

  /** The override lines `CalculateOverridesAsync` produces from `level` on,
      standing at `current`: each active manager above, up to level 5,
      stopping when the chain leads back to the sales rep; a manager pays a
      line only when a rate applies and the amount is positive. */
  function PreviewWalk(employees: map<int, Employee>, rates: seq<CommissionRate>, salesRep: int,
                       current: int, level: int, base: real, milestoneNumber: int, saleDate: int)
    : seq<OverrideLine>
    requires level >= 1
    decreases MaxOverrideLevels + 1 - level
  {
    if level > MaxOverrideLevels then []
    else
      match ActiveManager(employees, current)
      case None => []
      case Some(manager) =>
        if manager == salesRep then []
        else
          var rest := PreviewWalk(employees, rates, salesRep, manager, level + 1, base, milestoneNumber, saleDate);
          match FindBestMatchingRate(rates, OverrideQuery(manager, saleDate))
          case None => rest
          case Some(rate) =>
            var amount := CalculateAllocationAmount(base, milestoneNumber, rate);
            if amount > 0.0 then [OverrideLine(manager, level, amount, rate.rateId)] + rest else rest
  }

  /** Lines from `level` on: at strictly rising levels no higher than 5, so
      no more of them than levels are left, each paying a positive amount to
      someone other than the sales rep. */
  predicate WalkShape(lines: seq<OverrideLine>, level: int, salesRep: int)
  {
    && (lines != [] ==> level + |lines| <= MaxOverrideLevels + 1)
    && (forall i :: 0 <= i < |lines| ==>
          level <= lines[i].overrideLevel <= MaxOverrideLevels
          && lines[i].amount > 0.0 && lines[i].userId != salesRep)
    && (forall i, j :: 0 <= i < j < |lines| ==> lines[i].overrideLevel < lines[j].overrideLevel)
  }

  /** A level's own line, if any, in front of a walk shaped from the next level keeps the shape. */
  lemma WalkShapeCons(step: seq<OverrideLine>, rest: seq<OverrideLine>, level: int, salesRep: int, manager: int)
    requires 1 <= level <= MaxOverrideLevels && manager != salesRep
    requires |step| <= 1
    requires forall i :: 0 <= i < |step| ==>
               step[i].userId == manager && step[i].overrideLevel == level && step[i].amount > 0.0
    requires WalkShape(rest, level + 1, salesRep)
    ensures WalkShape(step + rest, level, salesRep)
  {
    var lines := step + rest;
    forall i, j | 0 <= i < j < |lines|
      ensures lines[i].overrideLevel < lines[j].overrideLevel
    {
      if j < |step| {
        assert false;
      } else if i < |step| {
        assert lines[j] == rest[j - |step|];
      } else {
        assert lines[i] == rest[i - |step|] && lines[j] == rest[j - |step|];
      }
    }
  }

  /** The preview walk from any level has that shape. */
  lemma {:induction false} PreviewWalkFacts(employees: map<int, Employee>, rates: seq<CommissionRate>, salesRep: int,
                                            current: int, level: int, base: real, m: int, saleDate: int)
    requires level >= 1
    ensures WalkShape(PreviewWalk(employees, rates, salesRep, current, level, base, m, saleDate), level, salesRep)
    decreases MaxOverrideLevels + 1 - level
  {
    if level <= MaxOverrideLevels {
      match ActiveManager(employees, current)
      case None =>
      case Some(manager) =>
        if manager != salesRep {
          PreviewWalkFacts(employees, rates, salesRep, manager, level + 1, base, m, saleDate);
          PreviewWalkStep(employees, rates, salesRep, current, level, base, m, saleDate, manager);
          WalkShapeCons(OverrideStepLine(rates, manager, level, base, m, saleDate),
                        PreviewWalk(employees, rates, salesRep, manager, level + 1, base, m, saleDate),
                        level, salesRep, manager);
        }
    }
  }

  /** The walk ends where the chain returns to the sales rep, whatever lies above. */
  lemma PreviewStopsAtSalesRep(employees: map<int, Employee>, rates: seq<CommissionRate>, salesRep: int,
                               current: int, level: int, base: real, m: int, saleDate: int)
    requires level >= 1
    requires ActiveManager(employees, current) == Some(salesRep)
    ensures PreviewWalk(employees, rates, salesRep, current, level, base, m, saleDate) == []
  {
  }

  /** Where the chain ends, the rest of the preview walk has no lines. */
  lemma PreviewWalkEnds(employees: map<int, Employee>, rates: seq<CommissionRate>, salesRep: int,
                        current: int, level: int, base: real, m: int, saleDate: int)
    requires level >= 1
    requires ActiveManager(employees, current).None?
    ensures PreviewWalk(employees, rates, salesRep, current, level, base, m, saleDate) == []
  {
  }

  /** The override line a manager's rate gives at a level, if it pays more than zero. */
  function OverrideStepLine(rates: seq<CommissionRate>, manager: int, level: int, base: real, m: int, saleDate: int)
    : (ls: seq<OverrideLine>)
    ensures |ls| <= 1
    ensures forall i :: 0 <= i < |ls| ==> ls[i].userId == manager && ls[i].overrideLevel == level && ls[i].amount > 0.0
  {
    match FindBestMatchingRate(rates, OverrideQuery(manager, saleDate))
    case None => []
    case Some(rate) =>
      var amount := CalculateAllocationAmount(base, m, rate);
      if amount > 0.0 then [OverrideLine(manager, level, amount, rate.rateId)] else []
  }

  /** One level of the preview walk below a manager who is not the sales rep:
      that level's line, if any, then the walk above. */
  lemma PreviewWalkStep(employees: map<int, Employee>, rates: seq<CommissionRate>, salesRep: int,
                        current: int, level: int, base: real, m: int, saleDate: int, manager: int)
    requires 1 <= level <= MaxOverrideLevels
    requires ActiveManager(employees, current) == Some(manager) && manager != salesRep
    ensures PreviewWalk(employees, rates, salesRep, current, level, base, m, saleDate)
            == OverrideStepLine(rates, manager, level, base, m, saleDate)
               + PreviewWalk(employees, rates, salesRep, manager, level + 1, base, m, saleDate)
  {
    var rate := FindBestMatchingRate(rates, OverrideQuery(manager, saleDate));
    if !(rate.Some? && CalculateAllocationAmount(base, m, rate.value) > 0.0) {
      assert OverrideStepLine(rates, manager, level, base, m, saleDate) == [];
    }
  }

  /** One level of the loop in `CalculateOverridesAsync`: the manager's
      override rate, and a line when it pays more than zero. */
  method OverrideLevelLines(rates: seq<CommissionRate>, manager: int, level: int, base: real, m: int, saleDate: int)
    returns (ls: seq<OverrideLine>)
    ensures ls == OverrideStepLine(rates, manager, level, base, m, saleDate)
    ensures forall i :: 0 <= i < |ls| ==> ls[i].userId == manager && ls[i].overrideLevel == level && ls[i].amount > 0.0
  {
    ls := [];
    var overrideRate := FindBestMatchingRate(rates, OverrideQuery(manager, saleDate));
    if overrideRate.Some? {
      var amount := CalculateAllocationAmount(base, m, overrideRate.value);
      if amount > 0.0 {
        ls := [OverrideLine(manager, level, amount, overrideRate.value.rateId)];
      }
    }
  }

  /** The walk from the sales rep has at most five lines, at levels 1 to 5,
      each paying a positive amount to someone other than the sales rep. */
  lemma PreviewWalkBounds(employees: map<int, Employee>, rates: seq<CommissionRate>, salesRep: int,
                          base: real, m: int, saleDate: int, lines: seq<OverrideLine>)
    requires lines == PreviewWalk(employees, rates, salesRep, salesRep, 1, base, m, saleDate)
    ensures |lines| <= MaxOverrideLevels
    ensures forall i :: 0 <= i < |lines| ==>
              1 <= lines[i].overrideLevel <= MaxOverrideLevels && lines[i].amount > 0.0 && lines[i].userId != salesRep
  {
    PreviewWalkFacts(employees, rates, salesRep, salesRep, 1, base, m, saleDate);
  }

  /** `CalculateOverridesAsync`. */
  method CalculateOverrides(employees: map<int, Employee>, rates: seq<CommissionRate>, salesRep: int,
                            base: real, milestoneNumber: int, saleDate: int)
    returns (lines: seq<OverrideLine>)
    ensures lines == PreviewWalk(employees, rates, salesRep, salesRep, 1, base, milestoneNumber, saleDate)
  {
    ghost var all := PreviewWalk(employees, rates, salesRep, salesRep, 1, base, milestoneNumber, saleDate);
    lines := [];
    var current := salesRep;
    var level := 1;
    while level <= MaxOverrideLevels
      invariant 1 <= level <= MaxOverrideLevels + 1
      invariant lines + PreviewWalk(employees, rates, salesRep, current, level, base, milestoneNumber, saleDate) == all
      decreases MaxOverrideLevels + 1 - level
    {
      var next := ActiveManager(employees, current);
      if next.None? {
        PreviewWalkEnds(employees, rates, salesRep, current, level, base, milestoneNumber, saleDate);
        break;
      }
      var manager := next.value;
      if manager == salesRep {
        PreviewStopsAtSalesRep(employees, rates, salesRep, current, level, base, milestoneNumber, saleDate);
        break;
      }
      PreviewWalkStep(employees, rates, salesRep, current, level, base, milestoneNumber, saleDate, manager);
      ghost var step := OverrideStepLine(rates, manager, level, base, milestoneNumber, saleDate);
      ghost var rest := PreviewWalk(employees, rates, salesRep, manager, level + 1, base, milestoneNumber, saleDate);
      assert lines + (step + rest) == (lines + step) + rest;
      var levelLines := OverrideLevelLines(rates, manager, level, base, milestoneNumber, saleDate);
      lines := lines + levelLines;
      current := manager;
      level := level + 1;
    }
  }

  // ---------- Milestone preview ----------

  /** One participant line: the rate found (if any) and the amount it pays;
      a line without a rate is the "no commission rate found" warning and pays 0. */
  datatype ParticipantLine = ParticipantLine(
    userId: int,
    rateId: Option<int>,
    percentRate: Option<real>,
    flatRate: Option<real>,
    allocatedAmount: real)

  datatype MilestonePreview = MilestonePreview(
    milestoneNumber: int,
    commissionableAmount: real,
    participants: seq<ParticipantLine>,
    overrides: seq<OverrideLine>,
    participantAllocations: real,
    managerOverrides: real,
    grandTotal: real)

  function ParticipantQuery(sale: Sale, p: SaleParticipant): RateQuery
  {
    RateQuery(Roofing, p.userId, p.roleId, None, sale.customerStateCode, sale.saleDate)
  }

  /** The preview line for one participant. */
  function PreviewLine(rates: seq<CommissionRate>, sale: Sale, m: int, p: SaleParticipant): ParticipantLine
  {
    match FindBestMatchingRate(rates, ParticipantQuery(sale, p))
    case None => ParticipantLine(p.userId, None, None, None, 0.0)
    case Some(rate) =>
      ParticipantLine(p.userId, Some(rate.rateId),
                      if m == 1 then rate.percentMp1 else rate.percentMp2,
                      if m == 1 then rate.flatMp1 else rate.flatMp2,
                      CalculateAllocationAmount(GetCommissionableAmount(sale, m), m, rate))
  }

  /** The line is the participant's; it has no rate exactly when the lookup
      finds none, and then it pays nothing; with a rate it pays that rate's
      rounded amount on the milestone's commissionable amount. */
  lemma PreviewLineFacts(rates: seq<CommissionRate>, sale: Sale, m: int, p: SaleParticipant)
    ensures var line := PreviewLine(rates, sale, m, p);
            var rate := FindBestMatchingRate(rates, ParticipantQuery(sale, p));
            && line.userId == p.userId
            && (line.rateId.None? <==> rate.None?)
            && (line.rateId.None? ==> line.allocatedAmount == 0.0)
            && (rate.Some? ==>
                  && line.rateId == Some(rate.value.rateId)
                  && line.allocatedAmount == CalculateAllocationAmount(GetCommissionableAmount(sale, m), m, rate.value))
  {
  }

  /** The override lines of the first participants: a participant's chain is walked only when the participant has a rate. */
  function PreviewOverrides(employees: map<int, Employee>, rates: seq<CommissionRate>, sale: Sale, m: int,
                            ps: seq<SaleParticipant>): seq<OverrideLine>
  {
    if ps == [] then []
    else
      var p := ps[|ps| - 1];
      PreviewOverrides(employees, rates, sale, m, ps[..|ps| - 1])
      + ParticipantOverrides(employees, rates, sale, m, p)
  }

  /** The preview lines of the first participants, one per participant in order. */
  function PreviewLines(rates: seq<CommissionRate>, sale: Sale, m: int, ps: seq<SaleParticipant>): seq<ParticipantLine>
  {
    if ps == [] then [] else PreviewLines(rates, sale, m, ps[..|ps| - 1]) + [PreviewLine(rates, sale, m, ps[|ps| - 1])]
  }

  /** Line `k` of the preview is the line of participant `k`. */
  lemma {:induction false} PreviewLinesAt(rates: seq<CommissionRate>, sale: Sale, m: int, ps: seq<SaleParticipant>)
    ensures |PreviewLines(rates, sale, m, ps)| == |ps|
    ensures forall k :: 0 <= k < |ps| ==> PreviewLines(rates, sale, m, ps)[k] == PreviewLine(rates, sale, m, ps[k])
  {
    if ps != [] {
      PreviewLinesAt(rates, sale, m, ps[..|ps| - 1]);
    }
  }

  function SumParticipants(lines: seq<ParticipantLine>): real
  {
    if lines == [] then 0.0 else SumParticipants(lines[..|lines| - 1]) + lines[|lines| - 1].allocatedAmount
  }

  function SumOverrides(lines: seq<OverrideLine>): real
  {
    if lines == [] then 0.0 else SumOverrides(lines[..|lines| - 1]) + lines[|lines| - 1].amount
  }

  /** Every override line pays a positive amount, so the override total is
      positive exactly when there is at least one line. */
  lemma {:induction false} SumOverridesPositive(lines: seq<OverrideLine>)
    requires forall i :: 0 <= i < |lines| ==> lines[i].amount > 0.0
    ensures lines != [] <==> SumOverrides(lines) > 0.0
    ensures SumOverrides(lines) >= 0.0
  {
    if lines != [] {
      SumOverridesPositive(lines[..|lines| - 1]);
    }
  }

  /** When no participant has a rate, the preview has no override lines at all. */
  lemma {:induction false} NoRateNoOverrides(employees: map<int, Employee>, rates: seq<CommissionRate>, sale: Sale, m: int,
                                             ps: seq<SaleParticipant>)
    requires forall i :: 0 <= i < |ps| ==> FindBestMatchingRate(rates, ParticipantQuery(sale, ps[i])).None?
    ensures PreviewOverrides(employees, rates, sale, m, ps) == []
  {
    if ps != [] {
      NoRateNoOverrides(employees, rates, sale, m, ps[..|ps| - 1]);
    }
  }

  /** The override lines one participant adds to the preview. */
  function ParticipantOverrides(employees: map<int, Employee>, rates: seq<CommissionRate>, sale: Sale, m: int,
                                p: SaleParticipant): seq<OverrideLine>
  {
    if FindBestMatchingRate(rates, ParticipantQuery(sale, p)).Some? then
      PreviewWalk(employees, rates, p.userId, p.userId, 1, GetCommissionableAmount(sale, m), m, sale.saleDate)
    else []
  }

  /** The body of the participant loop in `CalculateMilestoneAsync`: the line for
      one participant and, when a rate was found, that participant's override chain. */
  method CalculateParticipant(employees: map<int, Employee>, rates: seq<CommissionRate>, sale: Sale, m: int,
                              participant: SaleParticipant)
    returns (line: ParticipantLine, overrides: seq<OverrideLine>)
    ensures line == PreviewLine(rates, sale, m, participant)
    ensures overrides == ParticipantOverrides(employees, rates, sale, m, participant)
  {
    var base := GetCommissionableAmount(sale, m);
    var rate := FindBestMatchingRate(rates, ParticipantQuery(sale, participant));
    if rate.Some? {
      var amount := CalculateAllocationAmount(base, m, rate.value);
      line := ParticipantLine(participant.userId, Some(rate.value.rateId),
                              if m == 1 then rate.value.percentMp1 else rate.value.percentMp2,
                              if m == 1 then rate.value.flatMp1 else rate.value.flatMp2,
                              amount);
      overrides := CalculateOverrides(employees, rates, participant.userId, base, m, sale.saleDate);
    } else {
      line := ParticipantLine(participant.userId, None, None, None, 0.0);
      overrides := [];
    }
  }

  /** One pass of the participant loop extends the lines, the override lines
      and the running total by that participant's share. */
  lemma MilestoneLoopStep(employees: map<int, Employee>, rates: seq<CommissionRate>, sale: Sale, m: int,
                          ps: seq<SaleParticipant>, i: nat, lines: seq<ParticipantLine>, overrides: seq<OverrideLine>,
                          total: real, line: ParticipantLine, participantOverrides: seq<OverrideLine>)
    requires i < |ps|
    requires lines == PreviewLines(rates, sale, m, ps[..i])
    requires overrides == PreviewOverrides(employees, rates, sale, m, ps[..i])
    requires total == SumParticipants(lines)
    requires line == PreviewLine(rates, sale, m, ps[i])
    requires participantOverrides == ParticipantOverrides(employees, rates, sale, m, ps[i])
    ensures lines + [line] == PreviewLines(rates, sale, m, ps[..i + 1])
    ensures overrides + participantOverrides == PreviewOverrides(employees, rates, sale, m, ps[..i + 1])
    ensures total + line.allocatedAmount == SumParticipants(lines + [line])
  {
    assert ps[..i + 1][..i] == ps[..i] && ps[..i + 1][i] == ps[i];
    assert (lines + [line])[..|lines|] == lines;
  }

  /** `CalculateMilestoneAsync`. */
  method CalculateMilestone(employees: map<int, Employee>, rates: seq<CommissionRate>, sale: Sale, m: int)
    returns (preview: MilestonePreview)
    ensures preview.milestoneNumber == m
    ensures preview.commissionableAmount == GetCommissionableAmount(sale, m)
    ensures preview.participants == PreviewLines(rates, sale, m, sale.participants)
    ensures |preview.participants| == |sale.participants|
    ensures forall i :: 0 <= i < |sale.participants| ==>
              preview.participants[i] == PreviewLine(rates, sale, m, sale.participants[i])
    ensures preview.overrides == PreviewOverrides(employees, rates, sale, m, sale.participants)
    ensures preview.participantAllocations == SumParticipants(preview.participants)
    ensures preview.managerOverrides == SumOverrides(preview.overrides)
    ensures preview.grandTotal == preview.participantAllocations + preview.managerOverrides
  {
    var ps := sale.participants;
    var base := GetCommissionableAmount(sale, m);
    var lines: seq<ParticipantLine> := [];
    var overrides: seq<OverrideLine> := [];
    var totalAllocated := 0.0;
    var i := 0;
    while i < |ps|
      invariant 0 <= i <= |ps|
      invariant lines == PreviewLines(rates, sale, m, ps[..i])
      invariant overrides == PreviewOverrides(employees, rates, sale, m, ps[..i])
      invariant totalAllocated == SumParticipants(lines)
    {
      var line, participantOverrides := CalculateParticipant(employees, rates, sale, m, ps[i]);
      MilestoneLoopStep(employees, rates, sale, m, ps, i, lines, overrides, totalAllocated, line, participantOverrides);
      totalAllocated := totalAllocated + line.allocatedAmount;
      overrides := overrides + participantOverrides;
      lines := lines + [line];
      i := i + 1;
    }
    assert ps[..|ps|] == ps;
    PreviewLinesAt(rates, sale, m, ps);
    var totalOverrides := SumOverrides(overrides);
    preview := MilestonePreview(m, base, lines, overrides, totalAllocated, totalOverrides, totalAllocated + totalOverrides);
  }

  // ---------- GET preview endpoint ----------

  /** What `CalculateMilestoneAsync` returns for milestone `m` of the sale:
      one line per participant, the override lines of every participant's
      chain, each total the sum of its lines and the grand total both sums. */
  predicate IsMilestonePreview(p: MilestonePreview, employees: map<int, Employee>, rates: seq<CommissionRate>,
                               sale: Sale, m: int)
  {
    && p.milestoneNumber == m
    && p.commissionableAmount == GetCommissionableAmount(sale, m)
    && p.participants == PreviewLines(rates, sale, m, sale.participants)
    && p.overrides == PreviewOverrides(employees, rates, sale, m, sale.participants)
    && p.participantAllocations == SumParticipants(p.participants)
    && p.managerOverrides == SumOverrides(p.overrides)
    && p.grandTotal == p.participantAllocations + p.managerOverrides
  }

  datatype CommissionPreview = CommissionPreview(
    saleId: int,
    contractAmount: real,
    mp1: Option<MilestonePreview>,
    mp2: Option<MilestonePreview>)

  /** The sale's project type is "roof", compared without regard to case. */
  predicate IsRoofProject(sale: Sale)
  {
    sale.projectTypeName.Some? && ToLower(sale.projectTypeName.value) == "roof"
  }

  /** The preview endpoint: the sale must exist, be a roofing project and
      carry a non-zero contract amount; a missing milestone parameter
      previews both milestones, 1 or 2 previews that one, any other value
      neither. */
  method PreviewCommission(db: SparkDb, saleId: int, milestone: Option<int>) returns (r: Result<CommissionPreview>)
    ensures FindSale(db.sales, saleId).None? ==> r == Err(NotFound("Sale " + IntToString(saleId) + " not found"))
    ensures FindSale(db.sales, saleId).Some? ==>
              var sale := db.sales[FindSale(db.sales, saleId).value];
              && (!IsRoofProject(sale) ==> r == Err(BadRequest("This endpoint is for roofing projects only")))
              && (IsRoofProject(sale) && (sale.contractAmount.None? || sale.contractAmount.value == 0.0) ==>
                    r == Err(BadRequest("Contract amount is required for commission calculation")))
              && (IsRoofProject(sale) && sale.contractAmount.Some? && sale.contractAmount.value != 0.0 ==>
                    r.Ok? && r.value.saleId == saleId && r.value.contractAmount == sale.contractAmount.value)
    ensures r.Ok? ==> (r.value.mp1.Some? <==> (milestone.None? || milestone == Some(1)))
    ensures r.Ok? ==> (r.value.mp2.Some? <==> (milestone.None? || milestone == Some(2)))
    ensures r.Ok? && r.value.mp1.Some? ==> r.value.mp1.value.milestoneNumber == 1
    ensures r.Ok? && r.value.mp2.Some? ==> r.value.mp2.value.milestoneNumber == 2
    ensures r.Ok? ==> FindSale(db.sales, saleId).Some?
    ensures r.Ok? && r.value.mp1.Some? ==>
              IsMilestonePreview(r.value.mp1.value, db.employees, db.rates, db.sales[FindSale(db.sales, saleId).value], 1)
    ensures r.Ok? && r.value.mp2.Some? ==>
              IsMilestonePreview(r.value.mp2.value, db.employees, db.rates, db.sales[FindSale(db.sales, saleId).value], 2)
  {
    var found := FindSale(db.sales, saleId);
    if found.None? {
      return Err(NotFound("Sale " + IntToString(saleId) + " not found"));
    }
    var sale := db.sales[found.value];
    if !IsRoofProject(sale) {
      return Err(BadRequest("This endpoint is for roofing projects only"));
    }
    if sale.contractAmount.None? || sale.contractAmount.value == 0.0 {
      return Err(BadRequest("Contract amount is required for commission calculation"));
    }
    var mp1: Option<MilestonePreview> := None;
    var mp2: Option<MilestonePreview> := None;
    if milestone.None? || milestone == Some(1) {
      var p := CalculateMilestone(db.employees, db.rates, sale, 1);
      mp1 := Some(p);
    }
    if milestone.None? || milestone == Some(2) {
      var p := CalculateMilestone(db.employees, db.rates, sale, 2);
      mp2 := Some(p);
    }
    r := Ok(CommissionPreview(saleId, sale.contractAmount.value, mp1, mp2));
  }
}
