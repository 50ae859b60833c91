/**
 * The persistent entities the endpoints read and write, and the database
 * context that holds them. Each table is a sequence of rows in storage order;
 * the employee hierarchy is a map from user id to the employee record.
 *
 * The four per-industry commission allocation tables and the manager override
 * table have the same approval, payment and batch columns; they are one
 * sequence of `Allocation` rows here, each row saying by its `source` which
 * table it belongs to.
 */
module Store {
  import opened Common

  /** A row of one of the four `*UserCommissionRates` tables. */
  datatype CommissionRate = CommissionRate(
    rateId: int,
    industry: Industry,
    userId: int,
    roleId: Option<int>,
    installerId: Option<int>,
    stateCode: Option<string>,
    percentMp1: Option<real>,
    flatMp1: Option<real>,
    percentMp2: Option<real>,
    flatMp2: Option<real>,
    isActive: bool,
    effectiveStartDate: int,
    effectiveEndDate: Option<int>,
    createdAt: int,
    createdBy: Option<int>,
    updatedAt: int,
    updatedBy: Option<int>)

  /** Which allocation table a row lives in, with that table's slot column. */
  datatype Source =
    | Participant(industry: Industry, milestoneNumber: int)
    | Override(overrideLevel: int)

  /** A row of `*CommissionAllocations` or of `OverrideAllocations`. */
  datatype Allocation = Allocation(
    allocationId: int,
    source: Source,
    saleId: int,
    userId: int,
    allocationTypeId: Option<int>,
    allocatedAmount: real,
    isApproved: bool,
    approvedAt: Option<int>,
    approvedBy: Option<int>,
    isPaid: bool,
    paidAt: Option<int>,
    payrollBatchId: Option<int>,
    createdAt: int,
    updatedAt: int)

  /** An employee record; `managerId` and the map keys are user ids. */
  datatype Employee = Employee(
    isActive: bool,
    managerId: Option<int>,
    teamId: Option<int>,
    officeId: Option<int>)

  datatype SaleParticipant = SaleParticipant(userId: int, roleId: Option<int>)

  datatype SolarSale = SolarSale(installerId: Option<int>)

  datatype RoofingSale = RoofingSale(
    frontendReceivedAmount: Option<real>,
    backendReceivedAmount: Option<real>,
    partnerId: Option<int>)

  datatype Sale = Sale(
    saleId: int,
    saleDate: int,
    saleStatus: string,
    contractAmount: Option<real>,
    projectTypeId: Option<int>,
    projectTypeName: Option<string>,
    customerId: Option<int>,
    customerStateCode: Option<string>,
    generationTypeId: Option<int>,
    participants: seq<SaleParticipant>,
    solarSale: Option<SolarSale>,
    hasPestSale: bool,
    roofingSale: Option<RoofingSale>,
    hasFiberSale: bool,
    cancelledAt: Option<int>,
    cancelledBy: Option<int>,
    cancellationReason: Option<string>,
    updatedAt: int,
    updatedBy: Option<int>)

  datatype BatchStatus = Draft | Submitted | Approved | Exported | Paid | Cancelled
  {
    function Name(): string
    {
      match this
      case Draft => "DRAFT"
      case Submitted => "SUBMITTED"
      case Approved => "APPROVED"
      case Exported => "EXPORTED"
      case Paid => "PAID"
      case Cancelled => "CANCELLED"
    }
  }

  datatype PayrollBatch = PayrollBatch(
    batchId: int,
    batchName: string,
    payPeriodStart: int,
    payPeriodEnd: int,
    payDate: int,
    status: BatchStatus,
    totalAmount: real,
    recordCount: int,
    createdAt: int,
    createdBy: Option<int>,
    updatedAt: int,
    updatedBy: Option<int>,
    submittedAt: Option<int>,
    submittedBy: Option<int>,
    approvedAt: Option<int>,
    approvedBy: Option<int>,
    exportedAt: Option<int>,
    exportedBy: Option<int>)

  datatype AnnouncementTarget = AnnouncementTarget(targetType: string, targetEntityId: Option<int>)

  /** An announcement, with the rows of `AnnouncementTargets` that point at it. */
  datatype Announcement = Announcement(
    announcementId: int,
    title: string,
    text: string,
    authorId: int,
    postDate: int,
    startDate: int,
    expiresAt: Option<int>,
    priority: string,
    visibility: string,
    isActive: bool,
    isPinned: bool,
    viewCount: int,
    targets: seq<AnnouncementTarget>,
    createdAt: int,
    createdBy: Option<int>,
    updatedAt: int,
    updatedBy: Option<int>)

  datatype AnnouncementView = AnnouncementView(
    announcementId: int,
    userId: int,
    viewedAt: int,
    isAcknowledged: bool,
    acknowledgedAt: Option<int>)

  datatype Ticket = Ticket(
    ticketId: int,
    subject: string,
    description: Option<string>,
    priority: string,
    status: string,
    assignedTo: Option<int>,
    createdAt: int,
    createdBy: Option<int>,
    updatedAt: int,
    updatedBy: Option<int>,
    resolvedAt: Option<int>,
    resolvedBy: Option<int>,
    closedAt: Option<int>,
    closedBy: Option<int>)

  datatype TicketStatusHistory = TicketStatusHistory(
    ticketId: int,
    oldStatus: Option<string>,
    newStatus: string,
    changedAt: int,
    changedBy: int)

  /** `Sales.FindAsync(id)`: the row whose key is `id`. */
  function FindSale(sales: seq<Sale>, saleId: int): (r: Option<nat>)
    ensures r.Some? ==> r.value < |sales| && sales[r.value].saleId == saleId
    ensures r.None? ==> forall j :: 0 <= j < |sales| ==> sales[j].saleId != saleId
  {
    IndexWhere(sales, (s: Sale) => s.saleId == saleId)
  }

  function FindBatch(batches: seq<PayrollBatch>, batchId: int): (r: Option<nat>)
    ensures r.Some? ==> r.value < |batches| && batches[r.value].batchId == batchId
    ensures r.None? ==> forall j :: 0 <= j < |batches| ==> batches[j].batchId != batchId
  {
    IndexWhere(batches, (b: PayrollBatch) => b.batchId == batchId)
  }

  function FindAnnouncement(announcements: seq<Announcement>, id: int): (r: Option<nat>)
    ensures r.Some? ==> r.value < |announcements| && announcements[r.value].announcementId == id
    ensures r.None? ==> forall j :: 0 <= j < |announcements| ==> announcements[j].announcementId != id
  {
    IndexWhere(announcements, (a: Announcement) => a.announcementId == id)
  }

  function FindTicket(tickets: seq<Ticket>, id: int): (r: Option<nat>)
    ensures r.Some? ==> r.value < |tickets| && tickets[r.value].ticketId == id
    ensures r.None? ==> forall j :: 0 <= j < |tickets| ==> tickets[j].ticketId != id
  {
    IndexWhere(tickets, (t: Ticket) => t.ticketId == id)
  }

  /** `FindAsync(id)` on the allocation table named by `industry`. */
  function FindAllocation(rows: seq<Allocation>, industry: Industry, id: int): (r: Option<nat>)
    ensures r.Some? ==> r.value < |rows| && rows[r.value].allocationId == id
    ensures r.Some? ==> rows[r.value].source.Participant? && rows[r.value].source.industry == industry
    ensures r.None? ==> forall j :: 0 <= j < |rows| ==>
              !(rows[j].source.Participant? && rows[j].source.industry == industry && rows[j].allocationId == id)
  {
    IndexWhere(rows, (a: Allocation) => a.source.Participant? && a.source.industry == industry && a.allocationId == id)
  }

  /** `OverrideAllocations.FindAsync(id)`. */
  function FindOverride(rows: seq<Allocation>, id: int): (r: Option<nat>)
    ensures r.Some? ==> r.value < |rows| && rows[r.value].allocationId == id && rows[r.value].source.Override?
    ensures r.None? ==> forall j :: 0 <= j < |rows| ==> !(rows[j].source.Override? && rows[j].allocationId == id)
  {
    IndexWhere(rows, (a: Allocation) => a.source.Override? && a.allocationId == id)
  }

  /** One `{ industry, allocationId }` entry of a batch request (`BatchApproveItem`). */
  datatype BatchItem = BatchItem(industry: string, allocationId: int)

  /** The row an item names, when its industry is one of the four and a row of that table has its id. */
  function ItemRow(rows: seq<Allocation>, item: BatchItem): (r: Option<nat>)
    ensures r.Some? ==> r.value < |rows| && rows[r.value].source.Participant?
    ensures r.Some? ==> ParseIndustry(item.industry).Some?
                        && rows[r.value].source.industry == ParseIndustry(item.industry).value
                        && rows[r.value].allocationId == item.allocationId
    ensures r.None? <==> ParseIndustry(item.industry).None?
                         || FindAllocation(rows, ParseIndustry(item.industry).value, item.allocationId).None?
  {
    match ParseIndustry(item.industry)
    case None => None
    case Some(industry) => FindAllocation(rows, industry, item.allocationId)
  }

  /** The database context. A handler's changes become visible when it assigns a table. */
  class SparkDb {
    var rates: seq<CommissionRate>
    var allocations: seq<Allocation>
    var employees: map<int, Employee>
    var sales: seq<Sale>
    var batches: seq<PayrollBatch>
    var announcements: seq<Announcement>
    var views: seq<AnnouncementView>
    var tickets: seq<Ticket>
    var ticketHistory: seq<TicketStatusHistory>

    constructor (employees: map<int, Employee>)
      ensures this.employees == employees
      ensures rates == [] && allocations == [] && sales == [] && batches == []
      ensures announcements == [] && views == [] && tickets == [] && ticketHistory == []
    {
      this.employees := employees;
      rates, allocations, sales, batches := [], [], [], [];
      announcements, views, tickets, ticketHistory := [], [], [], [];
    }
  }
}
