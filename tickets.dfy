/**
 * Support tickets: the listing scoped by authority, creation with its first
 * history entry, status changes that stamp and log, assignment and partial
 * update. The history log keeps, for every ticket, an entry whose new
 * status is the ticket's current one.
 */
module Tickets {
  import opened Common
  import opened Store
  import opened EndpointAuth
  import opened Ordering

  // ---------- Listing ----------

  /**
   * The authority scoping of the listing: up to level 2 a caller sees tickets
   * it created or is assigned; level 3 sees tickets whose creator or assignee
   * is accessible (a missing one counts as user 0); level 4 and up sees all.
   */
  predicate InScope(t: Ticket, level: int, userId: int, accessible: set<int>)
  {
    if level <= 2 then t.createdBy == Some(userId) || t.assignedTo == Some(userId)
    else if level == 3 then t.createdBy.GetOr(0) in accessible || t.assignedTo.GetOr(0) in accessible
    else true
  }

  /** Where the caller is in its own accessible set, level 3 sees everything level 2 sees. */
  lemma ScopeWidens(t: Ticket, userId: int, accessible: set<int>, lower: int)
    requires userId in accessible && lower <= 2
    ensures InScope(t, lower, userId, accessible) ==> InScope(t, 3, userId, accessible)
    ensures InScope(t, 4, userId, accessible)
  {
  }

  datatype TicketFilter = TicketFilter(status: Option<string>, priority: Option<string>, assignedTo: Option<int>)

  /** The filters of the listing; an empty status or priority is not applied. */
  predicate MatchesFilter(t: Ticket, f: TicketFilter)
  {
    && (f.status.None? || f.status.value == "" || t.status == f.status.value)
    && (f.priority.None? || f.priority.value == "" || t.priority == f.priority.value)
    && (f.assignedTo.None? || t.assignedTo == f.assignedTo)
  }

  function ByCreatedAt(t: Ticket): (int, int)
  {
    (t.createdAt, 0)
  }

  /** `GetTickets` before paging: filtered, scoped, newest first. */
  function GetTickets(tickets: seq<Ticket>, s: Session, accessible: set<int>, f: TicketFilter)
    : (r: Result<seq<Ticket>>)
    ensures r.Err? <==> s.userId.None?
    ensures r.Err? ==> r.error == Unauthorized
    ensures r.Ok? ==> SortedDesc(r.value, ByCreatedAt)
    ensures r.Ok? ==> forall t :: t in r.value <==>
              t in tickets && MatchesFilter(t, f) && InScope(t, GetAuthorityLevel(s), s.userId.value, accessible)
  {
    var gate := RequireAuth(s);
    if !gate.Passed() then Err(gate.error.value)
    else
      var level := GetAuthorityLevel(s);
      var kept := Filter(tickets, (t: Ticket) => MatchesFilter(t, f) && InScope(t, level, gate.userId, accessible));
      var sorted := SortDesc(kept, ByCreatedAt);
      assert forall t :: t in sorted <==> t in kept by {
        forall t
          ensures t in sorted <==> t in kept
        {
          SortDescMembers(kept, ByCreatedAt, t);
        }
      }
      Ok(sorted)
  }

  // ---------- History ----------

  /** The history entries of one ticket, in the order written. */
  function HistoryOf(history: seq<TicketStatusHistory>, ticketId: int): seq<TicketStatusHistory>
  {
    Filter(history, (h: TicketStatusHistory) => h.ticketId == ticketId)
  }

  function ByChangedAt(h: TicketStatusHistory): (int, int)
  {
    (h.changedAt, 0)
  }

  /** The new status of a ticket's latest entry. */
  function LastStatus(history: seq<TicketStatusHistory>, ticketId: int): Option<string>
  {
    if |history| == 0 then None
    else if history[|history| - 1].ticketId == ticketId then Some(history[|history| - 1].newStatus)
    else LastStatus(history[..|history| - 1], ticketId)
  }

  lemma LastStatusAppend(history: seq<TicketStatusHistory>, e: TicketStatusHistory, ticketId: int)
    ensures LastStatus(history + [e], ticketId) == if e.ticketId == ticketId then Some(e.newStatus) else LastStatus(history, ticketId)
  {
    assert (history + [e])[..|history|] == history;
  }

  predicate UniqueIds(tickets: seq<Ticket>)
  {
    forall i, j :: 0 <= i < j < |tickets| ==> tickets[i].ticketId != tickets[j].ticketId
  }

  /** Every ticket's latest history entry names its current status. */
  predicate Logged(tickets: seq<Ticket>, history: seq<TicketStatusHistory>)
  {
    && UniqueIds(tickets)
    && forall k :: 0 <= k < |tickets| ==> LastStatus(history, tickets[k].ticketId) == Some(tickets[k].status)
  }

  // ---------- Creating ----------

  datatype CreateTicketRequest = CreateTicketRequest(subject: string, description: Option<string>, priority: Option<string>)

  /** A new ticket: OPEN, MEDIUM priority unless given, created by the caller, unassigned. */
  function NewTicket(id: int, request: CreateTicketRequest, actor: int, now: int): (t: Ticket)
    ensures t.ticketId == id && t.subject == request.subject && t.description == request.description
    ensures t.priority == (if request.priority.Some? then request.priority.value else "MEDIUM")
    ensures t.status == "OPEN" && t.assignedTo.None?
    ensures t.createdAt == now && t.createdBy == Some(actor) && t.updatedAt == now && t.updatedBy.None?
    ensures t.resolvedAt.None? && t.resolvedBy.None? && t.closedAt.None? && t.closedBy.None?
  {
    Ticket(id, request.subject, request.description, request.priority.GetOr("MEDIUM"), "OPEN", None,
           now, Some(actor), now, None, None, None, None, None)
  }

  /** The entry a new ticket starts its history with: no old status, OPEN. */
  function OpenedEntry(id: int, actor: int, now: int): TicketStatusHistory
  {
    TicketStatusHistory(id, None, "OPEN", now, actor)
  }

  function NextTicketId(tickets: seq<Ticket>): (id: int)
    ensures forall k :: 0 <= k < |tickets| ==> tickets[k].ticketId < id
  {
    NextId(tickets, (t: Ticket) => t.ticketId)
  }

  /** Creating a ticket keeps the log, and a fresh id's history is exactly the opening entry. */
  lemma CreateKeepsLog(tickets: seq<Ticket>, history: seq<TicketStatusHistory>, request: CreateTicketRequest,
                       actor: int, now: int)
    requires Logged(tickets, history)
    requires forall j :: 0 <= j < |history| ==> history[j].ticketId != NextTicketId(tickets)
    ensures var id := NextTicketId(tickets);
            && Logged(tickets + [NewTicket(id, request, actor, now)], history + [OpenedEntry(id, actor, now)])
            && HistoryOf(history + [OpenedEntry(id, actor, now)], id) == [OpenedEntry(id, actor, now)]
  {
    var id := NextTicketId(tickets);
    var tickets' := tickets + [NewTicket(id, request, actor, now)];
    var e := OpenedEntry(id, actor, now);
    forall k | 0 <= k < |tickets'|
      ensures LastStatus(history + [e], tickets'[k].ticketId) == Some(tickets'[k].status)
    {
      LastStatusAppend(history, e, tickets'[k].ticketId);
    }
    var p := (h: TicketStatusHistory) => h.ticketId == id;
    FilterAppend(history, e, p);
    FilterNone(history, p);
  }

  /** `CreateTicket`: any authenticated caller; the ticket and its opening entry. */
  method CreateTicket(db: SparkDb, s: Session, request: CreateTicketRequest, now: int) returns (r: Result<int>)
    modifies db`tickets, db`ticketHistory
    ensures s.userId.None? ==> r == Err(Unauthorized)
    ensures s.userId.Some? ==> r.Ok?
    ensures r.Err? ==> db.tickets == old(db.tickets) && db.ticketHistory == old(db.ticketHistory)
    ensures r.Ok? ==>
              && s.userId.Some? && r.value == NextTicketId(old(db.tickets))
              && db.tickets == old(db.tickets) + [NewTicket(r.value, request, s.userId.value, now)]
              && db.ticketHistory == old(db.ticketHistory) + [OpenedEntry(r.value, s.userId.value, now)]
  {
    var gate := RequireAuth(s);
    if !gate.Passed() {
      return Err(gate.error.value);
    }
    var id := NextTicketId(db.tickets);
    db.tickets := db.tickets + [NewTicket(id, request, gate.userId, now)];
    db.ticketHistory := db.ticketHistory + [OpenedEntry(id, gate.userId, now)];
    r := Ok(id);
  }

  // ---------- Status changes ----------

  /**
   * The ticket after a status change: status and update stamps always;
   * RESOLVED also stamps the resolution, CLOSED the closing, any other status neither.
   */
  function StatusChanged(t: Ticket, newStatus: string, actor: int, now: int): (u: Ticket)
    ensures u.status == newStatus && u.updatedAt == now && u.updatedBy == Some(actor)
    ensures newStatus == "RESOLVED" ==> u.resolvedAt == Some(now) && u.resolvedBy == Some(actor)
    ensures newStatus != "RESOLVED" ==> u.resolvedAt == t.resolvedAt && u.resolvedBy == t.resolvedBy
    ensures newStatus == "CLOSED" ==> u.closedAt == Some(now) && u.closedBy == Some(actor)
    ensures newStatus != "CLOSED" ==> u.closedAt == t.closedAt && u.closedBy == t.closedBy
    ensures && u.ticketId == t.ticketId && u.subject == t.subject && u.description == t.description
            && u.priority == t.priority && u.assignedTo == t.assignedTo
            && u.createdAt == t.createdAt && u.createdBy == t.createdBy
  {
    var u := t.(status := newStatus, updatedAt := now, updatedBy := Some(actor));
    if newStatus == "RESOLVED" then u.(resolvedAt := Some(now), resolvedBy := Some(actor))
    else if newStatus == "CLOSED" then u.(closedAt := Some(now), closedBy := Some(actor))
    else u
  }

  /** The status is upper-cased first, so any spelling of a status has the same effect. */
  lemma StatusCaseIgnored(t: Ticket, status: string, actor: int, now: int)
    ensures StatusChanged(t, ToUpper(status), actor, now) == StatusChanged(t, ToUpper(ToUpper(status)), actor, now)
  {
    ToUpperIdempotent(status);
  }

  /** Example of `StatusCaseIgnored`: a request spelling the status "resolved" stamps the resolution. */
  lemma LowerCaseResolvedStamps(t: Ticket, actor: int, now: int)
    ensures StatusChanged(t, ToUpper("resolved"), actor, now).status == "RESOLVED"
    ensures StatusChanged(t, ToUpper("resolved"), actor, now).resolvedAt == Some(now)
    ensures StatusChanged(t, ToUpper("resolved"), actor, now).resolvedBy == Some(actor)
  {
    assert ToUpper("resolved") == "RESOLVED";
  }

  /** Example of `StatusCaseIgnored`: a request spelling the status "Closed" stamps the closing. */
  lemma MixedCaseClosedStamps(t: Ticket, actor: int, now: int)
    ensures StatusChanged(t, ToUpper("Closed"), actor, now).status == "CLOSED"
    ensures StatusChanged(t, ToUpper("Closed"), actor, now).closedAt == Some(now)
    ensures StatusChanged(t, ToUpper("Closed"), actor, now).closedBy == Some(actor)
  {
    assert ToUpper("Closed") == "CLOSED";
  }

  /** Changing the status of ticket `k` and logging (old, new) keeps the log. */
  lemma ChangeKeepsLog(tickets: seq<Ticket>, history: seq<TicketStatusHistory>, k: nat, newStatus: string,
                       actor: int, now: int)
    requires Logged(tickets, history) && k < |tickets|
    ensures var e := TicketStatusHistory(tickets[k].ticketId, Some(tickets[k].status), newStatus, now, actor);
            Logged(tickets[k := StatusChanged(tickets[k], newStatus, actor, now)], history + [e])
  {
    var e := TicketStatusHistory(tickets[k].ticketId, Some(tickets[k].status), newStatus, now, actor);
    var tickets' := tickets[k := StatusChanged(tickets[k], newStatus, actor, now)];
    forall j | 0 <= j < |tickets'|
      ensures LastStatus(history + [e], tickets'[j].ticketId) == Some(tickets'[j].status)
    {
      LastStatusAppend(history, e, tickets'[j].ticketId);
    }
  }

  /** A change that keeps a ticket's id and status (assignment, field update) keeps the log. */
  lemma SameStatusKeepsLog(tickets: seq<Ticket>, history: seq<TicketStatusHistory>, k: nat, u: Ticket)
    requires Logged(tickets, history) && k < |tickets|
    requires u.ticketId == tickets[k].ticketId && u.status == tickets[k].status
    ensures Logged(tickets[k := u], history)
  {
  }

  datatype StatusChange = StatusChange(ticketId: int, oldStatus: string, newStatus: string)

  /** `ChangeStatus`: authority 3, an existing ticket, any status (upper-cased); one history entry per change. */
  method ChangeStatus(db: SparkDb, s: Session, id: int, status: string, now: int) returns (r: Result<StatusChange>)
    modifies db`tickets, db`ticketHistory
    ensures !RequireAuthority(s, 3).Passed() ==> r == Err(RequireAuthority(s, 3).error.value)
    ensures RequireAuthority(s, 3).Passed() && FindTicket(old(db.tickets), id).None? ==> r == Err(NotFound("Ticket not found"))
    ensures RequireAuthority(s, 3).Passed() && FindTicket(old(db.tickets), id).Some? ==> r.Ok?
    ensures r.Err? ==> db.tickets == old(db.tickets) && db.ticketHistory == old(db.ticketHistory)
    ensures r.Ok? ==>
              && RequireAuthority(s, 3).Passed() && FindTicket(old(db.tickets), id).Some?
              && var k := FindTicket(old(db.tickets), id).value;
                 var before := old(db.tickets)[k];
                 && r.value == StatusChange(id, before.status, ToUpper(status))
                 && db.tickets == old(db.tickets)[k := StatusChanged(before, ToUpper(status), s.userId.value, now)]
                 && db.ticketHistory == old(db.ticketHistory)
                      + [TicketStatusHistory(id, Some(before.status), ToUpper(status), now, s.userId.value)]
  {
    var gate := RequireAuthority(s, 3);
    if !gate.Passed() {
      return Err(gate.error.value);
    }
    var found := FindTicket(db.tickets, id);
    if found.None? {
      return Err(NotFound("Ticket not found"));
    }
    var before := db.tickets[found.value];
    var newStatus := ToUpper(status);
    db.tickets := db.tickets[found.value := StatusChanged(before, newStatus, gate.userId, now)];
    db.ticketHistory := db.ticketHistory + [TicketStatusHistory(id, Some(before.status), newStatus, now, gate.userId)];
    r := Ok(StatusChange(id, before.status, newStatus));
  }

  // ---------- Assignment and update ----------

  /** The ticket assigned to `assignee`, which may be nobody. */
  function Assigned(t: Ticket, assignee: Option<int>, actor: int, now: int): (u: Ticket)
    ensures u.assignedTo == assignee && u.updatedAt == now && u.updatedBy == Some(actor)
    ensures u.(assignedTo := t.assignedTo, updatedAt := t.updatedAt, updatedBy := t.updatedBy) == t
  {
    t.(assignedTo := assignee, updatedAt := now, updatedBy := Some(actor))
  }

  /** `AssignTicket`: authority 3, an existing ticket. */
  method AssignTicket(db: SparkDb, s: Session, id: int, assignee: Option<int>, now: int) returns (r: Result<Ticket>)
    modifies db`tickets
    ensures !RequireAuthority(s, 3).Passed() ==> r == Err(RequireAuthority(s, 3).error.value)
    ensures RequireAuthority(s, 3).Passed() && FindTicket(old(db.tickets), id).None? ==> r == Err(NotFound("Ticket not found"))
    ensures RequireAuthority(s, 3).Passed() && FindTicket(old(db.tickets), id).Some? ==> r.Ok?
    ensures r.Err? ==> db.tickets == old(db.tickets)
    ensures r.Ok? ==>
              && RequireAuthority(s, 3).Passed() && FindTicket(old(db.tickets), id).Some?
              && var k := FindTicket(old(db.tickets), id).value;
                 && r.value == Assigned(old(db.tickets)[k], assignee, s.userId.value, now)
                 && db.tickets == old(db.tickets)[k := r.value]
  {
    var gate := RequireAuthority(s, 3);
    if !gate.Passed() {
      return Err(gate.error.value);
    }
    var found := FindTicket(db.tickets, id);
    if found.None? {
      return Err(NotFound("Ticket not found"));
    }
    var u := Assigned(db.tickets[found.value], assignee, gate.userId, now);
    db.tickets := db.tickets[found.value := u];
    r := Ok(u);
  }

  datatype TicketUpdateRequest = TicketUpdateRequest(subject: Option<string>, description: Option<string>, priority: Option<string>)

  /** `UpdateTicket`'s field copy: supplied fields replace the old ones, the update is stamped, the status is kept. */
  function ApplyTicketUpdate(t: Ticket, request: TicketUpdateRequest, actor: int, now: int): (u: Ticket)
    ensures u.subject == Supplied(t.subject, request.subject)
    ensures u.description == SuppliedOpt(t.description, request.description)
    ensures u.priority == Supplied(t.priority, request.priority)
    ensures u.updatedAt == now && u.updatedBy == Some(actor)
    ensures && u.ticketId == t.ticketId && u.status == t.status && u.assignedTo == t.assignedTo
            && u.resolvedAt == t.resolvedAt && u.closedAt == t.closedAt && u.createdBy == t.createdBy
    ensures u.(subject := t.subject, description := t.description, priority := t.priority,
               updatedAt := t.updatedAt, updatedBy := t.updatedBy) == t
  {
    t.(subject := Supplied(t.subject, request.subject), description := SuppliedOpt(t.description, request.description),
       priority := Supplied(t.priority, request.priority), updatedAt := now, updatedBy := Some(actor))
  }

  /** `UpdateTicket`: any authenticated caller, an existing ticket. */
  method UpdateTicket(db: SparkDb, s: Session, id: int, request: TicketUpdateRequest, now: int) returns (r: Result<int>)
    modifies db`tickets
    ensures s.userId.None? ==> r == Err(Unauthorized)
    ensures s.userId.Some? && FindTicket(old(db.tickets), id).None? ==> r == Err(NotFound("Ticket not found"))
    ensures s.userId.Some? && FindTicket(old(db.tickets), id).Some? ==> r.Ok?
    ensures r.Err? ==> db.tickets == old(db.tickets)
    ensures r.Ok? ==>
              && s.userId.Some? && FindTicket(old(db.tickets), id).Some?
              && var k := FindTicket(old(db.tickets), id).value;
                 && db.tickets == old(db.tickets)[k := ApplyTicketUpdate(old(db.tickets)[k], request, s.userId.value, now)]
                 && r.value == id
  {
    var gate := RequireAuth(s);
    if !gate.Passed() {
      return Err(gate.error.value);
    }
    var found := FindTicket(db.tickets, id);
    if found.None? {
      return Err(NotFound("Ticket not found"));
    }
    db.tickets := db.tickets[found.value := ApplyTicketUpdate(db.tickets[found.value], request, gate.userId, now)];
    r := Ok(id);
  }

  // ---------- Detail ----------

  datatype TicketDetail = TicketDetail(ticket: Ticket, statusHistory: seq<TicketStatusHistory>)

  /** `GetTicketDetail` without comments: the ticket and its history, latest change first. */
  function GetTicketDetail(tickets: seq<Ticket>, history: seq<TicketStatusHistory>, s: Session, id: int)
    : (r: Result<TicketDetail>)
    ensures s.userId.None? ==> r == Err(Unauthorized)
    ensures s.userId.Some? && FindTicket(tickets, id).None? ==> r == Err(NotFound("Ticket not found"))
    ensures s.userId.Some? && FindTicket(tickets, id).Some? ==> r.Ok?
    ensures r.Ok? ==> r.value.ticket == tickets[FindTicket(tickets, id).value]
    ensures r.Ok? ==> SortedDesc(r.value.statusHistory, ByChangedAt)
    ensures r.Ok? ==> multiset(r.value.statusHistory) == multiset(HistoryOf(history, id))
  {
    var gate := RequireAuth(s);
    if !gate.Passed() then Err(gate.error.value)
    else match FindTicket(tickets, id)
      case None => Err(NotFound("Ticket not found"))
      case Some(k) => Ok(TicketDetail(tickets[k], SortDesc(HistoryOf(history, id), ByChangedAt)))
  }
}
