/**
 * Announcements: which ones a user sees (live and targeted at them), the
 * listing order, the view row recorded on first opening, the acknowledge
 * upsert, the unread count, and create, update and soft delete.
 */
module Announcements {
  import opened Common
  import opened Store
  import opened EndpointAuth
  import opened Ordering

  // ---------- Visibility ----------

  /** The team and office of the viewer's active employee record, if any. */
  datatype Audience = Audience(teamId: Option<int>, officeId: Option<int>)

  function AudienceOf(employees: map<int, Employee>, userId: int): (r: Audience)
    ensures (userId !in employees || !employees[userId].isActive) ==> r == Audience(None, None)
    ensures userId in employees && employees[userId].isActive ==>
              r == Audience(employees[userId].teamId, employees[userId].officeId)
  {
    if userId in employees && employees[userId].isActive
    then Audience(employees[userId].teamId, employees[userId].officeId)
    else Audience(None, None)
  }

  /** Active, started, and not yet expired. */
  predicate Live(a: Announcement, now: int)
  {
    a.isActive && a.startDate <= now && (a.expiresAt.None? || a.expiresAt.value > now)
  }

  predicate HasTarget(a: Announcement, targetType: string, entity: Option<int>)
  {
    exists i :: 0 <= i < |a.targets| && a.targets[i].targetType == targetType
                && (entity.None? || a.targets[i].targetEntityId == entity)
  }

  /** Untargeted, targeted at ALL, at the viewer's team, or at the viewer's office. */
  predicate Targeted(a: Announcement, audience: Audience)
  {
    || |a.targets| == 0
    || HasTarget(a, "ALL", None)
    || (audience.teamId.Some? && HasTarget(a, "TEAM", audience.teamId))
    || (audience.officeId.Some? && HasTarget(a, "OFFICE", audience.officeId))
  }

  predicate Visible(a: Announcement, now: int, audience: Audience)
  {
    Live(a, now) && Targeted(a, audience)
  }

  /** A team-targeted announcement reaches exactly the members of that team (and no office target is set). */
  lemma TeamTargetReachesTeam(a: Announcement, team: int, now: int, audience: Audience)
    requires Live(a, now) && a.targets == [AnnouncementTarget("TEAM", Some(team))]
    ensures Visible(a, now, audience) <==> audience.teamId == Some(team)
  {
    if audience.teamId == Some(team) {
      assert a.targets[0].targetType == "TEAM";
    }
  }

  // ---------- Listing ----------

  /** Pinned announcements first, then the newest post first. */
  function PinnedFirst(a: Announcement): (int, int)
  {
    (if a.isPinned then 1 else 0, a.postDate)
  }

  /** The user has acknowledged the announcement in some view row. */
  predicate AcknowledgedBy(views: seq<AnnouncementView>, announcementId: int, userId: int)
  {
    exists i :: 0 <= i < |views| && views[i].announcementId == announcementId && views[i].userId == userId
                && views[i].isAcknowledged
  }

  datatype ListedAnnouncement = ListedAnnouncement(announcement: Announcement, isAcknowledged: bool)

  /** The announcements of a listing, without their flags: the rows the `Select` projection of the listing query is built from. */
  function Shown(listed: seq<ListedAnnouncement>): (r: seq<Announcement>)
    ensures |r| == |listed|
    ensures forall i :: 0 <= i < |r| ==> r[i] == listed[i].announcement
  {
    seq(|listed|, i requires 0 <= i < |listed| => listed[i].announcement)
  }

  /** Each announcement with the caller's acknowledged flag. */
  function WithFlags(sorted: seq<Announcement>, views: seq<AnnouncementView>, userId: int)
    : (r: seq<ListedAnnouncement>)
    ensures Shown(r) == sorted
    ensures forall i :: 0 <= i < |r| ==> r[i].isAcknowledged == AcknowledgedBy(views, r[i].announcement.announcementId, userId)
  {
    var r := seq(|sorted|, i requires 0 <= i < |sorted| =>
                   ListedAnnouncement(sorted[i], AcknowledgedBy(views, sorted[i].announcementId, userId)));
    assert Shown(r) == sorted;
    r
  }

  /** `GetAnnouncements` before paging. */
  function GetAnnouncements(announcements: seq<Announcement>, views: seq<AnnouncementView>,
                            employees: map<int, Employee>, s: Session, now: int)
    : (r: Result<seq<ListedAnnouncement>>)
    ensures r.Err? <==> s.userId.None?
    ensures r.Err? ==> r.error == Unauthorized
    ensures r.Ok? ==> forall x :: x in Shown(r.value) <==>
              x in announcements && Visible(x, now, AudienceOf(employees, s.userId.value))
    ensures r.Ok? ==> SortedDesc(Shown(r.value), PinnedFirst)
    ensures r.Ok? ==> forall i :: 0 <= i < |r.value| ==>
              r.value[i].isAcknowledged == AcknowledgedBy(views, r.value[i].announcement.announcementId, s.userId.value)
  {
    var gate := RequireAuth(s);
    if !gate.Passed() then Err(gate.error.value)
    else
      var user := gate.userId;
      var audience := AudienceOf(employees, user);
      var visible := Filter(announcements, (a: Announcement) => Visible(a, now, audience));
      var sorted := SortDesc(visible, PinnedFirst);
      assert forall x :: x in sorted <==> x in visible by {
        forall x
          ensures x in sorted <==> x in visible
        {
          SortDescMembers(visible, PinnedFirst, x);
        }
      }
      Ok(WithFlags(sorted, views, user))
  }

  // ---------- Views ----------

  /** The user's view row of the announcement (`FirstOrDefault`). */
  function FindView(views: seq<AnnouncementView>, announcementId: int, userId: int): (r: Option<nat>)
    ensures r.Some? ==> r.value < |views| && views[r.value].announcementId == announcementId
                        && views[r.value].userId == userId
    ensures r.None? ==> forall j :: 0 <= j < |views| ==> !(views[j].announcementId == announcementId && views[j].userId == userId)
  {
    IndexWhere(views, (v: AnnouncementView) => v.announcementId == announcementId && v.userId == userId)
  }

  /** Appending a row for a pair that had none makes that row the one found. */
  lemma FindAppendedView(views: seq<AnnouncementView>, v: AnnouncementView)
    requires FindView(views, v.announcementId, v.userId).None?
    ensures FindView(views + [v], v.announcementId, v.userId) == Some(|views|)
  {
    var w := views + [v];
    assert w[|views|] == v;
    assert forall j :: 0 <= j < |views| ==> w[j] == views[j];
  }

  /** Rewriting the found row without changing its key leaves it the one found. */
  lemma FindUpdatedView(views: seq<AnnouncementView>, k: nat, v: AnnouncementView)
    requires k < |views| && v.announcementId == views[k].announcementId && v.userId == views[k].userId
    ensures forall id, user :: FindView(views[k := v], id, user) == FindView(views, id, user)
  {
    forall id, user
      ensures FindView(views[k := v], id, user) == FindView(views, id, user)
    {
      IndexWhereCongruent(views[k := v], views, (x: AnnouncementView) => x.announcementId == id && x.userId == user);
    }
  }

  /** The number of view rows of an announcement. */
  function CountViews(views: seq<AnnouncementView>, announcementId: int): nat
  {
    if |views| == 0 then 0
    else CountViews(views[..|views| - 1], announcementId) + (if views[|views| - 1].announcementId == announcementId then 1 else 0)
  }

  datatype Viewed = Viewed(announcements: seq<Announcement>, views: seq<AnnouncementView>)

  /** Opening an announcement: the first opening by a user adds a view row and bumps `ViewCount`; later ones change nothing. */
  function RecordView(announcements: seq<Announcement>, views: seq<AnnouncementView>, k: nat, userId: int, now: int)
    : (r: Viewed)
    requires k < |announcements|
    ensures FindView(views, announcements[k].announcementId, userId).Some? ==> r == Viewed(announcements, views)
    ensures FindView(views, announcements[k].announcementId, userId).None? ==>
              && r.views == views + [AnnouncementView(announcements[k].announcementId, userId, now, false, None)]
              && r.announcements == announcements[k := announcements[k].(viewCount := announcements[k].viewCount + 1)]
  {
    var id := announcements[k].announcementId;
    if FindView(views, id, userId).Some? then Viewed(announcements, views)
    else Viewed(announcements[k := announcements[k].(viewCount := announcements[k].viewCount + 1)],
                views + [AnnouncementView(id, userId, now, false, None)])
  }

  /** Repeat views change nothing: recording a view twice is recording it once. */
  lemma RecordViewOnce(announcements: seq<Announcement>, views: seq<AnnouncementView>, k: nat, userId: int,
                       now: int, later: int)
    requires k < |announcements|
    ensures var once := RecordView(announcements, views, k, userId, now);
            RecordView(once.announcements, once.views, k, userId, later) == once
  {
    var id := announcements[k].announcementId;
    if FindView(views, id, userId).None? {
      FindAppendedView(views, AnnouncementView(id, userId, now, false, None));
    }
  }

  /** Where `ViewCount` agrees with the view rows, recording a view keeps it so. */
  lemma RecordViewKeepsCount(announcements: seq<Announcement>, views: seq<AnnouncementView>, k: nat, userId: int, now: int)
    requires k < |announcements|
    requires announcements[k].viewCount == CountViews(views, announcements[k].announcementId)
    ensures var r := RecordView(announcements, views, k, userId, now);
            r.announcements[k].viewCount == CountViews(r.views, announcements[k].announcementId)
  {
    var id := announcements[k].announcementId;
    if FindView(views, id, userId).None? {
      var w := views + [AnnouncementView(id, userId, now, false, None)];
      assert w[..|w| - 1] == views;
    }
  }

  /** The `IsAcknowledged` of the detail view: the flag of the user's view row as it was before opening. */
  function ViewAcknowledged(views: seq<AnnouncementView>, announcementId: int, userId: int): (b: bool)
    ensures b ==> AcknowledgedBy(views, announcementId, userId)
    ensures FindView(views, announcementId, userId).None? ==> !b
    ensures FindView(views, announcementId, userId).Some? ==>
              b == views[FindView(views, announcementId, userId).value].isAcknowledged
  {
    match FindView(views, announcementId, userId)
    case None => false
    case Some(j) => views[j].isAcknowledged
  }

  datatype AnnouncementDetail = AnnouncementDetail(announcement: Announcement, isAcknowledged: bool)

  /** `GetAnnouncementDetail`: the announcement, after recording the caller's view. */
  method GetAnnouncementDetail(db: SparkDb, s: Session, id: int, now: int) returns (r: Result<AnnouncementDetail>)
    modifies db`announcements, db`views
    ensures s.userId.None? ==> r == Err(Unauthorized)
    ensures s.userId.Some? && FindAnnouncement(old(db.announcements), id).None? ==> r == Err(NotFound("Announcement not found"))
    ensures s.userId.Some? && FindAnnouncement(old(db.announcements), id).Some? ==> r.Ok?
    ensures r.Err? ==> db.announcements == old(db.announcements) && db.views == old(db.views)
    ensures r.Ok? ==>
              && s.userId.Some? && FindAnnouncement(old(db.announcements), id).Some?
              && var k := FindAnnouncement(old(db.announcements), id).value;
                 var after := RecordView(old(db.announcements), old(db.views), k, s.userId.value, now);
                 && db.announcements == after.announcements && db.views == after.views
                 && r.value == AnnouncementDetail(after.announcements[k], ViewAcknowledged(old(db.views), id, s.userId.value))
  {
    var gate := RequireAuth(s);
    if !gate.Passed() {
      return Err(gate.error.value);
    }
    var found := FindAnnouncement(db.announcements, id);
    if found.None? {
      return Err(NotFound("Announcement not found"));
    }
    var k := found.value;
    var acknowledged := ViewAcknowledged(db.views, id, gate.userId);
    var after := RecordView(db.announcements, db.views, k, gate.userId, now);
    db.announcements, db.views := after.announcements, after.views;
    r := Ok(AnnouncementDetail(after.announcements[k], acknowledged));
  }

  // ---------- Acknowledging ----------

  /** The acknowledge upsert: insert an acknowledged view row, or mark the existing one. */
  function Acknowledge(views: seq<AnnouncementView>, announcementId: int, userId: int, now: int)
    : (w: seq<AnnouncementView>)
    ensures FindView(w, announcementId, userId).Some?
    ensures var j := FindView(w, announcementId, userId).value;
            w[j].isAcknowledged && w[j].acknowledgedAt == Some(now)
    ensures FindView(views, announcementId, userId).None? ==>
              w == views + [AnnouncementView(announcementId, userId, now, true, Some(now))]
    ensures FindView(views, announcementId, userId).Some? ==>
              var k := FindView(views, announcementId, userId).value;
              |w| == |views| && w[k] == views[k].(isAcknowledged := true, acknowledgedAt := Some(now))
              && forall i :: 0 <= i < |views| && i != k ==> w[i] == views[i]
  {
    match FindView(views, announcementId, userId)
    case None =>
      var v := AnnouncementView(announcementId, userId, now, true, Some(now));
      FindAppendedView(views, v);
      views + [v]
    case Some(k) =>
      var v := views[k].(isAcknowledged := true, acknowledgedAt := Some(now));
      FindUpdatedView(views, k, v);
      views[k := v]
  }

  /** Repeating an acknowledge changes only `AcknowledgedAt` of the user's row. */
  lemma AcknowledgeAgain(views: seq<AnnouncementView>, announcementId: int, userId: int, now: int, later: int)
    ensures var once := Acknowledge(views, announcementId, userId, now);
            var j := FindView(once, announcementId, userId).value;
            Acknowledge(once, announcementId, userId, later) == once[j := once[j].(acknowledgedAt := Some(later))]
  {
  }

  /** The ids a user has acknowledged. */
  function AcknowledgedIds(views: seq<AnnouncementView>, userId: int): set<int>
  {
    set i | 0 <= i < |views| && views[i].userId == userId && views[i].isAcknowledged :: views[i].announcementId
  }

  /** Acknowledging adds exactly that announcement to the user's acknowledged set, and no one else's changes. */
  lemma AcknowledgeAddsId(views: seq<AnnouncementView>, announcementId: int, userId: int, now: int, other: int)
    requires other != userId
    ensures AcknowledgedIds(Acknowledge(views, announcementId, userId, now), userId)
            == AcknowledgedIds(views, userId) + {announcementId}
    ensures AcknowledgedIds(Acknowledge(views, announcementId, userId, now), other) == AcknowledgedIds(views, other)
  {
    var w := Acknowledge(views, announcementId, userId, now);
    var j := FindView(w, announcementId, userId).value;
    assert announcementId in AcknowledgedIds(w, userId) by {
      assert w[j].userId == userId && w[j].isAcknowledged && w[j].announcementId == announcementId;
    }
    match FindView(views, announcementId, userId)
    case None =>
      assert w == views + [AnnouncementView(announcementId, userId, now, true, Some(now))];
      assert forall i :: 0 <= i < |views| ==> w[i] == views[i];
      assert AcknowledgedIds(w, userId) == AcknowledgedIds(views, userId) + {announcementId};
    case Some(k) =>
      assert forall i :: 0 <= i < |views| && i != k ==> w[i] == views[i];
      assert w[k].announcementId == announcementId && w[k].userId == userId;
      assert AcknowledgedIds(w, userId) == AcknowledgedIds(views, userId) + {announcementId};
  }

  /** An acknowledge of an announcement nobody opened adds a view row that `ViewCount` never counts. */
  lemma AcknowledgeSkipsViewCount(announcements: seq<Announcement>, views: seq<AnnouncementView>, k: nat,
                                  userId: int, now: int)
    requires k < |announcements|
    requires FindView(views, announcements[k].announcementId, userId).None?
    ensures CountViews(Acknowledge(views, announcements[k].announcementId, userId, now), announcements[k].announcementId)
            == CountViews(views, announcements[k].announcementId) + 1
  {
    var w := Acknowledge(views, announcements[k].announcementId, userId, now);
    assert w[..|w| - 1] == views;
  }

  /** `AcknowledgeAnnouncement`: any authenticated caller, for any id. */
  method AcknowledgeAnnouncement(db: SparkDb, s: Session, id: int, now: int) returns (r: Result<int>)
    modifies db`views
    ensures s.userId.None? ==> r == Err(Unauthorized) && db.views == old(db.views)
    ensures s.userId.Some? ==> r == Ok(id) && db.views == Acknowledge(old(db.views), id, s.userId.value, now)
  {
    var gate := RequireAuth(s);
    if !gate.Passed() {
      return Err(gate.error.value);
    }
    db.views := Acknowledge(db.views, id, gate.userId, now);
    r := Ok(id);
  }

  // ---------- Unread count ----------

  predicate Unread(a: Announcement, acknowledged: set<int>, now: int, audience: Audience)
  {
    Visible(a, now, audience) && a.announcementId !in acknowledged
  }

  function CountVisible(announcements: seq<Announcement>, now: int, audience: Audience): nat
  {
    if |announcements| == 0 then 0
    else CountVisible(announcements[1..], now, audience) + (if Visible(announcements[0], now, audience) then 1 else 0)
  }

  function CountUnread(announcements: seq<Announcement>, acknowledged: set<int>, now: int, audience: Audience): nat
  {
    if |announcements| == 0 then 0
    else CountUnread(announcements[1..], acknowledged, now, audience)
         + (if Unread(announcements[0], acknowledged, now, audience) then 1 else 0)
  }

  function CountAcknowledgedVisible(announcements: seq<Announcement>, acknowledged: set<int>, now: int,
                                    audience: Audience): nat
  {
    if |announcements| == 0 then 0
    else CountAcknowledgedVisible(announcements[1..], acknowledged, now, audience)
         + (if Visible(announcements[0], now, audience) && announcements[0].announcementId in acknowledged then 1 else 0)
  }

  /** Unread is visible minus acknowledged-and-visible. */
  lemma {:induction false} UnreadIsVisibleMinusAcknowledged(announcements: seq<Announcement>, acknowledged: set<int>,
                                                            now: int, audience: Audience)
    ensures CountUnread(announcements, acknowledged, now, audience)
            == CountVisible(announcements, now, audience) - CountAcknowledgedVisible(announcements, acknowledged, now, audience)
  {
    if |announcements| > 0 {
      UnreadIsVisibleMinusAcknowledged(announcements[1..], acknowledged, now, audience);
    }
  }

  /** Acknowledging more never raises the unread count. */
  lemma {:induction false} UnreadAntitone(announcements: seq<Announcement>, fewer: set<int>, more: set<int>,
                                          now: int, audience: Audience)
    requires fewer <= more
    ensures CountUnread(announcements, more, now, audience) <= CountUnread(announcements, fewer, now, audience)
  {
    if |announcements| > 0 {
      UnreadAntitone(announcements[1..], fewer, more, now, audience);
    }
  }

  /** `GetUnreadCount`. */
  function GetUnreadCount(announcements: seq<Announcement>, views: seq<AnnouncementView>,
                          employees: map<int, Employee>, s: Session, now: int): (r: Result<nat>)
    ensures r.Err? <==> s.userId.None?
    ensures r.Err? ==> r.error == Unauthorized
    ensures r.Ok? ==> r.value <= CountVisible(announcements, now, AudienceOf(employees, s.userId.value))
    ensures r.Ok? ==> r.value + CountAcknowledgedVisible(announcements, AcknowledgedIds(views, s.userId.value), now,
                                                         AudienceOf(employees, s.userId.value))
                      == CountVisible(announcements, now, AudienceOf(employees, s.userId.value))
  {
    var gate := RequireAuth(s);
    if !gate.Passed() then Err(gate.error.value)
    else
      var audience := AudienceOf(employees, gate.userId);
      var acknowledged := AcknowledgedIds(views, gate.userId);
      AcknowledgedVisibleBound(announcements, acknowledged, now, audience);
      UnreadIsVisibleMinusAcknowledged(announcements, acknowledged, now, audience);
      Ok(CountUnread(announcements, acknowledged, now, audience))
  }

  lemma {:induction false} AcknowledgedVisibleBound(announcements: seq<Announcement>, acknowledged: set<int>,
                                                    now: int, audience: Audience)
    ensures CountAcknowledgedVisible(announcements, acknowledged, now, audience) <= CountVisible(announcements, now, audience)
  {
    if |announcements| > 0 {
      AcknowledgedVisibleBound(announcements[1..], acknowledged, now, audience);
    }
  }

  /** Acknowledging never raises the caller's unread count. */
  lemma AcknowledgeLowersUnread(announcements: seq<Announcement>, views: seq<AnnouncementView>,
                                employees: map<int, Employee>, userId: int, id: int, now: int, later: int)
    ensures GetUnreadCount(announcements, Acknowledge(views, id, userId, now), employees, Session(Some(userId), None), later).value
            <= GetUnreadCount(announcements, views, employees, Session(Some(userId), None), later).value
  {
    AcknowledgeAddsId(views, id, userId, now, userId + 1);
    UnreadAntitone(announcements, AcknowledgedIds(views, userId), AcknowledgedIds(Acknowledge(views, id, userId, now), userId),
                   later, AudienceOf(employees, userId));
  }

  // ---------- Create, update, delete ----------

  datatype CreateAnnouncementRequest = CreateAnnouncementRequest(
    title: string,
    body: string,
    priority: Option<string>,
    expiresAt: Option<int>,
    targets: seq<AnnouncementTarget>)

  /** A new announcement: posted and started now, NORMAL priority unless given, visible to ALL, active, unpinned, unviewed. */
  function NewAnnouncement(id: int, request: CreateAnnouncementRequest, actor: int, now: int): (a: Announcement)
    ensures a.announcementId == id && a.title == request.title && a.text == request.body && a.authorId == actor
    ensures a.postDate == now && a.startDate == now && a.expiresAt == request.expiresAt
    ensures a.priority == (if request.priority.Some? then request.priority.value else "NORMAL")
    ensures a.visibility == "ALL" && a.isActive && !a.isPinned && a.viewCount == 0
    ensures a.targets == request.targets
    ensures a.createdAt == now && a.createdBy == Some(actor) && a.updatedAt == now && a.updatedBy.None?
  {
    Announcement(id, request.title, request.body, actor, now, now, request.expiresAt,
                 request.priority.GetOr("NORMAL"), "ALL", true, false, 0, request.targets,
                 now, Some(actor), now, None)
  }

  /** Without targets a new announcement reaches everybody until it expires. */
  lemma NewAnnouncementReachesAll(id: int, request: CreateAnnouncementRequest, actor: int, now: int, at: int,
                                  audience: Audience)
    requires request.targets == [] && now <= at
    requires request.expiresAt.None? || request.expiresAt.value > at
    ensures Visible(NewAnnouncement(id, request, actor, now), at, audience)
  {
  }

  /** `CreateAnnouncement`: authority 4. */
  method CreateAnnouncement(db: SparkDb, s: Session, request: CreateAnnouncementRequest, now: int) returns (r: Result<int>)
    modifies db`announcements
    ensures !RequireAuthority(s, 4).Passed() ==> r == Err(RequireAuthority(s, 4).error.value)
    ensures r.Err? ==> db.announcements == old(db.announcements)
    ensures RequireAuthority(s, 4).Passed() ==> r.Ok?
    ensures r.Ok? ==>
              && RequireAuthority(s, 4).Passed()
              && r.value == NextId(old(db.announcements), (a: Announcement) => a.announcementId)
              && db.announcements == old(db.announcements) + [NewAnnouncement(r.value, request, s.userId.value, now)]
  {
    var gate := RequireAuthority(s, 4);
    if !gate.Passed() {
      return Err(gate.error.value);
    }
    var id := NextId(db.announcements, (a: Announcement) => a.announcementId);
    db.announcements := db.announcements + [NewAnnouncement(id, request, gate.userId, now)];
    r := Ok(id);
  }

  datatype AnnouncementUpdateRequest = AnnouncementUpdateRequest(
    title: Option<string>,
    body: Option<string>,
    priority: Option<string>,
    expiresAt: Option<int>,
    isPinned: Option<bool>)

  /** `UpdateAnnouncement`'s field copy: supplied fields replace the old ones; the update is stamped. */
  function ApplyAnnouncementUpdate(a: Announcement, request: AnnouncementUpdateRequest, actor: int, now: int)
    : (b: Announcement)
    ensures b.title == Supplied(a.title, request.title) && b.text == Supplied(a.text, request.body)
    ensures b.priority == Supplied(a.priority, request.priority)
    ensures b.expiresAt == SuppliedOpt(a.expiresAt, request.expiresAt)
    ensures b.isPinned == Supplied(a.isPinned, request.isPinned)
    ensures b.updatedAt == now && b.updatedBy == Some(actor)
    ensures && b.announcementId == a.announcementId && b.isActive == a.isActive && b.startDate == a.startDate
            && b.postDate == a.postDate && b.targets == a.targets && b.viewCount == a.viewCount
    ensures b.(title := a.title, text := a.text, priority := a.priority, expiresAt := a.expiresAt,
               isPinned := a.isPinned, updatedAt := a.updatedAt, updatedBy := a.updatedBy) == a
  {
    a.(title := Supplied(a.title, request.title), text := Supplied(a.text, request.body),
       priority := Supplied(a.priority, request.priority), expiresAt := SuppliedOpt(a.expiresAt, request.expiresAt),
       isPinned := Supplied(a.isPinned, request.isPinned), updatedAt := now, updatedBy := Some(actor))
  }

  /** An update can end an expiry-free announcement's life early but never remove an expiry, and never revives one. */
  lemma UpdateKeepsExpiryAndActivity(a: Announcement, request: AnnouncementUpdateRequest, actor: int, now: int)
    ensures a.expiresAt.Some? ==> ApplyAnnouncementUpdate(a, request, actor, now).expiresAt.Some?
    ensures ApplyAnnouncementUpdate(a, request, actor, now).isActive == a.isActive
    ensures ApplyAnnouncementUpdate(a, AnnouncementUpdateRequest(None, None, None, None, None), actor, now)
            == a.(updatedAt := now, updatedBy := Some(actor))
  {
  }

  /** `UpdateAnnouncement`: authority 4, an existing announcement. */
  method UpdateAnnouncement(db: SparkDb, s: Session, id: int, request: AnnouncementUpdateRequest, now: int)
    returns (r: Result<int>)
    modifies db`announcements
    ensures !RequireAuthority(s, 4).Passed() ==> r == Err(RequireAuthority(s, 4).error.value)
    ensures RequireAuthority(s, 4).Passed() && FindAnnouncement(old(db.announcements), id).None? ==>
              r == Err(NotFound("Announcement not found"))
    ensures RequireAuthority(s, 4).Passed() && FindAnnouncement(old(db.announcements), id).Some? ==> r.Ok?
    ensures r.Err? ==> db.announcements == old(db.announcements)
    ensures r.Ok? ==>
              && RequireAuthority(s, 4).Passed() && FindAnnouncement(old(db.announcements), id).Some?
              && var k := FindAnnouncement(old(db.announcements), id).value;
                 && db.announcements == old(db.announcements)[k := ApplyAnnouncementUpdate(old(db.announcements)[k], request, s.userId.value, now)]
                 && r.value == id
  {
    var gate := RequireAuthority(s, 4);
    if !gate.Passed() {
      return Err(gate.error.value);
    }
    var found := FindAnnouncement(db.announcements, id);
    if found.None? {
      return Err(NotFound("Announcement not found"));
    }
    db.announcements := db.announcements[found.value := ApplyAnnouncementUpdate(db.announcements[found.value], request, gate.userId, now)];
    r := Ok(id);
  }

  /** A deleted announcement: inactive and stamped, otherwise unchanged. */
  function Retired(a: Announcement, actor: int, now: int): (b: Announcement)
    ensures !b.isActive && b.updatedAt == now && b.updatedBy == Some(actor)
    ensures b.(isActive := a.isActive, updatedAt := a.updatedAt, updatedBy := a.updatedBy) == a
  {
    a.(isActive := false, updatedAt := now, updatedBy := Some(actor))
  }

  /** A deleted announcement is listed to nobody and counts as unread for nobody. */
  lemma RetiredIsHidden(a: Announcement, actor: int, now: int, at: int, audience: Audience, acknowledged: set<int>)
    ensures !Visible(Retired(a, actor, now), at, audience)
    ensures !Unread(Retired(a, actor, now), acknowledged, at, audience)
  {
  }

  /** `DeleteAnnouncement`: authority 4, an existing announcement, deactivated in place. */
  method DeleteAnnouncement(db: SparkDb, s: Session, id: int, now: int) returns (r: Result<int>)
    modifies db`announcements
    ensures !RequireAuthority(s, 4).Passed() ==> r == Err(RequireAuthority(s, 4).error.value)
    ensures RequireAuthority(s, 4).Passed() && FindAnnouncement(old(db.announcements), id).None? ==>
              r == Err(NotFound("Announcement not found"))
    ensures RequireAuthority(s, 4).Passed() && FindAnnouncement(old(db.announcements), id).Some? ==> r.Ok?
    ensures |db.announcements| == |old(db.announcements)|
    ensures r.Err? ==> db.announcements == old(db.announcements)
    ensures r.Ok? ==>
              && RequireAuthority(s, 4).Passed() && FindAnnouncement(old(db.announcements), id).Some?
              && var k := FindAnnouncement(old(db.announcements), id).value;
                 && db.announcements == old(db.announcements)[k := Retired(old(db.announcements)[k], s.userId.value, now)]
                 && r.value == id
  {
    var gate := RequireAuthority(s, 4);
    if !gate.Passed() {
      return Err(gate.error.value);
    }
    var found := FindAnnouncement(db.announcements, id);
    if found.None? {
      return Err(NotFound("Announcement not found"));
    }
    db.announcements := db.announcements[found.value := Retired(db.announcements[found.value], gate.userId, now)];
    r := Ok(id);
  }
}
