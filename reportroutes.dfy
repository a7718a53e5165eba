/** The report routes: list all (admins), list mine, list assigned (patrols),
    read one, create, change status (with the resolution reward), assign to a
    patrol and set the priority. Every handler here runs after
    `authenticateToken`, so it receives the caller's claims and profile. */
module ReportRoutes {
  import opened Common
  import opened Documents
  import opened AuthMiddleware
  import opened DocumentStore
  import JsStrings

  const ResolvedStatus: string := "resolved"

  /** Points the owner of a report receives each time it is set to resolved. */
  const ResolutionReward: real := 10.0

  /** Who may read a report or change its status: its owner, the patrol it is
      assigned to, or an admin or superAdmin. */
  predicate CanAccess(report: Report, uid: string, role: string) {
    report.userId == uid || report.patrolUserId == Some(uid) || IsAdminRole(role)
  }

  /** The twelve cases of roles against relations: the owner and the assigned
      patrol always get in, an admin or superAdmin always gets in, and a user
      or patrol with no relation to the report never does. */
  lemma AccessCases(report: Report, uid: string, role: string)
    requires role in {"user", "patrol", "admin", "superAdmin"}
    ensures report.userId == uid ==> CanAccess(report, uid, role)
    ensures report.patrolUserId == Some(uid) ==> CanAccess(report, uid, role)
    ensures role in {"admin", "superAdmin"} ==> CanAccess(report, uid, role)
    ensures role in {"user", "patrol"} && report.userId != uid && report.patrolUserId != Some(uid) ==> !CanAccess(report, uid, role)
  {
  }

  function CreatedAtKey(r: Report): real {
    r.createdAt as real
  }

  // ----- GET / (admins): newest first, optional status filter, limit 50, offset 0

  function ListAllQuery(status: string, limit: Option<nat>, offset: Option<nat>): Query<Report> {
    Query((r: Report) => status == "" || r.status == status, CreatedAtKey, Descending, offset.GetOr(0), Some(limit.GetOr(50)))
  }

  /** The body `{reports, total}`; `total` is the length of this page. */
  datatype ReportPage = ReportPage(reports: seq<(string, Report)>, total: nat)

  function ListAll(profile: UserProfile, answer: seq<(string, Report)>): (r: Response<ReportPage>)
    ensures r.Success? <==> IsAdminRole(profile.role)
    ensures r.Failure? ==> r.code == 403
    ensures r.Success? ==> r.code == 200 && r.value.reports == answer && r.value.total == |answer|
  {
    match RequireAdmin(Some(profile))
    case Reject(code, error) => Failure(code, error)
    case Proceed => Success(200, ReportPage(answer, |answer|))
  }

  /** An admin's page holds stored reports only, with the requested status if
      one was given, newest first, and at most `limit` (50) of them; `total`
      counts this page, not the collection. A page from the start leaves out
      a matching report only when it is full. Reports kept well formed by the
      handlers are listed well formed. */
  lemma ListAllPage(reports: map<string, Report>, profile: UserProfile, status: string,
                    limit: Option<nat>, offset: Option<nat>, answer: seq<(string, Report)>)
    requires IsAdminRole(profile.role)
    requires Answers(reports, ListAllQuery(status, limit, offset), answer)
    ensures ListAll(profile, answer).Success?
    ensures var page := ListAll(profile, answer).value;
      && page.total <= limit.GetOr(50)
      && (forall i :: 0 <= i < |page.reports| ==>
            page.reports[i].0 in reports && reports[page.reports[i].0] == page.reports[i].1 &&
            (status != "" ==> page.reports[i].1.status == status))
      && (forall i, j :: 0 <= i < j < |page.reports| ==> page.reports[i].1.createdAt >= page.reports[j].1.createdAt)
      && (offset.GetOr(0) == 0 ==> forall id ::
            id in reports && (status == "" || reports[id].status == status) && id !in Ids(page.reports)
            ==> page.total == limit.GetOr(50))
      && (WellFormedReports(reports) ==> forall i :: 0 <= i < |page.reports| ==>
            page.reports[i].1.status != "" && 1.0 <= page.reports[i].1.priorityLevel <= 5.0)
  {
    var q := ListAllQuery(status, limit, offset);
    AnswerSound(reports, q, answer);
    if offset.GetOr(0) == 0 {
      forall id | id in reports && (status == "" || reports[id].status == status) && id !in Ids(answer)
        ensures |answer| == limit.GetOr(50)
      {
        AnswerWithinLimit(reports, q, answer, id);
      }
    }
  }

  // ----- GET /my-reports and GET /assigned

  function MyReportsQuery(uid: string): Query<Report> {
    Query((r: Report) => r.userId == uid, CreatedAtKey, Descending, 0, None)
  }

  function MyReports(answer: seq<(string, Report)>): Response<seq<(string, Report)>> {
    Success(200, answer)
  }

  /** The caller gets every report they own and no other, newest first. */
  lemma MyReportsExactly(reports: map<string, Report>, user: Claims, answer: seq<(string, Report)>)
    requires Answers(reports, MyReportsQuery(user.uid), answer)
    ensures var listed := MyReports(answer).value;
      && (forall id :: id in Ids(listed) <==> id in reports && reports[id].userId == user.uid)
      && (forall i :: 0 <= i < |listed| ==> listed[i].1.userId == user.uid)
      && (forall i, j :: 0 <= i < j < |listed| ==> listed[i].1.createdAt >= listed[j].1.createdAt)
  {
    var q := MyReportsQuery(user.uid);
    AnswerSound(reports, q, answer);
    AnswerExact(reports, q, answer);
    forall id ensures id in Ids(answer) <==> id in reports && reports[id].userId == user.uid {
      if id in reports {
        assert q.keep(reports[id]) <==> reports[id].userId == user.uid;
      }
    }
    forall i, j | 0 <= i < j < |answer| ensures answer[i].1.createdAt >= answer[j].1.createdAt {
      assert InOrder(q.key(answer[i].1), q.key(answer[j].1), q.order);
    }
  }

  function AssignedQuery(uid: string): Query<Report> {
    Query((r: Report) => r.patrolUserId == Some(uid), CreatedAtKey, Descending, 0, None)
  }

  function Assigned(profile: UserProfile, answer: seq<(string, Report)>): (r: Response<seq<(string, Report)>>)
    ensures r.Success? <==> profile.role in {"patrol", "admin", "superAdmin"}
    ensures r.Failure? ==> r.code == 403
  {
    match RequirePatrol(Some(profile))
    case Reject(code, error) => Failure(code, error)
    case Proceed => Success(200, answer)
  }

  /** The assigned query selects exactly the reports assigned to `uid`. */
  lemma AssignedIds(reports: map<string, Report>, uid: string, answer: seq<(string, Report)>)
    requires Answers(reports, AssignedQuery(uid), answer)
    ensures forall id :: id in Ids(answer) <==> id in reports && reports[id].patrolUserId == Some(uid)
  {
    AnswerExact(reports, AssignedQuery(uid), answer);
  }

  /** A patrol, admin or superAdmin gets every report assigned to them and no
      other, newest first. */
  lemma AssignedExactly(reports: map<string, Report>, user: Claims, profile: UserProfile, answer: seq<(string, Report)>)
    requires profile.role in {"patrol", "admin", "superAdmin"}
    requires Answers(reports, AssignedQuery(user.uid), answer)
    ensures Assigned(profile, answer) == Success(200, answer)
    ensures forall id :: id in Ids(answer) <==> id in reports && reports[id].patrolUserId == Some(user.uid)
    ensures forall i, j :: 0 <= i < j < |answer| ==> answer[i].1.createdAt >= answer[j].1.createdAt
  {
    var q := AssignedQuery(user.uid);
    AssignedIds(reports, user.uid, answer);
    AnswerSound(reports, q, answer);
    forall i, j | 0 <= i < j < |answer| ensures answer[i].1.createdAt >= answer[j].1.createdAt {
      assert InOrder(q.key(answer[i].1), q.key(answer[j].1), q.order);
    }
  }

  // ----- GET /:id

  /** 404 for a missing report comes before the access check; then 403
      unless the caller is the owner, the assigned patrol or an admin. */
  function GetReport(reports: map<string, Report>, user: Claims, profile: UserProfile, id: string): (r: Response<(string, Report)>)
    ensures r == Failure(404, "Report not found") <==> id !in reports
    ensures r == Failure(403, "Access denied") <==> id in reports && !CanAccess(reports[id], user.uid, profile.role)
    ensures r.Success? <==> id in reports && CanAccess(reports[id], user.uid, profile.role)
    ensures r.Success? ==> r.code == 200 && r.value == (id, reports[id])
  {
    if id !in reports then Failure(404, "Report not found")
    else if !CanAccess(reports[id], user.uid, profile.role) then Failure(403, "Access denied")
    else Success(200, (id, reports[id]))
  }

  // ----- POST /

  /** The fields of the request body. Text fields are "" when absent. */
  datatype NewReportInput = NewReportInput(
    title: string,
    description: string,
    category: string,
    isAnonymous: Option<bool>,
    location: Option<Location>,
    imageUrls: Option<seq<string>>)

  /** None of title, description, category and location is falsy. */
  predicate HasRequiredFields(input: NewReportInput) {
    input.title != "" && input.description != "" && input.category != "" && input.location.Some?
  }

  /** `Math.floor(Math.random() * 1000)`. */
  function RandomSuffix(random: real): (n: nat)
    requires 0.0 <= random < 1.0
    ensures n < 1000
  {
    (random * 1000.0).Floor
  }

  /** `CARS-` + the last six digits of the timestamp + `-` + the random
      suffix padded to three digits. */
  function CaseNumber(now: nat, random: real): string
    requires 0.0 <= random < 1.0
  {
    "CARS-" + JsStrings.SliceFromEnd(JsStrings.DecimalString(now), 6) + "-"
      + JsStrings.PadStart(JsStrings.DecimalString(RandomSuffix(random)), 3, '0')
  }

  lemma {:induction false} DecimalStringShort(n: nat, k: nat)
    requires k >= 1 && n < JsStrings.Pow10(k)
    ensures |JsStrings.DecimalString(n)| <= k
    decreases k
  {
    if n >= 10 {
      DecimalStringShort(n / 10, k - 1);
    }
  }

  lemma Pow10Values()
    ensures JsStrings.Pow10(3) == 1000 && JsStrings.Pow10(5) == 100000 && JsStrings.Pow10(6) == 1000000
  {
    assert JsStrings.Pow10(1) == 10;
    assert JsStrings.Pow10(2) == 100;
    assert JsStrings.Pow10(3) == 1000;
    assert JsStrings.Pow10(4) == 10000;
    assert JsStrings.Pow10(5) == 100000;
  }

  lemma ModMillion(h: nat, t: nat)
    requires t < 1000000
    ensures (h * 1000000 + t) % 1000000 == t
  {
  }

  /** `String(now).slice(-6)` for a timestamp of at least six digits: six
      digits whose value is the timestamp modulo 10^6. */
  lemma LastSixDigits(now: nat)
    requires now >= 100000
    ensures var tail := JsStrings.SliceFromEnd(JsStrings.DecimalString(now), 6);
      |tail| == 6 && JsStrings.AllDigits(tail) && JsStrings.ParseDecimal(tail) == now % 1000000
  {
    var d := JsStrings.DecimalString(now);
    Pow10Values();
    JsStrings.DecimalStringLength(now, 5);
    var head, tail := d[..|d| - 6], d[|d| - 6..];
    assert JsStrings.AllDigits(tail) by {
      forall i | 0 <= i < |tail| ensures JsStrings.IsDigit(tail[i]) { assert tail[i] == d[|d| - 6 + i]; }
    }
    assert head + tail == d;
    JsStrings.ParseDecimalAppend(head, tail);
    var h, t := JsStrings.ParseDecimal(head), JsStrings.ParseDecimal(tail);
    assert now == h * 1000000 + t && 0 <= t < 1000000;
    ModMillion(h, t);
    assert tail == JsStrings.SliceFromEnd(d, 6);
  }

  /** `String(k).padStart(3, '0')` for k < 1000: three digits whose value is k. */
  lemma PaddedSuffix(k: nat)
    requires k < 1000
    ensures var p := JsStrings.PadStart(JsStrings.DecimalString(k), 3, '0');
      |p| == 3 && JsStrings.AllDigits(p) && JsStrings.ParseDecimal(p) == k
  {
    Pow10Values();
    DecimalStringShort(k, 3);
    JsStrings.PadZerosValue(JsStrings.DecimalString(k), 3);
  }

  /** For any timestamp from 100000 ms on, the case number has the shape
      CARS-dddddd-ddd; the six digits are the timestamp modulo 10^6 and the
      last three are the random suffix. */
  lemma CaseNumberFormat(now: nat, random: real)
    requires 0.0 <= random < 1.0 && now >= 100000
    ensures var c := CaseNumber(now, random);
      && |c| == 15 && c[..5] == "CARS-" && c[11] == '-'
      && JsStrings.AllDigits(c[5..11]) && JsStrings.AllDigits(c[12..])
      && JsStrings.ParseDecimal(c[5..11]) == now % 1000000
      && JsStrings.ParseDecimal(c[12..]) == RandomSuffix(random)
  {
    var k := RandomSuffix(random);
    var tail := JsStrings.SliceFromEnd(JsStrings.DecimalString(now), 6);
    var p := JsStrings.PadStart(JsStrings.DecimalString(k), 3, '0');
    LastSixDigits(now);
    PaddedSuffix(k);
    var c := CaseNumber(now, random);
    var front := "CARS-" + tail;
    assert c == front + "-" + p;
    assert |front| == 11 && front[..5] == "CARS-" && front[5..] == tail;
    assert c[..11] == front && c[12..] == p;
    assert c[5..11] == front[5..];
  }

  /** The report a valid create request stores. The handler reads the clock
      three times: `now` for the case number, then `createdAt` and
      `updatedAt`. */
  function NewReport(input: NewReportInput, uid: string, now: nat, random: real, createdAt: nat, updatedAt: nat): (r: Report)
    requires HasRequiredFields(input) && 0.0 <= random < 1.0
    ensures r.status == "verifying" && r.priorityLevel == 1.0
    ensures r.userId == uid && r.patrolUserId == None
    ensures r.isAnonymous <==> input.isAnonymous == Some(true)
    ensures input.imageUrls.None? ==> r.imageUrls == []
    ensures input.imageUrls.Some? ==> r.imageUrls == input.imageUrls.value
    ensures r.title == input.title && r.description == input.description && r.category == input.category
    ensures Some(r.location) == input.location
    ensures r.caseNumber == CaseNumber(now, random)
    ensures r.createdAt == createdAt && r.updatedAt == updatedAt
  {
    Report(CaseNumber(now, random), input.title, input.description, input.category,
           input.isAnonymous.GetOr(false), input.location.value, input.imageUrls.GetOr([]),
           "verifying", 1.0, uid, None, createdAt, updatedAt)
  }

  /** POST /: 400 and nothing written when a required field is falsy;
      otherwise the new report is stored under the id the store generates and
      returned with 201. */
  method Create(db: Database, user: Claims, input: NewReportInput, now: nat, random: real,
                createdAt: nat, updatedAt: nat, newId: string)
      returns (r: Response<(string, Report)>)
    requires 0.0 <= random < 1.0
    requires newId !in db.reports
    modifies db
    ensures !HasRequiredFields(input) ==> r == Failure(400, "Missing required fields") && db.reports == old(db.reports)
    ensures HasRequiredFields(input) ==>
      var report := NewReport(input, user.uid, now, random, createdAt, updatedAt);
      r == Success(201, (newId, report)) && db.reports == old(db.reports)[newId := report]
    ensures db.users == old(db.users) && db.messages == old(db.messages) && db.pointsLog == old(db.pointsLog)
    ensures old(db.ReportsWellFormed()) ==> db.ReportsWellFormed()
  {
    if !HasRequiredFields(input) {
      return Failure(400, "Missing required fields");
    }
    var report := NewReport(input, user.uid, now, random, createdAt, updatedAt);
    db.reports := db.reports[newId := report];
    r := Success(201, (newId, report));
  }

  // ----- PUT /:id/status

  /** PUT /:id/status. In order: a falsy status is 400, a missing report 404,
      a caller who may not access it 403. Otherwise only the report's status
      and updatedAt change; when the status is `resolved` the report's owner
      (not the caller) then gains 10 points, on every such call. If the owner
      has no profile the increment fails after the status was written, and the
      answer is 500. */
  method UpdateStatus(db: Database, user: Claims, profile: UserProfile, id: string, status: string, now: nat)
      returns (r: Response<string>)
    modifies db
    ensures status == "" ==> r == Failure(400, "Status is required")
    ensures status != "" && id !in old(db.reports) ==> r == Failure(404, "Report not found")
    ensures status != "" && id in old(db.reports) && !CanAccess(old(db.reports)[id], user.uid, profile.role) ==>
      r == Failure(403, "Access denied")
    ensures var written := status != "" && id in old(db.reports) && CanAccess(old(db.reports)[id], user.uid, profile.role);
      && (!written ==> db.reports == old(db.reports) && db.users == old(db.users))
      && (written ==>
            var owner := old(db.reports)[id].userId;
            && db.reports == old(db.reports)[id := old(db.reports)[id].(status := status, updatedAt := now)]
            && (status != ResolvedStatus ==> db.users == old(db.users) && r == Success(200, "Report status updated successfully"))
            && (status == ResolvedStatus && owner in old(db.users) ==>
                  db.users == old(db.users)[owner := old(db.users)[owner].(points := Increment(old(db.users)[owner].points, ResolutionReward))]
                  && r == Success(200, "Report status updated successfully"))
            && (status == ResolvedStatus && owner !in old(db.users) ==>
                  db.users == old(db.users) && r == Failure(500, "Failed to update report status")))
    ensures db.messages == old(db.messages) && db.pointsLog == old(db.pointsLog)
    ensures old(db.ReportsWellFormed()) ==> db.ReportsWellFormed()
  {
    if status == "" {
      return Failure(400, "Status is required");
    }
    if id !in db.reports {
      return Failure(404, "Report not found");
    }
    var report := db.reports[id];
    if !CanAccess(report, user.uid, profile.role) {
      return Failure(403, "Access denied");
    }
    db.reports := db.reports[id := report.(status := status, updatedAt := now)];
    if status == ResolvedStatus {
      if report.userId !in db.users {
        return Failure(500, "Failed to update report status");
      }
      var owner := db.users[report.userId];
      db.users := db.users[report.userId := owner.(points := Increment(owner.points, ResolutionReward))];
    }
    r := Success(200, "Report status updated successfully");
  }

  /** Nothing stops a report from being resolved again: two resolutions of a
      report whose owner has a profile award 20 points. */
  method ResolveTwice(db: Database, user: Claims, profile: UserProfile, id: string, now: nat)
      returns (first: Response<string>, second: Response<string>)
    requires id in db.reports && CanAccess(db.reports[id], user.uid, profile.role)
    requires db.reports[id].userId in db.users
    modifies db
    ensures first.Success? && second.Success?
    ensures var owner := old(db.reports)[id].userId;
      owner in db.users && db.users[owner].points == Some(old(db.users)[owner].points.GetOr(0.0) + 20.0)
  {
    first := UpdateStatus(db, user, profile, id, ResolvedStatus, now);
    second := UpdateStatus(db, user, profile, id, ResolvedStatus, now);
  }

  // ----- PUT /:id/assign (admins)

  /** The target named by `patrolUserId` exists and has role exactly patrol. */
  predicate IsPatrolUser(users: map<string, UserProfile>, patrolUserId: string) {
    patrolUserId in users && users[patrolUserId].role == PatrolRole
  }

  /** PUT /:id/assign. Non-admins get 403; a falsy patrolUserId is 400, and so
      is one that names no user or a user whose role is not exactly patrol;
      a missing report makes the store's update fail (500). On success only
      the report's patrolUserId and updatedAt change. */
  method Assign(db: Database, profile: UserProfile, id: string, patrolUserId: string, now: nat)
      returns (r: Response<string>)
    modifies db
    ensures !IsAdminRole(profile.role) ==> r == Failure(403, "Insufficient permissions")
    ensures IsAdminRole(profile.role) && patrolUserId == "" ==> r == Failure(400, "Patrol user ID is required")
    ensures IsAdminRole(profile.role) && patrolUserId != "" && !IsPatrolUser(old(db.users), patrolUserId) ==>
      r == Failure(400, "Invalid patrol user")
    ensures IsAdminRole(profile.role) && patrolUserId != "" && IsPatrolUser(old(db.users), patrolUserId) && id !in old(db.reports) ==>
      r == Failure(500, "Failed to assign report")
    ensures r.Success? <==>
      IsAdminRole(profile.role) && patrolUserId != "" && IsPatrolUser(old(db.users), patrolUserId) && id in old(db.reports)
    ensures r.Success? ==>
      r.code == 200 && db.reports == old(db.reports)[id := old(db.reports)[id].(patrolUserId := Some(patrolUserId), updatedAt := now)]
    ensures r.Failure? ==> db.reports == old(db.reports)
    ensures db.users == old(db.users) && db.messages == old(db.messages) && db.pointsLog == old(db.pointsLog)
    ensures old(db.ReportsWellFormed()) ==> db.ReportsWellFormed()
  {
    var gate := RequireAdmin(Some(profile));
    if gate.Reject? {
      return Failure(gate.code, gate.error);
    }
    if patrolUserId == "" {
      return Failure(400, "Patrol user ID is required");
    }
    if !IsPatrolUser(db.users, patrolUserId) {
      return Failure(400, "Invalid patrol user");
    }
    if id !in db.reports {
      return Failure(500, "Failed to assign report");
    }
    db.reports := db.reports[id := db.reports[id].(patrolUserId := Some(patrolUserId), updatedAt := now)];
    r := Success(200, "Report assigned successfully");
  }

  // ----- PUT /:id/priority (admins)

  /** `!priorityLevel || priorityLevel < 1 || priorityLevel > 5` fails exactly
      when the value is absent or outside [1, 5]; a fractional value inside is
      accepted. */
  function PriorityAccepted(priorityLevel: Option<real>): (ok: bool)
    ensures ok <==> priorityLevel.Some? && 1.0 <= priorityLevel.value <= 5.0
  {
    !(priorityLevel.None? || priorityLevel.value == 0.0 || priorityLevel.value < 1.0 || priorityLevel.value > 5.0)
  }

  /** PUT /:id/priority. Non-admins get 403; an absent or out-of-range value
      is 400; a missing report makes the update fail (500). On success only
      the report's priorityLevel and updatedAt change. */
  method SetPriority(db: Database, profile: UserProfile, id: string, priorityLevel: Option<real>, now: nat)
      returns (r: Response<string>)
    modifies db
    ensures !IsAdminRole(profile.role) ==> r == Failure(403, "Insufficient permissions")
    ensures IsAdminRole(profile.role) && !PriorityAccepted(priorityLevel) ==>
      r == Failure(400, "Priority level must be between 1 and 5")
    ensures IsAdminRole(profile.role) && PriorityAccepted(priorityLevel) && id !in old(db.reports) ==>
      r == Failure(500, "Failed to update report priority")
    ensures r.Success? <==> IsAdminRole(profile.role) && PriorityAccepted(priorityLevel) && id in old(db.reports)
    ensures r.Success? ==>
      r.code == 200 && db.reports == old(db.reports)[id := old(db.reports)[id].(priorityLevel := priorityLevel.value, updatedAt := now)]
    ensures r.Failure? ==> db.reports == old(db.reports)
    ensures db.users == old(db.users) && db.messages == old(db.messages) && db.pointsLog == old(db.pointsLog)
    ensures old(db.ReportsWellFormed()) ==> db.ReportsWellFormed()
  {
    var gate := RequireAdmin(Some(profile));
    if gate.Reject? {
      return Failure(gate.code, gate.error);
    }
    if !PriorityAccepted(priorityLevel) {
      return Failure(400, "Priority level must be between 1 and 5");
    }
    if id !in db.reports {
      return Failure(500, "Failed to update report priority");
    }
    db.reports := db.reports[id := db.reports[id].(priorityLevel := priorityLevel.value, updatedAt := now)];
    r := Success(200, "Report priority updated successfully");
  }
}
