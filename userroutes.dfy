/** The user routes: the admin listing, the public leaderboard, reading one
    profile, changing a role, banning, adjusting points (with the points log)
    and a user's report statistics. */
module UserRoutes {
  import opened Common
  import opened Documents
  import opened AuthMiddleware
  import opened DocumentStore
  import ReportRoutes

  function UserCreatedAtKey(u: UserProfile): real {
    u.createdAt as real
  }

  // ----- GET / (admins): newest first, optional role filter, limit 50, offset 0

  function ListUsersQuery(role: string, limit: Option<nat>, offset: Option<nat>): Query<UserProfile> {
    Query((u: UserProfile) => role == "" || u.role == role, UserCreatedAtKey, Descending, offset.GetOr(0), Some(limit.GetOr(50)))
  }

  /** The body `{users, total}`; `total` is the length of this page. */
  datatype UserPage = UserPage(users: seq<(string, UserProfile)>, total: nat)

  function ListUsers(profile: UserProfile, answer: seq<(string, UserProfile)>): (r: Response<UserPage>)
    ensures r.Success? <==> IsAdminRole(profile.role)
    ensures r.Failure? ==> r.code == 403
    ensures r.Success? ==> r.code == 200 && r.value.users == answer && r.value.total == |answer|
  {
    match RequireAdmin(Some(profile))
    case Reject(code, error) => Failure(code, error)
    case Proceed => Success(200, UserPage(answer, |answer|))
  }

  /** An admin's page holds stored profiles only, with the requested role if
      one was given, newest first, and at most `limit` (50) of them. A page
      from the start leaves out a matching profile only when it is full. */
  lemma ListUsersPage(users: map<string, UserProfile>, profile: UserProfile, role: string,
                      limit: Option<nat>, offset: Option<nat>, answer: seq<(string, UserProfile)>)
    requires IsAdminRole(profile.role)
    requires Answers(users, ListUsersQuery(role, limit, offset), answer)
    ensures ListUsers(profile, answer) == Success(200, UserPage(answer, |answer|))
    ensures |answer| <= limit.GetOr(50)
    ensures forall i :: 0 <= i < |answer| ==>
      answer[i].0 in users && users[answer[i].0] == answer[i].1 && (role != "" ==> answer[i].1.role == role)
    ensures forall i, j :: 0 <= i < j < |answer| ==> answer[i].1.createdAt >= answer[j].1.createdAt
    ensures offset.GetOr(0) == 0 ==> forall id ::
      id in users && (role == "" || users[id].role == role) && id !in Ids(answer) ==> |answer| == limit.GetOr(50)
  {
    var q := ListUsersQuery(role, limit, offset);
    AnswerSound(users, q, answer);
    forall i, j | 0 <= i < j < |answer| ensures answer[i].1.createdAt >= answer[j].1.createdAt {
      assert InOrder(q.key(answer[i].1), q.key(answer[j].1), q.order);
    }
    if offset.GetOr(0) == 0 {
      forall id | id in users && (role == "" || users[id].role == role) && id !in Ids(answer)
        ensures |answer| == limit.GetOr(50)
      {
        AnswerWithinLimit(users, q, answer, id);
      }
    }
  }

  // ----- GET /leaderboard (no authentication)

  /** `orderBy('points', 'desc')`: the store leaves out documents that have no
      points field. */
  function LeaderboardQuery(limit: Option<nat>): Query<UserProfile> {
    Query((u: UserProfile) => u.points.Some?, (u: UserProfile) => u.points.GetOr(0.0), Descending, 0, Some(limit.GetOr(10)))
  }

  /** One leaderboard row: only these five fields of the profile. */
  datatype LeaderEntry = LeaderEntry(id: string, displayName: string, points: real, role: string, photoURL: string)

  function Leaderboard(answer: seq<(string, UserProfile)>): (board: seq<LeaderEntry>)
    ensures |board| == |answer|
    ensures forall i :: 0 <= i < |board| ==>
      board[i] == LeaderEntry(answer[i].0, answer[i].1.displayName, answer[i].1.points.GetOr(0.0), answer[i].1.role, answer[i].1.photoURL)
  {
    seq(|answer|, i requires 0 <= i < |answer| =>
      LeaderEntry(answer[i].0, answer[i].1.displayName, answer[i].1.points.GetOr(0.0), answer[i].1.role, answer[i].1.photoURL))
  }

  /** The leaderboard holds at most `limit` (10) distinct users, each with
      their stored points, in descending order of points; and it is the top of
      the ranking: a user with points is left off only when the board is full,
      and then has no more points than anyone on it. */
  lemma LeaderboardRanked(users: map<string, UserProfile>, limit: Option<nat>, answer: seq<(string, UserProfile)>)
    requires Answers(users, LeaderboardQuery(limit), answer)
    ensures var board := Leaderboard(answer);
      && |board| <= limit.GetOr(10)
      && (forall i :: 0 <= i < |board| ==> board[i].id in users && users[board[i].id].points == Some(board[i].points))
      && (forall i, j :: 0 <= i < j < |board| ==> board[i].id != board[j].id && board[i].points >= board[j].points)
      && (forall id :: id in users && users[id].points.Some? && (forall i :: 0 <= i < |board| ==> board[i].id != id) ==>
            && |board| == limit.GetOr(10)
            && forall i :: 0 <= i < |board| ==> users[id].points.value <= board[i].points)
  {
    var q := LeaderboardQuery(limit);
    var board := Leaderboard(answer);
    AnswerSound(users, q, answer);
    forall i, j | 0 <= i < j < |board| ensures board[i].id != board[j].id && board[i].points >= board[j].points {
      assert InOrder(q.key(answer[i].1), q.key(answer[j].1), q.order);
    }
    forall id | id in users && users[id].points.Some? && (forall i :: 0 <= i < |board| ==> board[i].id != id)
      ensures |board| == limit.GetOr(10)
      ensures forall i :: 0 <= i < |board| ==> users[id].points.value <= board[i].points
    {
      assert id !in Ids(answer) by {
        forall i | 0 <= i < |answer| ensures answer[i].0 != id {
          assert board[i].id == answer[i].0;
        }
      }
      AnswerTop(users, q, answer, id);
      AnswerWithinLimit(users, q, answer, id);
    }
  }

  // ----- GET /:id

  /** 404 for a missing profile comes before the access check; then 403
      unless the caller asks for their own profile or is an admin. */
  function GetUser(users: map<string, UserProfile>, user: Claims, profile: UserProfile, id: string): (r: Response<(string, UserProfile)>)
    ensures r == Failure(404, "User not found") <==> id !in users
    ensures r == Failure(403, "Access denied") <==> id in users && id != user.uid && !IsAdminRole(profile.role)
    ensures r.Success? <==> id in users && (id == user.uid || IsAdminRole(profile.role))
    ensures r.Success? ==> r.code == 200 && r.value == (id, users[id])
  {
    if id !in users then Failure(404, "User not found")
    else if id != user.uid && !IsAdminRole(profile.role) then Failure(403, "Access denied")
    else Success(200, (id, users[id]))
  }

  // ----- PUT /:id/role (admins)

  /** A role the server recognises, sent as a string. */
  predicate IsRoleName(role: Json) {
    role.Text? && role.s in [UserRole, PatrolRole, AdminRole, SuperAdminRole]
  }

  /** The checks of the role route before it writes: 400 unless the body's
      role is one of the four names; 403 when a caller other than a superAdmin
      assigns superAdmin. The target's current role is not an input: an admin
      may turn a superAdmin into a user. */
  function RoleChange(callerRole: string, role: Json): (v: Verdict)
    ensures v == Reject(400, "Invalid role") <==> !IsRoleName(role)
    ensures v == Reject(403, "Only superAdmin can assign superAdmin role") <==>
      IsRoleName(role) && role.s == SuperAdminRole && callerRole != SuperAdminRole
    ensures v.Proceed? <==> IsRoleName(role) && (role.s != SuperAdminRole || callerRole == SuperAdminRole)
  {
    if !Truthy(role) || !IsRoleName(role) then Reject(400, "Invalid role")
    else if callerRole != SuperAdminRole && role.s == SuperAdminRole then Reject(403, "Only superAdmin can assign superAdmin role")
    else Proceed
  }

  /** PUT /:id/role. Non-admins get 403, then the checks of `RoleChange`; a
      missing target makes the store's update fail (500). On success only the
      target's role and updatedAt change. */
  method UpdateRole(db: Database, profile: UserProfile, id: string, role: Json, now: nat) returns (r: Response<string>)
    modifies db
    ensures !IsAdminRole(profile.role) ==> r == Failure(403, "Insufficient permissions")
    ensures IsAdminRole(profile.role) && RoleChange(profile.role, role).Reject? ==>
      r == Failure(RoleChange(profile.role, role).code, RoleChange(profile.role, role).error)
    ensures IsAdminRole(profile.role) && RoleChange(profile.role, role).Proceed? && id !in old(db.users) ==>
      r == Failure(500, "Failed to update user role")
    ensures r.Success? <==> IsAdminRole(profile.role) && RoleChange(profile.role, role).Proceed? && id in old(db.users)
    ensures r.Success? ==>
      r.code == 200 && db.users == old(db.users)[id := old(db.users)[id].(role := role.s, updatedAt := now)]
    ensures r.Failure? ==> db.users == old(db.users)
    ensures db.reports == old(db.reports) && db.messages == old(db.messages) && db.pointsLog == old(db.pointsLog)
  {
    var gate := RequireAdmin(Some(profile));
    if gate.Reject? {
      return Failure(gate.code, gate.error);
    }
    var check := RoleChange(profile.role, role);
    if check.Reject? {
      return Failure(check.code, check.error);
    }
    if id !in db.users {
      return Failure(500, "Failed to update user role");
    }
    db.users := db.users[id := db.users[id].(role := role.s, updatedAt := now)];
    r := Success(200, "User role updated successfully");
  }

  /** The role checks never look at the target: every admin may demote a
      superAdmin to any role below superAdmin. */
  lemma AdminMayDemoteSuperAdmin(callerRole: string, newRole: string)
    requires IsAdminRole(callerRole) && newRole in [UserRole, PatrolRole, AdminRole]
    ensures RoleChange(callerRole, Text(newRole)).Proceed?
  {
  }

  // ----- PUT /:id/ban (admins)

  /** PUT /:id/ban. Non-admins get 403; a non-boolean isBanned is 400; a
      target that exists with role superAdmin is 403, for banning and
      unbanning alike; a missing target makes the update fail (500). On
      success only the target's isBanned and updatedAt change. */
  method Ban(db: Database, profile: UserProfile, id: string, isBanned: Json, now: nat) returns (r: Response<string>)
    modifies db
    ensures !IsAdminRole(profile.role) ==> r == Failure(403, "Insufficient permissions")
    ensures IsAdminRole(profile.role) && !isBanned.Bool? ==> r == Failure(400, "isBanned must be a boolean")
    ensures IsAdminRole(profile.role) && isBanned.Bool? && id in old(db.users) && old(db.users)[id].role == SuperAdminRole ==>
      r == Failure(403, "Cannot ban superAdmin")
    ensures IsAdminRole(profile.role) && isBanned.Bool? && id !in old(db.users) ==> r == Failure(500, "Failed to update user ban status")
    ensures r.Success? <==>
      IsAdminRole(profile.role) && isBanned.Bool? && id in old(db.users) && old(db.users)[id].role != SuperAdminRole
    ensures r.Success? ==>
      && r == Success(200, if isBanned.b then "User banned successfully" else "User unbanned successfully")
      && db.users == old(db.users)[id := old(db.users)[id].(isBanned := isBanned.b, updatedAt := now)]
    ensures r.Failure? ==> db.users == old(db.users)
    ensures db.reports == old(db.reports) && db.messages == old(db.messages) && db.pointsLog == old(db.pointsLog)
  {
    var gate := RequireAdmin(Some(profile));
    if gate.Reject? {
      return Failure(gate.code, gate.error);
    }
    if !isBanned.Bool? {
      return Failure(400, "isBanned must be a boolean");
    }
    if id in db.users && db.users[id].role == SuperAdminRole {
      return Failure(403, "Cannot ban superAdmin");
    }
    if id !in db.users {
      return Failure(500, "Failed to update user ban status");
    }
    db.users := db.users[id := db.users[id].(isBanned := isBanned.b, updatedAt := now)];
    r := Success(200, if isBanned.b then "User banned successfully" else "User unbanned successfully");
  }

  // ----- PUT /:id/points (admins)

  /** The body `{message}` of a points adjustment: the amount and whether the
      message says "added to" (amount above zero) or "removed from". */
  datatype PointsMessage = PointsMessage(points: real, added: bool)

  /** The log entry of an adjustment; a falsy reason becomes the default. */
  function AdjustmentEntry(id: string, points: real, reason: string, now: nat, addedBy: string): (e: PointsEntry)
    ensures e.userId == id && e.points == points && e.timestamp == now && e.addedBy == addedBy
    ensures e.reason == (if reason != "" then reason else "Manual points adjustment")
  {
    PointsEntry(id, points, if reason == "" then "Manual points adjustment" else reason, now, addedBy)
  }

  /** PUT /:id/points. Non-admins get 403; a non-number is 400. Otherwise the
      target's points change by the signed amount (a missing field counts as
      0) and exactly one entry is appended to the points log. A missing target
      makes the update fail (500) before anything is logged. The clock is
      read once for the profile (`updatedAt`) and once for the log entry
      (`loggedAt`). */
  method AdjustPoints(db: Database, user: Claims, profile: UserProfile, id: string, points: Json, reason: string,
                      updatedAt: nat, loggedAt: nat)
      returns (r: Response<PointsMessage>)
    modifies db
    ensures !IsAdminRole(profile.role) ==> r == Failure(403, "Insufficient permissions")
    ensures IsAdminRole(profile.role) && !points.Number? ==> r == Failure(400, "Points must be a number")
    ensures IsAdminRole(profile.role) && points.Number? && id !in old(db.users) ==> r == Failure(500, "Failed to update user points")
    ensures r.Success? <==> IsAdminRole(profile.role) && points.Number? && id in old(db.users)
    ensures r.Success? ==>
      && r == Success(200, PointsMessage(points.n, points.n > 0.0))
      && db.users == old(db.users)[id := old(db.users)[id].(points := Increment(old(db.users)[id].points, points.n), updatedAt := updatedAt)]
      && db.pointsLog == old(db.pointsLog) + [AdjustmentEntry(id, points.n, reason, loggedAt, user.uid)]
    ensures r.Failure? ==> db.users == old(db.users) && db.pointsLog == old(db.pointsLog)
    ensures db.reports == old(db.reports) && db.messages == old(db.messages)
  {
    var gate := RequireAdmin(Some(profile));
    if gate.Reject? {
      return Failure(gate.code, gate.error);
    }
    if !points.Number? {
      return Failure(400, "Points must be a number");
    }
    if id !in db.users {
      return Failure(500, "Failed to update user points");
    }
    var target := db.users[id];
    db.users := db.users[id := target.(points := Increment(target.points, points.n), updatedAt := updatedAt)];
    db.pointsLog := db.pointsLog + [AdjustmentEntry(id, points.n, reason, loggedAt, user.uid)];
    r := Success(200, PointsMessage(points.n, points.n > 0.0));
  }

  // ----- GET /:id/stats

  /** A count per distinct key, in order of first occurrence: the object
      `reduce((acc, k) => { acc[k] = (acc[k] || 0) + 1; return acc }, {})`. */
  type Tally = seq<(string, nat)>

  /** The count recorded for `k`, 0 when `k` has no entry. */
  function CountOf(t: Tally, k: string): nat {
    if t == [] then 0 else if t[0].0 == k then t[0].1 else CountOf(t[1..], k)
  }

  function Total(t: Tally): nat {
    if t == [] then 0 else t[0].1 + Total(t[1..])
  }

  /** The keys that have an entry. */
  function Keys(t: Tally): set<string> {
    if t == [] then {} else {t[0].0} + Keys(t[1..])
  }

  /** No key has two entries. */
  predicate DistinctKeys(t: Tally) {
    t == [] || (t[0].0 !in Keys(t[1..]) && DistinctKeys(t[1..]))
  }

  /** `acc[k] = (acc[k] || 0) + 1`. */
  function Bump(t: Tally, k: string): (r: Tally)
    ensures Total(r) == Total(t) + 1
    ensures forall x :: CountOf(r, x) == CountOf(t, x) + (if x == k then 1 else 0)
    ensures Keys(r) == Keys(t) + {k}
    ensures DistinctKeys(t) ==> DistinctKeys(r)
  {
    if t == [] then [(k, 1)]
    else if t[0].0 == k then [(k, t[0].1 + 1)] + t[1..]
    else
      var r := [t[0]] + Bump(t[1..], k);
      assert r[1..] == Bump(t[1..], k);
      r
  }

  /** The tally of `keys`, built left to right: one entry per distinct key,
      holding the number of times it occurs. */
  function TallyOf(keys: seq<string>): (t: Tally)
    ensures DistinctKeys(t)
    ensures Keys(t) == set x | x in keys
    ensures forall x :: CountOf(t, x) == multiset(keys)[x]
    ensures Total(t) == |keys|
  {
    if keys == [] then []
    else
      var front, last := keys[..|keys| - 1], keys[|keys| - 1];
      assert keys == front + [last];
      Bump(TallyOf(front), last)
  }

  function Statuses(reports: seq<Report>): (s: seq<string>)
    ensures |s| == |reports| && forall i :: 0 <= i < |s| ==> s[i] == reports[i].status
  {
    seq(|reports|, i requires 0 <= i < |reports| => reports[i].status)
  }

  function Categories(reports: seq<Report>): (s: seq<string>)
    ensures |s| == |reports| && forall i :: 0 <= i < |s| ==> s[i] == reports[i].category
  {
    seq(|reports|, i requires 0 <= i < |reports| => reports[i].category)
  }

  /** `reports.filter(r => r.status === 'resolved').length`. */
  function ResolvedCount(reports: seq<Report>): nat {
    if reports == [] then 0
    else ResolvedCount(reports[1..]) + (if reports[0].status == ReportRoutes.ResolvedStatus then 1 else 0)
  }

  lemma {:induction false} ResolvedCountIsMultiplicity(reports: seq<Report>)
    ensures ResolvedCount(reports) == multiset(Statuses(reports))[ReportRoutes.ResolvedStatus]
    decreases |reports|
  {
    if reports != [] {
      ResolvedCountIsMultiplicity(reports[1..]);
      assert Statuses(reports) == [reports[0].status] + Statuses(reports[1..]);
    }
  }

  datatype Stats = Stats(totalReports: nat, reportsByStatus: Tally, reportsByCategory: Tally, totalPoints: nat)

  function StatsOf(reports: seq<Report>): Stats {
    Stats(|reports|, TallyOf(Statuses(reports)), TallyOf(Categories(reports)), ResolvedCount(reports) * 10)
  }

  /** The four statistics agree: the status counts and the category counts
      each add up to the number of reports, and the points figure is ten per
      report counted under `resolved`. */
  lemma StatsConsistent(reports: seq<Report>)
    ensures var stats := StatsOf(reports);
      && Total(stats.reportsByStatus) == stats.totalReports
      && Total(stats.reportsByCategory) == stats.totalReports
      && stats.totalPoints == 10 * CountOf(stats.reportsByStatus, ReportRoutes.ResolvedStatus)
      && (forall s :: CountOf(stats.reportsByStatus, s) == multiset(Statuses(reports))[s])
  {
    ResolvedCountIsMultiplicity(reports);
  }

  /* The tally as written. `{}` inherits the members of `Object.prototype`,
     so `acc[k] || 0` reads an inherited member for such a key. Eleven of
     them are functions: `+ 1` turns the function into its source text
     followed by "1", and the assignment stores that text as an own entry.
     The twelfth, `__proto__`, reads the prototype object, and assigning the
     resulting text to it is ignored, so that key never gets an entry. */

  /** The value `acc[k]` holds: a number, or text. */
  datatype Entry = Count(n: nat) | Str(s: string)

  type JsTally = seq<(string, Entry)>

  /** The function-valued members every `{}` inherits. */
  const InheritedMethods: set<string> := {
    "constructor", "__defineGetter__", "__defineSetter__", "hasOwnProperty",
    "__lookupGetter__", "__lookupSetter__", "isPrototypeOf",
    "propertyIsEnumerable", "toString", "valueOf", "toLocaleString"
  }

  const ProtoKey := "__proto__"

  /** A key `{}` does not inherit. */
  predicate Ordinary(k: string) {
    k !in InheritedMethods && k != ProtoKey
  }

  /** The text of an inherited built-in function (`constructor` is `Object`). */
  function NativeSource(k: string): string {
    "function " + (if k == "constructor" then "Object" else k) + "() { [native code] }"
  }

  /** The sum of the numeric entries. */
  function NumericTotal(t: JsTally): nat {
    if t == [] then 0 else (if t[0].1.Count? then t[0].1.n else 0) + NumericTotal(t[1..])
  }

  /** Entries as the source can build them: no `__proto__` entry, and an
      entry is text exactly when its key is an inherited function. */
  predicate EntriesTyped(t: JsTally) {
    t == [] || (t[0].0 != ProtoKey && (t[0].1.Str? <==> t[0].0 in InheritedMethods) && EntriesTyped(t[1..]))
  }

  /** The number of ordinary keys in `keys`. */
  function OrdinaryCount(keys: seq<string>): (n: nat)
    ensures n <= |keys|
  {
    if keys == [] then 0 else OrdinaryCount(keys[..|keys| - 1]) + (if Ordinary(keys[|keys| - 1]) then 1 else 0)
  }

  /** The intended tally seen as JavaScript values. */
  function Lift(t: Tally): (r: JsTally)
    ensures |r| == |t| && forall i :: 0 <= i < |t| ==> r[i] == (t[i].0, Count(t[i].1))
  {
    if t == [] then [] else [(t[0].0, Count(t[0].1))] + Lift(t[1..])
  }

  /** The own entry of `k`, if any. */
  function EntryOf(t: JsTally, k: string): Option<Entry> {
    if t == [] then None else if t[0].0 == k then Some(t[0].1) else EntryOf(t[1..], k)
  }

  /** `(acc[k] || 0) + 1` for a key other than `__proto__`: a number gains 1,
      text gets "1" appended, and a key with no own entry starts from 0 or,
      when inherited, from the function's source text. */
  function Plus1(e: Option<Entry>, k: string): Entry {
    match e
    case Some(Count(n)) => Count(n + 1)
    case Some(Str(s)) => Str(s + "1")
    case None => if k in InheritedMethods then Str(NativeSource(k) + "1") else Count(1)
  }

  /** `acc[k] = (acc[k] || 0) + 1` on an object made by `{}`: the entry of
      `k` becomes `Plus1` of it, every other entry stays; `__proto__` is never
      stored; an ordinary key adds one to the numeric total, an inherited one
      adds nothing. */
  function BumpAsWritten(t: JsTally, k: string): (r: JsTally)
    ensures k == ProtoKey ==> r == t
    ensures k != ProtoKey ==> EntryOf(r, k) == Some(Plus1(EntryOf(t, k), k))
    ensures forall x :: x != k ==> EntryOf(r, x) == EntryOf(t, x)
    ensures EntriesTyped(t) ==> EntriesTyped(r)
    ensures EntriesTyped(t) ==> NumericTotal(r) == NumericTotal(t) + (if Ordinary(k) then 1 else 0)
  {
    if k == ProtoKey then t
    else if t == [] then [(k, if k in InheritedMethods then Str(NativeSource(k) + "1") else Count(1))]
    else if t[0].0 == k then
      [(k, match t[0].1 { case Count(n) => Count(n + 1) case Str(s) => Str(s + "1") })] + t[1..]
    else
      var r := [t[0]] + BumpAsWritten(t[1..], k);
      assert r[1..] == BumpAsWritten(t[1..], k);
      r
  }

  /** The tally of `keys` as the reduce at users.js builds it. */
  function TallyAsWritten(keys: seq<string>): (t: JsTally)
    ensures EntriesTyped(t)
    ensures NumericTotal(t) == OrdinaryCount(keys)
  {
    if keys == [] then []
    else BumpAsWritten(TallyAsWritten(keys[..|keys| - 1]), keys[|keys| - 1])
  }

  /** On an ordinary key, the tally as written bumps like the intended one. */
  lemma {:induction false} BumpLift(t: Tally, k: string)
    requires Ordinary(k)
    ensures BumpAsWritten(Lift(t), k) == Lift(Bump(t, k))
    decreases |t|
  {
    if t != [] && t[0].0 != k {
      BumpLift(t[1..], k);
      assert Lift(t)[1..] == Lift(t[1..]);
      assert Lift(Bump(t, k))[1..] == Lift(Bump(t[1..], k));
    }
  }

  /** Without inherited keys, the tally as written is the intended one. */
  lemma {:induction false} TallyAsWrittenAgrees(keys: seq<string>)
    requires forall i :: 0 <= i < |keys| ==> Ordinary(keys[i])
    ensures TallyAsWritten(keys) == Lift(TallyOf(keys))
    decreases |keys|
  {
    if keys != [] {
      var front, last := keys[..|keys| - 1], keys[|keys| - 1];
      TallyAsWrittenAgrees(front);
      BumpLift(TallyOf(front), last);
    }
  }

  /** The numeric counts add up to the number of keys exactly when no key is
      inherited. */
  lemma {:induction false} OrdinaryCountFull(keys: seq<string>)
    ensures OrdinaryCount(keys) == |keys| <==> forall i :: 0 <= i < |keys| ==> Ordinary(keys[i])
    decreases |keys|
  {
    if keys != [] {
      var front := keys[..|keys| - 1];
      OrdinaryCountFull(front);
      assert forall i :: 0 <= i < |front| ==> front[i] == keys[i];
    }
  }

  /** One report filed under the category "constructor" is counted as text,
      and one under "__proto__" is not counted at all; the intended tally
      counts each once. */
  lemma InheritedKeyMiscounted()
    ensures TallyAsWritten(["constructor"]) == [("constructor", Str("function Object() { [native code] }1"))]
    ensures TallyAsWritten([ProtoKey]) == []
    ensures NumericTotal(TallyAsWritten(["constructor"])) == 0 && NumericTotal(TallyAsWritten([ProtoKey])) == 0
    ensures Total(TallyOf(["constructor"])) == 1 && Total(TallyOf([ProtoKey])) == 1
  {
    assert ["constructor"][..0] == [];
    assert [ProtoKey][..0] == [];
    assert TallyAsWritten(["constructor"]) == BumpAsWritten([], "constructor");
    assert NativeSource("constructor") + "1" == "function Object() { [native code] }1";
  }

  /** The statistics as written: the category and status counts add up to the
      number of reports exactly when no status and no category is a key `{}`
      inherits, and then they are the intended counts. */
  lemma StatsAsWritten(reports: seq<Report>)
    ensures NumericTotal(TallyAsWritten(Categories(reports))) == |reports|
      <==> forall i :: 0 <= i < |reports| ==> Ordinary(reports[i].category)
    ensures NumericTotal(TallyAsWritten(Statuses(reports))) == |reports|
      <==> forall i :: 0 <= i < |reports| ==> Ordinary(reports[i].status)
    ensures (forall i :: 0 <= i < |reports| ==> Ordinary(reports[i].category))
      ==> TallyAsWritten(Categories(reports)) == Lift(StatsOf(reports).reportsByCategory)
    ensures (forall i :: 0 <= i < |reports| ==> Ordinary(reports[i].status))
      ==> TallyAsWritten(Statuses(reports)) == Lift(StatsOf(reports).reportsByStatus)
  {
    OrdinaryCountFull(Categories(reports));
    OrdinaryCountFull(Statuses(reports));
    if forall i :: 0 <= i < |reports| ==> Ordinary(reports[i].category) {
      TallyAsWrittenAgrees(Categories(reports));
    }
    if forall i :: 0 <= i < |reports| ==> Ordinary(reports[i].status) {
      TallyAsWrittenAgrees(Statuses(reports));
    }
  }

  /** The reports of one user; the query has no order. */
  function StatsQuery(userId: string): Query<Report> {
    Query((r: Report) => r.userId == userId, (r: Report) => 0.0, Ascending, 0, None)
  }

  /** The data of the reports in the store's answer, in its order. */
  function Contents(answer: seq<(string, Report)>): (reports: seq<Report>)
    ensures |reports| == |answer| && forall i :: 0 <= i < |reports| ==> reports[i] == answer[i].1
  {
    seq(|answer|, i requires 0 <= i < |answer| => answer[i].1)
  }

  /** GET /:id/stats: 403 unless the caller asks about themselves or is an
      admin (checked before any query), else the statistics of the answer. */
  function UserStats(user: Claims, profile: UserProfile, id: string, answer: seq<(string, Report)>): (r: Response<Stats>)
    ensures r == Failure(403, "Access denied") <==> id != user.uid && !IsAdminRole(profile.role)
    ensures r.Success? <==> id == user.uid || IsAdminRole(profile.role)
    ensures r.Success? ==> r == Success(200, StatsOf(Contents(answer)))
  {
    if id != user.uid && !IsAdminRole(profile.role) then Failure(403, "Access denied")
    else Success(200, StatsOf(Contents(answer)))
  }

  /** With an allowed caller, `totalReports` is the number of reports whose
      owner is the user asked about. */
  lemma StatsCountOwnReports(reports: map<string, Report>, user: Claims, profile: UserProfile, id: string, answer: seq<(string, Report)>)
    requires id == user.uid || IsAdminRole(profile.role)
    requires Answers(reports, StatsQuery(id), answer)
    ensures UserStats(user, profile, id, answer).Success?
    ensures UserStats(user, profile, id, answer).value.totalReports == |set rid | rid in reports && reports[rid].userId == id|
  {
    var q := StatsQuery(id);
    AnswerComplete(reports, q, answer);
    assert Selected(reports, q.keep) == set rid | rid in reports && reports[rid].userId == id;
  }
}
