/** The documents the server keeps in its document store, and the store itself
    as an object whose collections the route handlers update in place. */
module Documents {
  import opened Common

  /** The decoded identity token: the subject id and the e-mail claim. */
  datatype Claims = Claims(uid: string, email: string)

  /** A document of the `users` collection. Text fields use "" for a field the
      document does not have (both are falsy); `points` is `None` when the
      document has no points field. */
  datatype UserProfile = UserProfile(
    email: Option<string>,
    displayName: string,
    photoURL: string,
    role: string,
    points: Option<real>,
    isBanned: bool,
    createdAt: nat,
    lastActive: nat,
    updatedAt: nat)

  /** Geolocation, carried as it was sent. */
  datatype Location = Location(lat: real, lng: real)

  /** A document of the `reports` collection. */
  datatype Report = Report(
    caseNumber: string,
    title: string,
    description: string,
    category: string,
    isAnonymous: bool,
    location: Location,
    imageUrls: seq<string>,
    status: string,
    priorityLevel: real,
    userId: string,
    patrolUserId: Option<string>,
    createdAt: nat,
    updatedAt: nat)

  /** A document of the `messages` collection. */
  datatype Message = Message(
    text: string,
    userId: string,
    userDisplayName: string,
    userRole: string,
    isAdminReply: bool,
    createdAt: nat)

  /** A document of the `points_log` collection. */
  datatype PointsEntry = PointsEntry(userId: string, points: real, reason: string, timestamp: nat, addedBy: string)

  /** `FieldValue.increment(delta)`: a missing field counts as 0. */
  function Increment(points: Option<real>, delta: real): Option<real> {
    Some(points.GetOr(0.0) + delta)
  }

  /** What the report handlers keep true of every stored report: a non-empty
      status and a priority between 1 and 5. */
  predicate WellFormedReports(reports: map<string, Report>) {
    forall id :: id in reports ==> reports[id].status != "" && 1.0 <= reports[id].priorityLevel <= 5.0
  }

  /** The document store: one table per collection, keyed by document id.
      The points log is append-only, so it is kept in insertion order. */
  class Database {
    var users: map<string, UserProfile>
    var reports: map<string, Report>
    var messages: map<string, Message>
    var pointsLog: seq<PointsEntry>

    constructor ()
      ensures users == map[] && reports == map[] && messages == map[] && pointsLog == []
    {
      users, reports, messages, pointsLog := map[], map[], map[], [];
    }

    /** The stored reports are well formed; every report handler preserves
        this, and the listing routes pass it on to what they return. */
    ghost predicate ReportsWellFormed()
      reads this
    {
      WellFormedReports(reports)
    }
  }
}
