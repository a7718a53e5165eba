/** The caller's own profile routes: read and update the profile, read the
    points, and add points to oneself. Each runs after `authenticateToken`
    and acts on the document of the caller's uid. */
module ProfileRoutes {
  import opened Common
  import opened Documents

  /** The body of GET /profile: the token's uid and e-mail with the stored
      profile spread over them, so a stored e-mail wins over the token's. */
  datatype ProfileBody = ProfileBody(uid: string, email: string, profile: UserProfile)

  function GetProfile(users: map<string, UserProfile>, user: Claims): (r: Response<ProfileBody>)
    ensures r == Failure(404, "User profile not found") <==> user.uid !in users
    ensures r.Success? <==> user.uid in users
    ensures r.Success? ==> r.code == 200 && r.value.uid == user.uid && r.value.profile == users[user.uid]
    ensures r.Success? && users[user.uid].email.Some? ==> r.value.email == users[user.uid].email.value
    ensures r.Success? && users[user.uid].email.None? ==> r.value.email == user.email
  {
    if user.uid !in users then Failure(404, "User profile not found")
    else Success(200, ProfileBody(user.uid, users[user.uid].email.GetOr(user.email), users[user.uid]))
  }

  /** PUT /profile: a truthy displayName or photoURL replaces the stored one,
      a falsy one leaves it; lastActive is always set. A caller without a
      profile makes the store's update fail (500). */
  method PutProfile(db: Database, user: Claims, displayName: string, photoURL: string, now: nat) returns (r: Response<string>)
    modifies db
    ensures r.Success? <==> user.uid in old(db.users)
    ensures r.Failure? ==> r == Failure(500, "Failed to update profile") && db.users == old(db.users)
    ensures r.Success? ==>
      && r == Success(200, "Profile updated successfully")
      && user.uid in db.users && db.users.Keys == old(db.users).Keys
      && (forall id :: id in db.users && id != user.uid ==> db.users[id] == old(db.users)[id])
      && db.users[user.uid].displayName == (if displayName != "" then displayName else old(db.users)[user.uid].displayName)
      && db.users[user.uid].photoURL == (if photoURL != "" then photoURL else old(db.users)[user.uid].photoURL)
      && db.users[user.uid].lastActive == now
      && db.users[user.uid].(displayName := "", photoURL := "", lastActive := 0)
           == old(db.users)[user.uid].(displayName := "", photoURL := "", lastActive := 0)
    ensures db.reports == old(db.reports) && db.messages == old(db.messages) && db.pointsLog == old(db.pointsLog)
  {
    if user.uid !in db.users {
      return Failure(500, "Failed to update profile");
    }
    var profile := db.users[user.uid];
    if displayName != "" {
      profile := profile.(displayName := displayName);
    }
    if photoURL != "" {
      profile := profile.(photoURL := photoURL);
    }
    profile := profile.(lastActive := now);
    db.users := db.users[user.uid := profile];
    r := Success(200, "Profile updated successfully");
  }

  /** The body of GET /points. */
  datatype PointsBody = PointsBody(points: real, displayName: string, role: string)

  /** GET /points: a profile without points shows 0. */
  function GetPoints(users: map<string, UserProfile>, user: Claims): (r: Response<PointsBody>)
    ensures r == Failure(404, "User profile not found") <==> user.uid !in users
    ensures r.Success? <==> user.uid in users
    ensures r.Success? ==> r.code == 200
    ensures r.Success? && users[user.uid].points.Some? ==> r.value.points == users[user.uid].points.value
    ensures r.Success? && users[user.uid].points.None? ==> r.value.points == 0.0
    ensures r.Success? ==> r.value.displayName == users[user.uid].displayName && r.value.role == users[user.uid].role
  {
    if user.uid !in users then Failure(404, "User profile not found")
    else
      var profile := users[user.uid];
      Success(200, PointsBody(profile.points.GetOr(0.0), profile.displayName, profile.role))
  }

  /** `!points || points <= 0`: absent, zero and negative amounts are
      refused. */
  predicate ValidAddition(points: Option<real>) {
    points.Some? && points.value > 0.0
  }

  /** POST /points as written. The update names `admin`, which the file never
      binds, so building its argument throws before anything is written: every
      amount that passes validation ends in the 500 handler. */
  function PostPoints(points: Option<real>): (r: Response<real>)
    ensures !ValidAddition(points) ==> r == Failure(400, "Invalid points value")
    ensures ValidAddition(points) ==> r == Failure(500, "Failed to add points")
  {
    if points.None? || points.value == 0.0 || points.value <= 0.0 then Failure(400, "Invalid points value")
    else Failure(500, "Failed to add points")
  }

  /** As written, no request ever adds points. */
  lemma PostPointsNeverSucceeds(points: Option<real>)
    ensures !PostPoints(points).Success?
    ensures PostPoints(points).code == (if ValidAddition(points) then 500 else 400)
  {
  }

  /** POST /points as intended: a valid amount is added to the caller's own
      points (a missing field counts as 0), lastActive is set, and one entry
      with the caller as both user and adder is appended to the points log,
      its reason defaulting to 'Manual points addition'. A caller without a
      profile makes the update fail (500) before anything is logged. The clock
      is read once for lastActive and once for the log entry. */
  method PostPointsIntended(db: Database, user: Claims, points: Option<real>, reason: string, lastActive: nat, loggedAt: nat)
      returns (r: Response<real>)
    modifies db
    ensures !ValidAddition(points) ==> r == Failure(400, "Invalid points value")
    ensures ValidAddition(points) && user.uid !in old(db.users) ==> r == Failure(500, "Failed to add points")
    ensures r.Success? <==> ValidAddition(points) && user.uid in old(db.users)
    ensures r.Success? ==>
      && r == Success(200, points.value)
      && db.users == old(db.users)[user.uid := old(db.users)[user.uid].(
           points := Increment(old(db.users)[user.uid].points, points.value), lastActive := lastActive)]
      && db.pointsLog == old(db.pointsLog) + [PointsEntry(user.uid, points.value,
           if reason != "" then reason else "Manual points addition", loggedAt, user.uid)]
    ensures r.Failure? ==> db.users == old(db.users) && db.pointsLog == old(db.pointsLog)
    ensures db.reports == old(db.reports) && db.messages == old(db.messages)
  {
    if !ValidAddition(points) {
      return Failure(400, "Invalid points value");
    }
    if user.uid !in db.users {
      return Failure(500, "Failed to add points");
    }
    var profile := db.users[user.uid];
    db.users := db.users[user.uid := profile.(points := Increment(profile.points, points.value), lastActive := lastActive)];
    db.pointsLog := db.pointsLog + [PointsEntry(user.uid, points.value,
      if reason != "" then reason else "Manual points addition", loggedAt, user.uid)];
    r := Success(200, points.value);
  }
}
