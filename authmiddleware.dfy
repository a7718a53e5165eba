/** The Express middleware that guards every authenticated route:
    `authenticateToken` (bearer token, identity check, profile load) and the
    role gates `requireRole`, `requireAdmin` and `requirePatrol`. The identity
    provider is a map from the tokens it accepts to their decoded claims. */
module AuthMiddleware {
  import opened Common
  import opened Documents
  import JsStrings

  /** The token of an Authorization header: the second space-separated
      component. `None` when the header is absent or empty or has no space;
      it may be `Some("")`, which is as falsy as `None`. */
  function HeaderToken(header: Option<string>): (t: Option<string>)
    ensures t.Some? <==> header.Some? && ' ' in header.value
    ensures t.Some? ==> ' ' !in t.value
  {
    if header.None? || header.value == "" then None
    else
      var parts := JsStrings.Split(header.value, ' ');
      if |parts| < 2 then None else Some(parts[1])
  }

  /** The token is truthy. */
  predicate HasToken(header: Option<string>) {
    HeaderToken(header).Some? && HeaderToken(header).value != ""
  }

  /** `<scheme> <token>` yields the token, whatever the scheme word is. */
  lemma BearerHeaderToken(scheme: string, token: string)
    requires ' ' !in scheme && ' ' !in token
    ensures HeaderToken(Some(scheme + " " + token)) == Some(token)
    ensures HasToken(Some(scheme + " " + token)) <==> token != ""
  {
    JsStrings.SplitAtFirstSeparator(scheme, ' ', token);
    JsStrings.SplitWithoutSeparator(token, ' ');
    assert scheme + " " + token == scheme + [' '] + token;
  }

  /** A header made of one word carries no token. */
  lemma OneWordHeaderHasNoToken(word: string)
    requires ' ' !in word
    ensures !HasToken(Some(word))
  {
    JsStrings.SplitWithoutSeparator(word, ' ');
  }

  /** What a middleware step decides: call `next()`, or answer with a status
      and an error message. */
  datatype Verdict = Proceed | Reject(code: nat, error: string)

  /** What `authenticateToken` decides: reject, or go on with the caller's
      claims and stored profile. */
  datatype AuthOutcome = Halt(code: nat, error: string) | Next(user: Claims, profile: UserProfile)

  /** The decision sequence of `authenticateToken`: no token is 401; a token
      the identity provider rejects is 403; a caller without a profile is
      404; otherwise the claims and the stored profile go on. */
  function Authenticate(header: Option<string>, verify: map<string, Claims>, users: map<string, UserProfile>): (r: AuthOutcome)
    ensures r == Halt(401, "Access token required") <==> !HasToken(header)
    ensures r == Halt(403, "Invalid or expired token") <==>
      HasToken(header) && HeaderToken(header).value !in verify
    ensures r == Halt(404, "User profile not found") <==>
      HasToken(header) && HeaderToken(header).value in verify && verify[HeaderToken(header).value].uid !in users
    ensures r.Next? <==>
      HasToken(header) && HeaderToken(header).value in verify && verify[HeaderToken(header).value].uid in users
    ensures r.Next? ==> r.user == verify[HeaderToken(header).value] && r.profile == users[r.user.uid]
  {
    var token := HeaderToken(header);
    if !HasToken(header) then Halt(401, "Access token required")
    else if token.value !in verify then Halt(403, "Invalid or expired token")
    else
      var decoded := verify[token.value];
      if decoded.uid !in users then Halt(404, "User profile not found")
      else Next(decoded, users[decoded.uid])
  }

  /** An incoming request: its Authorization header and the two fields
      `authenticateToken` attaches to it. */
  class Request {
    const authorization: Option<string>
    var user: Option<Claims>
    var userProfile: Option<UserProfile>

    constructor (authorization: Option<string>)
      ensures this.authorization == authorization && user == None && userProfile == None
    {
      this.authorization := authorization;
      user, userProfile := None, None;
    }

    /** `authenticateToken`: on success attaches the claims and the profile
        and returns `Proceed` (the call to `next()`). The claims are attached
        as soon as the token is verified, so a caller without a profile leaves
        the request with claims and no profile. */
    method AuthenticateToken(verify: map<string, Claims>, db: Database) returns (v: Verdict)
      modifies this
      ensures var outcome := Authenticate(authorization, verify, old(db.users));
        && (v.Proceed? <==> outcome.Next?)
        && (outcome.Halt? ==> v == Reject(outcome.code, outcome.error))
        && (outcome.Next? ==> user == Some(outcome.user) && userProfile == Some(outcome.profile))
        && (outcome.Halt? && outcome.code == 404 ==>
              user == Some(verify[HeaderToken(authorization).value]) && userProfile == old(userProfile))
        && (outcome.Halt? && outcome.code != 404 ==> user == old(user) && userProfile == old(userProfile))
    {
      var token := HeaderToken(authorization);
      if !HasToken(authorization) {
        return Reject(401, "Access token required");
      }
      if token.value !in verify {
        return Reject(403, "Invalid or expired token");
      }
      var decoded := verify[token.value];
      user := Some(decoded);
      if decoded.uid !in db.users {
        return Reject(404, "User profile not found");
      }
      userProfile := Some(db.users[decoded.uid]);
      v := Proceed;
    }
  }

  /** `requireRole(roles)`: 401 without a profile, 403 unless the profile's
      role is one of `roles`. */
  function RequireRole(roles: seq<string>, userProfile: Option<UserProfile>): (v: Verdict)
    ensures v == Reject(401, "User profile required") <==> userProfile.None?
    ensures v.Proceed? <==> userProfile.Some? && userProfile.value.role in roles
    ensures v.Reject? && userProfile.Some? ==> v == Reject(403, "Insufficient permissions")
  {
    if userProfile.None? then Reject(401, "User profile required")
    else if userProfile.value.role !in roles then Reject(403, "Insufficient permissions")
    else Proceed
  }

  /** `requireAdmin` admits exactly the roles admin and superAdmin. */
  function RequireAdmin(userProfile: Option<UserProfile>): (v: Verdict)
    ensures v.Proceed? <==> userProfile.Some? && (userProfile.value.role == "admin" || userProfile.value.role == "superAdmin")
    ensures v.Reject? ==> v.code == (if userProfile.None? then 401 else 403)
  {
    RequireRole(AdminRoles, userProfile)
  }

  /** `requirePatrol` admits exactly the roles patrol, admin and superAdmin. */
  function RequirePatrol(userProfile: Option<UserProfile>): (v: Verdict)
    ensures v.Proceed? <==> userProfile.Some? && userProfile.value.role in {"patrol", "admin", "superAdmin"}
    ensures v.Reject? ==> v.code == (if userProfile.None? then 401 else 403)
  {
    RequireRole([PatrolRole, AdminRole, SuperAdminRole], userProfile)
  }
}
