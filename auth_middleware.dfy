/**
 * The authentication middleware: the email and password patterns, and the decision chain shared by
 * `getAuthUser`, `requireAuth` and `withAuth`. Token verification (a JWT signature check) is a parameter.
 */
module AuthMiddleware {
  import opened Common
  import opened Strings

  // ---------------------------------------------------------------------------------------------
  // isValidEmail: /^[^\s@]+@[^\s@]+\.[^\s@]+$/

  /** A run matched by `[^\s@]+`. */
  predicate EmailRun(t: string) {
    |t| >= 1 && forall k | 0 <= k < |t| :: !IsSpace(t[k]) && t[k] != '@'
  }

  /** The language of the email pattern: a run, `@`, a run, `.`, a run. The middle run may itself hold
      dots, so the `.` can be any dot after the `@` that leaves text on both sides. */
  predicate IsValidEmail(s: string) {
    exists i, j | 0 < i && i + 1 < j < |s| - 1 ::
      s[i] == '@' && s[j] == '.' && EmailRun(s[..i]) && EmailRun(s[i + 1..j]) && EmailRun(s[j + 1..])
  }

  /** `s[i]` is the only `@` of `s`. */
  predicate OnlyAt(s: string, i: int) {
    0 <= i < |s| && s[i] == '@' && forall k | 0 <= k < |s| && s[k] == '@' :: k == i
  }

  /** No white space, and a single `@` with text before it and, after it, a `.` with text on both sides. */
  predicate EmailLike(s: string) {
    (forall k | 0 <= k < |s| :: !IsSpace(s[k]))
    && exists i | 0 < i < |s| :: OnlyAt(s, i) && exists j | i + 1 < j < |s| - 1 :: s[j] == '.'
  }

  lemma EmailMatchIsEmailLike(s: string)
    requires IsValidEmail(s)
    ensures EmailLike(s)
  {
    var i, j :| 0 < i && i + 1 < j < |s| - 1 &&
      s[i] == '@' && s[j] == '.' && EmailRun(s[..i]) && EmailRun(s[i + 1..j]) && EmailRun(s[j + 1..]);
    forall k | 0 <= k < |s| ensures !IsSpace(s[k]) && (s[k] == '@' ==> k == i) {
      if k < i {
        assert s[..i][k] == s[k];
      } else if i < k < j {
        assert s[i + 1..j][k - i - 1] == s[k];
      } else if j < k {
        assert s[j + 1..][k - j - 1] == s[k];
      }
    }
    assert OnlyAt(s, i);
  }

  lemma EmailLikeMatches(s: string)
    requires EmailLike(s)
    ensures IsValidEmail(s)
  {
    var i :| 0 < i < |s| && OnlyAt(s, i) && exists j | i + 1 < j < |s| - 1 :: s[j] == '.';
    var j :| i + 1 < j < |s| - 1 && s[j] == '.';
    assert EmailRun(s[..i]);
    assert EmailRun(s[i + 1..j]);
    assert EmailRun(s[j + 1..]);
  }

  /** The email pattern accepts exactly the strings with no white space and a single `@` that has text
      before it and, after it, a `.` with text on both sides. */
  lemma EmailShape(s: string)
    ensures IsValidEmail(s) <==>
      (forall k | 0 <= k < |s| :: !IsSpace(s[k]))
      && exists i | 0 < i < |s| :: OnlyAt(s, i) && exists j | i + 1 < j < |s| - 1 :: s[j] == '.'
  {
    if IsValidEmail(s) {
      EmailMatchIsEmailLike(s);
    }
    if EmailLike(s) {
      EmailLikeMatches(s);
    }
  }

  // ---------------------------------------------------------------------------------------------
  // isValidPassword: /^(?=.*[a-z])(?=.*[A-Z])(?=.*\d)[a-zA-Z\d@$!%*?&]{8,}$/

  /** The ECMAScript line terminators, which `.` does not match. */
  predicate IsLineTerminator(c: char) { c == '\n' || c == '\r' || c == '\U{2028}' || c == '\U{2029}' }

  /** `(?=.*X)` at the start: some character of class X is preceded only by characters `.` matches. */
  predicate LookaheadFinds(p: string, cls: char -> bool) {
    exists k | 0 <= k < |p| :: cls(p[k]) && forall m | 0 <= m < k :: !IsLineTerminator(p[m])
  }

  /** The class `[a-zA-Z\d@$!%*?&]`. */
  predicate PasswordChar(c: char) {
    IsAsciiLower(c) || IsAsciiUpper(c) || IsDigit(c) || c in "@$!%*?&"
  }

  /** The language of the password pattern, lookaheads included. */
  predicate IsValidPassword(p: string) {
    LookaheadFinds(p, IsAsciiLower) && LookaheadFinds(p, IsAsciiUpper) && LookaheadFinds(p, IsDigit)
    && |p| >= 8 && forall k | 0 <= k < |p| :: PasswordChar(p[k])
  }

  /** Since the allowed characters include no line terminator, the lookaheads reduce to "contains": a
      password is valid iff it has at least 8 allowed characters among which a lower-case letter, an
      upper-case letter and a digit. */
  lemma PasswordRule(p: string)
    ensures IsValidPassword(p) <==>
      |p| >= 8 && (forall k | 0 <= k < |p| :: PasswordChar(p[k]))
      && (exists k | 0 <= k < |p| :: IsAsciiLower(p[k]))
      && (exists k | 0 <= k < |p| :: IsAsciiUpper(p[k]))
      && (exists k | 0 <= k < |p| :: IsDigit(p[k]))
  {
    if forall k | 0 <= k < |p| :: PasswordChar(p[k]) {
      forall m | 0 <= m < |p| ensures !IsLineTerminator(p[m]) {
        assert PasswordChar(p[m]);
      }
      if k :| 0 <= k < |p| && IsAsciiLower(p[k]) { assert LookaheadFinds(p, IsAsciiLower); }
      if k :| 0 <= k < |p| && IsAsciiUpper(p[k]) { assert LookaheadFinds(p, IsAsciiUpper); }
      if k :| 0 <= k < |p| && IsDigit(p[k]) { assert LookaheadFinds(p, IsDigit); }
    }
  }

  // ---------------------------------------------------------------------------------------------
  // getAuthUser, requireAuth, withAuth

  datatype Role = JobSeeker | Employer | Admin

  function RoleName(r: Role): string {
    match r
    case JobSeeker => "job_seeker"
    case Employer => "employer"
    case Admin => "admin"
  }

  /** The user a verified token carries. */
  datatype User = User(id: string, email: string, role: Role, isActive: bool)

  /** `getAuthUser`: the `auth-token` cookie, verified; `None` for a missing or empty cookie, a token that
      does not verify, or an inactive user. */
  function GetAuthUser(cookie: Option<string>, verifyToken: string -> Option<User>): (r: Option<User>)
    ensures r.Some? ==> r.value.isActive
    ensures r.Some? <==> (cookie.Some? && cookie.value != "" && verifyToken(cookie.value).Some?
                          && verifyToken(cookie.value).value.isActive)
    ensures r.Some? ==> r == verifyToken(cookie.value)
  {
    if cookie.None? || cookie.value == "" then None
    else
      var user := verifyToken(cookie.value);
      if user.None? || !user.value.isActive then None else user
  }

  /** A JSON error response `{ error }` with its status. */
  datatype Refusal = Refusal(status: int, error: string)

  /** The guards `requireAuth` and `withAuth` make, in order; `Ok(user)` lets the request through. */
  function Authorize(user: Option<User>, allowedRoles: Option<seq<string>>): (r: Result<User, Refusal>)
    ensures r.Ok? <==> (user.Some? && user.value.isActive
                        && (allowedRoles.None? || RoleName(user.value.role) in allowedRoles.value))
    ensures r.Ok? ==> r.value == user.value
    ensures r.Err? ==> r.error in {Refusal(401, "Unauthorized"), Refusal(403, "Account deactivated"),
                                   Refusal(403, "Forbidden")}
    ensures user.None? ==> r == Err(Refusal(401, "Unauthorized"))
  {
    if user.None? then Err(Refusal(401, "Unauthorized"))
    else if !user.value.isActive then Err(Refusal(403, "Account deactivated"))
    else if allowedRoles.Some? && RoleName(user.value.role) !in allowedRoles.value then Err(Refusal(403, "Forbidden"))
    else Ok(user.value)
  }

  /** `requireAuth(allowedRoles)` applied to a request: the user, or the refusal. */
  function RequireAuth(cookie: Option<string>, verifyToken: string -> Option<User>,
                       allowedRoles: Option<seq<string>>): (r: Result<User, Refusal>)
    ensures cookie.None? || cookie.value == "" ==> r == Err(Refusal(401, "Unauthorized"))
    ensures r.Ok? ==> cookie.Some? && verifyToken(cookie.value) == Some(r.value) && r.value.isActive
    ensures r.Ok? ==> allowedRoles.None? || RoleName(r.value.role) in allowedRoles.value
  {
    Authorize(GetAuthUser(cookie, verifyToken), allowedRoles)
  }

  /** `withAuth(handler, allowedRoles)` applied to a request: the handler's response for an admitted user
      (the request now carrying `user`), the refusal otherwise. */
  function WithAuth<R>(cookie: Option<string>, verifyToken: string -> Option<User>,
                       allowedRoles: Option<seq<string>>, handler: User -> R): (r: Result<R, Refusal>)
    ensures r.Ok? <==> RequireAuth(cookie, verifyToken, allowedRoles).Ok?
    ensures r.Ok? ==> r.value == handler(RequireAuth(cookie, verifyToken, allowedRoles).value)
    ensures r.Err? ==> r.error == RequireAuth(cookie, verifyToken, allowedRoles).error
  {
    match Authorize(GetAuthUser(cookie, verifyToken), allowedRoles)
    case Ok(user) => Ok(handler(user))
    case Err(refusal) => Err(refusal)
  }

  /** The "Account deactivated" branch is dead: `getAuthUser` already turns inactive users away, so they
      get 401. */
  lemma DeactivatedIsUnreachable(cookie: Option<string>, verifyToken: string -> Option<User>,
                                 allowedRoles: Option<seq<string>>)
    ensures RequireAuth(cookie, verifyToken, allowedRoles) != Err(Refusal(403, "Account deactivated"))
    ensures cookie.Some? && verifyToken(cookie.value).Some? && !verifyToken(cookie.value).value.isActive ==>
      RequireAuth(cookie, verifyToken, allowedRoles) == Err(Refusal(401, "Unauthorized"))
  {
  }

  /** Without `allowedRoles` every active, authenticated user is admitted, whatever the role; an empty
      list (truthy in JavaScript) admits nobody. */
  lemma RolesOmittedAdmitsActive(cookie: Option<string>, verifyToken: string -> Option<User>)
    ensures RequireAuth(cookie, verifyToken, None).Ok? <==> GetAuthUser(cookie, verifyToken).Some?
    ensures !RequireAuth(cookie, verifyToken, Some([])).Ok?
  {
  }
}
