/**
 * `EmailOrUsernameModelBackend.authenticate`: sign-in with either the username
 * or the email address. Password checking and the backend's eligibility hook
 * belong to the framework and are parameters here.
 */
module Backends {
  import opened Wrappers
  import opened Orm
  import opened Models

  /** `USERNAME_FIELD` of the framework's stock user model. */
  const UsernameField: string := "username"

  /** The identifier used for the lookup: `username`, or else the keyword named by `USERNAME_FIELD`. */
  function Identifier(username: Option<string>, kwargs: map<string, string>): Option<string>
  {
    if username.Some? then username
    else if UsernameField in kwargs then Some(kwargs[UsernameField])
    else None
  }

  /** Does `u` match `ident` by username or by email, ignoring case? */
  predicate MatchesIdentifier(u: User, ident: string)
  {
    IExact(u.username, ident) || IExact(u.email, ident)
  }

  /**
   * The rows selected by `Q(username__iexact=ident) | Q(email__iexact=ident)`.
   * With no identifier the lookup compares with NULL, and neither column is ever NULL.
   */
  function Candidates(users: map<UserId, User>, ident: Option<string>): set<UserId>
  {
    if ident.None? then {} else set u | u in users && MatchesIdentifier(users[u], ident.value)
  }

  /**
   * `user_can_authenticate` as `EmailOrUsernameModelBackend` inherits it from
   * the framework's `ModelBackend`: only active users may authenticate.
   */
  predicate InheritedCanAuthenticate(u: User)
  {
    u.isActive
  }

  /** The eligibility check of the framework's `AllowAllUsersModelBackend`: every user may authenticate. */
  predicate AllowAllUsers(u: User)
  {
    true
  }

  /** The backend's answer: a user, `None`, or the uncaught error of an ambiguous lookup. */
  datatype AuthResult = Authenticated(uid: UserId) | NoUser | LookupError

  /**
   * `authenticate(request, username, password, **kwargs)`. `checkPassword` is
   * `User.check_password` and `canAuthenticate` is `user_can_authenticate`.
   */
  function Authenticate(
    users: map<UserId, User>,
    username: Option<string>,
    password: Option<string>,
    kwargs: map<string, string>,
    checkPassword: (User, Option<string>) -> bool,
    canAuthenticate: User -> bool): (r: AuthResult)
    ensures var ident := Identifier(username, kwargs);
      var c := Candidates(users, ident);
      (r.Authenticated? ==>
        r.uid in users && c == {r.uid}
        && ident.Some? && MatchesIdentifier(users[r.uid], ident.value)
        && checkPassword(users[r.uid], password) && canAuthenticate(users[r.uid]))
      && (r.LookupError? <==> |c| > 1)
      && (c == {} ==> r == NoUser)
      && (|c| == 1 ==> forall u :: u in c ==>
            (r.Authenticated? <==> checkPassword(users[u], password) && canAuthenticate(users[u])))
  {
    var ident := Identifier(username, kwargs);
    match Get(Candidates(users, ident))
    case DoesNotExist => NoUser
    case MultipleObjectsReturned => LookupError
    case Got(uid) =>
      if checkPassword(users[uid], password) && canAuthenticate(users[uid]) then Authenticated(uid) else NoUser
  }

  /**
   * One user's username equal to another user's email (up to case) makes the
   * lookup fail: neither user is picked.
   */
  lemma CollisionFailsClosed(
    users: map<UserId, User>, ident: string, a: UserId, b: UserId,
    password: Option<string>, kwargs: map<string, string>,
    checkPassword: (User, Option<string>) -> bool, canAuthenticate: User -> bool)
    requires a in users && b in users && a != b
    requires IExact(users[a].username, ident) && IExact(users[b].email, ident)
    ensures Authenticate(users, Some(ident), password, kwargs, checkPassword, canAuthenticate) == LookupError
  {
  }

  /** An unknown identifier and a wrong password give the same answer, so a caller cannot tell which it was. */
  lemma FailureCauseIsHidden(
    users: map<UserId, User>, unknown: string, known: UserId, password: Option<string>, guess: Option<string>,
    checkPassword: (User, Option<string>) -> bool, canAuthenticate: User -> bool)
    requires known in users && Candidates(users, Some(unknown)) == {}
    requires Candidates(users, Some(users[known].username)) == {known}
    requires !checkPassword(users[known], guess)
    ensures Authenticate(users, Some(unknown), password, map[], checkPassword, canAuthenticate)
         == Authenticate(users, Some(users[known].username), guess, map[], checkPassword, canAuthenticate)
  {
  }

  /** Identifiers equal up to letter case select the same users. */
  lemma CandidatesIgnoreCase(users: map<UserId, User>, a: string, b: string)
    requires IExact(a, b)
    ensures Candidates(users, Some(a)) == Candidates(users, Some(b))
  {
  }

  /** Authentication does not depend on the identifier's letter case. */
  lemma AuthenticateIgnoresCase(
    users: map<UserId, User>, a: string, b: string, password: Option<string>,
    checkPassword: (User, Option<string>) -> bool, canAuthenticate: User -> bool)
    requires IExact(a, b)
    ensures Authenticate(users, Some(a), password, map[], checkPassword, canAuthenticate)
         == Authenticate(users, Some(b), password, map[], checkPassword, canAuthenticate)
  {
    CandidatesIgnoreCase(users, a, b);
  }

  /** Without `username`, the keyword named by `USERNAME_FIELD` is used in its place. */
  lemma KeywordSuppliesIdentifier(
    users: map<UserId, User>, ident: string, password: Option<string>, kwargs: map<string, string>,
    checkPassword: (User, Option<string>) -> bool, canAuthenticate: User -> bool)
    ensures Authenticate(users, None, password, kwargs[UsernameField := ident], checkPassword, canAuthenticate)
         == Authenticate(users, Some(ident), password, map[], checkPassword, canAuthenticate)
  {
  }

  /** With neither `username` nor the keyword, no user is found. */
  lemma MissingIdentifierFindsNoUser(
    users: map<UserId, User>, password: Option<string>, kwargs: map<string, string>,
    checkPassword: (User, Option<string>) -> bool, canAuthenticate: User -> bool)
    requires UsernameField !in kwargs
    ensures Authenticate(users, None, password, kwargs, checkPassword, canAuthenticate) == NoUser
  {
  }
}
