/**
 * The account tables as one value and the state changes the views and the
 * profile signals make to them, each as a function from the old tables to the
 * new ones. The class in views.dfy performs the same changes step by step and
 * is proved to end in the state these functions give.
 */
module Store {
  import opened Wrappers
  import opened Orm
  import opened Models

  /**
   * The user, profile and verification-token tables. Profiles and tokens are
   * keyed by their owning user, which is the one-to-one constraint on
   * `UserProfile.user` and `EmailVerificationToken.user`: a user has at most
   * one of each.
   */
  datatype Db = Db(
    users: map<UserId, User>,
    profiles: map<UserId, Profile>,
    tokens: map<UserId, VerificationToken>)

  /** Foreign keys point at existing users, and no two tokens share a value. */
  ghost predicate WellFormed(db: Db)
  {
    db.profiles.Keys <= db.users.Keys
    && db.tokens.Keys <= db.users.Keys
    && forall u, v :: u in db.tokens && v in db.tokens && db.tokens[u].token == db.tokens[v].token ==> u == v
  }

  /** `value` is the value of no stored token, as a newly generated one is. */
  ghost predicate IsFreshValue(db: Db, value: TokenValue)
  {
    forall u :: u in db.tokens ==> db.tokens[u].token != value
  }

  // ---------------------------------------------------------------------
  // Saving a user and the profile signals
  // ---------------------------------------------------------------------

  /** Receiver `create_user_profile`: when the user row was just created, insert a default profile. */
  function CreateUserProfile(db: Db, uid: UserId, created: bool): Db
  {
    if created then db.(profiles := db.profiles[uid := NewProfile()]) else db
  }

  /** Receiver `save_user_profile`: re-save the profile, or create it when the user has none. */
  function SaveUserProfile(db: Db, uid: UserId): Db
  {
    if uid in db.profiles then db else db.(profiles := db.profiles[uid := NewProfile()])
  }

  /**
   * `user.save()`: write the row, then run the post_save receivers in the
   * order they are registered. `created` tells whether the row was inserted.
   */
  function SaveUser(db: Db, uid: UserId, u: User, created: bool): (r: Db)
    ensures r.users == db.users[uid := u] && r.tokens == db.tokens
    ensures uid in r.profiles && r.profiles.Keys == db.profiles.Keys + {uid}
    ensures forall v :: v in db.profiles && v != uid ==> r.profiles[v] == db.profiles[v]
    ensures created || uid !in db.profiles ==> r.profiles[uid] == NewProfile()
    ensures !created && uid in db.profiles ==> r.profiles[uid] == db.profiles[uid]
    ensures WellFormed(db) ==> WellFormed(r)
  {
    SaveUserProfile(CreateUserProfile(db.(users := db.users[uid := u]), uid, created), uid)
  }

  /** When every user had exactly one profile before a save, the same holds after it. */
  lemma SaveKeepsEveryUserProfiled(db: Db, uid: UserId, u: User, created: bool)
    requires db.users.Keys == db.profiles.Keys
    ensures var r := SaveUser(db, uid, u, created); r.users.Keys == r.profiles.Keys
  {
  }

  // ---------------------------------------------------------------------
  // Verification tokens
  // ---------------------------------------------------------------------

  /**
   * `send_verification_email`: delete the user's token, create a new one
   * with value `value` at `now`, then send the mail. `mailOk` is whether the
   * mail was sent. A failure anywhere is caught and reported as `false`;
   * a user that is not stored makes the token insert fail, and nothing changes.
   */
  function SendVerificationEmail(db: Db, uid: UserId, value: TokenValue, now: Time, mailOk: bool): (r: (Db, bool))
    ensures r.0.users == db.users && r.0.profiles == db.profiles
    ensures uid !in db.users ==> r == (db, false)
    ensures uid in db.users ==> r.1 == mailOk
    ensures uid in db.users ==> r.0.tokens.Keys == db.tokens.Keys + {uid} && r.0.tokens[uid] == NewToken(value, now)
    ensures forall v :: v in db.tokens && v != uid ==> v in r.0.tokens && r.0.tokens[v] == db.tokens[v]
    ensures WellFormed(db) && IsFreshValue(db, value) ==> WellFormed(r.0)
  {
    if uid !in db.users then (db, false)
    else
      var cleared := db.tokens - {uid};
      (db.(tokens := cleared[uid := NewToken(value, now)]), mailOk)
  }

  /** The users whose token has value `value`: the filter of `EmailVerificationToken.objects.get(token=...)`. */
  function TokensWithValue(tokens: map<UserId, VerificationToken>, value: TokenValue): set<UserId>
  {
    set u | u in tokens && tokens[u].token == value
  }

  /** In well-formed tables the holder of a token is the only user whose token has its value. */
  lemma TokenOwnerIsUnique(db: Db, owner: UserId)
    requires WellFormed(db) && owner in db.tokens
    ensures TokensWithValue(db.tokens, db.tokens[owner].token) == {owner}
  {
  }

  /** What `verify_email` renders: the success page, the invalid-link page, or an uncaught error. */
  datatype VerifyOutcome = Verified | InvalidLink | ServerError

  /**
   * `verify_email`: look the token up by value. A missing or expired token
   * renders the invalid-link page and changes nothing. A valid one activates
   * its user (whose save also restores a missing profile), marks the profile
   * verified and deletes the token.
   */
  function VerifyEmail(db: Db, value: TokenValue, now: Time): (r: (Db, VerifyOutcome))
    requires db.tokens.Keys <= db.users.Keys
    ensures r.1 != Verified ==> r.0 == db
    ensures r.1 == ServerError <==> |TokensWithValue(db.tokens, value)| > 1
    ensures r.1 == Verified ==> |TokensWithValue(db.tokens, value)| == 1
    ensures r.1 == Verified ==> forall o :: o in TokensWithValue(db.tokens, value) ==>
      IsValid(db.tokens[o], now)
      && r.0.users == db.users[o := db.users[o].(isActive := true)]
      && r.0.tokens == db.tokens - {o}
      && r.0.profiles.Keys == db.profiles.Keys + {o}
      && r.0.profiles[o] == (if o in db.profiles then db.profiles[o] else NewProfile()).(verified := true)
      && (forall v :: v in db.profiles && v != o ==> r.0.profiles[v] == db.profiles[v])
  {
    match Get(TokensWithValue(db.tokens, value))
    case DoesNotExist => (db, InvalidLink)
    case MultipleObjectsReturned => (db, ServerError)
    case Got(owner) =>
      if !IsValid(db.tokens[owner], now) then (db, InvalidLink)
      else
        var activated := SaveUser(db, owner, db.users[owner].(isActive := true), false);
        var marked := activated.(profiles := activated.profiles[owner := activated.profiles[owner].(verified := true)]);
        (marked.(tokens := marked.tokens - {owner}), Verified)
  }

  /** A stored token that is still valid verifies. */
  lemma LiveTokenVerifies(db: Db, owner: UserId, now: Time)
    requires WellFormed(db) && owner in db.tokens && IsValid(db.tokens[owner], now)
    ensures VerifyEmail(db, db.tokens[owner].token, now).1 == Verified
  {
    TokenOwnerIsUnique(db, owner);
  }

  /** An expired token gives the invalid-link page, and is not deleted. */
  lemma ExpiredTokenIsKept(db: Db, owner: UserId, now: Time)
    requires WellFormed(db) && owner in db.tokens && !IsValid(db.tokens[owner], now)
    ensures VerifyEmail(db, db.tokens[owner].token, now) == (db, InvalidLink)
  {
    TokenOwnerIsUnique(db, owner);
  }

  /** An unknown token gives the same invalid-link page and changes nothing. */
  lemma UnknownTokenIsRejected(db: Db, value: TokenValue, now: Time)
    requires db.tokens.Keys <= db.users.Keys && IsFreshValue(db, value)
    ensures VerifyEmail(db, value, now) == (db, InvalidLink)
  {
    assert TokensWithValue(db.tokens, value) == {};
  }

  /** Verification keeps the tables well formed. */
  lemma VerifyKeepsWellFormed(db: Db, value: TokenValue, now: Time)
    requires WellFormed(db)
    ensures WellFormed(VerifyEmail(db, value, now).0)
  {
  }

  /** A verified link is used up: the same value then gives the invalid-link page, at any later time. */
  lemma VerifiedLinkIsSpent(db: Db, value: TokenValue, now: Time, later: Time)
    requires WellFormed(db) && VerifyEmail(db, value, now).1 == Verified
    ensures var db' := VerifyEmail(db, value, now).0;
      VerifyEmail(db', value, later) == (db', InvalidLink)
  {
  }

  /** Issuing a new token supersedes the old one: the old link no longer verifies. */
  lemma ReissueSupersedesOldLink(db: Db, uid: UserId, value: TokenValue, now: Time, mailOk: bool, later: Time)
    requires WellFormed(db) && uid in db.tokens && IsFreshValue(db, value)
    ensures var db' := SendVerificationEmail(db, uid, value, now, mailOk).0;
      VerifyEmail(db', db.tokens[uid].token, later) == (db', InvalidLink)
  {
  }

  // ---------------------------------------------------------------------
  // Registration
  // ---------------------------------------------------------------------

  /** The cleaned fields of a valid registration form. */
  datatype RegistrationForm = RegistrationForm(username: string, email: string)

  /** What `register_view` answers: the form again, or a redirect to the verification-sent page. */
  datatype RegisterOutcome = ShowForm | RedirectVerificationSent

  /**
   * `register_view`. `form` is `None` when the request is not a POST or the
   * form does not validate. `passwordHash` is what `set_password` stores,
   * `uid` the new row's key and `value` the new token's value.
   */
  function Register(db: Db, form: Option<RegistrationForm>, passwordHash: string, uid: UserId, value: TokenValue, now: Time, mailOk: bool): (r: (Db, RegisterOutcome))
    requires uid !in db.users
    ensures form.None? ==> r == (db, ShowForm)
    ensures form.Some? ==> r.1 == RedirectVerificationSent
    ensures form.Some? ==> r.0.users == db.users[uid := User(form.value.username, form.value.email, passwordHash, false)]
    ensures form.Some? ==> r.0.profiles == db.profiles[uid := NewProfile()]
    ensures form.Some? ==> r.0.tokens == (db.tokens - {uid})[uid := NewToken(value, now)]
    ensures WellFormed(db) && IsFreshValue(db, value) ==> WellFormed(r.0)
  {
    if form.None? then (db, ShowForm)
    else
      var newUser := User(form.value.username, form.value.email, passwordHash, false);
      var saved := SaveUser(db, uid, newUser, true);
      (SendVerificationEmail(saved, uid, value, now, mailOk).0, RedirectVerificationSent)
  }

  /** A failed mail changes nothing about registration: same tables, same redirect. */
  lemma MailFailureKeepsRegistration(db: Db, form: Option<RegistrationForm>, passwordHash: string, uid: UserId, value: TokenValue, now: Time)
    requires uid !in db.users
    ensures Register(db, form, passwordHash, uid, value, now, false) == Register(db, form, passwordHash, uid, value, now, true)
  {
  }

  /**
   * The registration scenario end to end: a new user is stored inactive with
   * an unverified profile and one token; following the link within 24 hours
   * activates the user, verifies the profile and removes the token; following
   * it again gives the invalid-link page.
   */
  lemma RegisterThenVerify(db: Db, form: RegistrationForm, passwordHash: string, uid: UserId, value: TokenValue, now: Time, mailOk: bool, later: Time, again: Time)
    requires WellFormed(db) && uid !in db.users && IsFreshValue(db, value)
    requires now <= later <= now + TokenLifetime
    ensures var registered := Register(db, Some(form), passwordHash, uid, value, now, mailOk).0;
      WellFormed(registered)
      && !registered.users[uid].isActive && !registered.profiles[uid].verified
      && TokensWithValue(registered.tokens, value) == {uid}
      && var (verified, outcome) := VerifyEmail(registered, value, later);
      outcome == Verified
      && verified.users[uid].isActive && verified.profiles[uid].verified && uid !in verified.tokens
      && VerifyEmail(verified, value, again) == (verified, InvalidLink)
  {
    var saved := SaveUser(db, uid, User(form.username, form.email, passwordHash, false), true);
    assert uid !in saved.tokens;
    assert IsFreshValue(saved, value);
    var registered := Register(db, Some(form), passwordHash, uid, value, now, mailOk).0;
    assert WellFormed(registered);
    TokenOwnerIsUnique(registered, uid);
    LiveTokenVerifies(registered, uid, later);
    VerifiedLinkIsSpent(registered, value, later, again);
  }

  // ---------------------------------------------------------------------
  // Favourite and saved items
  // ---------------------------------------------------------------------

  /** The three catalogs whose items a profile can save. */
  datatype Catalog = Products | Prompts | Templates

  function SavedIn(p: Profile, c: Catalog): set<ItemId>
  {
    match c
    case Products => p.favouriteProducts
    case Prompts => p.savedPrompts
    case Templates => p.savedTemplates
  }

  /** The profile with its set for catalog `c` replaced by `s` and every other field as it was. */
  function WithSaved(p: Profile, c: Catalog, s: set<ItemId>): (q: Profile)
    ensures SavedIn(q, c) == s
    ensures forall d :: d != c ==> SavedIn(q, d) == SavedIn(p, d)
    ensures q.(favouriteProducts := p.favouriteProducts, savedPrompts := p.savedPrompts, savedTemplates := p.savedTemplates) == p
    ensures s == SavedIn(p, c) ==> q == p
  {
    match c
    case Products => p.(favouriteProducts := s)
    case Prompts => p.(savedPrompts := s)
    case Templates => p.(savedTemplates := s)
  }

  /** Remove `x` if present, add it otherwise. */
  function Flip(s: set<ItemId>, x: ItemId): (r: set<ItemId>)
    ensures x in r <==> x !in s
    ensures forall y :: y != x ==> (y in r <==> y in s)
  {
    if x in s then s - {x} else s + {x}
  }

  /** What a toggle view reports: the item does not exist, the user has no profile, or the new membership. */
  datatype ToggleOutcome = ItemNotFound | ProfileMissing | Toggled(nowSaved: bool)

  /**
   * The logic shared by the three toggle views. `item` is the catalog lookup's
   * result (`None` answers 404). Reading `request.user.profile` fails when the
   * user has no profile.
   */
  function ToggleSaved(db: Db, uid: UserId, c: Catalog, item: Option<ItemId>): (r: (Db, ToggleOutcome))
    ensures !r.1.Toggled? ==> r.0 == db
    ensures item.None? ==> r.1 == ItemNotFound
    ensures item.Some? && uid !in db.profiles ==> r.1 == ProfileMissing
    ensures item.Some? && uid in db.profiles ==>
      r.0.users == db.users && r.0.tokens == db.tokens
      && r.0.profiles.Keys == db.profiles.Keys
      && (forall v :: v in db.profiles && v != uid ==> r.0.profiles[v] == db.profiles[v])
      && r.0.profiles[uid] == WithSaved(db.profiles[uid], c, Flip(SavedIn(db.profiles[uid], c), item.value))
      && r.1 == Toggled(item.value in SavedIn(r.0.profiles[uid], c))
      && r.1.nowSaved == (item.value !in SavedIn(db.profiles[uid], c))
  {
    if item.None? then (db, ItemNotFound)
    else if uid !in db.profiles then (db, ProfileMissing)
    else
      var p := db.profiles[uid];
      var s := SavedIn(p, c);
      if item.value in s then
        (db.(profiles := db.profiles[uid := WithSaved(p, c, s - {item.value})]), Toggled(false))
      else
        (db.(profiles := db.profiles[uid := WithSaved(p, c, s + {item.value})]), Toggled(true))
  }

  /** Toggling the same item twice restores the tables, and the two reports are opposite. */
  lemma ToggleTwiceRestores(db: Db, uid: UserId, c: Catalog, item: ItemId)
    ensures var (once, first) := ToggleSaved(db, uid, c, Some(item));
      var (twice, second) := ToggleSaved(once, uid, c, Some(item));
      twice == db
      && (first.Toggled? <==> second.Toggled?)
      && (first.Toggled? ==> first.nowSaved != second.nowSaved)
  {
    if uid in db.profiles {
      var p := db.profiles[uid];
      var once := ToggleSaved(db, uid, c, Some(item)).0;
      var q := once.profiles[uid];
      var twice := ToggleSaved(once, uid, c, Some(item)).0;
      assert Flip(Flip(SavedIn(p, c), item), item) == SavedIn(p, c);
      assert twice.profiles[uid] == p;
      assert twice.profiles == db.profiles;
    }
  }

  /** Toggles keep the tables well formed. */
  lemma ToggleKeepsWellFormed(db: Db, uid: UserId, c: Catalog, item: Option<ItemId>)
    requires WellFormed(db)
    ensures WellFormed(ToggleSaved(db, uid, c, item).0)
  {
  }
}
