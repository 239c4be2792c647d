/**
 * The request handlers of the accounts app. The handlers that change state
 * are methods of `AccountStore`, which holds the user, profile and token
 * tables and updates them step by step as the handlers and the profile
 * signals do; each method is proved to end in the state the matching
 * function of `Store` gives. Login and the dashboard only read.
 */
module Views {
  import opened Wrappers
  import opened Orm
  import opened Models
  import Store
  import Backends
  import Listings

  /** A toggle view's answer: 404, an uncaught error, or the JSON payload. */
  datatype Response<T> = NotFound | ServerError | Ok(body: T)

  /** The `status` reported by the prompt and template toggles. */
  datatype SaveStatus = Saved | Removed

  /** The answer of a toggle view for a given shared toggle outcome. */
  function Report<T>(t: Store.ToggleOutcome, body: bool -> T): Response<T>
  {
    match t
    case ItemNotFound => NotFound
    case ProfileMissing => ServerError
    case Toggled(b) => Ok(body(b))
  }

  function StatusOf(nowSaved: bool): SaveStatus
  {
    if nowSaved then Saved else Removed
  }

  class AccountStore {
    var users: map<UserId, User>
    var profiles: map<UserId, Profile>
    var tokens: map<UserId, VerificationToken>
    /** Next primary key for a user row. */
    var nextUserId: nat
    /** Source of token values; a value is never handed out twice, as for the random identifiers. */
    var nextTokenValue: nat

    function Tables(): Store.Db
      reads this
    {
      Store.Db(users, profiles, tokens)
    }

    ghost predicate Valid()
      reads this
    {
      Store.WellFormed(Tables())
      && (forall u :: u in users ==> u < nextUserId)
      && (forall u :: u in tokens ==> tokens[u].token < nextTokenValue)
    }

    constructor ()
      ensures Valid() && Tables() == Store.Db(map[], map[], map[])
      ensures nextUserId == 0 && nextTokenValue == 0
    {
      users, profiles, tokens := map[], map[], map[];
      nextUserId, nextTokenValue := 0, 0;
    }

    /** Receiver `create_user_profile`. */
    method CreateUserProfile(uid: UserId, created: bool)
      requires Valid() && uid in users
      modifies this`profiles
      ensures Valid()
      ensures Tables() == Store.CreateUserProfile(old(Tables()), uid, created)
    {
      if created {
        profiles := profiles[uid := NewProfile()];
      }
    }

    /** Receiver `save_user_profile`. */
    method SaveUserProfile(uid: UserId)
      requires Valid() && uid in users
      modifies this`profiles
      ensures Valid()
      ensures Tables() == Store.SaveUserProfile(old(Tables()), uid)
    {
      if uid !in profiles {
        profiles := profiles[uid := NewProfile()];
      }
    }

    /** `save()` of a user not yet stored: insert it under a fresh key, then run the receivers. */
    method InsertUser(u: User) returns (uid: UserId)
      requires Valid()
      modifies this
      ensures Valid()
      ensures uid == old(nextUserId) && uid !in old(users) && nextUserId == old(nextUserId) + 1
      ensures Tables() == Store.SaveUser(old(Tables()), uid, u, true)
      ensures nextTokenValue == old(nextTokenValue)
    {
      uid := nextUserId;
      nextUserId := nextUserId + 1;
      users := users[uid := u];
      CreateUserProfile(uid, true);
      SaveUserProfile(uid);
    }

    /** `save()` of a stored user: write the row, then run the receivers. */
    method UpdateUser(uid: UserId, u: User)
      requires Valid() && uid in users
      modifies this
      ensures Valid()
      ensures Tables() == Store.SaveUser(old(Tables()), uid, u, false)
      ensures nextUserId == old(nextUserId) && nextTokenValue == old(nextTokenValue)
    {
      users := users[uid := u];
      CreateUserProfile(uid, false);
      SaveUserProfile(uid);
    }

    /** `send_verification_email`; `mailOk` is whether the mail went out. */
    method SendVerificationEmail(uid: UserId, now: Time, mailOk: bool) returns (sent: bool)
      requires Valid()
      modifies this
      ensures Valid()
      ensures Store.IsFreshValue(old(Tables()), old(nextTokenValue))
      ensures (Tables(), sent) == Store.SendVerificationEmail(old(Tables()), uid, old(nextTokenValue), now, mailOk)
      ensures nextUserId == old(nextUserId)
      ensures nextTokenValue == if uid in old(users) then old(nextTokenValue) + 1 else old(nextTokenValue)
    {
      if uid !in users {
        sent := false;
        return;
      }
      tokens := tokens - {uid};
      var value := nextTokenValue;
      nextTokenValue := nextTokenValue + 1;
      tokens := tokens[uid := NewToken(value, now)];
      sent := mailOk;
    }

    /** `register_view`; `form` is `None` unless the request posts a valid form. */
    method Register(form: Option<Store.RegistrationForm>, passwordHash: string, now: Time, mailOk: bool)
      returns (outcome: Store.RegisterOutcome, ghost stored: Store.Db)
      requires Valid()
      modifies this
      ensures Valid()
      ensures (Tables(), outcome) == Store.Register(old(Tables()), form, passwordHash, old(nextUserId), old(nextTokenValue), now, mailOk)
      ensures form.None? ==> nextUserId == old(nextUserId) && nextTokenValue == old(nextTokenValue)
      ensures form.Some? ==> nextUserId == old(nextUserId) + 1 && nextTokenValue == old(nextTokenValue) + 1
      // `stored` is the tables between saving the user and the mail step: the user is already there, inactive.
      ensures form.Some? ==>
                old(nextUserId) in stored.users && !stored.users[old(nextUserId)].isActive
                && Tables() == Store.SendVerificationEmail(stored, old(nextUserId), old(nextTokenValue), now, mailOk).0
    {
      stored := Tables();
      if form.None? {
        return Store.ShowForm, stored;
      }
      var newUser := User(form.value.username, form.value.email, passwordHash, false);
      var uid := InsertUser(newUser);
      stored := Tables();
      var _ := SendVerificationEmail(uid, now, mailOk);
      outcome := Store.RedirectVerificationSent;
    }

    /** `verify_email`. */
    method VerifyEmail(value: TokenValue, now: Time) returns (outcome: Store.VerifyOutcome)
      requires Valid()
      modifies this
      ensures Valid()
      ensures (Tables(), outcome) == Store.VerifyEmail(old(Tables()), value, now)
      ensures nextUserId == old(nextUserId) && nextTokenValue == old(nextTokenValue)
    {
      var found := Get(Store.TokensWithValue(tokens, value));
      match found
      case DoesNotExist =>
        outcome := Store.InvalidLink;
      case MultipleObjectsReturned =>
        outcome := Store.ServerError;
      case Got(owner) =>
        if IsValid(tokens[owner], now) {
          UpdateUser(owner, users[owner].(isActive := true));
          profiles := profiles[owner := profiles[owner].(verified := true)];
          tokens := tokens - {owner};
          outcome := Store.Verified;
        } else {
          outcome := Store.InvalidLink;
        }
    }

    /** `add_favourite_product`: toggle the product with slug `slug` and report `is_favourite`. */
    method AddFavouriteProduct(uid: UserId, slug: string, productsBySlug: map<string, ItemId>) returns (r: Response<bool>)
      requires Valid()
      modifies this`profiles
      ensures Valid()
      ensures var item := if slug in productsBySlug then Some(productsBySlug[slug]) else None;
        var (db, t) := Store.ToggleSaved(old(Tables()), uid, Store.Products, item);
        Tables() == db && r == Report(t, b => b)
    {
      if slug !in productsBySlug {
        return NotFound;
      }
      var product := productsBySlug[slug];
      if uid !in profiles {
        return ServerError;
      }
      var profile := profiles[uid];
      var isFavourite: bool;
      if product in profile.favouriteProducts {
        profiles := profiles[uid := profile.(favouriteProducts := profile.favouriteProducts - {product})];
        isFavourite := false;
      } else {
        profiles := profiles[uid := profile.(favouriteProducts := profile.favouriteProducts + {product})];
        isFavourite := true;
      }
      r := Ok(isFavourite);
    }

    /** `add_favourite_prompt`: toggle the prompt with id `promptId` and report "saved" or "removed". */
    method AddFavouritePrompt(uid: UserId, promptId: ItemId, prompts: set<ItemId>) returns (r: Response<SaveStatus>)
      requires Valid()
      modifies this`profiles
      ensures Valid()
      ensures var item := if promptId in prompts then Some(promptId) else None;
        var (db, t) := Store.ToggleSaved(old(Tables()), uid, Store.Prompts, item);
        Tables() == db && r == Report(t, StatusOf)
    {
      if promptId !in prompts {
        return NotFound;
      }
      if uid !in profiles {
        return ServerError;
      }
      var profile := profiles[uid];
      var status: SaveStatus;
      if promptId in profile.savedPrompts {
        profiles := profiles[uid := profile.(savedPrompts := profile.savedPrompts - {promptId})];
        status := Removed;
      } else {
        profiles := profiles[uid := profile.(savedPrompts := profile.savedPrompts + {promptId})];
        status := Saved;
      }
      r := Ok(status);
    }

    /** `add_favourite_template`: toggle the template with slug `slug` and report "saved" or "removed". */
    method AddFavouriteTemplate(uid: UserId, slug: string, templatesBySlug: map<string, ItemId>) returns (r: Response<SaveStatus>)
      requires Valid()
      modifies this`profiles
      ensures Valid()
      ensures var item := if slug in templatesBySlug then Some(templatesBySlug[slug]) else None;
        var (db, t) := Store.ToggleSaved(old(Tables()), uid, Store.Templates, item);
        Tables() == db && r == Report(t, StatusOf)
    {
      if slug !in templatesBySlug {
        return NotFound;
      }
      var template := templatesBySlug[slug];
      if uid !in profiles {
        return ServerError;
      }
      var profile := profiles[uid];
      var status: SaveStatus;
      if template in profile.savedTemplates {
        profiles := profiles[uid := profile.(savedTemplates := profile.savedTemplates - {template})];
        status := Removed;
      } else {
        profiles := profiles[uid := profile.(savedTemplates := profile.savedTemplates + {template})];
        status := Saved;
      }
      r := Ok(status);
    }
  }

  /** What `login_view` does with a posted form. */
  datatype LoginOutcome = LoggedIn(uid: UserId) | NotActivated | InvalidCredentials | LoginError

  /**
   * `login_view` on a POST: authenticate with the posted username and
   * password, then log in only an active user.
   */
  function LoginView(
    users: map<UserId, User>, username: Option<string>, password: Option<string>,
    checkPassword: (User, Option<string>) -> bool, canAuthenticate: User -> bool): (r: LoginOutcome)
    ensures r.LoggedIn? ==>
              r.uid in users && users[r.uid].isActive
              && checkPassword(users[r.uid], password) && canAuthenticate(users[r.uid])
              && username.Some? && Backends.MatchesIdentifier(users[r.uid], username.value)
    ensures r.NotActivated? ==> exists u :: u in users && !users[u].isActive && checkPassword(users[u], password)
    ensures r.LoginError? <==> |Backends.Candidates(users, username)| > 1
    ensures var c := Backends.Candidates(users, username);
      (r == NotActivated <==>
         |c| == 1 && forall u :: u in c ==>
           checkPassword(users[u], password) && canAuthenticate(users[u]) && !users[u].isActive)
      && (c == {} ==> r == InvalidCredentials)
    ensures |Backends.Candidates(users, username)| == 1 ==>
              forall u :: u in Backends.Candidates(users, username) ==>
                (r == LoggedIn(u) <==> checkPassword(users[u], password) && canAuthenticate(users[u]) && users[u].isActive)
  {
    match Backends.Authenticate(users, username, password, map[], checkPassword, canAuthenticate)
    case LookupError => LoginError
    case NoUser => InvalidCredentials
    case Authenticated(uid) => if users[uid].isActive then LoggedIn(uid) else NotActivated
  }

  /**
   * When the eligibility check turns inactive users away, as the inherited one
   * does, the "account not activated" answer never occurs.
   */
  lemma InactiveUsersSeeInvalidCredentials(
    users: map<UserId, User>, username: Option<string>, password: Option<string>,
    checkPassword: (User, Option<string>) -> bool, canAuthenticate: User -> bool)
    requires forall u: User :: canAuthenticate(u) ==> u.isActive
    ensures LoginView(users, username, password, checkPassword, canAuthenticate) != NotActivated
  {
  }

  /** The account registered in the example below, before its email is verified. */
  function Alice(): User
  {
    User("alice", "alice@example.com", "P@ssw0rd1", false)
  }

  /** A password check that accepts exactly the stored password. */
  function StoredPassword(u: User, password: Option<string>): bool
  {
    password == Some(u.password)
  }

  lemma AliceIsTheOnlyCandidate(users: map<UserId, User>)
    requires users == map[0 := Alice()]
    ensures Backends.Candidates(users, Some("alice")) == {0}
  {
    assert Backends.MatchesIdentifier(users[0], "alice");
  }

  /**
   * As written: a registered user who has not verified yet and logs in with
   * the right password is told "Invalid username or password", because the
   * inherited eligibility check already rejected the inactive user.
   */
  lemma UnverifiedLoginIsReportedAsInvalid()
    ensures LoginView(map[0 := Alice()], Some("alice"), Some("P@ssw0rd1"), StoredPassword, Backends.InheritedCanAuthenticate)
         == InvalidCredentials
  {
    AliceIsTheOnlyCandidate(map[0 := Alice()]);
  }

  /**
   * Corrected: with a backend that lets inactive users through, the view's own
   * activity check decides, so an unverified user with the right password is
   * told the account is not activated, and every other answer is unchanged.
   */
  lemma CorrectedLoginReportsNotActivated(
    users: map<UserId, User>, username: string, password: Option<string>,
    checkPassword: (User, Option<string>) -> bool, uid: UserId)
    requires uid in users && Backends.Candidates(users, Some(username)) == {uid}
    requires checkPassword(users[uid], password)
    ensures LoginView(users, Some(username), password, checkPassword, Backends.AllowAllUsers)
         == if users[uid].isActive then LoggedIn(uid) else NotActivated
    ensures users[uid].isActive ==>
              LoginView(users, Some(username), password, checkPassword, Backends.AllowAllUsers)
              == LoginView(users, Some(username), password, checkPassword, Backends.InheritedCanAuthenticate)
  {
  }

  /**
   * The registration scenario run against the handlers: register "alice",
   * follow the link within a day, follow it again.
   */
  method RegistrationScenario(now: Time, later: Time, again: Time, mailOk: bool)
    returns (registered: Store.RegisterOutcome, first: Store.VerifyOutcome, second: Store.VerifyOutcome, active: bool, verified: bool)
    requires now <= later <= now + TokenLifetime
    ensures registered == Store.RedirectVerificationSent
    ensures first == Store.Verified && active && verified
    ensures second == Store.InvalidLink
  {
    var store := new AccountStore();
    ghost var stored;
    registered, stored := store.Register(Some(Store.RegistrationForm("alice", "alice@example.com")), "P@ssw0rd1", now, mailOk);
    assert store.users.Keys == {0} && !store.users[0].isActive;
    assert store.tokens == map[0 := NewToken(0, now)];
    assert Store.TokensWithValue(store.tokens, 0) == {0};
    first := store.VerifyEmail(0, later);
    active, verified := store.users[0].isActive, store.profiles[0].verified;
    second := store.VerifyEmail(0, again);
  }

  /** The context `dashboard_view` renders. */
  datatype Dashboard = Dashboard(
    purchasedCount: nat,
    favouriteProducts: set<ItemId>,
    savedPrompts: set<ItemId>,
    savedTemplates: set<ItemId>,
    memberResources: seq<MemberResource>)

  /** `dashboard_view`; reading `user.profile` fails (`None`) when the user has no profile. */
  function DashboardView(db: Store.Db, uid: UserId, items: seq<Listings.OrderItem>, resources: seq<MemberResource>): (r: Option<Dashboard>)
    ensures r.Some? <==> uid in db.profiles
    ensures r.Some? ==>
              r.value.favouriteProducts == db.profiles[uid].favouriteProducts
              && r.value.savedPrompts == db.profiles[uid].savedPrompts
              && r.value.savedTemplates == db.profiles[uid].savedTemplates
              && r.value.purchasedCount == Listings.PurchasedCount(items, uid)
              && r.value.purchasedCount <= |Listings.ItemsOf(items, uid)|
              && r.value.memberResources == Listings.MemberListing(resources)
              && Listings.InListingOrder(r.value.memberResources)
              && (forall i :: 0 <= i < |r.value.memberResources| ==> r.value.memberResources[i].isActive)
              && (forall x: MemberResource :: x.isActive ==> multiset(r.value.memberResources)[x] == multiset(resources)[x])
  {
    if uid !in db.profiles then None
    else
      var p := db.profiles[uid];
      Listings.PurchasedCountAtMostItems(items, uid);
      Some(Dashboard(Listings.PurchasedCount(items, uid), p.favouriteProducts, p.savedPrompts, p.savedTemplates,
                     Listings.MemberListing(resources)))
  }
}
