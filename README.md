# Accounts: verification tokens, saved items and sign-in

A Dafny model of the account subsystem of the AI-marketing web application:
registration with an email-verification link, the link's 24-hour validity,
consumption of the link, the self-healing creation of user profiles, the three
favourite/saved toggles, sign-in by username or email, and the read-only
member-resource listings and purchase count of the dashboard.

The database is abstracted into three maps keyed by user id (users, profiles,
verification tokens); keying profiles and tokens by their owner is the
one-to-one constraint on both. Time is a whole number of seconds.

- `models.dfy` (module `Models`): the entities, their defaults, `is_valid`,
  and the member resources' default ordering.
- `orm.dfy` (module `Orm`): the two lookup rules the code relies on,
  `QuerySet.get` (none, one, or the uncaught `MultipleObjectsReturned`) and
  `__iexact`.
- `store.dfy` (module `Store`): every state change of the views and of the
  profile signals, as a function from the old tables to the new ones, with
  the lemmas about them.
- `views.dfy` (module `Views`): class `AccountStore`, which holds the tables
  as fields and performs the same changes step by step. Each method is proved
  to end in the state the matching `Store` function gives. The module also
  holds `login_view`, `dashboard_view` and an end-to-end registration scenario.
- `backends.dfy` (module `Backends`): `EmailOrUsernameModelBackend.authenticate`.
- `listings.dfy` (module `Listings`): the active-resource listing, the
  four-item public preview and `purchased_count`.

Parameters stand in for what the code delegates to the framework:
- `mailOk` is whether `send_mail` succeeded.
- `passwordHash` is what `set_password` stores.
- `checkPassword` is `check_password`.
- `canAuthenticate` is `user_can_authenticate`.
- `now` is `timezone.now()`.
- A counter in `AccountStore` hands out token values, standing for `uuid4`.
- Registration-form validation is an `Option`: `None` means the form did not validate.

Points of the code's behaviour that the model keeps as they are:
- `is_valid` uses `>=`, so a token exactly 24 hours old is still valid.
- An identifier matching several users does not fail quietly. `get` raises
  `MultipleObjectsReturned` and nothing catches it (`LookupError`, and
  `LoginError` in the view).
- A token value held by two rows would make `verify_email` fail the same way (`ServerError`).
- `verify_email` runs its three writes one after another, without a transaction.
- The toggles are three separate procedures. The model keeps three methods and
  proves each against one shared function.
- The `username` keyword is looked up as `USERNAME_FIELD` only when `username`
  is `None`. With no identifier at all, the lookup compares with NULL, which no
  username or email equals, so no user is found. With the stock user model
  `USERNAME_FIELD` is itself `"username"`, and a keyword of that name binds to
  the named parameter, so the keyword arguments never hold it and the fallback
  never changes the outcome; `Backends.KeywordSuppliesIdentifier` states what
  the code does when they do.

## Model

| member | source | states |
|---|---|---|
| `Orm.Get` | accounts/backends.py:16-21 | `get` yields DoesNotExist exactly when nothing matches, the error exactly when more than one row matches, and otherwise the single matching row |
| `Orm.IExactIsEquivalence` | accounts/backends.py:17-19 | case-insensitive equality is reflexive, symmetric and transitive |
| `Orm.IExactWhenLettersAgree` | accounts/backends.py:17-19 | strings of equal length whose characters agree position by position up to letter case are equal under `iexact` |
| `Orm.IExactFailsOnOtherDifference` | accounts/backends.py:17-19 | one position whose characters differ other than by letter case makes the strings unequal |
| `Orm.IExactKeepsLength` | accounts/backends.py:17-19 | strings equal under `iexact` have the same length |
| `Models.ValidForOneDay` | accounts/models.py:64-66 | a token issued at t is valid at every moment up to and including t + 24h, and invalid one second later |
| `Models.ExpiryIsPermanent` | accounts/models.py:64-66 | an expired token stays expired as time advances |
| `Models.NewRowsTakeDefaults` | accounts/models.py:13-80 | a new profile is unverified with empty bio, no business fields and three empty saved sets; a new token has the reminder unsent; a new member resource is active with order 0 |
| `Models.ListingOrderIsTotalPreorder` | accounts/models.py:82-83 | the (order ascending, created_at descending) ordering is reflexive, total and transitive |
| `Store.SaveUser` | accounts/models.py:40-51 | after any save the user has a profile; a created user gets a fresh default profile; an existing profile is kept; no other profile or token changes; the tables stay well formed |
| `Store.SaveKeepsEveryUserProfiled` | accounts/models.py:46-51 | if every user had exactly one profile before a save, every user has exactly one after it |
| `Store.SendVerificationEmail` | accounts/views.py:41-74 | the user's old token is replaced by exactly one new token; other tokens, users and profiles are unchanged; the result is the mail outcome, and a failed mail does not undo the token; an unstored user changes nothing and gives false; a fresh value keeps token values distinct |
| `Store.TokenOwnerIsUnique` | accounts/models.py:58-59 | in well-formed tables a token value identifies exactly one owner |
| `Store.VerifyEmail` | accounts/views.py:81-100 | any outcome but success changes nothing; the error occurs exactly when several tokens share the value; success means exactly one valid token matched, its user became active, its profile (created if missing) became verified with its other fields kept, the token was deleted, and nothing else changed |
| `Store.LiveTokenVerifies` | accounts/views.py:83-95 | a stored, still-valid token verifies |
| `Store.ExpiredTokenIsKept` | accounts/views.py:85-97 | an expired token gives the invalid-link page and is not deleted |
| `Store.UnknownTokenIsRejected` | accounts/views.py:99-100 | an unknown value gives the same invalid-link page and changes nothing |
| `Store.VerifyKeepsWellFormed` | accounts/views.py:85-94 | verification keeps foreign keys and token-value uniqueness |
| `Store.VerifiedLinkIsSpent` | accounts/views.py:94-100 | after a successful verification the same value gives the invalid-link page at any later time |
| `Store.ReissueSupersedesOldLink` | accounts/views.py:44-45 | after a new token is issued, the user's previous link gives the invalid-link page |
| `Store.Register` | accounts/views.py:22-38 | for a fresh primary key: an invalid form changes nothing; a valid one stores the user inactive with the stored password hash, gives it a default profile and exactly one new token, and always redirects to the verification-sent page; with a fresh token value the tables stay well formed |
| `Store.MailFailureKeepsRegistration` | accounts/views.py:32-34 | registration ends in the same tables and the same redirect whether or not the mail was sent |
| `Store.RegisterThenVerify` | accounts/views.py:22-100 | register, then verify within 24 hours: inactive and unverified with one token before; active, verified and tokenless after; a second verification gives the invalid-link page |
| `Store.WithSaved` | accounts/models.py:23-33 | replacing one saved set leaves the other two sets and every other field of the profile unchanged |
| `Store.Flip` | accounts/views.py:199-206 | the item's membership is inverted and no other item's membership changes |
| `Store.ToggleSaved` | accounts/views.py:195-251 | an unknown item gives 404 and a missing profile an error, both without change; otherwise exactly one set of exactly one profile changes, by flipping the item, and the report equals the item's new membership |
| `Store.ToggleTwiceRestores` | accounts/views.py:199-206 | toggling the same item twice restores the tables, and the two reports are opposite |
| `Store.ToggleKeepsWellFormed` | accounts/views.py:195-251 | toggles keep the tables well formed |
| `Backends.Authenticate` | accounts/backends.py:11-25 | no candidate gives None; more than one gives the error, never a user; a returned user is the only candidate, matches the identifier by username or email ignoring case, passes the password check and may authenticate; with one candidate the user is returned exactly when both checks hold |
| `Backends.CollisionFailsClosed` | accounts/backends.py:16-21 | an identifier equal to one user's username and another user's email picks neither user |
| `Backends.FailureCauseIsHidden` | accounts/backends.py:20-25 | an unknown identifier and a wrong password give the same answer |
| `Backends.CandidatesIgnoreCase` | accounts/backends.py:16-19 | identifiers equal up to case select the same users |
| `Backends.AuthenticateIgnoresCase` | accounts/backends.py:16-25 | the answer does not depend on the identifier's letter case |
| `Backends.KeywordSuppliesIdentifier` | accounts/backends.py:13-14 | without `username`, the `USERNAME_FIELD` keyword acts as the identifier |
| `Backends.MissingIdentifierFindsNoUser` | accounts/backends.py:13-21 | with no identifier at all, no user is returned |
| `Listings.ActiveOnly` | accounts/views.py:159 | the result holds every active resource as often as the table does, and nothing inactive |
| `Listings.InsertInOrder` | accounts/views.py:159-161 | inserting into an ordered listing keeps it ordered and adds exactly that resource |
| `Listings.SortForListing` | accounts/views.py:159-161 | the result is in (order ascending, created_at descending) order and is a permutation of the input |
| `Listings.MemberListing` | accounts/views.py:158-161 | the dashboard listing is ordered, holds only active resources, and holds every active resource of the table with its multiplicity |
| `Listings.PublicPreview` | accounts/views.py:257-260 | the preview is the first min(4, n) entries of the member listing |
| `Listings.PreviewShowsTheFirstInOrder` | accounts/views.py:258-260 | every resource shown in the preview may be listed before every resource left out |
| `Listings.NewResourceIsListed` | accounts/models.py:79-80 | a newly added resource appears in the member listing, being active by default |
| `Listings.PurchaseCounting` | accounts/views.py:149-151 | buying a product already bought leaves `purchased_count` unchanged; a new product raises it by one |
| `Listings.PurchasedCountAtMostItems` | accounts/views.py:149-151 | `purchased_count` never exceeds the number of the user's order items |
| `Views.AccountStore.CreateUserProfile` | accounts/models.py:40-43 | on creation a default profile is inserted; otherwise nothing changes; the store invariant is kept |
| `Views.AccountStore.SaveUserProfile` | accounts/models.py:46-51 | a missing profile is created; an existing one is left as it is; the store invariant is kept |
| `Views.AccountStore.InsertUser` | accounts/views.py:26-29 | the new user row gets a fresh key, then both receivers run, ending as `Store.SaveUser` with created set |
| `Views.AccountStore.UpdateUser` | accounts/views.py:86-88 | the row is rewritten and the receivers run, ending as `Store.SaveUser` without created |
| `Views.AccountStore.SendVerificationEmail` | accounts/views.py:41-74 | deletes then creates the token with a value no stored token has, ending as `Store.SendVerificationEmail`; the token counter advances only for a stored user |
| `Views.AccountStore.Register` | accounts/views.py:22-38 | on a valid form, the tables right after saving (returned as a ghost value) hold the new user inactive, and the final tables are the mail step applied to them; both counters advance by one; ends as `Store.Register` |
| `Views.AccountStore.VerifyEmail` | accounts/views.py:81-100 | ends as `Store.VerifyEmail`, keeping the store invariant and both counters |
| `Views.AccountStore.AddFavouriteProduct` | accounts/views.py:194-211 | keeps the store invariant; looks the product up by slug, toggles it in `favourite_products`, and reports `is_favourite` as the new membership, ending as `Store.ToggleSaved` |
| `Views.AccountStore.AddFavouritePrompt` | accounts/views.py:214-231 | keeps the store invariant; looks the prompt up by id, toggles it in `saved_prompts`, and reports "saved" or "removed", ending as `Store.ToggleSaved` |
| `Views.AccountStore.AddFavouriteTemplate` | accounts/views.py:234-251 | keeps the store invariant; looks the template up by slug, toggles it in `saved_templates`, and reports "saved" or "removed", ending as `Store.ToggleSaved` |
| `Views.LoginView` | accounts/views.py:106-130 | only an active user that passed authentication is logged in, and a uniquely matched user is logged in exactly when the password check and the eligibility check pass and the user is active; the error occurs exactly when the identifier is ambiguous; "not activated" is answered exactly when the one matched user passes both checks but is inactive; with no matched user the answer is invalid credentials |
| `Views.InactiveUsersSeeInvalidCredentials` | accounts/views.py:110-128 | when the eligibility check admits only active users, the not-activated answer never occurs |
| `Views.UnverifiedLoginIsReportedAsInvalid` | accounts/views.py:112-128 | a registered, unverified user giving the right password is told the credentials are invalid |
| `Views.CorrectedLoginReportsNotActivated` | accounts/views.py:112-126 | with a backend that admits inactive users, that user is told the account is not activated, and active users are answered as before |
| `Views.RegistrationScenario` | accounts/views.py:22-100 | on the class itself: registering, then following the link within a day, verifies and activates; following it again gives the invalid-link page |
| `Views.DashboardView` | accounts/views.py:143-171 | fails exactly when the user has no profile; otherwise shows the profile's three saved sets, `purchased_count` (the number of distinct products bought, bounded by the user's order items), and the member listing, which is ordered and holds exactly the active resources |

## Findings

| source | as written | input that shows it | evidently intended | confidence | as-written member | corrected member |
|---|---|---|---|---|---|---|
| accounts/views.py:110-126 | `authenticate` goes through `EmailOrUsernameModelBackend`, which inherits `ModelBackend.user_can_authenticate`. That check returns no user when `is_active` is false, so the branch that says "Account not activated" is never reached | "alice" registers and logs in with the right password before following the link, and is told "Invalid username or password." | an unverified user with the right password is told the account is not activated | likely; relies on the inherited eligibility check and on this being the only backend; not executed | `Views.UnverifiedLoginIsReportedAsInvalid` | `Views.CorrectedLoginReportsNotActivated` |

## Left out

- Email composition and delivery: rendering the message, building the link and `send_mail` are reduced to the `mailOk` outcome.
- HTTP plumbing: templates, flash messages, redirect targets, `HTTP_REFERER` and the XHR header check are not modelled. Both answers of a toggle view carry the same value, which the model returns.
- Form validation: `UserRegistrationForm` and `UserProfileForm` are in accounts/forms.py, which is not part of this model. A valid form is a `Some`, and its cleaned username and email are taken as given. `profile_view`, which only saves that form, is left out.
- Password hashing and checking, `user_can_authenticate`, `uuid4` and the clock are parameters or a counter, as listed above.
- `Backends.Authenticate`: the framework's `authenticate` is assumed to consult only this backend.
- `Orm.IExactWhenLettersAgree`: `iexact` is modelled as ASCII case folding. The database's own collation and Unicode case rules are not modelled.
- Session login and logout, `logout_view`, `verification_sent` and `login_required`: framework session and rendering only.
- accounts/admin.py and aimarketing/wsgi.py are not part of this model: admin configuration and server bootstrap.
- Transactions and concurrency: the model is strictly sequential. A crash between the three writes of `verify_email`, and racing toggles, are not modelled.
- `Listings.SortForListing`: the database leaves rows tied on both `order` and `created_at` in no specified order. The model keeps them in table order.
- Time is whole seconds. The framework's timestamps carry microseconds.
- `Store.SaveUser` with `created` set, and `Store.CreateUserProfile`, overwrite a stored user and write a default profile even when one exists; the database would reject that with an integrity error. Both run only for a newly inserted user, whose key is fresh (`Store.Register` requires it and the class guarantees it), so this never happens.
- Deleting users and its cascades, and the reminder fields of a token, which no core code sets.
- An order item without a product is not modelled. `values("product").distinct()` would count it as one NULL product.
