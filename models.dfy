/**
 * The account entities: the user record of the authentication framework, the
 * user profile, the email-verification token and the member resource, with
 * their field defaults, the token's validity rule and the resources' default
 * ordering. Time is a whole number of seconds.
 */
module Models {
  import opened Wrappers

  type UserId = nat      // primary key of a user row
  type ItemId = nat      // primary key of a product, prompt or prompt template
  type TokenValue = nat  // stands for the 128-bit random identifier of a token
  type Time = int        // seconds

  /** A token expires 24 hours after it was created. */
  const TokenLifetime: int := 24 * 60 * 60

  /** The fields of the framework's user record that the accounts code reads or writes. */
  datatype User = User(username: string, email: string, password: string, isActive: bool)

  /** `UserProfile`: one per user, holding the verified flag and the three saved-item relations. */
  datatype Profile = Profile(
    verified: bool,
    bio: string,
    businessName: Option<string>,
    businessType: Option<string>,
    businessLocation: Option<string>,
    targetAudience: Option<string>,
    favouriteProducts: set<ItemId>,
    savedPrompts: set<ItemId>,
    savedTemplates: set<ItemId>)

  /** A profile as `UserProfile.objects.create(user=...)` stores it: every field at its default. */
  function NewProfile(): Profile
  {
    Profile(false, "", None, None, None, None, {}, {}, {})
  }

  /** `EmailVerificationToken`, without its owner (the table is keyed by owner). */
  datatype VerificationToken = VerificationToken(
    token: TokenValue,
    createdAt: Time,
    reminderSent: bool,
    reminderSentAt: Option<Time>)

  /** A token created at `now`: `created_at` is set on insert, the reminder fields take their defaults. */
  function NewToken(value: TokenValue, now: Time): VerificationToken
  {
    VerificationToken(value, now, false, None)
  }

  /** `is_valid`: the token was created no earlier than 24 hours before `now`. */
  predicate IsValid(t: VerificationToken, now: Time)
  {
    t.createdAt >= now - TokenLifetime
  }

  /** A token is valid from its creation up to and including the instant it is exactly 24 hours old. */
  lemma ValidForOneDay(value: TokenValue, issued: Time, now: Time)
    requires issued <= now
    ensures IsValid(NewToken(value, issued), now) <==> now <= issued + TokenLifetime
    ensures IsValid(NewToken(value, issued), issued + TokenLifetime)
    ensures !IsValid(NewToken(value, issued), issued + TokenLifetime + 1)
  {
  }

  /** Once a token has expired it never becomes valid again. */
  lemma ExpiryIsPermanent(t: VerificationToken, now: Time, later: Time)
    requires now <= later && !IsValid(t, now)
    ensures !IsValid(t, later)
  {
  }

  /** The field defaults of a new profile, token and member resource. */
  lemma NewRowsTakeDefaults(value: TokenValue, now: Time, title: string, description: string, file: string, thumbnail: string)
    ensures var p := NewProfile();
      !p.verified && p.bio == "" && p.businessName.None? && p.businessType.None?
      && p.businessLocation.None? && p.targetAudience.None?
      && p.favouriteProducts == {} && p.savedPrompts == {} && p.savedTemplates == {}
    ensures var t := NewToken(value, now);
      t.token == value && t.createdAt == now && !t.reminderSent && t.reminderSentAt.None?
    ensures var m := NewMemberResource(title, description, file, thumbnail, now);
      m.isActive && m.order == 0 && m.createdAt == now
  {
  }

  /** `MemberResource`; files are kept as their stored paths. */
  datatype MemberResource = MemberResource(
    title: string,
    description: string,
    file: string,
    thumbnail: string,
    createdAt: Time,
    isActive: bool,
    order: nat)

  /** A resource as it is first saved: active, order 0, created now. */
  function NewMemberResource(title: string, description: string, file: string, thumbnail: string, now: Time): MemberResource
  {
    MemberResource(title, description, file, thumbnail, now, true, 0)
  }

  /**
   * The default ordering `["order", "-created_at"]`: `a` may be listed before `b`
   * when its order is smaller, or equal with a creation time no earlier.
   */
  predicate ListedNoLaterThan(a: MemberResource, b: MemberResource)
  {
    a.order < b.order || (a.order == b.order && a.createdAt >= b.createdAt)
  }

  /** The default ordering is a total preorder. */
  lemma ListingOrderIsTotalPreorder(a: MemberResource, b: MemberResource, c: MemberResource)
    ensures ListedNoLaterThan(a, a)
    ensures ListedNoLaterThan(a, b) || ListedNoLaterThan(b, a)
    ensures ListedNoLaterThan(a, b) && ListedNoLaterThan(b, c) ==> ListedNoLaterThan(a, c)
  {
  }
}
