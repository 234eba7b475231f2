/** Properties of the federated login flow: its error cases, what a first
    login inserts, what linking changes, idempotence of a repeated login, the
    refresh-token cache write, and preservation of the storage invariant. */
module OAuth2LoginProperties {
  import opened Wrappers
  import opened Text
  import opened Entities
  import opened OAuth2Login

  /** A login without a usable email fails with UNCATEGORIZED_EXCEPTION, and
      that is the only way to get that error; the state is left as it was. */
  lemma LoginRejectsMissingEmail(s: State, c: Claims, issuer: TokenIssuer)
    ensures Login(s, c, issuer) == Failure(UncategorizedException) <==> NullOrEmpty(c.email)
    ensures NullOrEmpty(c.email) ==> After(s, c, issuer) == s
  {
  }

  /** A first login fails with ROLE_NOT_FOUND exactly when the catalog lacks
      the `USER` role; nothing is inserted. */
  lemma LoginRequiresDefaultRole(s: State, c: Claims, issuer: TokenIssuer)
    ensures Login(s, c, issuer) == Failure(RoleNotFound) <==>
      && !NullOrEmpty(c.email)
      && c.email.value !in s.users
      && DefaultRoleName !in s.roleCatalog
    ensures Login(s, c, issuer) == Failure(RoleNotFound) ==>
      After(s, c, issuer) == s && c.email.value !in After(s, c, issuer).users
  {
  }

  /** A login fails only for a missing email or a missing default role; in
      particular every login of a known email succeeds. */
  lemma LoginFailsOnlyForKnownReasons(s: State, c: Claims, issuer: TokenIssuer)
    ensures Login(s, c, issuer).Failure? <==>
      || NullOrEmpty(c.email)
      || (c.email.value !in s.users && DefaultRoleName !in s.roleCatalog)
  {
  }

  /** First sight of an email inserts exactly one account under it, a Google,
      Active, password-less account with the single role `USER`, the `sub`
      claim as google id and a profile; every other account is unchanged. */
  lemma LoginInsertsNewUser(s: State, c: Claims, issuer: TokenIssuer)
    requires !NullOrEmpty(c.email) && c.email.value !in s.users
    requires DefaultRoleName in s.roleCatalog
    ensures Login(s, c, issuer).Success?
    ensures var s' := Login(s, c, issuer).value.0;
      var u := s'.users[c.email.value];
      && s'.users.Keys == s.users.Keys + {c.email.value}
      && |s'.users| == |s.users| + 1
      && (forall e :: e in s.users ==> s'.users[e] == s.users[e])
      && s'.nextUserId == s.nextUserId + 1
      && u.id == s.nextUserId
      && u.email == c.email.value
      && u.password.None?
      && u.provider == Google
      && u.status == Active
      && u.roles == [s.roleCatalog[DefaultRoleName]]
      && u.googleId == c.sub
      && u.profile.Some?
      && u.profile.value.fullName == Some(c.name.OrElse(DefaultFullName))
      && u.profile.value.avatarUrl == Some(AvatarUrl(c.picture, c.name))
  {
  }

  /** A known account without a google id gets `sub` as its google id and
      becomes Active; no other field and no other account changes. */
  lemma LoginLinksUnlinkedUser(s: State, c: Claims, issuer: TokenIssuer)
    requires !NullOrEmpty(c.email) && c.email.value in s.users
    requires NullOrEmpty(s.users[c.email.value].googleId)
    ensures Login(s, c, issuer).Success?
    ensures var s' := Login(s, c, issuer).value.0;
      && s'.users == s.users[c.email.value := s.users[c.email.value].(googleId := c.sub, status := Active)]
      && s'.nextUserId == s.nextUserId
  {
  }

  /** A known account that already has a google id is not modified at all,
      whatever `sub` the provider sends. */
  lemma LoginLeavesLinkedUser(s: State, c: Claims, issuer: TokenIssuer)
    requires !NullOrEmpty(c.email) && c.email.value in s.users
    requires !NullOrEmpty(s.users[c.email.value].googleId)
    ensures Login(s, c, issuer).Success?
    ensures Login(s, c, issuer).value.0.users == s.users
    ensures Login(s, c, issuer).value.0.nextUserId == s.nextUserId
  {
  }

  /** Linking is idempotent. */
  lemma LinkGoogleAccountIdempotent(u: User, sub: Option<string>)
    ensures LinkGoogleAccount(LinkGoogleAccount(u, sub), sub) == LinkGoogleAccount(u, sub)
  {
  }

  /** A repeated login with the same claims succeeds and changes neither the
      accounts nor the identifier counter nor the role catalog, whatever
      tokens the signer issues the second time. */
  lemma LoginIdempotent(s: State, c: Claims, issuer: TokenIssuer, issuer2: TokenIssuer)
    requires Login(s, c, issuer).Success?
    ensures var s1 := Login(s, c, issuer).value.0;
      && Login(s1, c, issuer2).Success?
      && Login(s1, c, issuer2).value.0.users == s1.users
      && Login(s1, c, issuer2).value.0.nextUserId == s1.nextUserId
      && Login(s1, c, issuer2).value.0.roleCatalog == s1.roleCatalog
  {
  }

  /** After a successful login the cache maps `refreshtoken:<email>` to the
      refresh token just issued for the account's principal, with a seven-day
      time-to-live; every other cache key is untouched. */
  lemma LoginCachesRefreshToken(s: State, c: Claims, issuer: TokenIssuer)
    requires Valid(s)
    requires Login(s, c, issuer).Success?
    ensures var (s', response) := Login(s, c, issuer).value;
      var email := c.email.value;
      var key := RefreshTokenPrefix + email;
      && key in s'.cache
      && response.refreshToken == issuer.refreshToken(Principal(email, s'.users[email].roles))
      && s'.cache[key] == CacheEntry(response.refreshToken, RefreshTokenTtlSeconds)
      && RefreshTokenTtlSeconds == 7 * 24 * 60 * 60
      && (forall k :: k != key ==> (k in s'.cache <==> k in s.cache))
      && (forall k :: k != key && k in s.cache ==> s'.cache[k] == s.cache[k])
  {
  }

  /** The response summarises the account as stored after the login. */
  lemma LoginRespondsWithStoredAccount(s: State, c: Claims, issuer: TokenIssuer)
    requires Valid(s)
    requires Login(s, c, issuer).Success?
    ensures var (s', response) := Login(s, c, issuer).value;
      && response.user == BuildProfileResponse(s'.users[c.email.value])
      && response.user.email == c.email.value
      && response.user.id == s'.users[c.email.value].id
  {
  }

  /** Every login preserves the storage invariant: one account per email,
      distinct identifiers, role catalog keyed by name. */
  lemma LoginPreservesValid(s: State, c: Claims, issuer: TokenIssuer)
    requires Valid(s)
    ensures Valid(After(s, c, issuer))
  {
  }

  /** The generated avatar name is lossy: a name and the same name with its
      spaces already written as `+` produce the same avatar name (and so the
      same generated URL), although the two names differ whenever the name
      has a space. */
  lemma AvatarNameConflatesSpaceAndPlus(name: string)
    ensures AvatarName(Some(ReplaceChar(name, ' ', '+'))) == AvatarName(Some(name))
    ensures ' ' in name ==> ReplaceChar(name, ' ', '+') != name
  {
  }

  /** First login of `a@x.com` named "A B" with an empty picture on an empty
      account table: the account is created with the generated avatar URL
      `...?name=A+B&background=random`, and the response carries the name. */
  lemma FirstLoginExample(catalog: map<string, Role>, cache: map<string, CacheEntry>, issuer: TokenIssuer)
    requires DefaultRoleName in catalog
    ensures var s := State(map[], catalog, 1, cache);
      var c := Claims(Some("a@x.com"), Some("A B"), Some(""), Some("g123"));
      && Login(s, c, issuer).Success?
      && var (s', response) := Login(s, c, issuer).value;
      && "a@x.com" in s'.users
      && s'.users["a@x.com"].provider == Google
      && s'.users["a@x.com"].status == Active
      && s'.users["a@x.com"].googleId == Some("g123")
      && s'.users["a@x.com"].profile.Some?
      && s'.users["a@x.com"].profile.value.avatarUrl
         == Some("https://ui-avatars.com/api/?name=A+B&background=random")
      && response.user.fullName == Some("A B")
  {
    var s := State(map[], catalog, 1, cache);
    var c := Claims(Some("a@x.com"), Some("A B"), Some(""), Some("g123"));
    var n := AvatarName(Some("A B"));
    assert n == "A+B" by {
      assert |n| == 3 && n[0] == 'A' && n[1] == '+' && n[2] == 'B';
    }
    assert AvatarUrl(c.picture, c.name) == "https://ui-avatars.com/api/?name=A+B&background=random";
    var u := CreateNewGoogleUser(catalog, 1, "a@x.com", c.name, c.picture, c.sub).value;
    assert Login(s, c, issuer).value.0.users == map["a@x.com" := u];
  }
}
