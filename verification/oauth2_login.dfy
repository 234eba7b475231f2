/** Federated (Google) login: validate the identity provider's claims, find or
    create the local account, link the provider's subject id, issue tokens,
    cache the refresh token and assemble the response.

    Both application errors are thrown before anything is written: the email
    check precedes the account lookup, and the role lookup precedes the account
    save and the cache write. So a failed login changes nothing, which the
    model expresses by returning `Failure` without a state. */
module OAuth2Login {
  import opened Wrappers
  import opened Text
  import opened Entities

  /** Cache-key prefix of a user's current refresh token. */
  const RefreshTokenPrefix := "refreshtoken:"
  /** Time-to-live of the cached refresh token: seven days, in seconds. */
  const RefreshTokenTtlSeconds: nat := 7 * 24 * 60 * 60
  /** Name of the role every new federated account receives. */
  const DefaultRoleName := "USER"
  /** Full name of a new profile when the provider sends no name. */
  const DefaultFullName := "Google User"
  /** Full name reported for an account that has no profile. */
  const MissingProfileName := "No Name"
  /** Pieces of the generated-avatar URL used when there is no picture. */
  const AvatarServicePrefix := "https://ui-avatars.com/api/?name="
  const AvatarServiceSuffix := "&background=random"
  const DefaultAvatarName := "User"

  /** The provider's claims; every attribute may be missing. */
  datatype Claims = Claims(
    email: Option<string>,
    name: Option<string>,
    picture: Option<string>,
    sub: Option<string>)

  /** A cached value with its time-to-live. */
  datatype CacheEntry = CacheEntry(value: string, ttlSeconds: nat)

  /** Everything the flow reads or writes: the account table keyed by email,
      the role catalog keyed by name, the next identifier the storage engine
      will hand out, and the key-value cache. */
  datatype State = State(
    users: map<string, User>,
    roleCatalog: map<string, Role>,
    nextUserId: int,
    cache: map<string, CacheEntry>)

  /** The authenticated principal the token signer works from. */
  datatype Principal = Principal(username: string, roles: seq<Role>)

  /** The (opaque, time-dependent) token signer. */
  datatype TokenIssuer = TokenIssuer(
    accessToken: Principal -> string,
    refreshToken: Principal -> string)

  /** The user summary returned to the caller. */
  datatype ProfileResponse = ProfileResponse(
    id: int,
    email: string,
    fullName: Option<string>,
    avatarUrl: Option<string>,
    phone: Option<string>,
    address: Option<string>,
    bankName: Option<string>,
    bankAccountNumber: Option<string>)

  datatype AuthResponse = AuthResponse(
    user: ProfileResponse,
    accessToken: string,
    refreshToken: string)

  /** Storage invariant: each account is stored under its own email (so there
      is at most one account per email), identifiers are below the next one to
      be handed out and pairwise distinct, and each role is stored under its name. */
  ghost predicate Valid(s: State) {
    && (forall e :: e in s.users ==> s.users[e].email == e && s.users[e].id < s.nextUserId)
    && (forall e1, e2 :: e1 in s.users && e2 in s.users && e1 != e2 ==> s.users[e1].id != s.users[e2].id)
    && (forall n :: n in s.roleCatalog ==> s.roleCatalog[n].name == n)
  }

  /** Claim validation: the email must be present and non-empty. */
  function ExtractEmail(c: Claims): (r: Result<string, ErrorCode>)
    ensures r.Success? <==> !NullOrEmpty(c.email)
    ensures r.Success? ==> Some(r.value) == c.email && |r.value| > 0
    ensures r.Failure? ==> r.error == UncategorizedException
  {
    if NullOrEmpty(c.email) then Failure(UncategorizedException) else Success(c.email.value)
  }

  /** The name part of a generated-avatar URL: the display name with every
      space turned into `+`, or `User` when there is no name. */
  function AvatarName(name: Option<string>): (n: string)
    ensures ' ' !in n
    ensures name.None? ==> n == DefaultAvatarName
    ensures name.Some? ==> |n| == |name.value|
    ensures name.Some? ==> forall i :: 0 <= i < |n| && name.value[i] == ' ' ==> n[i] == '+'
    ensures name.Some? ==> forall i :: 0 <= i < |n| && name.value[i] != ' ' ==> n[i] == name.value[i]
  {
    match name
    case None => DefaultAvatarName
    case Some(v) => ReplaceChar(v, ' ', '+')
  }

  /** Avatar of a new account: the picture when it is non-empty, otherwise
      a generated-avatar URL built from the name. */
  function AvatarUrl(picture: Option<string>, name: Option<string>): (url: string)
    ensures !NullOrEmpty(picture) ==> url == picture.value
    ensures NullOrEmpty(picture) ==>
      && |url| == |AvatarServicePrefix| + |AvatarName(name)| + |AvatarServiceSuffix|
      && url[..|AvatarServicePrefix|] == AvatarServicePrefix
      && url[|AvatarServicePrefix|..|url| - |AvatarServiceSuffix|] == AvatarName(name)
      && url[|url| - |AvatarServiceSuffix|..] == AvatarServiceSuffix
  {
    if !NullOrEmpty(picture) then picture.value
    else
      AvatarServicePrefix + AvatarName(name) + AvatarServiceSuffix
  }

  /** A fresh federated account with identifier `id`: no password, provider
      Google, status Active, the single role `USER`, and a profile holding the
      name (or `Google User`) and the avatar URL. Fails when the catalog has no
      `USER` role. */
  function CreateNewGoogleUser(catalog: map<string, Role>, id: int, email: string,
                               name: Option<string>, picture: Option<string>,
                               googleId: Option<string>): (r: Result<User, ErrorCode>)
    ensures r.Failure? <==> DefaultRoleName !in catalog
    ensures r.Failure? ==> r.error == RoleNotFound
    ensures r.Success? ==>
      && r.value.id == id
      && r.value.email == email
      && r.value.password.None?
      && r.value.googleId == googleId
      && r.value.provider == Google
      && r.value.status == Active
      && r.value.roles == [catalog[DefaultRoleName]]
      && r.value.profile.Some?
      && r.value.profile.value.fullName == Some(name.OrElse(DefaultFullName))
      && r.value.profile.value.avatarUrl == Some(AvatarUrl(picture, name))
      && r.value.profile.value.phone.None?
      && r.value.profile.value.address.None?
      && r.value.profile.value.bankName.None?
      && r.value.profile.value.bankAccountNumber.None?
  {
    if DefaultRoleName !in catalog then Failure(RoleNotFound)
    else
      var profile := Profile(Some(name.OrElse(DefaultFullName)), Some(AvatarUrl(picture, name)),
                             None, None, None, None);
      Success(User(id, email, None, googleId, Google, Active, [catalog[DefaultRoleName]], Some(profile)))
  }

  /** Account linking: an account without a provider subject id gets `sub`
      and becomes Active; an account that already has one is left alone. */
  function LinkGoogleAccount(u: User, sub: Option<string>): (r: User)
    ensures !NullOrEmpty(u.googleId) ==> r == u
    ensures NullOrEmpty(u.googleId) ==> r.googleId == sub && r.status == Active
    ensures && r.id == u.id && r.email == u.email && r.password == u.password
            && r.provider == u.provider && r.roles == u.roles && r.profile == u.profile
  {
    if NullOrEmpty(u.googleId) then u.(googleId := sub, status := Active) else u
  }

  /** Find-or-create: the stored account for `email`, or a newly inserted one
      carrying the next identifier. */
  function FindOrCreate(s: State, email: string, c: Claims): (r: Result<(State, User), ErrorCode>)
    ensures email in s.users ==> r == Success((s, s.users[email]))
    ensures email !in s.users ==> (r.Failure? <==> DefaultRoleName !in s.roleCatalog)
    ensures r.Success? ==> r.value.0.users == s.users[email := r.value.1]
  {
    if email in s.users then Success((s, s.users[email]))
    else
      var u :- CreateNewGoogleUser(s.roleCatalog, s.nextUserId, email, c.name, c.picture, c.sub);
      Success((s.(users := s.users[email := u], nextUserId := s.nextUserId + 1), u))
  }

  /** Find-or-create followed by linking; the linked account is saved back. */
  function ReconcileUser(s: State, email: string, c: Claims): (r: Result<(State, User), ErrorCode>)
    ensures r.Success? ==> r.value.0.users == s.users[email := r.value.1]
    ensures r.Success? ==> r.value.0.roleCatalog == s.roleCatalog && r.value.0.cache == s.cache
  {
    var found :- FindOrCreate(s, email, c);
    var (s1, user) := found;
    if NullOrEmpty(user.googleId) then
      var linked := LinkGoogleAccount(user, c.sub);
      Success((s1.(users := s1.users[email := linked]), linked))
    else
      Success((s1, user))
  }

  /** The principal the user-details service loads for an account: its
      username is the account's email. */
  function LoadPrincipal(u: User): (p: Principal)
    ensures p.username == u.email
  {
    Principal(u.email, u.roles)
  }

  /** The user summary: identifier and email always; the profile fields when
      there is a profile, otherwise the full name `No Name` and nothing else. */
  function BuildProfileResponse(u: User): (r: ProfileResponse)
    ensures r.id == u.id && r.email == u.email
    ensures u.profile.None? ==>
      && r.fullName == Some(MissingProfileName)
      && r.avatarUrl.None? && r.phone.None? && r.address.None?
      && r.bankName.None? && r.bankAccountNumber.None?
    ensures u.profile.Some? ==>
      && r.fullName == u.profile.value.fullName
      && r.avatarUrl == u.profile.value.avatarUrl
      && r.phone == u.profile.value.phone
      && r.address == u.profile.value.address
      && r.bankName == u.profile.value.bankName
      && r.bankAccountNumber == u.profile.value.bankAccountNumber
  {
    match u.profile
    case None =>
      ProfileResponse(u.id, u.email, Some(MissingProfileName), None, None, None, None, None)
    case Some(p) =>
      ProfileResponse(u.id, u.email, p.fullName, p.avatarUrl, p.phone, p.address,
                      p.bankName, p.bankAccountNumber)
  }

  /** Cache key of a user's refresh token. */
  function RefreshTokenKey(username: string): (k: string)
    ensures |k| == |RefreshTokenPrefix| + |username|
    ensures k[..|RefreshTokenPrefix|] == RefreshTokenPrefix && k[|RefreshTokenPrefix|..] == username
  {
    RefreshTokenPrefix + username
  }

  /** Token issuance, the refresh-token cache write and response assembly. */
  function GenerateAuthResponse(cache: map<string, CacheEntry>, u: User, p: Principal,
                                issuer: TokenIssuer): (r: (map<string, CacheEntry>, AuthResponse))
    ensures r.1.accessToken == issuer.accessToken(p) && r.1.refreshToken == issuer.refreshToken(p)
    ensures RefreshTokenKey(p.username) in r.0
    ensures r.0[RefreshTokenKey(p.username)] == CacheEntry(r.1.refreshToken, RefreshTokenTtlSeconds)
    ensures forall k :: k != RefreshTokenKey(p.username) ==>
      (k in r.0 <==> k in cache) && (k in cache ==> r.0[k] == cache[k])
    ensures r.1.user == BuildProfileResponse(u)
  {
    var accessToken := issuer.accessToken(p);
    var refreshToken := issuer.refreshToken(p);
    var cache' := cache[RefreshTokenKey(p.username) := CacheEntry(refreshToken, RefreshTokenTtlSeconds)];
    (cache', AuthResponse(BuildProfileResponse(u), accessToken, refreshToken))
  }

  /** The whole login: the new state and the response, or the error that
      aborted the request before it wrote anything. */
  function Login(s: State, c: Claims, issuer: TokenIssuer): (r: Result<(State, AuthResponse), ErrorCode>)
    ensures r.Success? ==> !NullOrEmpty(c.email) && c.email.value in r.value.0.users
    ensures r.Success? ==> r.value.0.roleCatalog == s.roleCatalog
    ensures r.Success? ==> s.users.Keys <= r.value.0.users.Keys
  {
    var email :- ExtractEmail(c);
    var reconciled :- ReconcileUser(s, email, c);
    var (s1, user) := reconciled;
    var principal := LoadPrincipal(user);
    var (cache', response) := GenerateAuthResponse(s1.cache, user, principal, issuer);
    Success((s1.(cache := cache'), response))
  }

  /** The state an observer sees once the request is over: the new state on
      success, the old state when an error was thrown (before any write). */
  function After(s: State, c: Claims, issuer: TokenIssuer): (s': State)
    ensures Login(s, c, issuer).Failure? ==> s' == s
    ensures Login(s, c, issuer).Success? ==> s' == Login(s, c, issuer).value.0
  {
    match Login(s, c, issuer)
    case Success(v) => v.0
    case Failure(_) => s
  }
}
