/** `AuthService`: sign-up, e-mail verification, token-pair issuance,
    refresh-token rotation and logout. The identity provider's answers
    (invitation, OTP check, user creation, the admin user listing, the
    profile probe) and each database call's error are parameters; the two
    tables are the `RefreshTokenStore` and the `ProfileService` it calls. */
module Auth {
  import opened Common
  import opened Errors
  import opened Tokens
  import opened RefreshTokens
  import opened Profiles

  /** Users per page of the admin listing. */
  const PerPage: nat := 1000

  /** A user of the identity provider: `email` may be missing and `role` is
      `user_metadata.role`. */
  datatype IdpUser = IdpUser(id: string, email: Option<string>, role: Option<string>)

  /** The admin user listing in the provider's order; every call for page
      `failsFromPage` or later fails (pages count from 1). */
  datatype Directory = Directory(users: seq<IdpUser>, failsFromPage: Option<nat>)

  /** The answer of the `profiles` query by exact e-mail. */
  datatype ProfileProbe = ProbeFailed(message: string) | ProbeMiss | ProbeHit(id: string)

  /** `inviteUserByEmail`'s answer. */
  datatype InviteOutcome = InviteFailed(message: string) | InviteNoUser | Invited(user: IdpUser)

  /** `verifyOtp`'s answer. */
  datatype OtpOutcome = OtpFailed(message: string) | OtpNoUser | OtpVerified(user: IdpUser)

  /** `admin.createUser`'s answer: it throws, returns no user, or returns one. */
  datatype CreateOutcome = CreateThrew(message: string) | CreateNoUser | Created(user: IdpUser)

  /** An `ITokenPair`; the expiry instants are in milliseconds. */
  datatype TokenPair = TokenPair(
    accessToken: Compact,
    refreshToken: Compact,
    refreshTokenId: string,
    accessExpiresAt: int,
    refreshExpiresAt: int)

  /** What `verifyEmail` returns. */
  datatype Session = Session(tokens: TokenPair, needsDisplayName: bool)

  /** The two tables the service changes. */
  datatype World = World(tokens: Rows, profiles: Table)

  /** A service call's result (or what it throws) with the tables after it. */
  datatype Outcome<T> = Outcome(result: Result<T, Thrown>, world: World)

  predicate WorldValid(w: World)
  {
    RefreshTokens.KeysMatchIds(w.tokens) && Profiles.KeysMatchIds(w.profiles)
  }

  /** The database errors and fresh `jti` of one `refreshSession` call. */
  datatype RefreshIo = RefreshIo(
    getError: Option<string>,
    profileError: Option<string>,
    jti: string,
    saveError: Option<string>,
    revokeError: Option<string>)

  /** The database errors and fresh `jti` of one ensure-profile, load-profile,
      issue-tokens sequence. */
  datatype ProvisionIo = ProvisionIo(
    ensureError: Option<string>,
    getError: Option<string>,
    jti: string,
    saveError: Option<string>)

  const IssueFallback: Fallback := Fallback("Failed to issue tokens", Some(500), Some("token_issue_failed"), None)
  const VerifyFallback: Fallback := Fallback("Failed to verify email", Some(400), Some("verification_failed"), None)
  const NoUserAfterLookup: string := "No user found after fallback lookup"
  const CreateReturnedNoUser: string := "Failed to create user after verification"

  // ---------------------------------------------------------------- lookup

  /** The lower-cased e-mail of a listed user, the empty string when it has
      none. */
  function EmailKey(u: IdpUser): string
  {
    Lower(if u.email.Some? then u.email.value else "")
  }

  /** The e-mail comparison of the admin lookup: a missing e-mail counts as
      the empty string and both sides are lower-cased. */
  predicate Matches(u: IdpUser, email: string)
  {
    EmailKey(u) == Lower(email)
  }

  /** The callback handed to `users.find`. */
  function SameEmail(email: string): IdpUser -> bool
  {
    u => Matches(u, email)
  }

  /** `Array.prototype.find`'s index: the first element satisfying `p`. */
  function FirstMatch<T>(s: seq<T>, p: T -> bool): (r: Option<nat>)
    ensures r.Some? ==> r.value < |s| && p(s[r.value])
    ensures r.Some? ==> forall j | 0 <= j < r.value :: !p(s[j])
    ensures r.None? <==> forall j | 0 <= j < |s| :: !p(s[j])
  {
    if s == [] then None
    else if p(s[0]) then Some(0)
    else
      match FirstMatch(s[1..], p)
      case None => None
      case Some(i) => Some(i + 1)
  }

  /** How many users the page loop gets to see before a listing call fails. */
  function ScanLimit(dir: Directory): (n: nat)
    ensures n <= |dir.users|
  {
    match dir.failsFromPage
    case None => |dir.users|
    case Some(f) =>
      var reachable := if f == 0 then 0 else (f - 1) * PerPage;
      if reachable < |dir.users| then reachable else |dir.users|
  }

  /** `findUserByEmail`: a profile with exactly that e-mail, else the first
      listed user whose e-mail matches ignoring case, else nothing. A profile
      hit carries no role. */
  function FindUser(email: string, probe: ProfileProbe, dir: Directory): Option<IdpUser>
  {
    if probe.ProbeHit? then Some(IdpUser(probe.id, Some(email), None))
    else Find(dir.users[..ScanLimit(dir)], SameEmail(email))
  }

  /** `Array.prototype.find`: the first element satisfying `p`. */
  function Find<T>(s: seq<T>, p: T -> bool): (r: Option<T>)
    ensures r.Some? <==> FirstMatch(s, p).Some?
    ensures r.Some? ==> r.value == s[FirstMatch(s, p).value]
  {
    match FirstMatch(s, p)
    case None => None
    case Some(i) => Some(s[i])
  }

  // ---------------------------------------------------- specification functions

  /** `issueTokensForUser`: mint both tokens at `nowMs` and store the refresh
      token's record; a storage failure becomes `token_issue_failed`. */
  function Issued(k: Hs256, w: World, user: AuthUser, nowMs: int, jti: string, saveError: Option<string>)
    : (o: Outcome<TokenPair>)
    requires WorldValid(w)
    ensures WorldValid(o.world) && o.world.profiles == w.profiles
    ensures Successor(w.tokens, o.world.tokens) && o.world.tokens.Keys <= w.tokens.Keys + {jti}
  {
    var access := CreateAccessToken(k, user, nowMs);
    var refresh := CreateRefreshToken(k, user, nowMs, jti);
    match SavedRows(w.tokens, user.id, refresh.jti, HashToken(k, refresh.token), refresh.expiresAt, saveError)
    case Err(e) => Outcome(Err(App(Normalize(e, IssueFallback))), w)
    case Ok(rows) =>
      Outcome(Ok(TokenPair(access.token, refresh.token, refresh.jti, access.expiresAt, refresh.expiresAt)),
              w.(tokens := rows))
  }

  /** `getCookie` finds no refresh cookie, or an empty one. */
  predicate MissingCookie(cookie: Option<Compact>)
  {
    cookie.None? || cookie.value == Malformed("")
  }

  /** The record is revoked (with no replacement) before the error is thrown;
      a failing revocation throws its own error instead. */
  function RevokedThenFail(w: World, id: string, revokeError: Option<string>, e: AppError): (o: Outcome<TokenPair>)
    requires WorldValid(w)
    ensures WorldValid(o.world) && o.world.profiles == w.profiles && o.result.Err?
    ensures Successor(w.tokens, o.world.tokens) && o.world.tokens.Keys == w.tokens.Keys
    ensures revokeError.Some? ==> o == Outcome(Err(Plain("Failed to revoke refresh token: " + revokeError.value)), w)
    ensures revokeError.None? ==> o.result == Err(App(e)) && o.world.profiles == w.profiles
                                  && o.world.tokens == RevokedRows(w.tokens, id, None)
  {
    if revokeError.Some? then Outcome(Err(Plain("Failed to revoke refresh token: " + revokeError.value)), w)
    else
      RevokeIsSuccessor(w.tokens, id, None);
      Outcome(Err(App(e)), w.(tokens := RevokedRows(w.tokens, id, None)))
  }

  /** `refreshSession`: the rotation state machine. */
  function Refreshed(k: Hs256, w: World, cookie: Option<Compact>, nowMs: int, io: RefreshIo): (o: Outcome<TokenPair>)
    requires WorldValid(w)
    ensures WorldValid(o.world) && o.world.profiles == w.profiles
  {
    if MissingCookie(cookie) then Outcome(Err(App(Fail("Refresh token missing", 401, "refresh_token_missing"))), w)
    else
      match VerifyRefreshToken(k, cookie.value, nowMs)
      case Err(e) => Outcome(Err(App(e)), w)
      case Ok(payload) =>
        match Lookup(w.tokens, payload.jti.value, io.getError)
        case Err(e) => Outcome(Err(e), w)
        case Ok(found) =>
          if found.None? then Outcome(Err(App(Fail("Refresh token not found", 401, "refresh_token_not_found"))), w)
          else
            var record := found.value;
            if record.revoked then Outcome(Err(App(Fail("Refresh token revoked", 401, "refresh_token_revoked"))), w)
            else if record.expiresAt < nowMs then
              RevokedThenFail(w, record.id, io.revokeError, Fail("Refresh token expired", 401, "refresh_token_expired"))
            else if HashToken(k, cookie.value) != record.tokenHash then
              RevokedThenFail(w, record.id, io.revokeError, Fail("Refresh token mismatch", 401, "refresh_token_mismatch"))
            else
              match Fetched(w.profiles, payload.sub, io.profileError)
              case Err(e) => Outcome(Err(e), w)
              case Ok(profile) =>
                var role := if profile.Some? && profile.value.role.Some? then profile.value.role else payload.role;
                var issued := Issued(k, w, AuthUser(payload.sub, payload.email, role), nowMs, io.jti, io.saveError);
                if issued.result.Err? then issued
                else if io.revokeError.Some? then
                  Outcome(Err(Plain("Failed to revoke refresh token: " + io.revokeError.value)), issued.world)
                else
                  RevokeIsSuccessor(issued.world.tokens, record.id, Some(issued.result.value.refreshTokenId));
                  Outcome(issued.result, issued.world.(tokens :=
                    RevokedRows(issued.world.tokens, record.id, Some(issued.result.value.refreshTokenId))))
  }

  /** `logout`: revoke the presented refresh token's record when the token
      verifies; every failure is swallowed. */
  function LoggedOut(k: Hs256, w: World, cookie: Option<Compact>, nowMs: int, revokeError: Option<string>): (r: World)
    requires WorldValid(w)
    ensures WorldValid(r) && r.profiles == w.profiles
  {
    if MissingCookie(cookie) || revokeError.Some? then w
    else
      match VerifyRefreshToken(k, cookie.value, nowMs)
      case Err(_) => w
      case Ok(payload) =>
        RevokeIsSuccessor(w.tokens, payload.jti.value, None);
        w.(tokens := RevokedRows(w.tokens, payload.jti.value, None))
  }

  /** `signUp`: the invitation path, and when it fails for any reason the
      lookup fallback; only a failed lookup is an error. */
  function SignedUp(w: World, email: string, invite: InviteOutcome, inviteEnsureError: Option<string>,
                    probe: ProfileProbe, dir: Directory, fallbackEnsureError: Option<string>): (o: Outcome<string>)
    requires WorldValid(w)
    ensures WorldValid(o.world) && o.world.tokens == w.tokens
  {
    if invite.Invited? && inviteEnsureError.None? then
      Outcome(Ok(invite.user.id), w.(profiles := Upserted(w.profiles, invite.user.id, invite.user.email)))
    else
      match FindUser(email, probe, dir)
      case None =>
        Outcome(Err(App(NewAppError("Failed to send verification email",
                  Some(ErrorOptions(Some(500), Some("signup_failed"), None, Some(Plain(NoUserAfterLookup))))))), w)
      case Some(found) =>
        if fallbackEnsureError.Some? then Outcome(Ok(found.id), w)
        else Outcome(Ok(found.id), w.(profiles := Upserted(w.profiles, found.id, found.email)))
  }

  /** A falsy `display_name` (missing profile, `null` or empty) asks for
      onboarding. */
  predicate NeedsDisplayName(profile: Option<Profile>)
  {
    profile.None? || !TruthyText(profile.value.displayName)
  }

  /** Ensure the profile, load it, and issue a pair for a known user; the
      first error is thrown as it is. */
  function Provisioned(k: Hs256, w: World, user: IdpUser, email: string, nowMs: int, io: ProvisionIo)
    : (o: Outcome<Session>)
    requires WorldValid(w)
    ensures WorldValid(o.world)
  {
    match Ensured(w.profiles, user.id, user.email, io.ensureError)
    case Err(e) => Outcome(Err(e), w)
    case Ok(profiles) =>
      var w1 := w.(profiles := profiles);
      match Fetched(profiles, user.id, io.getError)
      case Err(e) => Outcome(Err(e), w1)
      case Ok(profile) =>
        var issued := Issued(k, w1, AuthUser(user.id, if user.email.Some? then user.email.value else email, user.role),
                             nowMs, io.jti, io.saveError);
        match issued.result
        case Err(e) => Outcome(Err(e), issued.world)
        case Ok(pair) => Outcome(Ok(Session(pair, NeedsDisplayName(profile))), issued.world)
  }

  /** The creation fallback: ensure the new user's profile and issue a pair;
      every failure is normalised to `verification_failed` unless it is
      already an AppError. */
  function CreatedSession(k: Hs256, w: World, email: string, create: CreateOutcome, nowMs: int, io: ProvisionIo)
    : (o: Outcome<Session>)
    requires WorldValid(w)
    ensures WorldValid(o.world)
  {
    match create
    case CreateThrew(message) => Outcome(Err(App(Normalize(Plain(message), VerifyFallback))), w)
    case CreateNoUser => Outcome(Err(App(Normalize(Plain(CreateReturnedNoUser), VerifyFallback))), w)
    case Created(user) =>
      match Ensured(w.profiles, user.id, user.email, io.ensureError)
      case Err(e) => Outcome(Err(App(Normalize(e, VerifyFallback))), w)
      case Ok(profiles) =>
        var w1 := w.(profiles := profiles);
        var issued := Issued(k, w1, AuthUser(user.id, if user.email.Some? then user.email.value else email, user.role),
                             nowMs, io.jti, io.saveError);
        match issued.result
        case Err(e) => Outcome(Err(App(Normalize(e, VerifyFallback))), issued.world)
        case Ok(pair) => Outcome(Ok(Session(pair, true)), issued.world)
  }

  /** `verifyEmail`: the OTP path; when it fails at any step, the lookup
      fallback (from the tables as the OTP path left them); when the lookup
      finds nobody, the creation fallback. */
  function VerifiedEmail(k: Hs256, w: World, email: string, nowMs: int, otp: OtpOutcome, otpIo: ProvisionIo,
                         probe: ProfileProbe, dir: Directory, create: CreateOutcome, fallbackIo: ProvisionIo)
    : (o: Outcome<Session>)
    requires WorldValid(w)
    ensures WorldValid(o.world)
  {
    var first := if otp.OtpVerified? then Provisioned(k, w, otp.user, email, nowMs, otpIo) else Outcome(Err(NonError(false)), w);
    if first.result.Ok? then first
    else FallbackSession(k, first.world, email, nowMs, probe, dir, create, fallbackIo)
  }

  /** `verifyEmail`'s fallback flow: a session for the user the lookup finds,
      or else for a newly created one. */
  function FallbackSession(k: Hs256, w: World, email: string, nowMs: int, probe: ProfileProbe, dir: Directory,
                           create: CreateOutcome, io: ProvisionIo): (o: Outcome<Session>)
    requires WorldValid(w)
    ensures WorldValid(o.world)
  {
    match FindUser(email, probe, dir)
    case Some(found) => Provisioned(k, w, found, email, nowMs, io)
    case None => CreatedSession(k, w, email, create, nowMs, io)
  }

  // ----------------------------------------------------------------- service

  class AuthService {
    const codec: Hs256
    const store: RefreshTokenStore
    const profiles: ProfileService

    ghost predicate Valid()
      reads store, profiles
    {
      store.Valid() && profiles.Valid()
    }

    function Snapshot(): World
      reads store, profiles
    {
      World(store.rows, profiles.rows)
    }

    constructor (codec: Hs256, store: RefreshTokenStore, profiles: ProfileService)
      requires store.Valid() && profiles.Valid()
      ensures this.codec == codec && this.store == store && this.profiles == profiles
      ensures Valid()
    {
      this.codec := codec;
      this.store := store;
      this.profiles := profiles;
    }

    /** `findUserByEmail`: the profile probe, then the page loop over the
      admin listing; a failing call ends the search with nothing. */
    method FindUserByEmail(email: string, probe: ProfileProbe, dir: Directory) returns (r: Option<IdpUser>)
      ensures r == FindUser(email, probe, dir)
    {
      if probe.ProbeHit? {
        return Some(IdpUser(probe.id, Some(email), None));
      }
      var users := dir.users;
      var page: nat := 1;
      var lo: nat := 0;
      ghost var scanned: nat := 0;
      while true
        invariant page >= 1 && lo == (page - 1) * PerPage
        invariant lo <= ScanLimit(dir)
        invariant FirstMatch(users[..lo], SameEmail(email)).None?
        decreases |users| - lo
      {
        if dir.failsFromPage.Some? && page >= dir.failsFromPage.value {
          ScanStopsAtFailure(dir, page, lo);
          return None;
        }
        var hi := if lo + PerPage < |users| then lo + PerPage else |users|;
        ScanCoversPage(dir, page, lo, hi);
        var batch := users[lo..hi];
        if |batch| == 0 {
          scanned := lo;
          break;
        }
        var i := FirstMatch(batch, SameEmail(email));
        if i.Some? {
          ScanFinds(users, ScanLimit(dir), lo, hi, SameEmail(email));
          return Some(batch[i.value]);
        }
        NoMatchExtends(users, lo, hi, SameEmail(email));
        if |batch| < PerPage {
          scanned := hi;
          break;
        }
        page := page + 1;
        lo := hi;
      }
      assert scanned == ScanLimit(dir);
      return None;
    }

    /** `issueTokensForUser`. */
    method IssueTokensForUser(user: AuthUser, nowMs: int, jti: string, saveError: Option<string>)
      returns (r: Result<TokenPair, Thrown>)
      requires Valid()
      modifies store
      ensures Valid()
      ensures Outcome(r, Snapshot()) == Issued(codec, old(Snapshot()), user, nowMs, jti, saveError)
    {
      var access := CreateAccessToken(codec, user, nowMs);
      var refresh := CreateRefreshToken(codec, user, nowMs, jti);
      var saved := store.SaveToken(user.id, refresh.jti, HashToken(codec, refresh.token), refresh.expiresAt, saveError);
      if saved.Err? {
        return Err(App(Normalize(saved.error, IssueFallback)));
      }
      return Ok(TokenPair(access.token, refresh.token, refresh.jti, access.expiresAt, refresh.expiresAt));
    }

    /** `refreshSession`. */
    method RefreshSession(cookie: Option<Compact>, nowMs: int, io: RefreshIo) returns (r: Result<TokenPair, Thrown>)
      requires Valid()
      modifies store
      ensures Valid()
      ensures Outcome(r, Snapshot()) == Refreshed(codec, old(Snapshot()), cookie, nowMs, io)
    {
      if MissingCookie(cookie) {
        return Err(App(Fail("Refresh token missing", 401, "refresh_token_missing")));
      }
      var verified := VerifyRefreshToken(codec, cookie.value, nowMs);
      if verified.Err? {
        return Err(App(verified.error));
      }
      var payload := verified.value;
      var found := store.GetToken(payload.jti.value, io.getError);
      if found.Err? {
        return Err(found.error);
      }
      if found.value.None? {
        return Err(App(Fail("Refresh token not found", 401, "refresh_token_not_found")));
      }
      var record := found.value.value;
      if record.revoked {
        return Err(App(Fail("Refresh token revoked", 401, "refresh_token_revoked")));
      }
      if record.expiresAt < nowMs {
        var revoked := store.RevokeToken(record.id, None, io.revokeError);
        if revoked.Err? {
          return Err(revoked.error);
        }
        return Err(App(Fail("Refresh token expired", 401, "refresh_token_expired")));
      }
      if HashToken(codec, cookie.value) != record.tokenHash {
        var revoked := store.RevokeToken(record.id, None, io.revokeError);
        if revoked.Err? {
          return Err(revoked.error);
        }
        return Err(App(Fail("Refresh token mismatch", 401, "refresh_token_mismatch")));
      }
      var profile := profiles.GetProfile(payload.sub, io.profileError);
      if profile.Err? {
        return Err(profile.error);
      }
      var role := if profile.value.Some? && profile.value.value.role.Some? then profile.value.value.role else payload.role;
      var tokens := IssueTokensForUser(AuthUser(payload.sub, payload.email, role), nowMs, io.jti, io.saveError);
      if tokens.Err? {
        return tokens;
      }
      var revoked := store.RevokeToken(record.id, Some(tokens.value.refreshTokenId), io.revokeError);
      if revoked.Err? {
        return Err(revoked.error);
      }
      return tokens;
    }

    /** `logout`: never throws. */
    method Logout(cookie: Option<Compact>, nowMs: int, revokeError: Option<string>)
      requires Valid()
      modifies store
      ensures Valid()
      ensures Snapshot() == LoggedOut(codec, old(Snapshot()), cookie, nowMs, revokeError)
    {
      if !MissingCookie(cookie) {
        var verified := VerifyRefreshToken(codec, cookie.value, nowMs);
        if verified.Ok? {
          var revoked := store.RevokeToken(verified.value.jti.value, None, revokeError);
        }
      }
    }

    /** `signUp`. */
    method SignUp(email: string, invite: InviteOutcome, inviteEnsureError: Option<string>,
                  probe: ProfileProbe, dir: Directory, fallbackEnsureError: Option<string>)
      returns (r: Result<string, Thrown>)
      requires Valid()
      modifies profiles
      ensures Valid()
      ensures Outcome(r, Snapshot()) ==
                SignedUp(old(Snapshot()), email, invite, inviteEnsureError, probe, dir, fallbackEnsureError)
    {
      if invite.Invited? {
        var ensured := profiles.EnsureProfile(invite.user.id, invite.user.email, inviteEnsureError);
        if ensured.Ok? {
          return Ok(invite.user.id);
        }
      }
      var found := FindUserByEmail(email, probe, dir);
      if found.None? {
        return Err(App(NewAppError("Failed to send verification email",
                 Some(ErrorOptions(Some(500), Some("signup_failed"), None, Some(Plain(NoUserAfterLookup)))))));
      }
      var ensured := profiles.EnsureProfile(found.value.id, found.value.email, fallbackEnsureError);
      return Ok(found.value.id);
    }

    /** Ensure, load, issue: the common tail of the OTP path and the lookup
      fallback. */
    method Provision(user: IdpUser, email: string, nowMs: int, io: ProvisionIo) returns (r: Result<Session, Thrown>)
      requires Valid()
      modifies store, profiles
      ensures Valid()
      ensures Outcome(r, Snapshot()) == Provisioned(codec, old(Snapshot()), user, email, nowMs, io)
    {
      var ensured := profiles.EnsureProfile(user.id, user.email, io.ensureError);
      if ensured.Err? {
        return Err(ensured.error);
      }
      var profile := profiles.GetProfile(user.id, io.getError);
      if profile.Err? {
        return Err(profile.error);
      }
      var needsDisplayName := NeedsDisplayName(profile.value);
      var tokens := IssueTokensForUser(AuthUser(user.id, if user.email.Some? then user.email.value else email, user.role),
                                       nowMs, io.jti, io.saveError);
      if tokens.Err? {
        return Err(tokens.error);
      }
      return Ok(Session(tokens.value, needsDisplayName));
    }

    /** `verifyEmail`. */
    method VerifyEmail(email: string, nowMs: int, otp: OtpOutcome, otpIo: ProvisionIo,
                       probe: ProfileProbe, dir: Directory, create: CreateOutcome, fallbackIo: ProvisionIo)
      returns (r: Result<Session, Thrown>)
      requires Valid()
      modifies store, profiles
      ensures Valid()
      ensures Outcome(r, Snapshot()) ==
                VerifiedEmail(codec, old(Snapshot()), email, nowMs, otp, otpIo, probe, dir, create, fallbackIo)
    {
      if otp.OtpVerified? {
        var viaOtp := Provision(otp.user, email, nowMs, otpIo);
        if viaOtp.Ok? {
          return viaOtp;
        }
      }
      var found := FindUserByEmail(email, probe, dir);
      if found.Some? {
        r := Provision(found.value, email, nowMs, fallbackIo);
        return;
      }
      match create
      case CreateThrew(message) =>
        return Err(App(Normalize(Plain(message), VerifyFallback)));
      case CreateNoUser =>
        return Err(App(Normalize(Plain(CreateReturnedNoUser), VerifyFallback)));
      case Created(user) =>
        var ensured := profiles.EnsureProfile(user.id, user.email, fallbackIo.ensureError);
        if ensured.Err? {
          return Err(App(Normalize(ensured.error, VerifyFallback)));
        }
        var tokens := IssueTokensForUser(AuthUser(user.id, if user.email.Some? then user.email.value else email, user.role),
                                         nowMs, fallbackIo.jti, fallbackIo.saveError);
        if tokens.Err? {
          return Err(App(Normalize(tokens.error, VerifyFallback)));
        }
        return Ok(Session(tokens.value, true));
    }
  }

  // ---------------------------------------------------------- loop lemmas

  /** The page loop reaches a failing page only after scanning exactly the
      users the listing can show. */
  lemma ScanStopsAtFailure(dir: Directory, page: nat, lo: nat)
    requires page >= 1 && lo == (page - 1) * PerPage && lo <= ScanLimit(dir)
    requires dir.failsFromPage.Some? && page >= dir.failsFromPage.value
    ensures ScanLimit(dir) == lo
  {
    var f := dir.failsFromPage.value;
    if f > 0 {
      assert (f - 1) * PerPage <= (page - 1) * PerPage;
    }
  }

  /** A page the loop fetches successfully lies within the scanned prefix. */
  lemma ScanCoversPage(dir: Directory, page: nat, lo: nat, hi: nat)
    requires page >= 1 && lo == (page - 1) * PerPage && lo <= ScanLimit(dir)
    requires !(dir.failsFromPage.Some? && page >= dir.failsFromPage.value)
    requires hi == (if lo + PerPage < |dir.users| then lo + PerPage else |dir.users|)
    ensures lo <= hi <= ScanLimit(dir)
  {
    if dir.failsFromPage.Some? {
      var f := dir.failsFromPage.value;
      assert page + 1 <= f;
      assert lo + PerPage == page * PerPage <= (f - 1) * PerPage;
    }
  }

  /** The loop returns the user it finds on a page after misses on every
      earlier page: that is the lookup's answer. */
  lemma {:induction false} ScanFinds<T>(s: seq<T>, n: nat, lo: nat, hi: nat, p: T -> bool)
    requires lo <= hi <= n <= |s|
    requires FirstMatch(s[..lo], p).None?
    requires FirstMatch(s[lo..hi], p).Some?
    ensures Find(s[..n], p) == Some(s[lo..hi][FirstMatch(s[lo..hi], p).value])
  {
    FirstMatchWithin(s, n, lo, hi, p);
  }

  /** Whatever `FirstMatch` answers is the unique first match. */
  lemma {:induction false} FirstMatchIs<T>(s: seq<T>, k: nat, p: T -> bool)
    requires k < |s| && p(s[k])
    requires forall j | 0 <= j < k :: !p(s[j])
    ensures FirstMatch(s, p) == Some(k)
  {
  }

  /** A first match inside `s[lo..hi]` after no match in `s[..lo]` is the first
      match of `s`. */
  lemma {:induction false} FirstMatchAfterMisses<T>(s: seq<T>, lo: nat, hi: nat, p: T -> bool)
    requires lo <= hi <= |s|
    requires FirstMatch(s[..lo], p).None?
    requires FirstMatch(s[lo..hi], p).Some?
    ensures FirstMatch(s, p) == Some(lo + FirstMatch(s[lo..hi], p).value)
  {
    var before, page := s[..lo], s[lo..hi];
    var i := FirstMatch(page, p).value;
    assert page[i] == s[lo + i];
    forall j | 0 <= j < lo + i
      ensures !p(s[j])
    {
      if j < lo {
        assert before[j] == s[j];
      } else {
        assert page[j - lo] == s[j];
      }
    }
    FirstMatchIs(s, lo + i, p);
  }

  /** The same, seen from a prefix `s[..n]` that contains the page. */
  lemma {:induction false} FirstMatchWithin<T>(s: seq<T>, n: nat, lo: nat, hi: nat, p: T -> bool)
    requires lo <= hi <= n <= |s|
    requires FirstMatch(s[..lo], p).None?
    requires FirstMatch(s[lo..hi], p).Some?
    ensures FirstMatch(s[..n], p) == Some(lo + FirstMatch(s[lo..hi], p).value)
    ensures s[..n][lo + FirstMatch(s[lo..hi], p).value] == s[lo..hi][FirstMatch(s[lo..hi], p).value]
  {
    var seen := s[..n];
    assert seen[..lo] == s[..lo] && seen[lo..hi] == s[lo..hi];
    FirstMatchAfterMisses(seen, lo, hi, p);
  }

  /** No match in `s[..lo]` nor in `s[lo..hi]` is no match in `s[..hi]`. */
  lemma {:induction false} NoMatchExtends<T>(s: seq<T>, lo: nat, hi: nat, p: T -> bool)
    requires lo <= hi <= |s|
    requires FirstMatch(s[..lo], p).None?
    requires FirstMatch(s[lo..hi], p).None?
    ensures FirstMatch(s[..hi], p).None?
  {
    forall j | 0 <= j < hi
      ensures !p(s[..hi][j])
    {
      if j < lo {
        assert s[..lo][j] == s[j];
      } else {
        assert s[lo..hi][j - lo] == s[j];
      }
    }
  }
}
