/** What the authentication flows promise, stated over the specification
    functions that `AuthService`'s methods are proved equal to. */
module AuthProofs {
  import opened Common
  import opened Errors
  import opened Tokens
  import opened RefreshTokens
  import opened Profiles
  import opened Auth

  /** The code of an AppError outcome, or the empty string. */
  function CodeOf<T>(o: Outcome<T>): string
  {
    if o.result.Err? && o.result.error.App? then o.result.error.app.code else ""
  }

  /** A record that still admits a refresh with the token it was issued for. */
  predicate Live(rows: Rows, id: string)
  {
    id in rows && !rows[id].revoked
  }

  // --------------------------------------------------------------- issuance

  /** Issuance either stores exactly one new record, for the returned refresh
      token (its `jti`, its hash, its expiry, the user, live), and returns a
      pair that verifies at once; or it fails with `token_issue_failed` and
      stores nothing. It fails exactly when the store refuses the insert. */
  lemma IssueStoresRecord(k: Hs256, w: World, user: AuthUser, nowMs: int, jti: string, saveError: Option<string>)
    requires WorldValid(w)
    ensures var o := Issued(k, w, user, nowMs, jti, saveError);
      && (o.result.Ok? <==> saveError.None? && jti !in w.tokens)
      && (o.result.Ok? ==>
            var pair := o.result.value;
            && pair.refreshTokenId == jti
            && o.world.tokens == w.tokens[jti := Record(jti, user.id, HashToken(k, pair.refreshToken),
                                                        pair.refreshExpiresAt, false, None)]
            && VerifyRefreshToken(k, pair.refreshToken, nowMs).Ok?
            && VerifyRefreshToken(k, pair.refreshToken, nowMs).value.jti == Some(jti)
            && VerifyAccessToken(k, pair.accessToken, nowMs).Ok?
            && pair.refreshExpiresAt - nowMs == RefreshTtlSeconds * 1000
            && pair.accessExpiresAt - nowMs == AccessTtlSeconds * 1000)
      && (o.result.Err? ==>
            && o.world == w
            && o.result.error.App?
            && o.result.error.app.code == "token_issue_failed"
            && o.result.error.app.status == 500)
  {
    RefreshRoundTrip(k, user, nowMs, nowMs, jti);
    AccessRoundTrip(k, user, nowMs, nowMs);
  }

  // ------------------------------------------------------- refresh rotation

  /** The checks before any write: a missing cookie, a token that does not
      verify, a store read error, an unknown `jti` and a revoked record each
      end the call without touching the tables. */
  lemma RefreshRejectsWithoutWriting(k: Hs256, w: World, cookie: Option<Compact>, nowMs: int, io: RefreshIo)
    requires WorldValid(w)
    ensures var o := Refreshed(k, w, cookie, nowMs, io);
      && (MissingCookie(cookie) ==>
            o == Outcome(Err(App(Fail("Refresh token missing", 401, "refresh_token_missing"))), w))
      && (!MissingCookie(cookie) && VerifyRefreshToken(k, cookie.value, nowMs).Err? ==>
            o.world == w && CodeOf(o) == "invalid_refresh_token" && o.result.error.app.status == 401)
      && (!MissingCookie(cookie) && VerifyRefreshToken(k, cookie.value, nowMs).Ok? ==>
            var jti := cookie.value.claims.jti.value;
            && (io.getError.Some? ==> o.world == w && o.result.Err? && o.result.error.Plain?)
            && (io.getError.None? && jti !in w.tokens ==>
                  o.world == w && CodeOf(o) == "refresh_token_not_found")
            && (io.getError.None? && jti in w.tokens && w.tokens[jti].revoked ==>
                  o.world == w && CodeOf(o) == "refresh_token_revoked"))
  {
  }

  /** An expired record, or a token whose hash differs from the stored one,
      revokes that record (without a replacement) and fails; nothing is
      issued. When the revocation itself fails, its error is thrown instead
      and nothing changes. */
  lemma RefreshRevokesOnExpiryOrMismatch(k: Hs256, w: World, cookie: Option<Compact>, nowMs: int, io: RefreshIo)
    requires WorldValid(w)
    requires !MissingCookie(cookie) && VerifyRefreshToken(k, cookie.value, nowMs).Ok?
    requires io.getError.None?
    requires Live(w.tokens, cookie.value.claims.jti.value)
    requires var record := w.tokens[cookie.value.claims.jti.value];
      record.expiresAt < nowMs || HashToken(k, cookie.value) != record.tokenHash
    ensures var o := Refreshed(k, w, cookie, nowMs, io);
      var jti := cookie.value.claims.jti.value;
      && (io.revokeError.None? ==>
            && o.world.tokens == RevokedRows(w.tokens, jti, None)
            && o.world.tokens.Keys == w.tokens.Keys
            && o.world.tokens[jti].revoked
            && (if w.tokens[jti].expiresAt < nowMs then CodeOf(o) == "refresh_token_expired"
                else CodeOf(o) == "refresh_token_mismatch"))
      && (io.revokeError.Some? ==>
            o == Outcome(Err(Plain("Failed to revoke refresh token: " + io.revokeError.value)), w))
  {
  }

  /** The conditions under which a refresh succeeds. */
  predicate RotationAllowed(k: Hs256, w: World, cookie: Option<Compact>, nowMs: int, io: RefreshIo)
  {
    && !MissingCookie(cookie)
    && VerifyRefreshToken(k, cookie.value, nowMs).Ok?
    && Live(w.tokens, cookie.value.claims.jti.value)
    && nowMs <= w.tokens[cookie.value.claims.jti.value].expiresAt
    && HashToken(k, cookie.value) == w.tokens[cookie.value.claims.jti.value].tokenHash
    && io.getError.None? && io.profileError.None? && io.saveError.None? && io.revokeError.None?
    && io.jti !in w.tokens
  }

  /** A refresh succeeds exactly when every check passes and every write
      lands. Then the table gains exactly one record, live and holding the
      new refresh token's hash, and the presented record is revoked with
      `replaced_by` pointing to it; nothing else changes. */
  lemma RefreshRotates(k: Hs256, w: World, cookie: Option<Compact>, nowMs: int, io: RefreshIo)
    requires WorldValid(w)
    ensures var o := Refreshed(k, w, cookie, nowMs, io);
      && (o.result.Ok? <==> RotationAllowed(k, w, cookie, nowMs, io))
      && (o.result.Ok? ==>
            var presented := cookie.value.claims.jti.value;
            var pair := o.result.value;
            && pair.refreshTokenId == io.jti && io.jti != presented
            && o.world.tokens.Keys == w.tokens.Keys + {io.jti}
            && Live(o.world.tokens, io.jti)
            && o.world.tokens[io.jti].tokenHash == HashToken(k, pair.refreshToken)
            && o.world.tokens[io.jti].userId == cookie.value.claims.sub
            && o.world.tokens[io.jti].replacedBy.None?
            && o.world.tokens[presented].revoked
            && (io.jti != "" ==> o.world.tokens[presented].replacedBy == Some(io.jti))
            && (forall id | id in w.tokens && id != presented :: o.world.tokens[id] == w.tokens[id]))
  {
    var o := Refreshed(k, w, cookie, nowMs, io);
    if RotationAllowed(k, w, cookie, nowMs, io) {
      var payload := VerifyRefreshToken(k, cookie.value, nowMs).value;
      var profile := Fetched(w.profiles, payload.sub, None).value;
      var role := if profile.Some? && profile.value.role.Some? then profile.value.role else payload.role;
      IssueStoresRecord(k, w, AuthUser(payload.sub, payload.email, role), nowMs, io.jti, io.saveError);
    }
  }

  /** The new pair carries the profile's role when the profile has one, and
      the presented token's role otherwise. */
  lemma RefreshRereadsRole(k: Hs256, w: World, cookie: Option<Compact>, nowMs: int, io: RefreshIo)
    requires WorldValid(w)
    requires Refreshed(k, w, cookie, nowMs, io).result.Ok?
    ensures var claims := Refreshed(k, w, cookie, nowMs, io).result.value.refreshToken.claims;
      var sub := cookie.value.claims.sub;
      && claims.sub == sub
      && claims.email == cookie.value.claims.email
      && claims.role == (if sub in w.profiles && w.profiles[sub].role.Some? then w.profiles[sub].role
                         else cookie.value.claims.role)
  {
    RefreshRotates(k, w, cookie, nowMs, io);
  }

  /** Every refresh outcome, successful or not, is a legal evolution of the
      token table, adds at most the new `jti`, and leaves profiles alone. */
  lemma RefreshIsSuccessor(k: Hs256, w: World, cookie: Option<Compact>, nowMs: int, io: RefreshIo)
    requires WorldValid(w)
    ensures var o := Refreshed(k, w, cookie, nowMs, io);
      && Successor(w.tokens, o.world.tokens)
      && o.world.tokens.Keys <= w.tokens.Keys + {io.jti}
      && o.world.profiles == w.profiles
  {
    if RotationAllowed(k, w, cookie, nowMs, io) {
      var payload := VerifyRefreshToken(k, cookie.value, nowMs).value;
      var profile := Fetched(w.profiles, payload.sub, None).value;
      var role := if profile.Some? && profile.value.role.Some? then profile.value.role else payload.role;
      var issued := Issued(k, w, AuthUser(payload.sub, payload.email, role), nowMs, io.jti, io.saveError);
      var after := RevokedRows(issued.world.tokens, payload.jti.value, Some(io.jti));
      RevokeIsSuccessor(issued.world.tokens, payload.jti.value, Some(io.jti));
      SuccessorTransitive(w.tokens, issued.world.tokens, after);
    }
  }

  /** The stored hash binds a record to the token it was issued with: a
      later refresh naming that record succeeds only with a token whose hash
      is the hash of the issued refresh token. */
  lemma RefreshNeedsIssuedHash(k: Hs256, w: World, user: AuthUser, issuedMs: int, jti: string,
                               cookie: Option<Compact>, nowMs: int, io: RefreshIo)
    requires WorldValid(w)
    requires Issued(k, w, user, issuedMs, jti, None).result.Ok?
    requires !MissingCookie(cookie) && cookie.value.Jws? && cookie.value.claims.jti == Some(jti)
    requires Refreshed(k, Issued(k, w, user, issuedMs, jti, None).world, cookie, nowMs, io).result.Ok?
    ensures HashToken(k, cookie.value) == HashToken(k, Issued(k, w, user, issuedMs, jti, None).result.value.refreshToken)
  {
    var w1 := Issued(k, w, user, issuedMs, jti, None).world;
    IssueStoresRecord(k, w, user, issuedMs, jti, None);
    RefreshRotates(k, w1, cookie, nowMs, io);
  }

  /** Replay: once a refresh has rotated a token, presenting that same token
      again never succeeds; when it still verifies and the store answers, it
      is refused as revoked and nothing changes. */
  lemma ReplayIsRefused(k: Hs256, w: World, cookie: Option<Compact>, now1: int, io1: RefreshIo, now2: int, io2: RefreshIo)
    requires WorldValid(w)
    requires Refreshed(k, w, cookie, now1, io1).result.Ok?
    ensures var w1 := Refreshed(k, w, cookie, now1, io1).world;
      var o := Refreshed(k, w1, cookie, now2, io2);
      && o.result.Err?
      && (VerifyRefreshToken(k, cookie.value, now2).Ok? && io2.getError.None? ==>
            CodeOf(o) == "refresh_token_revoked" && o.world == w1)
  {
    RefreshRotates(k, w, cookie, now1, io1);
    var w1 := Refreshed(k, w, cookie, now1, io1).world;
    RefreshRotates(k, w1, cookie, now2, io2);
  }

  /** The record-expiry check can never fire for a token that verifies: the
      token was stored with an expiry (milliseconds) no earlier than the end
      of the second its own `exp` claim names. */
  lemma {:induction false} RecordExpiryFollowsTokenExpiry(k: Hs256, w: World, user: AuthUser, issuedMs: int, jti: string,
                                                          nowMs: int)
    requires WorldValid(w)
    requires Issued(k, w, user, issuedMs, jti, None).result.Ok?
    requires VerifyRefreshToken(k, Issued(k, w, user, issuedMs, jti, None).result.value.refreshToken, nowMs).Ok?
    ensures var o := Issued(k, w, user, issuedMs, jti, None);
      !(o.world.tokens[jti].expiresAt < nowMs)
  {
    IssueStoresRecord(k, w, user, issuedMs, jti, None);
    RefreshRoundTrip(k, user, issuedMs, nowMs, jti);
    JwtExpiryWithinExpiresAt(issuedMs, nowMs, RefreshTtlSeconds);
  }

  /** The token a refresh hands out rotates in turn: presented before its
      expiry, with the store answering, it is accepted. */
  lemma {:induction false} RotatedTokenRotatesAgain(k: Hs256, w: World, cookie: Option<Compact>, now1: int, io1: RefreshIo,
                                                    now2: int, io2: RefreshIo)
    requires WorldValid(w)
    requires Refreshed(k, w, cookie, now1, io1).result.Ok?
    requires now1 <= now2 && EpochSeconds(now2) < EpochSeconds(now1) + RefreshTtlSeconds
    requires io2.getError.None? && io2.profileError.None? && io2.saveError.None? && io2.revokeError.None?
    requires io2.jti !in Refreshed(k, w, cookie, now1, io1).world.tokens
    ensures var o1 := Refreshed(k, w, cookie, now1, io1);
      Refreshed(k, o1.world, Some(o1.result.value.refreshToken), now2, io2).result.Ok?
  {
    var o1 := Refreshed(k, w, cookie, now1, io1);
    RefreshRotates(k, w, cookie, now1, io1);
    var payload := VerifyRefreshToken(k, cookie.value, now1).value;
    var profile := Fetched(w.profiles, payload.sub, None).value;
    var role := if profile.Some? && profile.value.role.Some? then profile.value.role else payload.role;
    var user := AuthUser(payload.sub, payload.email, role);
    var pair := o1.result.value;
    assert pair.refreshToken == CreateRefreshToken(k, user, now1, io1.jti).token;
    RefreshRoundTrip(k, user, now1, now2, io1.jti);
    JwtExpiryWithinExpiresAt(now1, now2, RefreshTtlSeconds);
    RefreshRotates(k, o1.world, Some(pair.refreshToken), now2, io2);
  }

  // ---------------------------------------------------------- rotation chain

  /** `ids` is a rotation chain in `rows`: distinct records, each revoked and
      pointing to the next, and only the last one live. */
  predicate Chain(rows: Rows, ids: seq<string>)
  {
    && |ids| >= 1
    && (forall i | 0 <= i < |ids| :: ids[i] in rows)
    && (forall i, j | 0 <= i < j < |ids| :: ids[i] != ids[j])
    && (forall i | 0 <= i < |ids| - 1 :: rows[ids[i]].revoked && rows[ids[i]].replacedBy == Some(ids[i + 1]))
    && !rows[ids[|ids| - 1]].revoked
  }

  /** A successful refresh with the chain's live token extends the chain by
      the new `jti`: after N rotations from one token the chain has N + 1
      records, N revoked, and the `replaced_by` links lead from the first to the live
      one in N steps. */
  lemma {:induction false} RotationExtendsChain(k: Hs256, w: World, ids: seq<string>, cookie: Option<Compact>, nowMs: int,
                                                io: RefreshIo)
    requires WorldValid(w) && Chain(w.tokens, ids)
    requires Refreshed(k, w, cookie, nowMs, io).result.Ok?
    requires cookie.value.claims.jti == Some(ids[|ids| - 1])
    requires io.jti != ""
    ensures Chain(Refreshed(k, w, cookie, nowMs, io).world.tokens, ids + [io.jti])
  {
    RefreshRotates(k, w, cookie, nowMs, io);
    var rows := Refreshed(k, w, cookie, nowMs, io).world.tokens;
    var ext := ids + [io.jti];
    var last := ids[|ids| - 1];
    forall i | 0 <= i < |ext| - 1
      ensures rows[ext[i]].revoked && rows[ext[i]].replacedBy == Some(ext[i + 1])
    {
      if i < |ids| - 1 {
        assert ext[i] == ids[i] != last;
      }
    }
  }

  // ------------------------------------------------------------------ logout

  /** Logout revokes the presented token's record (keeping any replacement
      link) when the token verifies and the write lands, and changes
      nothing otherwise; a later refresh with that token is refused. */
  lemma LogoutRevokes(k: Hs256, w: World, cookie: Option<Compact>, nowMs: int, revokeError: Option<string>,
                      later: int, io: RefreshIo)
    requires WorldValid(w)
    ensures var w1 := LoggedOut(k, w, cookie, nowMs, revokeError);
      && Successor(w.tokens, w1.tokens)
      && (if !MissingCookie(cookie) && revokeError.None? && VerifyRefreshToken(k, cookie.value, nowMs).Ok?
          then w1.tokens == RevokedRows(w.tokens, cookie.value.claims.jti.value, None)
          else w1 == w)
      && (!MissingCookie(cookie) && revokeError.None? && VerifyRefreshToken(k, cookie.value, nowMs).Ok?
          ==> Refreshed(k, w1, cookie, later, io).result.Err?)
  {
    if !MissingCookie(cookie) && revokeError.None? && VerifyRefreshToken(k, cookie.value, nowMs).Ok? {
      RevokeIsSuccessor(w.tokens, cookie.value.claims.jti.value, None);
    }
  }

  // ------------------------------------------------------------------ lookup

  /** What the lookup returns is a profile hit or a listed user whose e-mail
      matches ignoring case, and no earlier listed user matches. */
  lemma FindUserSound(email: string, probe: ProfileProbe, dir: Directory)
    ensures var r := FindUser(email, probe, dir);
      r.Some? ==>
        || (probe.ProbeHit? && r.value == IdpUser(probe.id, Some(email), None))
        || (!probe.ProbeHit? && exists i | 0 <= i < |dir.users| ::
              dir.users[i] == r.value && Matches(r.value, email)
              && forall j | 0 <= j < i :: !Matches(dir.users[j], email))
  {
    var r := FindUser(email, probe, dir);
    if r.Some? && !probe.ProbeHit? {
      var seen := dir.users[..ScanLimit(dir)];
      var i := FirstMatch(seen, SameEmail(email)).value;
      assert seen[i] == dir.users[i];
      forall j | 0 <= j < i
        ensures !Matches(dir.users[j], email)
      {
        assert seen[j] == dir.users[j];
        assert !SameEmail(email)(seen[j]);
      }
      assert SameEmail(email)(seen[i]);
    }
  }

  /** When the probe misses and every listing call succeeds, a listed user
      with a matching e-mail is always found. */
  lemma FindUserComplete(email: string, probe: ProfileProbe, dir: Directory, u: IdpUser)
    requires dir.failsFromPage.None?
    requires u in dir.users && Matches(u, email)
    ensures FindUser(email, probe, dir).Some?
  {
    if !probe.ProbeHit? {
      var i :| 0 <= i < |dir.users| && dir.users[i] == u;
      assert dir.users[..ScanLimit(dir)] == dir.users;
      assert SameEmail(email)(dir.users[i]);
    }
  }

  // ----------------------------------------------------------------- sign-up

  /** Sign-up fails only when the invitation path fails and the lookup finds
      nobody; it then fails with `signup_failed`/500 and writes nothing.
      Otherwise it returns the invited or the found user's id. */
  lemma SignUpFailsOnlyWithoutUser(w: World, email: string, invite: InviteOutcome, inviteEnsureError: Option<string>,
                                   probe: ProfileProbe, dir: Directory, fallbackEnsureError: Option<string>)
    requires WorldValid(w)
    ensures var o := SignedUp(w, email, invite, inviteEnsureError, probe, dir, fallbackEnsureError);
      var invited := invite.Invited? && inviteEnsureError.None?;
      && (o.result.Err? <==> !invited && FindUser(email, probe, dir).None?)
      && (o.result.Err? ==> o.world == w && CodeOf(o) == "signup_failed" && o.result.error.app.status == 500)
      && (o.result.Ok? && invited ==> o.result.value == invite.user.id && invite.user.id in o.world.profiles)
      && (o.result.Ok? && !invited ==> o.result.value == FindUser(email, probe, dir).value.id)
      && o.world.tokens == w.tokens
  {
  }

  // ----------------------------------------------------- e-mail verification

  /** A session that ensure-load-issue hands out is backed by a live record of
      its refresh token and by a profile for the user; failures keep the
      token table as it was. */
  lemma ProvisionedIsLive(k: Hs256, w: World, user: IdpUser, email: string, nowMs: int, io: ProvisionIo)
    requires WorldValid(w)
    ensures var o := Provisioned(k, w, user, email, nowMs, io);
      && Successor(w.tokens, o.world.tokens)
      && (o.result.Err? ==> o.world.tokens == w.tokens)
      && (o.result.Ok? ==>
            var pair := o.result.value.tokens;
            && Live(o.world.tokens, pair.refreshTokenId)
            && o.world.tokens[pair.refreshTokenId].tokenHash == HashToken(k, pair.refreshToken)
            && o.world.tokens[pair.refreshTokenId].userId == user.id
            && user.id in o.world.profiles
            && (o.result.value.needsDisplayName <==> !TruthyText(o.world.profiles[user.id].displayName)))
  {
    var o := Provisioned(k, w, user, email, nowMs, io);
    if io.ensureError.None? && io.getError.None? {
      var w1 := w.(profiles := Upserted(w.profiles, user.id, user.email));
      var au := AuthUser(user.id, if user.email.Some? then user.email.value else email, user.role);
      IssueStoresRecord(k, w1, au, nowMs, io.jti, io.saveError);
    }
  }

  /** The same for the creation fallback; a new user always needs a display
      name. */
  lemma CreatedSessionIsLive(k: Hs256, w: World, email: string, create: CreateOutcome, nowMs: int, io: ProvisionIo)
    requires WorldValid(w)
    ensures var o := CreatedSession(k, w, email, create, nowMs, io);
      && Successor(w.tokens, o.world.tokens)
      && (o.result.Err? ==> o.world.tokens == w.tokens)
      && (o.result.Ok? ==>
            var pair := o.result.value.tokens;
            && create.Created?
            && o.result.value.needsDisplayName
            && Live(o.world.tokens, pair.refreshTokenId)
            && o.world.tokens[pair.refreshTokenId].tokenHash == HashToken(k, pair.refreshToken)
            && create.user.id in o.world.profiles)
  {
    if create.Created? && io.ensureError.None? {
      var user := create.user;
      var w1 := w.(profiles := Upserted(w.profiles, user.id, user.email));
      var au := AuthUser(user.id, if user.email.Some? then user.email.value else email, user.role);
      IssueStoresRecord(k, w1, au, nowMs, io.jti, io.saveError);
    }
  }

  /** Whatever path `verifyEmail` takes, a session it returns is backed by a
      live record of its refresh token, and the token table only evolves
      legally. */
  lemma VerifiedSessionIsLive(k: Hs256, w: World, email: string, nowMs: int, otp: OtpOutcome, otpIo: ProvisionIo,
                              probe: ProfileProbe, dir: Directory, create: CreateOutcome, fallbackIo: ProvisionIo)
    requires WorldValid(w)
    ensures var o := VerifiedEmail(k, w, email, nowMs, otp, otpIo, probe, dir, create, fallbackIo);
      && Successor(w.tokens, o.world.tokens)
      && (o.result.Ok? ==>
            && Live(o.world.tokens, o.result.value.tokens.refreshTokenId)
            && o.world.tokens[o.result.value.tokens.refreshTokenId].tokenHash
               == HashToken(k, o.result.value.tokens.refreshToken))
  {
    var first := if otp.OtpVerified? then Provisioned(k, w, otp.user, email, nowMs, otpIo) else Outcome(Err(NonError(false)), w);
    if otp.OtpVerified? {
      ProvisionedIsLive(k, w, otp.user, email, nowMs, otpIo);
    }
    if first.result.Err? {
      FallbackSessionIsLive(k, first.world, email, nowMs, probe, dir, create, fallbackIo);
      SuccessorTransitive(w.tokens, first.world.tokens,
                          FallbackSession(k, first.world, email, nowMs, probe, dir, create, fallbackIo).world.tokens);
    }
  }

  /** The fallback flow on its own: a session it returns is backed by a live
      record of its refresh token. */
  lemma FallbackSessionIsLive(k: Hs256, w: World, email: string, nowMs: int, probe: ProfileProbe, dir: Directory,
                              create: CreateOutcome, io: ProvisionIo)
    requires WorldValid(w)
    ensures var o := FallbackSession(k, w, email, nowMs, probe, dir, create, io);
      && Successor(w.tokens, o.world.tokens)
      && (o.result.Ok? ==>
            && Live(o.world.tokens, o.result.value.tokens.refreshTokenId)
            && o.world.tokens[o.result.value.tokens.refreshTokenId].tokenHash
               == HashToken(k, o.result.value.tokens.refreshToken))
  {
    match FindUser(email, probe, dir)
    case Some(found) =>
      ProvisionedIsLive(k, w, found, email, nowMs, io);
    case None =>
      CreatedSessionIsLive(k, w, email, create, nowMs, io);
  }

  /** When neither the OTP path nor the lookup yields a user and creation
      fails, the error is `verification_failed`/400; a profile write failing
      after creation keeps its own `profile_upsert_failed`. */
  lemma VerifyCreateFailures(k: Hs256, w: World, email: string, nowMs: int, otp: OtpOutcome, otpIo: ProvisionIo,
                             probe: ProfileProbe, dir: Directory, create: CreateOutcome, fallbackIo: ProvisionIo)
    requires WorldValid(w)
    requires !otp.OtpVerified? && FindUser(email, probe, dir).None?
    ensures var o := VerifiedEmail(k, w, email, nowMs, otp, otpIo, probe, dir, create, fallbackIo);
      && (!create.Created? ==>
            o.world == w && CodeOf(o) == "verification_failed" && o.result.error.app.status == 400
            && o.result.error.app.message == "Failed to verify email")
      && (create.Created? && fallbackIo.ensureError.Some? ==>
            o.world == w && CodeOf(o) == "profile_upsert_failed" && o.result.error.app.status == 500)
      && (o.result.Ok? ==> o.result.value.needsDisplayName)
  {
  }

  /** A successful OTP path is final: the lookup and creation fallbacks are
      never consulted, and the session is for the OTP user. */
  lemma OtpPathTakesPrecedence(k: Hs256, w: World, email: string, nowMs: int, otp: OtpOutcome, otpIo: ProvisionIo,
                               probe: ProfileProbe, dir: Directory, create: CreateOutcome, fallbackIo: ProvisionIo)
    requires WorldValid(w)
    requires otp.OtpVerified? && otpIo.ensureError.None? && otpIo.getError.None? && otpIo.saveError.None?
    requires otpIo.jti !in w.tokens
    ensures var o := VerifiedEmail(k, w, email, nowMs, otp, otpIo, probe, dir, create, fallbackIo);
      && o == Provisioned(k, w, otp.user, email, nowMs, otpIo)
      && o.result.Ok?
      && o.result.value.tokens.refreshToken.claims.sub == otp.user.id
  {
    var w1 := w.(profiles := Upserted(w.profiles, otp.user.id, otp.user.email));
    var au := AuthUser(otp.user.id, if otp.user.email.Some? then otp.user.email.value else email, otp.user.role);
    IssueStoresRecord(k, w1, au, nowMs, otpIo.jti, otpIo.saveError);
  }
}
