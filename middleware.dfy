/** The bearer-token middleware for the identity provider's own access
    tokens: it extracts the token from the `Authorization` header, asks the
    provider for its user, loads the profile, refuses disabled accounts and
    records the caller on the request context. The provider's and the
    database's answers are parameters. */
module Middleware {
  import opened Common
  import opened Profiles

  /** A provider user as the middleware sees it. */
  datatype ProviderUser = ProviderUser(id: string, email: Option<string>)

  /** `auth.getUser(token)`'s answer. */
  datatype UserLookup = UserLookupFailed(message: string) | NoUser | UserFound(user: ProviderUser)

  /** The profile query's answer: an error with its PostgREST code, or the
      row (none when there is no profile). */
  datatype ProfileQuery = QueryFailed(code: string) | Row(profile: Option<Profile>)

  /** An `HTTPException`. */
  datatype HttpError = HttpError(status: int, message: string)

  /** The PostgREST code for "no rows", which is not treated as a failure. */
  const NoRowsCode: string := "PGRST116"

  /** `String.prototype.split(" ")`: the pieces between single spaces,
      empty pieces included; there is always at least one. */
  function Split(s: string): (parts: seq<string>)
    ensures |parts| >= 1
    ensures forall i | 0 <= i < |parts| :: ' ' !in parts[i]
  {
    if s == [] then [""]
    else if s[0] == ' ' then [""] + Split(s[1..])
    else
      var rest := Split(s[1..]);
      [[s[0]] + rest[0]] + rest[1..]
  }

  /** Joining the pieces with single spaces, the inverse of `Split`. */
  function Join(parts: seq<string>): string
    requires |parts| >= 1
  {
    if |parts| == 1 then parts[0] else parts[0] + " " + Join(parts[1..])
  }

  /** `getBearerToken`: the second space-separated piece when the first is
      `bearer` in any letter case and neither is empty. */
  function GetBearerToken(header: Option<string>): (token: Option<string>)
    ensures token.Some? ==> header.Some? && token.value != "" && ' ' !in token.value
  {
    if header.None? || header.value == "" then None
    else
      var parts := Split(header.value);
      var scheme := parts[0];
      var token := if |parts| > 1 then parts[1] else "";
      if scheme == "" || Lower(scheme) != "bearer" || token == "" then None
      else Some(token)
  }

  /** `authMiddleware`'s decision: the error it throws, or the user and
      profile it records. */
  function Admission(header: Option<string>, lookup: UserLookup, query: ProfileQuery)
    : (r: Result<(ProviderUser, Option<Profile>), HttpError>)
    ensures r.Err? ==> r.error.status in {401, 403, 500}
    ensures r.Ok? ==> r.value.1.None? || !r.value.1.value.isDisabled
    ensures GetBearerToken(header).None? ==> r == Err(HttpError(401, "Missing or invalid Authorization header"))
    ensures GetBearerToken(header).Some? && !lookup.UserFound? ==>
              r == Err(HttpError(401, "Unable to validate access token"))
    ensures GetBearerToken(header).Some? && lookup.UserFound? && query.Row?
            && (query.profile.None? || !query.profile.value.isDisabled) ==>
              r == Ok((lookup.user, query.profile))
    ensures r.Ok? <==>
              && GetBearerToken(header).Some? && lookup.UserFound?
              && (query.QueryFailed? ==> query.code == NoRowsCode)
              && (query.Row? && query.profile.Some? ==> !query.profile.value.isDisabled)
  {
    if GetBearerToken(header).None? then Err(HttpError(401, "Missing or invalid Authorization header"))
    else if !lookup.UserFound? then Err(HttpError(401, "Unable to validate access token"))
    else if query.QueryFailed? && query.code != NoRowsCode then Err(HttpError(500, "Failed to fetch profile"))
    else
      var profile := if query.Row? then query.profile else None;
      if profile.Some? && profile.value.isDisabled then Err(HttpError(403, "Account is disabled"))
      else Ok((lookup.user, profile))
  }

  /** The per-request variables the middleware sets. */
  class RequestContext {
    var supabaseUser: Option<ProviderUser>
    var profile: Option<Profile>
    var isAdmin: bool

    constructor ()
      ensures supabaseUser.None? && profile.None? && !isAdmin
    {
      supabaseUser := None;
      profile := None;
      isAdmin := false;
    }

    /** `authMiddleware` up to `next()`. */
    method AuthMiddleware(header: Option<string>, lookup: UserLookup, query: ProfileQuery) returns (r: Result<(), HttpError>)
      modifies this
      ensures var a := Admission(header, lookup, query);
        && (r.Ok? <==> a.Ok?)
        && (r.Err? ==> r.error == a.error && unchanged(this))
        && (r.Ok? ==> supabaseUser == Some(a.value.0) && profile == a.value.1 && !isAdmin)
    {
      var token := GetBearerToken(header);
      if token.None? {
        return Err(HttpError(401, "Missing or invalid Authorization header"));
      }
      if !lookup.UserFound? {
        return Err(HttpError(401, "Unable to validate access token"));
      }
      if query.QueryFailed? && query.code != NoRowsCode {
        return Err(HttpError(500, "Failed to fetch profile"));
      }
      var row := if query.Row? then query.profile else None;
      if row.Some? && row.value.isDisabled {
        return Err(HttpError(403, "Account is disabled"));
      }
      supabaseUser := Some(lookup.user);
      profile := row;
      isAdmin := false;
      return Ok(());
    }
  }

  /** Splitting undoes joining: pieces without spaces come back unchanged. */
  lemma {:induction false} SplitJoin(parts: seq<string>)
    requires |parts| >= 1
    requires forall i | 0 <= i < |parts| :: ' ' !in parts[i]
    ensures Split(Join(parts)) == parts
  {
    if |parts| == 1 {
      SplitNoSpace(parts[0]);
    } else {
      SplitJoin(parts[1..]);
      SplitAfterWord(parts[0], Join(parts[1..]));
    }
  }

  /** A string without spaces is one piece. */
  lemma {:induction false} SplitNoSpace(s: string)
    requires ' ' !in s
    ensures Split(s) == [s]
  {
    if s != [] {
      assert ' ' !in s[1..] by {
        forall i | 0 <= i < |s[1..]| ensures s[1..][i] != ' ' { assert s[1..][i] == s[i + 1]; }
      }
      SplitNoSpace(s[1..]);
      assert [s[0]] + s[1..] == s;
    }
  }

  /** A word followed by a space is the first piece. */
  lemma {:induction false} SplitAfterWord(w: string, rest: string)
    requires ' ' !in w
    ensures Split(w + " " + rest) == [w] + Split(rest)
  {
    if w == [] {
      assert w + " " + rest == [' '] + rest;
      assert ([' '] + rest)[1..] == rest;
    } else {
      var s := w + " " + rest;
      assert s[0] == w[0];
      assert s[1..] == w[1..] + " " + rest;
      assert ' ' !in w[1..] by {
        forall i | 0 <= i < |w[1..]| ensures w[1..][i] != ' ' { assert w[1..][i] == w[i + 1]; }
      }
      SplitAfterWord(w[1..], rest);
      assert [w[0]] + w[1..] == w;
    }
  }

  /** `Authorization: <scheme> <token>[ <anything>]` yields the token when the
      scheme is `bearer` in any letter case. */
  lemma BearerRoundTrip(scheme: string, token: string, rest: string)
    requires ' ' !in scheme && ' ' !in token && token != ""
    requires Lower(scheme) == "bearer"
    ensures GetBearerToken(Some(scheme + " " + token)) == Some(token)
    ensures GetBearerToken(Some(scheme + " " + token + " " + rest)) == Some(token)
  {
    SplitAfterWord(scheme, token);
    SplitNoSpace(token);
    assert scheme + " " + token + " " + rest == scheme + " " + (token + " " + rest);
    SplitAfterWord(scheme, token + " " + rest);
    SplitAfterWord(token, rest);
    assert scheme != "" by { assert |Lower(scheme)| == |scheme|; }
  }

  /** What the extracted token is: the header is the scheme (its first
      piece, `bearer` in any letter case), one space and the token, followed
      by nothing or by a space. */
  lemma BearerSound(header: string)
    requires GetBearerToken(Some(header)).Some?
    ensures var token := GetBearerToken(Some(header)).value;
      var scheme := Split(header)[0];
      var n := |scheme| + 1 + |token|;
      && token != "" && ' ' !in token && ' ' !in scheme && Lower(scheme) == "bearer"
      && |header| >= n && header[..n] == scheme + " " + token
      && (|header| == n || header[n] == ' ')
  {
    SplitPrefix(header);
  }

  /** A string with two or more pieces starts with its first two pieces
      joined by a space, followed by nothing or by a space. */
  lemma {:induction false} SplitPrefix(header: string)
    requires |Split(header)| >= 2
    ensures var parts := Split(header);
      var n := |parts[0]| + 1 + |parts[1]|;
      && |header| >= n && header[..n] == parts[0] + " " + parts[1]
      && (|header| == n || header[n] == ' ')
  {
    var parts := Split(header);
    JoinSplit(header);
    var scheme, token := parts[0], parts[1];
    var n := |scheme| + 1 + |token|;
    if |parts| == 2 {
      assert header == scheme + " " + token;
    } else {
      assert Join(parts[1..]) == token + " " + Join(parts[2..]);
      assert header == scheme + " " + token + " " + Join(parts[2..]);
      assert header[n] == ' ';
    }
    assert header[..n] == scheme + " " + token;
  }

  /** Joining the pieces of a string gives the string back. */
  lemma {:induction false} JoinSplit(s: string)
    ensures Join(Split(s)) == s
  {
    if s != [] {
      JoinSplit(s[1..]);
      if s[0] == ' ' {
        assert [""] + Split(s[1..]) == [""] + Split(s[1..]);
        assert ([""] + Split(s[1..]))[1..] == Split(s[1..]);
        assert s == [' '] + s[1..];
      } else {
        var rest := Split(s[1..]);
        var parts := [[s[0]] + rest[0]] + rest[1..];
        if |rest| == 1 {
          assert Join(parts) == [s[0]] + rest[0];
        } else {
          assert parts[1..] == rest[1..];
          assert Join(rest) == rest[0] + " " + Join(rest[1..]);
        }
        assert s == [s[0]] + s[1..];
      }
    }
  }

  /** A disabled account is never admitted, whatever its token; a missing
      or unusable header never reaches the provider's check. */
  lemma DisabledNeverAdmitted(header: Option<string>, lookup: UserLookup, p: Profile)
    requires p.isDisabled
    ensures Admission(header, lookup, Row(Some(p))).Err?
    ensures GetBearerToken(header).Some? && lookup.UserFound? ==>
              Admission(header, lookup, Row(Some(p))).error == HttpError(403, "Account is disabled")
    ensures GetBearerToken(header).None? ==>
              Admission(header, lookup, Row(Some(p))).error.status == 401
  {
  }

  /** A "no rows" error reads as a missing profile, and every other profile
      error is a 500 once the token is accepted. */
  lemma ProfileErrors(header: Option<string>, lookup: UserLookup, code: string)
    requires GetBearerToken(header).Some? && lookup.UserFound?
    ensures code == NoRowsCode ==> Admission(header, lookup, QueryFailed(code)) == Ok((lookup.user, None))
    ensures code != NoRowsCode ==> Admission(header, lookup, QueryFailed(code)) == Err(HttpError(500, "Failed to fetch profile"))
  {
  }
}
