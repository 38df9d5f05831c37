/** The environment gate (`envSchema.parse`): which variables must be
    present, their defaults, and the minimum length of the signing secret.
    The URL syntax check is a parameter. */
module Config {
  import opened Common

  /** `process.env`: a variable that is not set is a missing key. */
  type ProcessEnv = map<string, string>

  const DefaultPort: string := "3000"
  const MinSecretLength: nat := 32

  /** The parsed configuration. */
  datatype Env = Env(
    supabaseUrl: string,
    serviceRoleKey: string,
    anonKey: Option<string>,
    port: string,
    nodeEnv: Option<string>,
    jwtSecret: string)

  function Get(penv: ProcessEnv, key: string): Option<string>
  {
    if key in penv then Some(penv[key]) else None
  }

  /** The variables that fail their rule. */
  function EnvIssues(penv: ProcessEnv, isUrl: string -> bool): set<string>
  {
    IssueIf("SUPABASE_URL" in penv && isUrl(penv["SUPABASE_URL"]), "SUPABASE_URL")
    + IssueIf("SUPABASE_SERVICE_ROLE_KEY" in penv && Utf16Length(penv["SUPABASE_SERVICE_ROLE_KEY"]) >= 1,
              "SUPABASE_SERVICE_ROLE_KEY")
    + IssueIf("SUPABASE_ANON_KEY" !in penv || Utf16Length(penv["SUPABASE_ANON_KEY"]) >= 1, "SUPABASE_ANON_KEY")
    + IssueIf("JWT_SECRET" in penv && Utf16Length(penv["JWT_SECRET"]) >= MinSecretLength, "JWT_SECRET")
  }

  /** `envSchema.parse` of the selected variables; `PORT` falls back to
      `"3000"` (an empty `PORT` is kept), `NODE_ENV` is taken as is. The
      error lists the failing variables. */
  function ParseEnv(penv: ProcessEnv, isUrl: string -> bool): (r: Result<Env, set<string>>)
    ensures r.Ok? <==> EnvIssues(penv, isUrl) == {}
    ensures r.Err? ==> r.error != {} && r.error <= {"SUPABASE_URL", "SUPABASE_SERVICE_ROLE_KEY", "SUPABASE_ANON_KEY", "JWT_SECRET"}
    ensures r.Ok? ==> isUrl(r.value.supabaseUrl) && r.value.serviceRoleKey != []
                      && (r.value.anonKey.Some? ==> r.value.anonKey.value != [])
                      && Utf16Length(r.value.jwtSecret) >= 32
  {
    var issues := EnvIssues(penv, isUrl);
    if issues != {} then Err(issues)
    else
      assert "SUPABASE_URL" !in issues && "SUPABASE_SERVICE_ROLE_KEY" !in issues;
      assert "SUPABASE_ANON_KEY" !in issues && "JWT_SECRET" !in issues;
      Ok(Env(
        penv["SUPABASE_URL"],
        penv["SUPABASE_SERVICE_ROLE_KEY"],
        Get(penv, "SUPABASE_ANON_KEY"),
        if "PORT" in penv then penv["PORT"] else DefaultPort,
        Get(penv, "NODE_ENV"),
        penv["JWT_SECRET"]))
  }

  /** A missing or short `JWT_SECRET` stops start-up, whatever else is set. */
  lemma ShortSecretRejected(penv: ProcessEnv, isUrl: string -> bool)
    requires "JWT_SECRET" !in penv || Utf16Length(penv["JWT_SECRET"]) < 32
    ensures ParseEnv(penv, isUrl).Err? && "JWT_SECRET" in ParseEnv(penv, isUrl).error
  {
    assert "JWT_SECRET" in EnvIssues(penv, isUrl);
  }

  /** `PORT` is `"3000"` when not set and the given value otherwise;
      `NODE_ENV` is never checked. */
  lemma PortAndNodeEnv(penv: ProcessEnv, isUrl: string -> bool, nodeEnv: string)
    requires ParseEnv(penv, isUrl).Ok?
    ensures ParseEnv(penv, isUrl).value.port == (if "PORT" in penv then penv["PORT"] else "3000")
    ensures ParseEnv(penv["NODE_ENV" := nodeEnv], isUrl).Ok?
    ensures ParseEnv(penv - {"PORT"}, isUrl).value.port == "3000"
  {
    assert EnvIssues(penv["NODE_ENV" := nodeEnv], isUrl) == EnvIssues(penv, isUrl);
    assert EnvIssues(penv - {"PORT"}, isUrl) == EnvIssues(penv, isUrl);
  }

  /** The anon key may be missing, but an empty one is refused; the service
      key must be set and non-empty. */
  lemma KeyRules(penv: ProcessEnv, isUrl: string -> bool)
    requires ParseEnv(penv, isUrl).Ok?
    ensures ParseEnv(penv - {"SUPABASE_ANON_KEY"}, isUrl).Ok?
    ensures ParseEnv(penv["SUPABASE_ANON_KEY" := ""], isUrl).Err?
    ensures ParseEnv(penv["SUPABASE_SERVICE_ROLE_KEY" := ""], isUrl).Err?
    ensures ParseEnv(penv - {"SUPABASE_SERVICE_ROLE_KEY"}, isUrl).Err?
  {
    assert EnvIssues(penv - {"SUPABASE_ANON_KEY"}, isUrl) == {};
    assert "SUPABASE_ANON_KEY" in EnvIssues(penv["SUPABASE_ANON_KEY" := ""], isUrl);
    assert "SUPABASE_SERVICE_ROLE_KEY" in EnvIssues(penv["SUPABASE_SERVICE_ROLE_KEY" := ""], isUrl);
    assert "SUPABASE_SERVICE_ROLE_KEY" in EnvIssues(penv - {"SUPABASE_SERVICE_ROLE_KEY"}, isUrl);
  }

  /** The variables that produce a given configuration. */
  function EnvVariables(e: Env): ProcessEnv
  {
    var base := map["SUPABASE_URL" := e.supabaseUrl, "SUPABASE_SERVICE_ROLE_KEY" := e.serviceRoleKey,
                    "PORT" := e.port, "JWT_SECRET" := e.jwtSecret];
    var withAnon := if e.anonKey.Some? then base["SUPABASE_ANON_KEY" := e.anonKey.value] else base;
    if e.nodeEnv.Some? then withAnon["NODE_ENV" := e.nodeEnv.value] else withAnon
  }

  /** Every configuration meeting the rules is what its own variables parse to. */
  lemma EnvRoundTrip(e: Env, isUrl: string -> bool)
    requires isUrl(e.supabaseUrl) && e.serviceRoleKey != [] && (e.anonKey.Some? ==> e.anonKey.value != [])
    requires Utf16Length(e.jwtSecret) >= 32
    ensures ParseEnv(EnvVariables(e), isUrl) == Ok(e)
  {
    assert EnvIssues(EnvVariables(e), isUrl) == {};
  }
}
