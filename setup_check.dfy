/**
 * The pre-test configuration check: the `.env` file must exist and each of ten variables
 * must be set to something other than a template placeholder.
 */
module SetupCheck {
  import opened Wrappers
  import opened Seqs
  import opened Strings

  const REQUIRED: seq<string> := [
    "AWS_REGION", "API_URL", "COGNITO_USER_POOL_ID", "COGNITO_CLIENT_ID",
    "TEST_ADMIN_EMAIL", "TEST_ADMIN_PASSWORD", "TEST_GROUPLEADER_EMAIL",
    "TEST_GROUPLEADER_PASSWORD", "TEST_PLAYER_EMAIL", "TEST_PLAYER_PASSWORD"]

  /** `process.env[name]`: None when unset. */
  function Lookup(env: map<string, string>, name: string): Option<string> {
    if name in env then Some(env[name]) else None
  }

  /** A value is not configured when unset or empty, or when it still holds a `your-…` or `XXXXXXXXX` placeholder. */
  predicate Flagged(value: Option<string>) {
    value.None? || value.value == "" || Contains(value.value, "your-") || Contains(value.value, "XXXXXXXXX")
  }

  function Unset(env: map<string, string>): string -> bool {
    name => Flagged(Lookup(env, name))
  }

  /** The check's findings: the names reported as not configured, whether it failed, and its exit status. */
  datatype Report = Report(unconfigured: seq<string>, hasErrors: bool, exitCode: int)

  /** The per-variable loop: the names `unset` flags, in order. */
  method Unconfigured(names: seq<string>, unset: string -> bool) returns (flagged: seq<string>)
    ensures flagged == Filter(names, unset)
  {
    flagged := [];
    var i := 0;
    while i < |names|
      invariant 0 <= i <= |names|
      invariant flagged + Filter(names[i..], unset) == Filter(names, unset)
    {
      var name := names[i];
      FilterAdvance(names, i, unset, flagged);
      if unset(name) {
        flagged := flagged + [name];
      }
      i := i + 1;
    }
  }

  /**
   * The script: `envFileExists` says whether `.env` is present, `env` is the environment
   * once it has been loaded. Each required name is checked in order.
   */
  method Check(envFileExists: bool, env: map<string, string>) returns (report: Report)
    ensures report.unconfigured == Filter(REQUIRED, Unset(env))
    ensures report.hasErrors <==> !envFileExists || exists name :: name in REQUIRED && Flagged(Lookup(env, name))
    ensures report.exitCode == if report.hasErrors then 1 else 0
  {
    var flagged := Unconfigured(REQUIRED, Unset(env));
    FilterEmpty(REQUIRED, Unset(env));
    var hasErrors := !envFileExists || flagged != [];
    report := Report(flagged, hasErrors, if hasErrors then 1 else 0);
  }

  /** The template's placeholders are reported. */
  lemma PlaceholdersFlagged()
    ensures Flagged(Some("your-api-gateway-url"))
    ensures Flagged(Some("us-east-1_XXXXXXXXX"))
    ensures Flagged(Some(""))
  {
    assert "your-" <= "your-api-gateway-url"[0..];
    assert "XXXXXXXXX" <= "us-east-1_XXXXXXXXX"[10..];
  }
}
