/**
 * Credential resolution: what `Init(args)` of the GitHub provider writes
 * into the provider's fields, given the positional arguments and the
 * process environment (a map from variable name to value; a key that is
 * present may map to the empty string).
 */
module Resolver {
  import opened Wrappers
  import opened Decimal
  import opened Escapes

  const AppIdVar: string := "GITHUB_APP_ID"
  const InstallationIdVar: string := "GITHUB_APP_INSTALLATION_ID"
  const PemFileVar: string := "GITHUB_APP_PEM_FILE"
  const TokenVar: string := "GITHUB_TOKEN"

  /**
   * githubDefaultURL is declared in a file that is not part of this model;
   * no proof depends on its text.
   */
  const DefaultBaseURL: string := "https://api.github.com/"

  /** The provider's own fields (everything but the bound service). */
  datatype Credentials = Credentials(
    owner: string,
    token: string,
    baseURL: string,
    appID: Int64,
    installationID: Int64,
    pem: string)

  /** The zero value of a freshly declared provider. */
  const Unset := Credentials("", "", "", 0, 0, "")

  /** The errors Init returns: a ParseInt failure (carrying the text) or "token requirement". */
  datatype InitError = InvalidInteger(text: string) | TokenRequired

  /** Fields after Init, whether or not it failed, and the error it returned. */
  datatype Resolution = Resolution(creds: Credentials, err: Option<InitError>)

  /** os.Getenv: the value, or the empty string when unset. */
  function Getenv(env: map<string, string>, key: string): string
  {
    if key in env then env[key] else ""
  }

  /** The variable is set and its value is not a valid int64 in base 10. */
  predicate Malformed(env: map<string, string>, key: string) {
    key in env && ParseInt64(env[key]).None?
  }

  /**
   * The effect of Init on fields c, step by step: an early return keeps
   * every write made before it (nothing is rolled back).
   */
  function Resolve(c: Credentials, args: seq<string>, env: map<string, string>): (r: Resolution)
    requires |args| >= 1
    // Which inputs fail, and how.
    ensures r.err.None? <==>
              !Malformed(env, AppIdVar) && !Malformed(env, InstallationIdVar) &&
              (|args| >= 2 || Getenv(env, TokenVar) != "")
    ensures Malformed(env, AppIdVar) ==>
              r == Resolution(c, Some(InvalidInteger(env[AppIdVar])))
    ensures !Malformed(env, AppIdVar) && Malformed(env, InstallationIdVar) ==>
              r.err == Some(InvalidInteger(env[InstallationIdVar])) &&
              r.creds == c.(appID := r.creds.appID)
    ensures r.err == Some(TokenRequired) <==>
              !Malformed(env, AppIdVar) && !Malformed(env, InstallationIdVar) &&
              |args| < 2 && Getenv(env, TokenVar) == ""
    // The integer variables: untouched when unset, the parsed value otherwise.
    ensures !Malformed(env, AppIdVar) ==>
              r.creds.appID == if AppIdVar in env then ParseInt64(env[AppIdVar]).value else c.appID
    ensures !Malformed(env, AppIdVar) && !Malformed(env, InstallationIdVar) ==>
              r.creds.installationID ==
                if InstallationIdVar in env then ParseInt64(env[InstallationIdVar]).value
                else c.installationID
    // The key: escapes rewritten when set, untouched otherwise.
    ensures !Malformed(env, AppIdVar) && !Malformed(env, InstallationIdVar) ==>
              r.creds.pem == if PemFileVar in env then Unescape(env[PemFileVar]) else c.pem
    // Owner, token and base URL.
    ensures !Malformed(env, AppIdVar) && !Malformed(env, InstallationIdVar) ==>
              r.creds.owner == args[0]
    ensures r.err.None? && |args| >= 2 ==> r.creds.token == args[1]
    ensures r.err.None? && |args| < 2 ==> TokenVar in env && r.creds.token == env[TokenVar] != ""
    ensures r.err.Some? ==> r.creds.token == c.token
    ensures r.err.None? && |args| > 2 ==>
              r.creds.baseURL == if args[2] != "" then args[2] else DefaultBaseURL
    ensures r.err.Some? || |args| <= 2 ==> r.creds.baseURL == c.baseURL
  {
    if Malformed(env, AppIdVar) then Resolution(c, Some(InvalidInteger(env[AppIdVar])))
    else
      var c1 := if AppIdVar in env then c.(appID := ParseInt64(env[AppIdVar]).value) else c;
      if Malformed(env, InstallationIdVar) then
        Resolution(c1, Some(InvalidInteger(env[InstallationIdVar])))
      else
        var c2 := if InstallationIdVar in env
                  then c1.(installationID := ParseInt64(env[InstallationIdVar]).value)
                  else c1;
        var c3 := if PemFileVar in env then c2.(pem := Unescape(env[PemFileVar])) else c2;
        var c4 := c3.(owner := args[0]);
        if |args| < 2 && Getenv(env, TokenVar) == "" then Resolution(c4, Some(TokenRequired))
        else
          var c5 := c4.(token := if |args| < 2 then Getenv(env, TokenVar) else args[1]);
          var c6 := if |args| > 2
                    then c5.(baseURL := if args[2] != "" then args[2] else DefaultBaseURL)
                    else c5;
          Resolution(c6, None)
  }

  /**
   * Running Init a second time with the same arguments and environment
   * leaves the fields and the outcome as the first run left them.
   */
  lemma ResolveIdempotent(c: Credentials, args: seq<string>, env: map<string, string>)
    requires |args| >= 1
    ensures Resolve(Resolve(c, args, env).creds, args, env) == Resolve(c, args, env)
  {
  }

  /**
   * Token, owner and base URL depend on the positional arguments alone
   * whenever a token argument is given: GITHUB_TOKEN is not consulted.
   */
  lemma ArgsTokenIgnoresEnvironment(c: Credentials, args: seq<string>,
                                    env1: map<string, string>, env2: map<string, string>)
    requires |args| >= 2
    requires Resolve(c, args, env1).err.None? && Resolve(c, args, env2).err.None?
    ensures Resolve(c, args, env1).creds.owner == Resolve(c, args, env2).creds.owner == args[0]
    ensures Resolve(c, args, env1).creds.token == Resolve(c, args, env2).creds.token == args[1]
    ensures Resolve(c, args, env1).creds.baseURL == Resolve(c, args, env2).creds.baseURL
  {
  }

  /**
   * After a successful Init the stored key never holds a backslash-n pair,
   * and a key value with no backslash is kept verbatim.
   */
  lemma {:induction false} ResolvedPemHasNoEscape(c: Credentials, args: seq<string>,
                                                  env: map<string, string>)
    requires |args| >= 1 && PemFileVar in env
    requires Resolve(c, args, env).err.None?
    ensures !HasEscape(Resolve(c, args, env).creds.pem)
    ensures Backslash !in env[PemFileVar] ==> Resolve(c, args, env).creds.pem == env[PemFileVar]
  {
    UnescapeLeavesNoEscape(env[PemFileVar]);
    if Backslash !in env[PemFileVar] {
      UnescapeWithoutBackslash(env[PemFileVar]);
    }
  }

  /**
   * A key given in its single-line `\n` form (and with no literal
   * backslash-n of its own) is stored as the original multi-line text.
   */
  lemma {:induction false} ResolvedPemRestoresKey(c: Credentials, args: seq<string>,
                                                  env: map<string, string>, key: string)
    requires |args| >= 1 && !HasEscape(key)
    requires PemFileVar in env && env[PemFileVar] == Escape(key)
    requires Resolve(c, args, env).err.None?
    ensures Resolve(c, args, env).creds.pem == key
  {
    UnescapeEscape(key);
  }

  /** An id written with FormatInt (as `export GITHUB_APP_ID=123` gives) is read back exactly. */
  lemma {:induction false} ResolvedAppIdsReadBack(c: Credentials, args: seq<string>,
                                                  env: map<string, string>, id: Int64, inst: Int64)
    requires |args| >= 2
    requires AppIdVar in env && env[AppIdVar] == FormatInt64(id)
    requires InstallationIdVar in env && env[InstallationIdVar] == FormatInt64(inst)
    ensures Resolve(c, args, env).err.None?
    ensures Resolve(c, args, env).creds.appID == id
    ensures Resolve(c, args, env).creds.installationID == inst
  {
    ParseFormatInt64(id);
    ParseFormatInt64(inst);
  }
}
