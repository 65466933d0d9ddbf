/**
 * The authentication-mode choice of GetConfig: the provider configuration
 * object it emits, in one of two shapes, with the field names of the
 * emitted object kept in the comments.
 */
module Emitter {
  import opened Wrappers
  import opened Decimal
  import opened Escapes
  import opened Resolver

  /** One element of the `app_auth` list: `id`, `installation_id`, `pem_file`. */
  datatype AppAuth = AppAuth(id: Int64, installationID: Int64, pemFile: string)

  /**
   * `{owner, app_auth: [...]}` or `{owner, token, base_url}`.
   */
  datatype Config =
    | AppAuthConfig(owner: string, appAuth: seq<AppAuth>)
    | TokenConfig(owner: string, token: string, baseURL: string)

  /** The three app-auth fields are all set (non-zero ids, non-empty key); negative ids count. */
  predicate AppAuthConfigured(c: Credentials) {
    c.appID != 0 && c.installationID != 0 && c.pem != ""
  }

  /** GetConfig over the provider's fields. */
  function ConfigOf(c: Credentials): (r: Config)
    ensures r.owner == c.owner
    ensures r.AppAuthConfig? <==> AppAuthConfigured(c)
    ensures r.AppAuthConfig? ==> r.appAuth == [AppAuth(c.appID, c.installationID, c.pem)]
    ensures r.TokenConfig? ==> r.token == c.token && r.baseURL == c.baseURL
  {
    if AppAuthConfigured(c) then
      AppAuthConfig(c.owner, [AppAuth(c.appID, c.installationID, c.pem)])
    else
      TokenConfig(c.owner, c.token, c.baseURL)
  }

  /**
   * Owner plus token on a fresh provider with no app variables set: the
   * token shape with exactly the given owner and token and an empty base
   * URL (no default is substituted with only two arguments). The token
   * may be empty: an empty second argument passes the token check.
   */
  lemma TokenArgsGiveTokenConfig(owner: string, token: string, env: map<string, string>)
    requires AppIdVar !in env && InstallationIdVar !in env && PemFileVar !in env
    ensures Resolve(Unset, [owner, token], env).err.None?
    ensures ConfigOf(Resolve(Unset, [owner, token], env).creds) == TokenConfig(owner, token, "")
  {
  }

  /**
   * With all three app variables set, the ids parsing to non-zero values
   * (in any form ParseInt accepts: `1`, `+1`, `007`, ...) and the key
   * non-empty, a successful Init always leads to the app-auth shape,
   * whatever the token and the starting fields.
   */
  lemma {:induction false} AppVariablesSelectAppAuth(c: Credentials, args: seq<string>,
                                                     env: map<string, string>,
                                                     id: Int64, inst: Int64, key: string)
    requires |args| >= 1 && id != 0 && inst != 0 && key != ""
    requires AppIdVar in env && ParseInt64(env[AppIdVar]) == Some(id)
    requires InstallationIdVar in env && ParseInt64(env[InstallationIdVar]) == Some(inst)
    requires PemFileVar in env && env[PemFileVar] == key
    requires Resolve(c, args, env).err.None?
    ensures ConfigOf(Resolve(c, args, env).creds) ==
              AppAuthConfig(args[0], [AppAuth(id, inst, Unescape(key))])
  {
    UnescapeEmpty(key);
  }

  /**
   * A successful Init of a fresh provider without any app variable emits
   * the token shape (a provider whose app fields were already set keeps
   * them, since Init only writes the fields it reads), and
   * its token is never empty when it came from GITHUB_TOKEN.
   */
  lemma NoAppVariablesGiveTokenConfig(args: seq<string>, env: map<string, string>)
    requires |args| >= 1
    requires AppIdVar !in env && InstallationIdVar !in env && PemFileVar !in env
    requires Resolve(Unset, args, env).err.None?
    ensures ConfigOf(Resolve(Unset, args, env).creds).TokenConfig?
    ensures |args| < 2 ==> ConfigOf(Resolve(Unset, args, env).creds).token != ""
  {
  }
}
