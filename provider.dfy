/**
 * GithubProvider: the provider object whose fields Init fills in and
 * whose bound service InitService replaces.
 */
module Provider {
  import opened Wrappers
  import opened Decimal
  import opened Escapes
  import opened Resolver
  import opened Emitter
  import opened Registry

  const ProviderName: string := "github"

  /** The error InitService returns for a name outside the catalogue. */
  datatype ServiceError = NotSupported(provider: string, service: string)

  /** The `provider.github.owner` block GetProviderData returns. */
  type ProviderData = map<string, map<string, map<string, string>>>

  class GithubProvider {
    var owner: string
    var token: string
    var baseURL: string
    var appID: Int64
    var installationID: Int64
    var pem: string
    /** The Service field of the embedded provider base: no generator until InitService succeeds. */
    var service: Option<Generator>

    /** A zero-valued provider, as `&GithubProvider{}` creates it. */
    constructor ()
      ensures Fields() == Unset && service == None
    {
      owner, token, baseURL := "", "", "";
      appID, installationID, pem := 0, 0, "";
      service := None;
    }

    function Fields(): Credentials
      reads this
    {
      Credentials(owner, token, baseURL, appID, installationID, pem)
    }

    /** The name this provider is known by; a constant, whatever the fields hold. */
    function GetName(): (r: string)
      ensures r == "github"
    {
      ProviderName
    }

    /** Only the owner is exposed, under `provider` and then the provider's own name; arguments are ignored. */
    function GetProviderData(args: seq<string>): (r: ProviderData)
      reads this
      ensures r.Keys == {"provider"}
      ensures r["provider"].Keys == {GetName()}
      ensures r["provider"][GetName()] == map["owner" := owner]
    {
      map["provider" := map[ProviderName := map["owner" := owner]]]
    }

    /**
     * GetConfig reads the fields and changes nothing: app auth exactly
     * when both ids are non-zero and the key is non-empty.
     */
    function GetConfig(): (r: Config)
      reads this
      ensures r == ConfigOf(Fields())
      ensures r.owner == owner
      ensures r.AppAuthConfig? <==> appID != 0 && installationID != 0 && pem != ""
    {
      ConfigOf(Fields())
    }

    /**
     * Init: read the environment and the arguments into the fields. The
     * new fields and the error are those of Resolve; an early return keeps
     * the writes made before it.
     */
    method Init(args: seq<string>, env: map<string, string>) returns (err: Option<InitError>)
      requires |args| >= 1
      modifies this
      ensures Fields() == Resolve(old(Fields()), args, env).creds
      ensures err == Resolve(old(Fields()), args, env).err
      ensures service == old(service)
    {
      if AppIdVar in env {
        var parsed := ParseInt64(env[AppIdVar]);
        if parsed.None? {
          return Some(InvalidInteger(env[AppIdVar]));
        }
        appID := parsed.value;
      }
      if InstallationIdVar in env {
        var parsed := ParseInt64(env[InstallationIdVar]);
        if parsed.None? {
          return Some(InvalidInteger(env[InstallationIdVar]));
        }
        installationID := parsed.value;
      }
      if PemFileVar in env {
        pem := Unescape(env[PemFileVar]);
      }

      owner := args[0];
      if |args| < 2 {
        if Getenv(env, TokenVar) == "" {
          return Some(TokenRequired);
        }
        token := Getenv(env, TokenVar);
      } else {
        token := args[1];
      }
      if |args| > 2 {
        if args[2] != "" {
          baseURL := args[2];
        } else {
          baseURL := DefaultBaseURL;
        }
      }
      return None;
    }

    /**
     * InitService: an unknown name fails and changes nothing; a supported
     * one replaces the bound generator with a fresh one of its kind, named
     * after the service and given the full credential bag.
     */
    method InitService(serviceName: string, verbose: bool) returns (err: Option<ServiceError>)
      modifies this`service
      ensures serviceName !in SupportedServices() ==>
                err == Some(NotSupported(GetName(), serviceName)) && service == old(service)
      ensures serviceName in SupportedServices() ==>
                && err.None?
                && service == Some(Generator(SupportedServices()[serviceName], serviceName, verbose,
                                             GetName(), ServiceArgs(Fields())))
                && ServiceName(service.value.kind) == serviceName
                && CredentialsFromArgs(service.value.args) == Some(Fields())
    {
      if serviceName !in SupportedServices() {
        return Some(NotSupported(GetName(), serviceName));
      }
      var g := NewGenerator(SupportedServices()[serviceName]);
      g := g.(name := serviceName);
      g := g.(verbose := verbose);
      g := g.(providerName := GetName());
      g := g.(args := ServiceArgs(Fields()));
      service := Some(g);
      ServiceArgsRoundTrip(Fields());
      return None;
    }
  }

  /**
   * A caller's view of Init and GetConfig: owner and token as arguments,
   * an empty environment.
   */
  method TokenInitScenario()
  {
    var p := new GithubProvider();
    var err := p.Init(["acme", "tok123"], map[]);
    TokenArgsGiveTokenConfig("acme", "tok123", map[]);
    assert err.None?;
    assert p.GetConfig() == TokenConfig("acme", "tok123", "");
  }

  /**
   * A caller's view of InitService: a supported name binds a generator,
   * an unknown one leaves that binding in place.
   */
  method BindServiceScenario(p: GithubProvider)
    modifies p
  {
    var serr := p.InitService("members", true);
    assert serr.None? && p.service.Some?;
    assert p.service.value.kind == Members && p.service.value.verbose;
    assert p.service.value.args["token"] == Text(p.token);
    var bound := p.service;

    serr := p.InitService("bogus", false);
    assert serr == Some(NotSupported("github", "bogus"));
    assert p.service == bound;
  }
}
