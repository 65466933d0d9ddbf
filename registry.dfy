/**
 * The fixed catalogue of GitHub services and the generator InitService
 * binds. The generator implementations live outside this model; a
 * generator is its kind plus the values injected through its setters.
 */
module Registry {
  import opened Wrappers
  import opened Decimal
  import opened Resolver

  /** One kind per generator type the catalogue constructs. */
  datatype ServiceKind =
    | Members               // MembersGenerator
    | Organization          // OrganizationGenerator
    | OrganizationBlocks    // OrganizationBlockGenerator
    | OrganizationProjects  // OrganizationProjectGenerator
    | OrganizationWebhooks  // OrganizationWebhooksGenerator
    | Repositories          // RepositoriesGenerator
    | Teams                 // TeamsGenerator
    | UserSshKeys           // UserSSHKeyGenerator

  /** The name under which each kind is registered. */
  function ServiceName(k: ServiceKind): string {
    match k
    case Members => "members"
    case Organization => "organization"
    case OrganizationBlocks => "organization_blocks"
    case OrganizationProjects => "organization_projects"
    case OrganizationWebhooks => "organization_webhooks"
    case Repositories => "repositories"
    case Teams => "teams"
    case UserSshKeys => "user_ssh_keys"
  }

  /** GetSupportedService: it reads no provider field, so it is the same in every state. */
  function SupportedServices(): (r: map<string, ServiceKind>)
    ensures |r| == 8
    ensures forall name :: name in r ==> ServiceName(r[name]) == name
  {
    map[
      "members" := Members,
      "organization" := Organization,
      "organization_blocks" := OrganizationBlocks,
      "organization_projects" := OrganizationProjects,
      "organization_webhooks" := OrganizationWebhooks,
      "repositories" := Repositories,
      "teams" := Teams,
      "user_ssh_keys" := UserSshKeys
    ]
  }

  /** Every kind is registered, under its own name: the catalogue is complete and one-to-one. */
  lemma EveryKindRegistered(k: ServiceKind)
    ensures ServiceName(k) in SupportedServices()
    ensures SupportedServices()[ServiceName(k)] == k
  {
  }

  /** Exactly eight names are supported, these and no other. */
  lemma SupportedNames()
    ensures SupportedServices().Keys == {
              "members", "organization", "organization_blocks", "organization_projects",
              "organization_webhooks", "repositories", "teams", "user_ssh_keys"}
  {
  }

  /** A value in the argument bag SetArgs receives: a string or an int64. */
  datatype ArgValue = Text(text: string) | Integer(number: Int64)

  /**
   * The argument bag InitService injects: all six credential fields under
   * the keys `owner`, `token`, `base_url`, `app_id`, `installation_id`,
   * `pem`, whichever auth mode GetConfig would choose.
   */
  function ServiceArgs(c: Credentials): (r: map<string, ArgValue>)
    ensures r.Keys == {"owner", "token", "base_url", "app_id", "installation_id", "pem"}
  {
    map[
      "owner" := Text(c.owner),
      "token" := Text(c.token),
      "base_url" := Text(c.baseURL),
      "app_id" := Integer(c.appID),
      "installation_id" := Integer(c.installationID),
      "pem" := Text(c.pem)
    ]
  }

  /** What a generator can recover from the bag it was given. */
  function CredentialsFromArgs(args: map<string, ArgValue>): Option<Credentials> {
    if && "owner" in args && args["owner"].Text?
       && "token" in args && args["token"].Text?
       && "base_url" in args && args["base_url"].Text?
       && "app_id" in args && args["app_id"].Integer?
       && "installation_id" in args && args["installation_id"].Integer?
       && "pem" in args && args["pem"].Text?
    then
      Some(Credentials(args["owner"].text, args["token"].text, args["base_url"].text,
                       args["app_id"].number, args["installation_id"].number, args["pem"].text))
    else None
  }

  /** The bag loses nothing: every credential field reaches the generator unchanged. */
  lemma ServiceArgsRoundTrip(c: Credentials)
    ensures CredentialsFromArgs(ServiceArgs(c)) == Some(c)
  {
  }

  /** A bound generator: its kind and what SetName, SetVerbose, SetProviderName and SetArgs stored. */
  datatype Generator = Generator(
    kind: ServiceKind,
    name: string,
    verbose: bool,
    providerName: string,
    args: map<string, ArgValue>)

  /** A generator as the catalogue constructs it, before any setter runs. */
  function NewGenerator(k: ServiceKind): Generator {
    Generator(k, "", false, "", map[])
  }
}
