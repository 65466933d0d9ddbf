# GitHub provider: credential resolution and service dispatch

A Dafny model of the GitHub backend of Terraformer, an infrastructure-import tool.
The model covers `providers/github/github_provider.go`:

- `Init` turns the positional arguments `[owner, token?, baseURL?]` and the process
  environment into the provider's fields.
  - It reads `GITHUB_APP_ID` and `GITHUB_APP_INSTALLATION_ID`, each parsed as a base-10 int64.
  - It reads `GITHUB_APP_PEM_FILE`, turning every literal backslash-`n` into a line break.
  - The token comes from the second argument, or else from `GITHUB_TOKEN`.
  - With a third argument, the base URL is that argument, or the built-in default when it is
    empty. With at most two arguments the base URL is left as it was.
- `GetConfig` picks one of two configuration shapes: app auth or token.
- `GetSupportedService` is the fixed catalogue of eight service generators.
- `InitService` binds one generator from the catalogue and injects the shared credentials into it.

Files, leaves first:

- `wrappers.dfy`: `Option`.
- `escapes.dfy`: `Unescape`, Go's `strings.Replace` of every backslash-`n` by a line break. Its partner is
  `Escape`, which gives the single-line `\n` form of a multi-line key.
- `decimal.dfy`: `ParseInt64`, which is `strconv.ParseInt(s, 10, 64)`, built as Go builds it:
  a sign is stripped, then a digit loop runs with an overflow check.
  - Its partner is an independent reference: `IsSignedDecimal` for the grammar and
    `SignedValue` for the positional value.
  - `FormatInt64` is `strconv.FormatInt`, the inverse.
- `resolver.dfy`: the `Credentials` record (the provider's fields) and `Resolve`, the effect of
  `Init` on those fields. It has one `ensures` per precedence rule and per error case.
- `emitter.dfy`: `ConfigOf`, the choice `GetConfig` makes. It also holds lemmas that take a
  provider through `Init` and then `GetConfig`.
- `registry.dfy`: the service catalogue, the argument bag `InitService` injects, and the
  bound `Generator` value.
- `provider.dfy`: the class `GithubProvider`, with the Go struct's fields and a `service` field.
  - `Init` and `InitService` update those fields step by step, as the Go methods do.
  - `Init` is proved to leave exactly the fields `Resolve` describes and to return its error.
  - `GetConfig` and `GetProviderData` are functions that read the fields.
  - `GetName` is the constant `"github"`. `GetProviderData` nests its block under this name,
    and `InitService` gives it to the bound generator as the provider name.

The environment is an explicit `map<string, string>`.
`os.LookupEnv` is "the key is in the map"; `os.Getenv` is `Resolver.Getenv` (the value, or `""`).

Behaviour of the code that the model keeps:

- A failing `Init` is not atomic. When `GITHUB_APP_INSTALLATION_ID` is malformed, the
  already-parsed app id stays written. A "token requirement" failure leaves the app fields,
  the key and the owner written.
- App auth is chosen when both ids are non-zero, so negative ids count.
- With at most two arguments, the base URL is not set at all. It stays `""` on a fresh
  provider; the default is used only for an empty third argument.
- An empty second argument passes the token check, so the token shape can carry an empty
  token (`Emitter.TokenArgsGiveTokenConfig`).

## Model

| member | source | states |
|---|---|---|
| `Escapes.UnescapeLeavesNoEscape` | providers/github/github_provider.go:89-91 | after the rewrite of the key, no backslash-n pair is left anywhere in it |
| `Escapes.UnescapeWithoutBackslash` | providers/github/github_provider.go:89-91 | a key value without any backslash is stored unchanged |
| `Escapes.UnescapeEscape` | providers/github/github_provider.go:89-91 | the rewrite undoes `Escape` (line breaks written as backslash-n) for every text without a literal backslash-n, so a multi-line key given in its single-line form is restored exactly |
| `Decimal.AccumulateDigitsValue` | providers/github/github_provider.go:76 | ParseUint's digit loop succeeds exactly on digit strings whose value fits in 64 unsigned bits, and then yields their positional value |
| `Decimal.ParseInt64Correct` | providers/github/github_provider.go:75-87 | the id parse succeeds if and only if the text is an optional sign followed by at least one digit and its value lies in the int64 range; the result is that value |
| `Decimal.ParseFormatInt64` | providers/github/github_provider.go:76 | every int64 written in decimal by FormatInt parses back to itself |
| `Resolver.Resolve` | providers/github/github_provider.go:74-110 | Init succeeds if and only if both id variables are unset or parse, and a token argument or a non-empty GITHUB_TOKEN exists. A malformed app id changes nothing. A malformed installation id keeps only the new app id. Set ids are parsed and unset ones kept. A set key is unescaped. The owner is `args[0]`. The token is `args[1]` verbatim, or else GITHUB_TOKEN. The base URL is a non-empty `args[2]` or the default, and is left unchanged with at most two arguments or on failure |
| `Resolver.ResolveIdempotent` | providers/github/github_provider.go:74-110 | running Init again with the same arguments and environment changes neither the fields nor the outcome |
| `Resolver.ArgsTokenIgnoresEnvironment` | providers/github/github_provider.go:93-108 | with a token argument, owner, token and base URL do not depend on the environment |
| `Resolver.ResolvedPemHasNoEscape` | providers/github/github_provider.go:89-91 | after a successful Init the stored key has no backslash-n pair, and a key value without a backslash is stored verbatim |
| `Resolver.ResolvedPemRestoresKey` | providers/github/github_provider.go:89-91 | a key given in its single-line backslash-n form is stored as the original multi-line key |
| `Resolver.ResolvedAppIdsReadBack` | providers/github/github_provider.go:75-88 | ids exported in decimal are accepted and stored as exactly those numbers |
| `Emitter.ConfigOf` | providers/github/github_provider.go:51-71 | the app-auth shape, with a one-element `app_auth` list of id, installation id and key, is emitted exactly when both ids are non-zero and the key is non-empty; otherwise the token shape with token and base URL; the owner is always carried |
| `Emitter.TokenArgsGiveTokenConfig` | providers/github/github_provider.go:51-110 | owner plus token on a fresh provider without app variables gives the token shape with that owner and token and an empty base URL, even for an empty token |
| `Emitter.AppVariablesSelectAppAuth` | providers/github/github_provider.go:51-91 | with ids in the environment that parse (in any accepted form) to non-zero values and a non-empty key, a successful Init from any starting fields leads to the app-auth shape, whatever the token |
| `Emitter.NoAppVariablesGiveTokenConfig` | providers/github/github_provider.go:51-101 | on a fresh provider without app variables a successful Init leads to the token shape, whose token is non-empty when it came from GITHUB_TOKEN |
| `Registry.SupportedServices` | providers/github/github_provider.go:137-148 | the catalogue has eight entries, and each is registered under its own kind's name |
| `Registry.SupportedNames` | providers/github/github_provider.go:137-148 | the supported names are exactly members, organization, organization_blocks, organization_projects, organization_webhooks, repositories, teams and user_ssh_keys |
| `Registry.EveryKindRegistered` | providers/github/github_provider.go:137-148 | every generator kind is reachable from its name: the catalogue is complete and one-to-one |
| `Registry.ServiceArgs` | providers/github/github_provider.go:125-132 | the injected bag has exactly the six keys owner, token, base_url, app_id, installation_id and pem |
| `Registry.ServiceArgsRoundTrip` | providers/github/github_provider.go:125-132 | every credential field reaches the generator unchanged, whichever auth mode is active |
| `Provider.GithubProvider.constructor` | providers/github/github_provider.go:27-35 | a new provider has zero-valued fields and no bound service |
| `Provider.GithubProvider.GetProviderData` | providers/github/github_provider.go:41-49 | only the owner is exposed, under `provider` and then `github`, whatever arguments are passed |
| `Provider.GithubProvider.GetName` | providers/github/github_provider.go:112-114 | the provider's name is the constant `github`, whatever its fields hold |
| `Provider.GithubProvider.GetConfig` | providers/github/github_provider.go:51-71 | the configuration is `ConfigOf` of the current fields, read without change: the app-auth shape exactly when both ids are non-zero and the key is non-empty, always carrying the owner |
| `Provider.GithubProvider.Init` | providers/github/github_provider.go:74-110 | the fields afterwards and the returned error are those of `Resolve` on the fields before, and the bound service is untouched |
| `Provider.GithubProvider.InitService` | providers/github/github_provider.go:116-134 | an unknown name returns the not-supported error and changes nothing. A supported name binds a fresh generator of that name's kind, with name `serviceName`, the verbose flag, provider name `github` and the full six-field argument bag, from which the credentials are recoverable |

## Left out

- `GetResourceConnections` always returns an empty map and is not modelled.
- The generator types and the generic provider and service-generator interfaces are
  defined in files that are not part of this model.
  - A generator is a `Registry.Generator` value: its kind plus what the four setters stored.
  - Go's catalogue hands out a new pointer on each call. The model does not capture pointer
    identity or aliasing of generators.
- Encoding the configuration as a `cty.Value` is not modelled. `Emitter.Config` has one
  constructor per shape and keeps the field names in comments.
- The process environment is a map parameter; the model reads no ambient state.
- Error messages and wrapping are left out.
  - `InitError` carries the rejected text, or says that the token is missing.
  - `ServiceError` carries the provider and service names.
  - The `ParseInt` model folds Go's syntax and range errors into a single failure.
- `Provider.GithubProvider.Init`: requires at least one argument. With no arguments the Go
  code panics on `args[0]` once both id variables parse; if one of them is malformed it first
  returns the parse error. The model excludes empty arguments in both cases.
- `githubDefaultURL` is declared in a file that is not part of this model.
  `Resolver.DefaultBaseURL` stands in for it, and no proof depends on its text.
- Of the embedded provider base, only the `Service` field is modelled.
- There is no concurrency in the code, so none is modelled.
- Strings are sequences of Unicode characters, not Go byte strings, so environment values that
  are not valid UTF-8 cannot be represented. The backslash-`n` pattern, the signs and the
  digits are all ASCII, so the modelled behaviour does not depend on this.
