# aws-console: credentials to AWS Console login URL, modelled in Dafny

aws-console turns AWS credentials into a temporary login URL for the AWS
web console. The credentials come from a named profile or from JSON piped
on standard input. IAM-user credentials are first federated with STS
GetFederationToken. The two-step federation protocol then exchanges the
session for a signin token and builds the login URL. Finally the URL goes
to one output sink.

This project models the decision logic of that pipeline:

- `Template` (template.dfy) holds the policy and redirect alias tables and
  their lookup-with-fallback.
- `Partition` (partition.dfy) holds the partition table and the
  region-to-partition lookup. The STS endpoint resolver is a parameter.
- `Credentials` (credentials.dfy) models `FromReader`. Its two JSON decodes
  write into one struct, so the second decode is an overlay on the first.
  It also models `FederateUser`: the rule for skipping federation, the
  duration clamp, and the GetFederationToken request.
- `Console` (console.dfy) models `GenerateLoginURL`, `extractToken` and
  `urlParams`.
- `Cmd` (command.dfy) models the command's flags as a class: `PreRun`
  writes the profile, and `RunE` runs the stages. `versionFmt` is here too.
- `Types` (types.dfy) holds Option/Result, the closed set of pipeline
  errors, credentials, and nanosecond durations.
- `Strconv` (strconv.dfy) holds `strconv.Itoa` and a proof that its output
  reads back as the same number.

Every call out of the program is a function-typed parameter. These are the
shared-config loader, the stdin contents, STS, the STS endpoint resolver,
`json.Marshal`, `url.Parse`, the HTTP round trip, the location resolver and
the output sinks. Each operation that the source writes step by step is a
method: `FromReader`, `FederateUser`, `UrlParams`, `GenerateLoginUrl`,
`RunE`. Each such method is proved against a specification function
(`ReaderCredentials`, `Federation`, `WithParams`, `LoginUrlOutcome`,
`Pipeline`). The lemmas are about those functions. A run of `RunE` reports
the external effects it caused, in order, so that "aborts before", "no STS
call" and "exactly one sink" can be stated.

Three facts about this revision of the code shape the model:

- The alias tables hold finished ARNs and URLs. They have no `{partition}`,
  `{region}` or `{console}` placeholders.
- `extractToken` does not reject a response that lacks `SigninToken`. It
  yields `""`, and the login URL then carries an empty token
  (`Console.MissingTokenYieldsEmptyToken`).
- `GenerateLoginURL` always uses `https://signin.aws.amazon.com/federation`.
  `RunE` never calls `ResolveRegionPartition`.

The files come from slightly different revisions:

- `cmd/command.go:114` calls `FederateUser` without a region. The model
  passes the console region that `RunE` has just settled.
- `cmd/command.go:121` calls `resolveLocationAlias`, which
  `cmd/template.go` does not define. It is modelled as a parameter that may
  fail.

## Model

| member | source | states |
|---|---|---|
| Template.ResolvePolicyAlias | cmd/template.go:18-24 | a table key yields its ARN, which starts with `arn:aws:iam::aws:policy/`; any other string is returned unchanged |
| Template.ResolveRedirectAlias | cmd/template.go:39-45 | a table key yields its URL, which starts with `https://`; any other string is returned verbatim |
| Template.ResolveIdempotent | cmd/template.go:18-24 | looking up through a table in which no value is a key is idempotent |
| Template.TablesValuesAreNotKeys | cmd/template.go:10-37 | no value of either table is also a key of it |
| Template.PolicyAliasIdempotent | cmd/template.go:10-24 | resolving a policy alias twice gives the same result as once |
| Template.RedirectAliasIdempotent | cmd/template.go:29-45 | resolving a redirect alias twice gives the same result as once |
| Template.PolicySynonyms | cmd/template.go:11-15 | `admin` and `all` give the AdministratorAccess ARN; `readonly` and `ro` give the ReadOnlyAccess ARN |
| Template.TableValueShapes | cmd/template.go:10-37 | every policy value is an AWS managed-policy ARN and every redirect is an https URL |
| Template.UnknownAliasesPassThrough | cmd/template.go:18-45 | keys match exactly: a literal ARN, a URL, or a differently-cased key passes through |
| Partition.ResolveRegionPartition | credentials/partition.go:31-43 | a failing resolver gives the `aws` entry with found=true; a known partition gives exactly its entry; an unknown one gives ("", "", "", false); found implies the id is aws, aws-cn or aws-us-gov |
| Partition.FederationUrlShape | credentials/partition.go:12-29 | every federation URL starts with `https://signin.` and ends with `/federation` |
| Partition.PartitionUrlsDistinct | credentials/partition.go:12-29 | distinct partitions never share a console domain or a federation URL |
| Credentials.FromReader | credentials/credentials.go:74-105 | the result is that of the two-attempt decode into one struct; every success has a non-empty access key and secret |
| Credentials.NestedShapeAccepted | credentials/credentials.go:87-93 | an accepted nested decode returns exactly the three fields it wrote |
| Credentials.NestedShapeWins | credentials/credentials.go:87-100 | when both shapes would be accepted on their own, the nested one is returned |
| Credentials.FlatShapeFallback | credentials/credentials.go:94-100 | otherwise the flat decode is accepted or not on the struct it produces over the nested decode's fields, field by field |
| Credentials.NestedFieldsSurviveFailedDecode | credentials/credentials.go:85-100 | fields that a failed nested decode assigned survive, and can make the flat attempt succeed |
| Credentials.UnparsedIffNeitherAccepted | credentials/credentials.go:87-104 | "failed to parse credentials" is returned exactly when neither attempt is accepted |
| Credentials.FederationInput | credentials/credentials.go:130-146 | the request carries the name and exactly one policy ARN; DurationSeconds is absent iff the duration is 0, is 900 for a shorter non-zero one, and is the truncated seconds otherwise, with no upper bound |
| Credentials.Federation | credentials/credentials.go:110-159 | a session token gives the input back with no STS call; otherwise it makes one call with that client and request; an STS error becomes the failure, and success gives the three STS fields |
| Credentials.FederateUser | credentials/credentials.go:110-159 | the step-by-step clamp and request building give exactly the result and the call of `Federation` |
| Credentials.TemporaryCredentialsPassThrough | credentials/credentials.go:111-114 | credentials with a session token come back unchanged and STS is not called |
| Credentials.FederatesIffUserCredentials | credentials/credentials.go:111-149 | STS is called exactly when the session token is empty |
| Console.SingleValued | console/console.go:122-128 | the query has exactly the given keys, with one value each, and decodes back to the given map |
| Console.UrlParams | console/console.go:114-131 | a parse error is returned as such; otherwise the URL's query holds exactly one value per given key and decodes to the given map |
| Console.ExtractToken | console/console.go:99-112 | malformed JSON gives its decode error (and only then); a document gives its SigninToken, or "" when the field is absent |
| Console.SigninValues | console/console.go:32-54 | the getSigninToken parameters are exactly Action=getSigninToken and Session, plus SessionDuration iff the duration is non-zero; SessionDuration reads back as the whole seconds |
| Console.GenerateLoginUrl | console/console.go:25-97 | the step-by-step construction gives exactly the result and the signin request of `LoginUrlOutcome` |
| Console.SessionPayload | console/console.go:32-36 | the Session JSON has exactly the keys sessionId, sessionKey and sessionToken, bound to the access key, secret and token |
| Console.SigninRequestShape | console/console.go:48-71 | the signin request goes to the federation URL with the given User-Agent, and its query decodes to the signin parameters; it is sent iff the URL parses |
| Types.Error.Message | credentials/credentials.go:104 | the program's own error texts: "failed to parse credentials" (here), "request failed: " followed by the status line (console/console.go:82), and a text starting "could not resolve location " (cmd/command.go:123) |
| Console.NonOkStatusFails | console/console.go:80-83 | a non-200 response fails with "request failed: " and the status line, and no URL is returned |
| Console.LoginUrlShape | console/console.go:85-96 | a success came from a 200 JSON response; its URL is on the federation endpoint, and its query is exactly Action=login, Destination and that response's SigninToken |
| Console.MissingTokenYieldsEmptyToken | console/console.go:101-111 | a 200 response without SigninToken gives a login URL with an empty token |
| Console.FixedFederationEndpoint | console/console.go:26-27 | the fixed endpoint is the `aws` partition's federation URL, whatever the region |
| Console.LoginExample | console/console.go:25-97 | user credentials, duration 0 and a 200 response with TOK123 give a signin request without SessionDuration and a login URL with query {Action: login, Destination, SigninToken: TOK123} |
| Types.WholeSeconds | console/console.go:53 | `int(d.Seconds())` truncates toward zero: s seconds lie within one second of d, on d's side of zero |
| Strconv.Itoa | console/console.go:53 | the decimal text is non-empty, starts with a minus sign iff the number is negative, and is otherwise all digits |
| Strconv.ItoaRoundTrip | console/console.go:53 | the text Itoa writes reads back as the same number |
| Strconv.ItoaInjective | console/console.go:53 | distinct numbers give distinct texts |
| Cmd.VersionFmt | cmd/command.go:246-254 | the literal is always a prefix; the formatted text follows it exactly when a version is set |
| Cmd.ConsoleRegion | cmd/command.go:100-108 | the `--region` flag if set, else the configured region if set, else `us-east-1`; never empty |
| Cmd.SelectSink | cmd/command.go:132-149 | qr, then browser, then clipboard, then standard output; exactly one sink |
| Cmd.Command.constructor | cmd/command.go:153-201 | the flag defaults: location home, name aws-console, policy admin, QR size 780, duration 0, versioned user agent |
| Cmd.Command.PreRun | cmd/command.go:77-82 | a positional argument, when given, replaces the profile; otherwise the profile is unchanged |
| Cmd.Command.RunE | cmd/command.go:84-150 | the error and the effects of a run are exactly those of `Pipeline` for the current flags |
| Cmd.CredentialSourceFirst | cmd/command.go:85-95 | the first effect reads standard input iff the profile is `-`, and loads that profile otherwise |
| Cmd.EffectsInStageOrder | cmd/command.go:84-150 | effects come in the fixed stage order (credentials, federation, signin token, output), each stage at most once |
| Cmd.CredentialErrorAborts | cmd/command.go:96-98 | a credential error is the result, and nothing after loading the credentials happens |
| Cmd.LaterStagesNeedEarlierOnes | cmd/command.go:113-130 | a federation error, or a location that cannot be resolved, ends the run before any signin request or output, and the location error names the location; a failed login URL ends it after the signin request, with no output |
| Cmd.TemporaryCredentialsSkipFederation | cmd/command.go:110-117 | credentials with a session token never cause a GetFederationToken call |
| Cmd.FederationUsesConsoleRegion | cmd/command.go:100-114 | a GetFederationToken call carries the settled region, the user agent and the federation request built from the flags; for stdin the region is the flag or us-east-1 |
| Cmd.SuccessEmitsOnce | cmd/command.go:126-149 | a run without error ends with one output to the selected sink, right after the signin request, and outputs nowhere else |

## Left out

- `FromConfig` (credentials/credentials.go:31-45) is not modelled. It loads the SDK's shared config and credential providers. It is a parameter that returns credentials and a region, or an error.
- The STS endpoint resolver is a parameter of `ResolveRegionPartition`. The SDK's region classification is not modelled.
- The STS client, the User-Agent build middleware and the network call are not modelled. The model records the client's credentials, region and user agent, and it records the request value.
- `json.Unmarshal` and `json.NewDecoder` are abstract. A decode is described by the fields it assigned and whether it returned an error. This covers Go's case-insensitive key matching and its partial writes before a type error without modelling them.
- `json.Marshal` of the session map is an abstract function. Its error branch (console/console.go:39-42) is not modelled, because marshalling a string map never fails.
- `url.Values.Encode` percent-escaping is abstract. A URL carries its decoded query map, on the premise that encoding and then parsing a query gives the map back.
- The HTTP request, the 15-second timeout and `http.DefaultClient.Do` are one parameter that returns a transport error or a (status code, status line, body) response.
- `Types.WholeSeconds`: exact truncation of the nanosecond count is modelled. `Duration.Seconds()` goes through float64 and may round up by one second for durations beyond about 2^24 seconds that are within nanoseconds of the next whole second.
- `Credentials.FederationInput`: the `int32` conversion of DurationSeconds is not modelled. Seconds beyond 2^31-1, which need a duration of over 68 years, are implementation-dependent in Go. The model keeps the mathematical value.
- Durations are unbounded integers. Go's `time.Duration` is a 64-bit nanosecond count.
- A GetFederationToken success without a Credentials element would dereference nil in Go. The model assumes STS always returns the element.
- `Cmd.Command.RunE`: `cmd/command.go:114` calls `FederateUser` with five arguments and no region. The region argument here is this model's own resolution of that call: the console region `RunE` has just settled, which `Cmd.FederationUsesConsoleRegion` is about.
- `Types.Error.Message` renders `%q` as plain double quotes. It does not model Go's escaping of special characters.
- QR rendering, opening a browser, clipboard writes, printing, and the clipboard case's confirmation line are not modelled. The model records only the sink chosen and its reported error. Printing never reports one, as in the source.
- Cobra's flag parsing, its `MaximumNArgs(1)` check, and the usage and version templates are left out. `cmd/version.go`, `qr/qr.go` and `main.go` are not part of this model. The flag defaults are kept as the constructor's postcondition.
