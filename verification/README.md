# linodego core, modelled in Dafny

This project models the deterministic core of linodego, the Go client for the Linode API:

- **Paginator.** The generic `getPaginatedResults` normalises the caller's list options and fetches either one explicit page or pages 1, 2, … until the last page fetched says there are no more. It concatenates every page's data and writes the page counts back into the options.
- **POST/PUT body rule.** `doPOSTRequest` and `doPUTRequest` decide whether a body is attached.
- **Path escaping.** `formatAPIPath` escapes each string argument.
- **Cached listing.** `ListNetworkTransferPrices` returns a cached list or paginates and stores the result.
- **Host URLs.** The API client and the metadata client compose `proto://host/version` from settings with defaults. The metadata client's `NewClient` handles its options.
- **Small helpers.** The `copy*` helpers, the resource table, the retry-conditional list, the poll delay, `Profile.GetUpdateOptions`, and the instance-config option projections, `AppendData` and the create/update/rename calls.

HTTP is an oracle throughout: a page fetch is a function from a page number to a decoded page or an error. The following are parameters of the functions that use them:

- applying list options;
- cache-key generation;
- JSON encoding;
- path escaping;
- `fmt.Sprintf` in `formatAPIPath`;
- token generation.

The base-URL setters take the scheme and host/path that `url.Parse` and `path.Join` split off; they do not parse.

Go's nil-able pointers are `Option`, and `(value, error)` pairs are `Result`.

Files and modules:

| file | module | what it holds |
|---|---|---|
| `results.dfy` | `Results` | `Option` and `Result` |
| `host_urls.dfy` | `HostURLs` | the URL composition both clients share |
| `request_helpers.dfy` | `RequestHelpers` | the paginator |
| `request_helpers.dfy` | `PaginationScenario` | the many-pages test |
| `request_dispatch.dfy` | `RequestDispatch` | the body rule and `formatAPIPath` |
| `network_transfer_prices.dfy` | `NetworkTransferPrices` | the cached listing |
| `client.dfy` | `LinodeClient` | the API client |
| `metadata_client.dfy` | `MetadataClient` | the metadata client |
| `profile.dfy` | `Profiles` | the profile and its update options |
| `instance_configs.dfy` | `InstanceConfigs` | instance configs |
| `decimal.dfy` | `DecimalFormat` | a supporting model of Go's `%d`, used only for instance-config paths |

The paginator is defined twice:

- `Paginate` is a recursive reference definition, and every property is proved about it.
- `GetPaginatedResults` is a method that follows the Go loop statement by statement and is proved to produce the same trace.

Two behaviours of the code are worth stating plainly:

- **Loop bound.** `getPaginatedResults` writes each fetched page's count into `opts.Pages` (request_helpers.go:61), and its loop re-reads `opts.Pages` on every iteration (request_helpers.go:88). The bound is therefore the page count reported by the page fetched last, not the count reported by page 1.
- **Body rule.** A POST/PUT body is attached only when more than one option is passed and the first is non-nil (request_helpers.go:128). The comment above the guard (request_helpers.go:127) says its purpose is to keep `null` from reaching the API, yet a single option also sends no body. See Findings.

## Model

| member | source | states |
|---|---|---|
| `RequestHelpers.Normalize` | request_helpers.go:35-41 | a nil `opts` or nil `PageOptions` becomes page 0; page size, filter and given page options are kept |
| `RequestHelpers.Paginate` | request_helpers.go:23-95 | reference definition of the call: nothing is requested exactly when the options cannot be applied, and otherwise the first request is the explicit page, or page 1 when none was given |
| `RequestHelpers.RestPages` | request_helpers.go:88-94 | reference definition of the loop from a given page, re-reading the bound written back by the page fetched last; the `RestPages…` lemmas below state its properties |
| `RequestHelpers.NilOptionsMeanPageZero` | request_helpers.go:35-41 | a nil `opts`, and `opts` with nil `PageOptions`, paginate exactly like an explicit page 0, whenever the paginator's loop bound holds |
| `RequestHelpers.OptionsErrorFetchesNothing` | request_helpers.go:43-46 | if the options cannot be applied, the call fails with that error and requests no page |
| `RequestHelpers.ExplicitPageIsTheOnlyPage` | request_helpers.go:69-85 | an explicit page p > 0 is the one page requested, whatever count it reports; the result is its data or its error |
| `RequestHelpers.RestPagesNumbering` | request_helpers.go:88-92 | the loop requests consecutive pages from its start, and requests nothing when the start is past the last written count |
| `RequestHelpers.RestPagesStopRule` | request_helpers.go:88-92 | the loop goes past a page exactly when that page succeeded and reported a further page |
| `RequestHelpers.RestPagesResult` | request_helpers.go:88-94 | the loop ends with the error of its last page, or with the data of all its pages appended in order |
| `RequestHelpers.RestPagesWriteBack` | request_helpers.go:60-62 | after the loop the options hold the number and counts of the last page fetched successfully |
| `RequestHelpers.DefaultRequestsConsecutivePages` | request_helpers.go:69-92 | with no explicit page the requests are 1, 2, …, k; page n+1 is requested iff page n succeeded and reported at least n+1 pages |
| `RequestHelpers.PaginateSuccessShape` | request_helpers.go:50-94 | a successful call ends on a successful page, and its result is the data of the pages it requested |
| `RequestHelpers.SuccessIsAllFetchedData` | request_helpers.go:50-94 | a successful call fetched every page it requested and returns their data concatenated in page order |
| `RequestHelpers.FailureIsLastRequestedPage` | request_helpers.go:76-92 | a failed call returns the error of the last page it requested, every earlier page succeeded, and no partial list is returned |
| `RequestHelpers.OptionsRecordLastFetchedPage` | request_helpers.go:60-62 | afterwards the caller's options hold the number, page count and result count of the last page fetched successfully, or are the normalised options (a nil `opts` or nil `PageOptions` becomes page 0) if none was |
| `RequestHelpers.FetchRemainingPages` | request_helpers.go:87-94 | the Go loop as written, with its re-read bound, produces the reference loop's result, requests and written-back options |
| `RequestHelpers.GetPaginatedResults` | request_helpers.go:23-95 | the whole Go function as written produces the reference definition's trace |
| `RequestHelpers.UniformRequests` | request_helpers.go:88-92 | consecutive requests from page 1 that continue while a page reports more pages are exactly 1..N when pages 1..N all succeed and report N |
| `RequestHelpers.UniformPagesCount` | request_helpers.go:69-92 | when pages 1..N all succeed and report N pages, the requests are exactly 1..N |
| `RequestHelpers.UniformPagesAreAllFetched` | request_helpers.go:69-94 | in that case the call also succeeds and returns the data of pages 1..N in order |
| `PaginationScenario.PageResults` | test/unit/networking_test.go:30-34 | the mock puts `size` results on every page but the last, which holds the remainder, and never an empty page |
| `PaginationScenario.PageCountBounds` | test/unit/networking_test.go:23 | the page count is the ceiling of total / size |
| `PaginationScenario.ListAllResults` | test/unit/networking_test.go:18-78 | for any positive total and any page size, listing without a page requests pages 1..ceil(total/size) and returns all `total` results |
| `PaginationScenario.ListNoResults` | request_helpers.go:69-94 | with no results at all, page 1 is still requested and is the only page, and the call succeeds with an empty list: one request, not ceil(0/size) = 0 |
| `PaginationScenario.ListManyRanges` | test/unit/networking_test.go:71-77 | 4231 results at 500 per page are requested as pages [1..9] and all 4231 come back |
| `RequestDispatch.RequestBody` | request_helpers.go:127-135 | a body is attached iff more than one option is given and the first is non-nil; the body encodes the whole option list; encoding errors are returned |
| `RequestDispatch.SendWithOptions` | request_helpers.go:116-143 | either nothing is sent and the body error is returned, or exactly one request with that verb and endpoint is sent and its outcome returned |
| `RequestDispatch.DoPOSTRequest` | request_helpers.go:116-143 | a POST to the endpoint is sent unless body encoding failed, in which case the encoding error is returned; the request has a body exactly when the guard holds, and that body is the encoding of all the options; the transport's outcome is returned |
| `RequestDispatch.DoPUTRequest` | request_helpers.go:146-173 | a PUT to the endpoint is sent unless body encoding failed, in which case the encoding error is returned; the request has a body exactly when the guard holds, and that body is the encoding of all the options; the transport's outcome is returned |
| `RequestDispatch.PostAndPutDifferOnlyInVerb` | request_helpers.go:116-173 | POST and PUT send the same request apart from the verb |
| `RequestDispatch.OneOptionSendsNoBody` | request_helpers.go:128-135 | as written, a call with exactly one non-nil option sends its request without a body |
| `RequestDispatch.IntendedRequestBody` | request_helpers.go:127-135 | corrected rule: a nil or missing option sends no body, and a single non-nil option is encoded on its own |
| `RequestDispatch.SendIntended` | request_helpers.go:116-143 | with the corrected rule, nothing is sent exactly when the one option fails to encode, and that error is returned; otherwise exactly one request goes to the given verb and endpoint with the corrected body, and its outcome is returned |
| `RequestDispatch.IntendedSendsTheOneOption` | request_helpers.go:127-135 | with the corrected rule, one option is sent as the body, and no `null` body is sent for none or nil |
| `RequestDispatch.EscapeArg` | request_helpers.go:190-196 | a string argument is path-escaped and any other argument passes through unchanged |
| `RequestDispatch.EscapeArgs` | request_helpers.go:189-197 | every argument is escaped on its own, keeping count and order |
| `RequestDispatch.EscapeArgsAppend` | request_helpers.go:189-197 | escaping a concatenation is concatenating the escaped parts |
| `RequestDispatch.FormatAPIPath` | request_helpers.go:188-199 | the escaping loop as written formats the pointwise-escaped arguments |
| `NetworkTransferPrices.ListNetworkTransferPrices` | network_transfer_prices.go:13-33 | a key error fetches nothing; a hit returns the cached list; a miss paginates the raw endpoint; failure leaves the cache alone; success stores the result under the looked-up key |
| `NetworkTransferPrices.OtherKeysUnchanged` | network_transfer_prices.go:30 | a call leaves every other cache key as it was |
| `NetworkTransferPrices.SecondCallIsServedFromCache` | network_transfer_prices.go:16-32 | after a success, a call with the same key returns the same list without paginating or changing the cache |
| `HostURLs.Effective` | client.go:204-214 | a non-empty setting wins, and an empty one gives the default |
| `HostURLs.Resolve` | client.go:199-216 | each URL component is its own setting or its own default, independently |
| `HostURLs.NoSettingsGiveDefaults` | client.go:199-216 | with no settings, the URL components are the defaults |
| `HostURLs.OverrideReplacesOnlyItsComponent` | client.go:204-214 | a non-empty setting replaces only its own component |
| `HostURLs.Render` | client.go:216 | the `%s://%s/%s` composition: its length is the three parts plus four separator characters, it begins with the scheme and ends with the version |
| `HostURLs.RenderShape` | client.go:216 | the URL starts with `scheme://` and ends with `/version` |
| `LinodeClient.UpdateHostURL` | client.go:199-217 | the host URL is recomputed from the settings and nothing else changes |
| `LinodeClient.DefaultHostURL` | client.go:199-216 | with no settings the client talks to `https://api.linode.com/v4` |
| `LinodeClient.SetAPIVersion` | client.go:191-197 | the version is set, the URL is current, and the base URL, protocol and the rest are unchanged |
| `LinodeClient.SetBaseURL` | client.go:179-188 | scheme and host/path are stored, the URL is current, and the version and the rest are unchanged |
| `LinodeClient.SchemelessBaseURLKeepsHTTPS` | client.go:179-188 | a base URL without a scheme still gives an `https://` host URL |
| `LinodeClient.BaseURLAndVersionCommute` | client.go:179-197 | setting the base URL and the version in either order gives the same client |
| `LinodeClient.Copy` | client.go:540-578 | nil maps to nil, and a non-nil pointer maps to one holding an equal value |
| `LinodeClient.LookupResource` | client.go:294-301 | a registered name gives its entry; any other name fails with the fatal message |
| `LinodeClient.AddRetryConditional` | client.go:250-253 | the conditional is appended, earlier entries keep their places, and nothing else changes |
| `LinodeClient.SetRetries` | client.go:233-242 | busy, 429, 503 and timeout are appended in that order, and the maximum wait becomes 30 seconds |
| `LinodeClient.GetPollDelay` | client.go:289-291 | the getter; that it returns what `SetPollDelay` stored is stated by `SetPollDelay` and `LastPollDelayWins` |
| `LinodeClient.SetPollDelay` | client.go:282-285 | `GetPollDelay` afterwards returns the delay set, and nothing else changes |
| `LinodeClient.LastPollDelayWins` | client.go:282-291 | after any run of `SetPollDelay` calls, `GetPollDelay` returns the last delay set |
| `MetadataClient.UpdateHostURLAsWritten` | metadata/client.go:107-125 | the URL is handed to the HTTP client, and this panics iff there is none yet |
| `MetadataClient.UpdateHostURL` | metadata/client.go:107-125 | the host URL is recomputed from the settings and nothing else changes |
| `MetadataClient.DefaultMetadataURL` | metadata/client.go:107-125 | with no settings the client talks to `http://169.254.169.254/v1` |
| `MetadataClient.SetBaseURLAsWritten` | metadata/client.go:88-97 | stores scheme and host/path, and panics iff the HTTP client is missing |
| `MetadataClient.SetVersionAsWritten` | metadata/client.go:99-105 | stores the version, and panics iff the HTTP client is missing |
| `MetadataClient.FinishClient` | metadata/client.go:69-80 | the URL is composed; with tokens enabled the returned token is installed, or its error is wrapped as "failed to generate metadata token: …" |
| `MetadataClient.NewClientAsWritten` | metadata/client.go:36-81 | the constructor as written panics on the nil HTTP client exactly when a base-URL or version override is given |
| `MetadataClient.OverrideDereferencesNil` | metadata/client.go:46-59 | as written, any non-empty base-URL or version override panics on the nil HTTP client |
| `MetadataClient.Configured` | metadata/client.go:39-59 | the client reaching line 69: overrides stored in their own components, empty ones leaving the zero value, and the transport the caller's HTTP client when one was given |
| `MetadataClient.NewClient` | metadata/client.go:36-81 | corrected constructor: a successful client's URL is current and its transport is the caller's when one is given |
| `MetadataClient.NewClientAgreesWithoutOverrides` | metadata/client.go:36-81 | without overrides, the code as written and the corrected constructor agree |
| `MetadataClient.OverridesSetTheirComponents` | metadata/client.go:42-53 | the base-URL override sets host and scheme, the version override sets the version, and empty overrides are ignored |
| `MetadataClient.NilOptionsUseDefaults` | metadata/client.go:36-81 | nil options act as zero options: the URL is the default and a token is installed |
| `MetadataClient.SchemeOverrideIgnored` | metadata/client.go:42-53 | `SchemeOverride` never affects the outcome |
| `MetadataClient.DisabledTokenInitSkipsToken` | metadata/client.go:71-78 | with `DisableTokenInit` the call succeeds and no token is installed |
| `MetadataClient.TokenOutcome` | metadata/client.go:71-78 | otherwise the call fails exactly when token generation fails on the configured client, with that error wrapped as "failed to generate metadata token: …", and on success the generated token is installed |
| `MetadataClient.SetBaseURL` | metadata/client.go:88-97 | on a built client: scheme and host/path are stored, the URL is current, and the rest is kept |
| `MetadataClient.SetVersion` | metadata/client.go:99-105 | on a built client: the version is stored, the URL is current, and the rest is kept |
| `MetadataClient.SettersAgreeOnceBuilt` | metadata/client.go:88-105 | once the HTTP client exists, the setters as written do not panic and agree with the corrected ones |
| `Profiles.AuthMethodsDistinct` | profile.go:12-16 | the three Lish authentication methods are different strings |
| `Profiles.GetUpdateOptions` | profile.go:56-69 | strings are copied, the four flags become non-nil and equal, and keys become a non-nil element-wise copy, with nil giving empty |
| `Profiles.UpdateOptionsDetermineSettableFields` | profile.go:43-69 | two profiles give equal update options iff they agree on the eight settable fields, with nil keys equal to empty keys |
| `InstanceConfigs.ConversionsRoundTrip` | instance_configs.go:75 | converting between create and update options and back is the identity |
| `InstanceConfigs.GetCreateOptions` | instance_configs.go:77-90 | the ten settable fields are copied unchanged |
| `InstanceConfigs.GetUpdateOptions` | instance_configs.go:92-105 | the same ten fields are copied unchanged |
| `InstanceConfigs.UpdateOptionsAreCreateOptions` | instance_configs.go:77-105 | the update options are the converted create options |
| `InstanceConfigs.CreateOptionsSeeOnlySettings` | instance_configs.go:77-105 | equal options iff the ten settable fields agree, whatever id and timestamps |
| `InstanceConfigs.AppendData` | instance_configs.go:117-119 | the old data is a prefix, the appended data the suffix, and the page options are kept |
| `InstanceConfigs.AppendDataAssociative` | instance_configs.go:117-119 | appending page by page gives the same list however the appends are grouped |
| `InstanceConfigs.ConfigPath` | instance_configs.go:192 | the `%s/%d` path: the endpoint, a `/`, then the id's `%d` rendering, which reads back as the id and begins with `-` exactly for a negative id |
| `InstanceConfigs.ConfigPathsDistinct` | instance_configs.go:192 | different config ids give different `%s/%d` paths |
| `InstanceConfigs.CreateInstanceConfig` | instance_configs.go:158-183 | endpoint or encoding errors are returned before sending; otherwise one POST with the encoded options is sent |
| `InstanceConfigs.UpdateInstanceConfig` | instance_configs.go:186-211 | endpoint or encoding errors are returned before sending; otherwise one PUT to `endpoint/configID` is sent |
| `InstanceConfigs.RenameOptions` | instance_configs.go:214-216 | the options carry the label, and every other field is zero or nil |
| `InstanceConfigs.RenameInstanceConfig` | instance_configs.go:214-216 | renaming is an update with only the label set |
| `InstanceConfigs.RenameIsUpdateOfZeroedConfig` | instance_configs.go:214-216 | renaming equals updating with the options of a config that has only its label set |
| `DecimalFormat.DecimalRoundTrip` | instance_configs.go:192 | reading back a `%d` rendering gives the number |
| `DecimalFormat.DecimalStringInjective` | instance_configs.go:192 | different numbers render differently under `%d` |

## Left out

- RequestHelpers.GetPaginatedResults: when the options apply and no page is asked for, requires that every page reports fewer than 2^63-1 pages (`BoundedIfLooping`). Otherwise the Go loop need not end, and its `int` counter would wrap; neither case is modelled. An explicit page and an options error need no such bound.
- RequestHelpers.Paginate: carries the same `BoundedIfLooping` requirement, and so do the lemmas about it, for the same reason.
- RequestHelpers.FetchRemainingPages: is the loop itself, so it requires `Bounded` outright.
- RequestHelpers.RestPages: is the loop itself, so it requires `Bounded` outright.
- RequestHelpers.DefaultRequestsConsecutivePages: is about the loop path only, so it requires `Bounded` outright.
- RequestHelpers.UniformPagesCount: is about the loop path only, so it requires `Bounded` outright.
- RequestHelpers.UniformPagesAreAllFetched: is about the loop path only, so it requires `Bounded` outright.
- PaginationScenario.ListAllResults: requires a positive total, because the page count is the ceiling of total / size. The zero-results case is stated separately by `ListNoResults`: page 1 is still requested.
- NetworkTransferPrices.ListNetworkTransferPrices: requires the bound only for a cache miss that reaches the paginator's loop (`BoundedOnMiss`); a key error and a cache hit need none.
- LinodeClient.Copy: states value equality only. That the copy is a newly allocated pointer, not aliased to the original, is not modelled, because values have no identity here.
- InstanceConfigs.GetCreateOptions: `Devices` and `Helpers` are copied as values. That Go copies the pointers, so options and config share them, is not modelled.
- InstanceConfigs.GetUpdateOptions: the same as `GetCreateOptions`; Go shares the `Devices` and `Helpers` pointers (instance_configs.go:96-97), and the model copies values.
- LinodeClient.SetBaseURL: takes the scheme and host/path already split by `url.Parse`. The parse error is discarded (client.go:180), so an unparsable URL dereferences a nil `*url.URL`; that panic is not modelled. `MetadataClient.SetBaseURLAsWritten` and `MetadataClient.SetBaseURL` take the split parts too, and the same discarded error at metadata/client.go:89 is not modelled.
- MetadataClient.NewClient: the `LINODE_DEBUG` lookup and its parse error (metadata/client.go:61-67) are left out, because they read the environment.
- **HTTP transport.** resty, TLS root certificates, context cancellation and request headers are I/O. They become the fetch and send oracles.
- **External helpers.** `coupleAPIErrors`, `applyListOptionsToRequest`, `generateListCacheURL`, `json.Marshal`, `url.PathEscape`, `url.Parse`/`path.Join`, `fmt.Sprintf` in `formatAPIPath`, and `GenerateToken` are not shown or are foreign. They are parameters.
- **Cache internals.** Cache expiry and locking involve time and concurrency. The cache is a map of typed lists, so Go's type assertion on the cached value does not arise.
- **Other verb helpers.** `doGETRequest` and `doDELETERequest` send one request with no rule of their own.
- **Other `formatAPIPath` arguments.** Arguments that are neither strings nor integers are not modelled.
- **Environment and configuration.** `NewClient`, `NewClientFromEnv`, config-file loading, `SetToken`, `SetRootCertificate` and resty's retry configuration (`configureRetries`) are environment, file or foreign-library work.
- **Metadata endpoint wrappers.** `GetNetwork`, `GetSSHKeys`, `GetUserData`, `GenerateToken` and `IPNet.UnmarshalText` are single-request wrappers.
- **Profile calls.** `GetProfile` and `UpdateProfile` are single requests.
- **Instance-config calls.**
  - `ListInstanceConfigs`, `GetInstanceConfig`, `DeleteInstanceConfig`, `fixDates`/`parseDates` and the panicking `EndpointWithID` wrapper are single requests or time parsing.
  - The per-resource list boilerplate is subsumed by the paginator and `AppendData`.
- **Event waiter.** It is driven by the wall clock.
- **Floating-point fields.** `ProfileReferrals.Credit` is left out.

## Findings

| source | as written | input that shows it | evidently intended | confidence | as-written member | corrected member |
|---|---|---|---|---|---|---|
| request_helpers.go:128-135 | a body is attached only when `len(options) > 1`, and then the whole slice is encoded as a JSON array | `doPOSTRequest(ctx, c, e, opts)` with one non-nil `opts` sends no body | one non-nil option is sent as the body, encoded on its own; a nil option sends no `null` | medium, not executed | `RequestDispatch.OneOptionSendsNoBody` | `RequestDispatch.IntendedRequestBody` |
| metadata/client.go:46-59 | `SetBaseURL`/`SetVersion` call `updateHostURL`, which uses `result.resty` before line 55 assigns it | `NewClient(ctx, &ClientCreateOptions{VersionOverride: "v2"})` dereferences a nil resty client | overrides are stored, and the host URL is composed once the HTTP client exists (line 69 already recomputes it) | high, not executed | `MetadataClient.OverrideDereferencesNil` | `MetadataClient.NewClient` |
