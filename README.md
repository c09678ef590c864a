# Alibaba Cloud provider drivers: identity, errors and lifecycles

This project models the core of a Terraform provider for Alibaba Cloud. A
driver maps one kind of cloud object onto Create, Read, Update and Delete
operations over a Terraform record. The record holds the field values and a
flat string id. The model covers the shared helpers in `aliyun/common.go` and
five drivers:

- **Function Compute** triggers and versions.
- **DCDN** (dynamic CDN) domains, domain configs and domain certificates.

Modules:

- `Common` (`common.dfy`) holds the shared helpers:
  - `ParseResourceId`, the identity decoder. It splits the id on `:`, and the
    ids themselves are written with `COLON_SEPARATED`. The model also includes
    the parts of Go's `strings.Split`/`Join`/`Contains` it needs.
  - The `ComplexError` wrapper, its `Error()` text, and `WrapError` /
    `WrapComplexError`.
  - The classifier `IsExpectedErrors`, which drivers use to treat "already
    gone" as success.
- `Schema` (`resource_data.dfy`) is the plugin SDK's `*schema.ResourceData`,
  cut down to what the drivers use. It is a class with:
  - the stored `id`;
  - a `fields` map that `Set` rewrites;
  - the set of fields the plan changes.
- `FcClient` and `DcdnClient` are stub API clients. Each is a class whose
  `log` records every call issued, and whose replies are scripted. The DCDN
  stub answers status reads from a queue whose last reply repeats, so a run of
  "still processing" reads followed by "online" can be scripted.
- `FcTrigger`, `FcVersion`, `DcdnDomain`, `DcdnDomainConfig` and
  `DcdnDomainCert` are the drivers, one per source file. Each operation is a
  method that changes the record and the client log step by step, as the
  driver does. Its postcondition states:
  - the exact call log;
  - the new id and record, as a function of the old record and the scripted
    replies;
  - the diagnostics.

  Lemmas beside each driver prove what those functions promise: round trips,
  what is filtered, which calls an update plans, and how the activation probe
  loop ends.

Modelling choices:

- Where the code departs from what a reader might expect, the model follows the code:
  - No Read turns a "not found" error into a dropped record; every error is
    returned.
  - The DCDN domain, domain-config and certificate Deletes swallow no error.
    Only the FC trigger Delete (classifier codes) and the FC version Delete
    (the `"HttpStatus": 404,` marker) swallow one.
  - When the DCDN activation loop runs out of time, the result is the last
    retryable error ("dcdn creation is processing"). There is no separate
    timeout error, because `resource.RetryContext` returns the last error its
    closure gave.
- Go's index-out-of-range panic is modelled as a `panicked` result. It occurs
  when a DCDN config lookup or certificate lookup returns an empty list, and
  the model leaves the record unchanged in that case. This is not stated as a
  precondition, because the driver does not guard against it.
- `json.Marshal` payloads are modelled as structured values (`Payload` maps).
  Trigger configs are kept as their JSON text.

## Model

| member | source | states |
|---|---|---|
| Common.NatToStringValue | aliyun/common.go:39 | the `%d` text of a count is its decimal numeral: reading the digits back gives the count |
| Common.IntToStringValue | aliyun/common.go:26-28 | the `%d` text of a line number is a minus sign for negative numbers followed by the decimal numeral of the magnitude, so the -1 of a failed `runtime.Caller` prints as `-1` |
| Common.SplitPieces | aliyun/common.go:36 | `strings.Split` on `:` gives one more piece than there are separators, and no piece contains the separator |
| Common.SplitJoin | aliyun/common.go:36 | splitting a join gives back the parts, provided no part contains the separator |
| Common.JoinSplit | aliyun/common.go:36 | joining the pieces of a split gives back the original string |
| Common.ParseResourceId | aliyun/common.go:35-42 | the pieces are returned in every case; the error is nil exactly when the piece count equals `length`, otherwise it is `WrapError` of the "Invalid Resource Id" message at the call site on line 39 |
| Common.ParsePieces | aliyun/common.go:36-38 | the piece count is the colon count plus one, no piece holds a colon, the pieces join back into the id, and the empty id parses to one empty piece |
| Common.ParseJoinedId | aliyun/common.go:35-42 | round trip: parts joined with `COLON_SEPARATED` parse back into the same parts without error when no part holds a colon |
| Common.InvalidIdMessageMentions | aliyun/common.go:39 | the message contains the raw id, the expected count and the actual count |
| Common.ParseFailureMentions | aliyun/common.go:39 | a parse failure is a ComplexError whose cause text contains the raw id, the expected count and the actual count |
| Common.ErrorText | aliyun/common.go:21-29 | a ComplexError's text opens with the red `[ERROR]` tag, and any other error's text is its own message; what follows the tag: see ComplexErrorTextShowsCause, ComplexErrorTextShowsPath and ComplexErrorTextShowsContext |
| Common.ComplexErrorTextShowsCause | aliyun/common.go:21-29 | `Error()` of a ComplexError contains its cause's text, or `<nil cause>` when the cause is nil |
| Common.ComplexErrorTextShowsPath | aliyun/common.go:21-29 | `Error()` of a ComplexError contains the recorded path |
| Common.ComplexErrorTextShowsContext | aliyun/common.go:28 | when `Err` is set, `Error()` contains its text |
| Common.WrapError | aliyun/common.go:44-58 | nil stays nil; otherwise the result is a ComplexError with the cause and no context error. If `runtime.Caller` fails, the path is "" and the line -1; otherwise the path keeps only the last three `/`-separated segments and the line is the caller's |
| Common.WrapComplexError | aliyun/common.go:60-67 | the result is a ComplexError holding exactly the given cause, context error, path and line, and its innermost cause is the cause's; classification: see WrappingKeepsClassification |
| Common.TrimmedPathSegments | aliyun/common.go:53-56 | the trimmed path splits into exactly the last three segments of the caller's path (all of them when there are at most three) |
| Common.ContainsMeansOccurs | aliyun/common.go:113 | `strings.Contains` holds exactly when the substring occurs at some position |
| Common.Root | aliyun/common.go:90-92 | unwrapping ComplexError causes ends at nil or at an error that is not a ComplexError |
| Common.AnyCodeMatchesMeaning | aliyun/common.go:95-116 | the early-returning loops over `expectCodes` are true exactly when some code matches |
| Common.IsExpectedErrors | aliyun/common.go:85-118 | an expected error has an innermost cause and the code list is non-empty; meaning: see IsExpectedErrorsMeaning |
| Common.IsExpectedErrorsMeaning | aliyun/common.go:85-118 | `IsExpectedErrors` holds exactly when the innermost cause exists and some expected code matches it: nil is never expected, and a ComplexError is judged by its cause, recursively |
| Common.NothingExpectedWithoutCodes | aliyun/common.go:112-117 | no error is expected against an empty code list |
| Common.ExpectedMonotone | aliyun/common.go:94-117 | adding codes never turns an expected error into an unexpected one |
| Common.WrappingKeepsClassification | aliyun/common.go:90-92 | wrapping with `WrapComplexError` or `WrapError` never changes the classification, and the context error is never consulted |
| Common.StructuredErrorsIgnoreText | aliyun/common.go:94-110 | a ServerError or fc.ServiceError is classified by its code (equality) or message (substring) alone, and its `Error()` text is never read |
| Schema.ResourceData.GetOkGuardRedundant | aliyun/resource_aliyun_dcdn_domain_cert.go:77-82 | guarding `d.Get` of a string field with `d.GetOk` yields the same string, because an unset field reads as "" |
| FcTrigger.TriggerIdParses | aliyun/resource_aliyun_fc_trigger.go:212 | the stored `service:function:name` id parses back into its three parts when none holds a colon |
| FcTrigger.TriggerIdWithColonFails | aliyun/resource_aliyun_fc_trigger.go:212 | a colon in any of the three parts makes the stored id fail to parse with length 3 |
| FcTrigger.TriggerNameChoice | aliyun/resource_aliyun_fc_trigger.go:165-172 | a set `name` is used verbatim; otherwise the name is `name_prefix`, or `terraform-` when there is no prefix, followed by the generated suffix |
| FcTrigger.SourceArnSentWhenNonEmpty | aliyun/resource_aliyun_fc_trigger.go:198-200 | `SourceARN` is sent exactly when `source_arn` is non-empty, and then with its value |
| FcTrigger.ReadFieldsRouting | aliyun/resource_aliyun_fc_trigger.go:238-262 | Read writes the returned config into `config_mns` for an `mns_topic` record and into `config` otherwise (the same field Create took it from), leaves the other config field alone, and takes `service`/`function` from the id |
| FcTrigger.UpdateInputCopiesChanges | aliyun/resource_aliyun_fc_trigger.go:126-149 | the update input carries role, config and qualifier each exactly when it changed, with the record's value, and names the trigger by the id's parts |
| FcTrigger.NewTriggerObject | aliyun/resource_aliyun_fc_trigger.go:163-200 | the TriggerCreateObject built field by field is the one the name, config-routing and source-ARN rules define |
| FcTrigger.Read | aliyun/resource_aliyun_fc_trigger.go:217-265 | a bad id fails before any call; otherwise exactly one GetTrigger with the id's parts. On error the record is unchanged, on success it is rehydrated from the trigger |
| FcTrigger.Create | aliyun/resource_aliyun_fc_trigger.go:160-215 | on CreateTrigger error, no id and no other call. On success the id is `service:function:<returned name>`, followed by Read (which fails without a call if a part holds a colon) |
| FcTrigger.Update | aliyun/resource_aliyun_fc_trigger.go:123-158 | a bad id fails before any call; otherwise UpdateTrigger is always issued, even with nothing changed, and then Read. An update error stops before Read |
| FcTrigger.Delete | aliyun/resource_aliyun_fc_trigger.go:94-121 | a bad id fails before any call. The id is cleared on success and on ServiceNotFound/FunctionNotFound/TriggerNotFound; any other error is returned and the id kept |
| FcVersion.AlreadyGone | aliyun/resource_aliyun_fc_version.go:44 | an error counts as already deleted only when its `Error()` text is long enough to hold the `"HttpStatus": 404,` marker; meaning: see MarkedErrorIsGone and WrappedGoneErrorIsGone |
| FcVersion.MarkedErrorIsGone | aliyun/resource_aliyun_fc_version.go:43-47 | any error whose text embeds `"HttpStatus": 404,` counts as already deleted |
| FcVersion.WrappedGoneErrorIsGone | aliyun/resource_aliyun_fc_version.go:43-47 | a 404 error wrapped in a ComplexError is still taken as already deleted, because the wrapper's `Error()` text ends with its cause's |
| FcVersion.DescriptionNeverSent | aliyun/resource_aliyun_fc_version.go:59-70 | a set description is copied into the prepared input, yet the published input differs from it |
| FcVersion.ReadFieldsIdempotent | aliyun/resource_aliyun_fc_version.go:100-106 | applying the same listing twice is the same as applying it once |
| FcVersion.ReadFieldsKeepsOthers | aliyun/resource_aliyun_fc_version.go:102-106 | Read changes no field but `description` |
| FcVersion.ReadFieldsNeedsOneVersion | aliyun/resource_aliyun_fc_version.go:102-108 | a listing of zero or several versions leaves the record unchanged, with no error |
| FcVersion.ReadFieldsIgnoresVersionId | aliyun/resource_aliyun_fc_version.go:86-106 | the single listed version's description is stored whatever its VersionID, since the listing starting at the id is never compared with the id |
| FcVersion.Read | aliyun/resource_aliyun_fc_version.go:83-109 | exactly one ListServiceVersions (service from `service_name`, StartKey = id, Limit = 1). On error the record is unchanged; otherwise the record is the one ReadFields gives |
| FcVersion.Create | aliyun/resource_aliyun_fc_version.go:54-81 | as written: publishes SentInput; on error no id, otherwise the id is the returned VersionID, followed by Read |
| FcVersion.CreateWithDescription | aliyun/resource_aliyun_fc_version.go:59-70 | corrected: publishes the prepared input (description included when set); otherwise as Create |
| FcVersion.Delete | aliyun/resource_aliyun_fc_version.go:32-52 | one DeleteServiceVersion for (`service_name`, id). The id is cleared on success or on an error carrying the 404 marker; any other error is returned and the id kept |
| DcdnDomain.SourcePayloadRenames | aliyun/resource_aliyun_dcdn_domain.go:239-245 | each converted element has exactly the keys Content, Port, Priority, Type and Weight, each holding the element's content, port, priority, type and weight |
| DcdnDomain.ConvertSources | aliyun/resource_aliyun_dcdn_domain.go:235-252 | the conversion keeps the number and order of sources, converting each element independently |
| DcdnDomain.MissingKeySendsNil | aliyun/resource_aliyun_dcdn_domain.go:238-245 | nothing refuses an element missing a key: JSON null is sent under the capitalised key. Such a payload converts back into no origin only through the model's own reading; the plugin SDK fills every key, so real records never hold such an element |
| DcdnDomain.CollectSources | aliyun/resource_aliyun_dcdn_domain.go:216-225 | Read's loop builds one `sources` element per returned origin, in response order |
| DcdnDomain.SourceRoundTrip | aliyun/resource_aliyun_dcdn_domain.go:217-224 | an origin Read stores, converted as Create and Update do, reads back as the same origin |
| DcdnDomain.ProbeOutcome | aliyun/resource_aliyun_dcdn_domain.go:176-190 | a describe error is fatal (text "error creating dcdn: ..."); a status other than `online` is retryable ("dcdn creation is processing"); `online` is success; the "unkown state" branch is unreachable |
| DcdnDomain.ProbeRun | aliyun/resource_aliyun_dcdn_domain.go:172-191 | the retry loop makes between 1 and fuel + 1 status reads, and ends still pending only after using all of them |
| DcdnDomain.RetryResult | aliyun/resource_aliyun_dcdn_domain.go:172-194 | the loop's error is nil exactly when the last read was a success |
| DcdnDomain.ProbeRunSucceeds | aliyun/resource_aliyun_dcdn_domain.go:172-194 | the loop succeeds exactly when some read among the first fuel + 1 reports `online` and every read before it reports another status |
| DcdnDomain.ProbeRunTimesOut | aliyun/resource_aliyun_dcdn_domain.go:172-194 | the loop times out exactly when all of the first fuel + 1 reads report a status other than `online` |
| DcdnDomain.ProbeRunExample | aliyun/resource_aliyun_dcdn_domain.go:182-188 | reads "processing, processing, online" succeed on the third read |
| DcdnDomain.WaitForOnline | aliyun/resource_aliyun_dcdn_domain.go:172-194 | the polling loop issues exactly ProbeRun's number of DescribeDcdnDomainDetail calls for the domain and returns RetryResult of its last outcome |
| DcdnDomain.ReadFieldsSources | aliyun/resource_aliyun_dcdn_domain.go:213-230 | Read sets `domain_name` from the id and stores one `sources` element per returned origin, in order, each converting back into that origin |
| DcdnDomain.ScopePropertyCarriesScope | aliyun/resource_aliyun_dcdn_domain.go:111 | the property `{"coverage":"<scope>"}` contains the scope, and different scopes give different properties |
| DcdnDomain.UpdatePlanShape | aliyun/resource_aliyun_dcdn_domain.go:108-140 | Update plans one scope call exactly when `scope` changed, and exactly one UpdateDcdnDomain exactly when `resource_group_id` or `sources` changed. That call carries the sources only if they changed and the resource group only if it changed |
| DcdnDomain.NewAddRequest | aliyun/resource_aliyun_dcdn_domain.go:148-165 | the AddDcdnDomain request carries the domain, resource group and scope (only when set), and the converted sources |
| DcdnDomain.NewUpdateRequest | aliyun/resource_aliyun_dcdn_domain.go:118-134 | the `updateDomain` flag is set exactly when the resource group or sources changed, and the request carries only the changed ones |
| DcdnDomain.Read | aliyun/resource_aliyun_dcdn_domain.go:201-233 | one DescribeDcdnDomainDetail for the id; on error the record is unchanged, otherwise it is rehydrated from the detail |
| DcdnDomain.Create | aliyun/resource_aliyun_dcdn_domain.go:145-199 | an AddDcdnDomain error, or a loop that ends fatal or pending, returns that error with no id set. Only after success is the id the domain name, followed by Read |
| DcdnDomain.Update | aliyun/resource_aliyun_dcdn_domain.go:106-143 | a failing scope call stops everything; then the planned UpdateDcdnDomain, whose failure stops before Read; then Read |
| DcdnDomain.Delete | aliyun/resource_aliyun_dcdn_domain.go:89-104 | one DeleteDcdnDomain for the id; every error is returned and keeps the id, and success clears it |
| DcdnDomainConfig.BuildFunctionArgs | aliyun/resource_aliyun_dcdn_domain_config.go:126-135 | one `{argName, argValue}` payload per `function_args` element, at the same position |
| DcdnDomainConfig.ArgRoundTrip | aliyun/resource_aliyun_dcdn_domain_config.go:110-113 | an argument Read stores converts, as Create does, back into the same argument |
| DcdnDomainConfig.MissingArgNameSendsNil | aliyun/resource_aliyun_dcdn_domain_config.go:130-134 | nothing refuses an element without `arg_name`: argName is sent as JSON null. Such a payload converts back into no argument only through the model's own reading; the plugin SDK fills every key, so real records never hold such an element |
| DcdnDomainConfig.Kept | aliyun/resource_aliyun_dcdn_domain_config.go:106-109 | the skip filter returns no more arguments than it was given, each one from the response and none of them hidden; meaning: see KeptMembers, KeptAppend and KeptIdentity |
| DcdnDomainConfig.KeptMembers | aliyun/resource_aliyun_dcdn_domain_config.go:106-114 | Read keeps exactly the arguments not named cert, cert_id, cert_name, cert_type, dkey, pkey or https |
| DcdnDomainConfig.KeptAppend | aliyun/resource_aliyun_dcdn_domain_config.go:106-114 | the filter distributes over concatenation, so the kept arguments stay in response order |
| DcdnDomainConfig.KeptIdentity | aliyun/resource_aliyun_dcdn_domain_config.go:106-114 | a list without hidden names is kept whole, and filtering twice is filtering once |
| DcdnDomainConfig.CollectArgs | aliyun/resource_aliyun_dcdn_domain_config.go:104-114 | Read's skipping loop builds exactly the rows of the kept arguments |
| DcdnDomainConfig.ConfigIdParses | aliyun/resource_aliyun_dcdn_domain_config.go:151 | the `domain:function` id parses back into its two parts when neither holds a colon |
| DcdnDomainConfig.ConfigIdWithColonFails | aliyun/resource_aliyun_dcdn_domain_config.go:151 | a colon in either part makes the id fail to parse with length 2 |
| DcdnDomainConfig.ReadRestoresArgs | aliyun/resource_aliyun_dcdn_domain_config.go:104-118 | when the first config carries only non-hidden arguments, Read stores exactly those, in order, and the names from the id |
| DcdnDomainConfig.ReadHidesArgs | aliyun/resource_aliyun_dcdn_domain_config.go:107-109 | a hidden argument never appears in the stored `function_args` |
| DcdnDomainConfig.Read | aliyun/resource_aliyun_dcdn_domain_config.go:86-121 | a bad id fails before any call; otherwise one DescribeDcdnDomainConfigs for the id's parts. On error the record is unchanged; an empty list panics; otherwise the record comes from the first config |
| DcdnDomainConfig.Create | aliyun/resource_aliyun_dcdn_domain_config.go:123-154 | one BatchSetDcdnDomainConfigs with a one-element function list; on error no id. Otherwise the id is `domain:function`, followed by Read |
| DcdnDomainConfig.Delete | aliyun/resource_aliyun_dcdn_domain_config.go:54-84 | a bad id fails before any call. The lookup is followed by DeleteDcdnSpecificConfig of the first config's ConfigId on the id's domain. Every error is returned and keeps the id, and an empty lookup panics |
| DcdnDomainCert.CreateAndDeleteOpposite | aliyun/resource_aliyun_dcdn_domain_cert.go:71-82 | Create and Delete address the same domain and switch SSL in opposite directions; Create's key material is the record's `ssl_pub`/`ssl_pri` (empty when unset) |
| DcdnDomainCert.ReadKeepsPrivateKey | aliyun/resource_aliyun_dcdn_domain_cert.go:106-111 | Read never writes `ssl_pri` |
| DcdnDomainCert.ReadRestoresCreated | aliyun/resource_aliyun_dcdn_domain_cert.go:106-111 | when the domain reports the certificate Create set, Read stores back the values Create sent |
| DcdnDomainCert.Read | aliyun/resource_aliyun_dcdn_domain_cert.go:94-114 | one DescribeDcdnDomainCertificateInfo for the id; on error the record is unchanged, an empty list panics, otherwise the record comes from the first certificate |
| DcdnDomainCert.Create | aliyun/resource_aliyun_dcdn_domain_cert.go:67-92 | one SetDcdnDomainCertificate (SSL on, ForceSet 1). On error no id; otherwise the id is the domain name, followed by Read |
| DcdnDomainCert.Delete | aliyun/resource_aliyun_dcdn_domain_cert.go:49-65 | one SetDcdnDomainCertificate with SSL off for the id; every error is returned and keeps the id, and success clears it |

## Left out

- `provider.go`, `config.go` and `client.go` are not part of this model: provider set-up, credentials and SDK client construction.
- `resource_aliyun_cr_user_info.go` and `resource_aliyun_cr_user_info_auth.go` are not part of this model. They are thin wrappers: a random id, a no-op Read, and a network client built per call.
- The SDK calls themselves are not modelled. They are stub methods with scripted replies. The `Error()` text of SDK errors is taken as given, because the SDKs compose it.
- JSON is not modelled: `json.Marshal` of the DCDN payloads and `MarshalJSON` of a trigger config. Payloads are structured values and trigger configs are kept as text. `json.Marshal` of maps of strings and integers cannot fail, so its error branch in `convertSourcesToString` is not modelled.
- FcTrigger.Create: does not model the `json.Unmarshal` failure for a `config` or `config_mns` text that is not JSON (lines 178-186). The text is sent as the config as it stands.
- FcTrigger.Update: does not model the `json.Unmarshal` failure of a changed `config` (lines 132-135); the text is sent as it stands.
- FcTrigger.Read: does not model the `MarshalJSON` and `d.Set` error returns (lines 246-258). Neither can fail for a string field holding text the API returned.
- DcdnDomain.Read: does not model the error return of `d.Set("sources", ...)` (line 226), which cannot fail for a list of the schema's own element shape.
- DcdnDomain.WaitForOnline: time, sleeping and context cancellation inside `resource.RetryContext` are not modelled. `fuel` stands for the number of re-polls that fit before the timeout. The plugin SDK's `RetryContext` is not part of this model; its documented result (nil, the fatal error, or the last retryable error on timeout) is assumed.
- `resource.UniqueId` and `PrefixedUniqueId` are oracles. The generated suffix is a parameter of `FcTrigger.Create`.
- `runtime.Caller` is a parameter of `WrapError`, and the log line written when it fails is not modelled. `ParseResourceId`'s call site is fixed as `aliyun/common.go` line 39; the build machine's directory prefix is unknown.
- The order of a `schema.TypeSet`'s `List()` is taken as given. The set's hashing is not modelled.
- Go's panic on `DomainConfig[0]` and `CertInfo[0]` is the `panicked` result; the crash of the plugin process is not modelled.
- Schema validators, `DiffSuppressFunc`, defaults, ForceNew and timeouts are not modelled. The Terraform SDK evaluates them before a driver runs.
- `diag.FromErr` is modelled as the one-element list holding the error; the summary text it derives is not modelled.

## Findings

| source | as written | input that shows it | evidently intended | confidence | as-written member | corrected member |
|---|---|---|---|---|---|---|
| aliyun/resource_aliyun_fc_version.go:59-70 | `input` is filled with the description, but PublishServiceVersion is called with a fresh input holding only ServiceName, so the description is never sent (`FcVersion.DescriptionNeverSent`) | a record with `service_name = "svc"` and `description = "v1"`: the published input is `{ServiceName: "svc"}` | publish `input`, so a set description reaches the API | not executed; high | FcVersion.Create | FcVersion.CreateWithDescription |
