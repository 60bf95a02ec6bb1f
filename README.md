# user-env-api in Dafny

A model of the core of the user-env-api proxy. The proxy sits in front of the Fly.io Machines API (`https://api.machines.dev`). It forwards most requests unchanged. Three routes it handles itself:

- **App creation** (`POST /v1/apps`): creates the app upstream. It then provisions a Tigris storage bucket named after the app, with an IAM access key, a least-privilege policy and its attachment. It stores the resulting credentials as three app secrets. A non-ok upstream create is returned as it is, with no compensation. When provisioning fails after the app exists, it deletes the app, first deleting the bucket if the bucket setup had finished. A failing bucket delete stops the compensation.
- **App deletion** (`DELETE /v1/apps/<name>`): deletes the bucket, then the app. It reports whether the bucket delete succeeded.
- **Machine creation** (`POST /v1/apps/<name>/machines`): merges the caller's machine config with a container template and the app's secret names.

An organisation gate, driven by `FLY_ALLOWED_ORGS` and a memoised lookup of the proxy's own organisation, decides whether a requested organisation slug is allowed.

## Modules

- Helpers:
  - `Wrappers` holds `Option`, `Result` and `Outcome`, where `Outcome` is a call that either succeeds or throws with a message.
  - `Strings` holds the JavaScript string operations the code relies on: `split`, `join`, `trim`, `startsWith`, `toLowerCase` on ASCII, and the last piece of a split.
  - `Http` holds the Fetch-API values: requests, responses, headers and URLs. `FetchReply` is what awaiting `fetch` yields: a response or a rejection.
- `Api` models lib/api.ts:
  - URL rewriting and header filtering for the pass-through proxy;
  - the request `api.fetch` builds, including its Accept-Encoding default.
- `TigrisPolicy` models the bucket policy document.
- `Remote` is the two backends as one abstract world, `Remote.World`:
  - The compute API side holds apps and per-app secret stores.
  - The storage service side holds buckets, access keys, policies and user-policy attachments.
  - The world also keeps a `log` of every call made, in order.
  - Each remote call is a method that takes the backend's reply as an argument. It appends the call to the log and changes the state only when the reply reports success.
- `Tigris` models lib/tigris.ts:
  - configuration lookup;
  - the result-returning IAM helpers;
  - `createCredentials`;
  - the `createTigrisBucket` saga and its compensating bucket delete.
- `Secrets` models lib/secrets.ts: `listSecrets`, `setSecret`, and `setSecrets`, including its all-or-report decision.
- `Apps` models lib/apps.ts:
  - `create` is split into the phases of its control flow. `Create` validates the body. `CreateNamed` proxies the upstream create. `Provision` is the try block with its `bucketCreated` flag. `Compensate` is the catch block.
  - `destroy`, with its `bucketDeleted` flag.
  - `deleteApp`, which swallows every error.
  - Each phase's method is proved against a function of the replies and the old state: its outcome, its call log, and the new apps, buckets, secrets and IAM state. The lemmas then state the saga's properties about those functions.
- `Machines` models `processConfig` as pure functions over a JSON value type. The template is a parameter.
- `Orgs` models lib/orgs.ts:
  - `parseAllowedOrgs`;
  - the decision of `validateOrg`;
  - the class `OrgGate`, whose fields are the two module-level caches, `cachedOrg` and `orgConfig`.
- `Server` models the route classifier of the `fetch` handler. The path regexes become predicates over the string. Lemmas pin them down by the paths they accept: the apps prefix, one slash-free segment and, for machines, the `/machines` suffix.

## Environment, I/O and replies

These are parameters of the model:

- **Backend replies**:
  - Each SDK call's reply is an `Outcome`, `AccessKeyReply` or `PolicyReply`.
  - Each `fetch` reply is a `FetchReply`.
  - The replies for one run of `create`, `createTigrisBucket` or `destroy` are bundled in call order (`Apps.CreateReplies`, `Tigris.BucketReplies`, `Apps.DestroyReplies`).
  - Entries for calls that a run does not reach are ignored.
- **Environment variables** are maps or options:
  - `FLY_TIGRIS_ACCESS_KEY` and `FLY_TIGRIS_SECRET_ACCESS_KEY` for `Tigris.LoadConfig`;
  - `FLY_APP_NAME` and `FLY_ALLOWED_ORGS` for `Orgs.OrgEnv`.
- **The parsed request body** of `create` is `Apps.CreateBody`.
- **The template** read from disk by `processConfig` is `Machines.Template`.
- **The organisation slug** read from the lookup's JSON body by `getCurrentOrg` is a parameter.

Properties of the code's error handling that the model keeps:

- Compensation is not best-effort:
  - A failing compensating `deleteBucket` rethrows. In `createTigrisBucket` its error replaces the original cause (lib/tigris.ts:263).
  - In `create`, when `deleteBucket` throws, `deleteApp` is skipped and the handler rejects (lib/apps.ts:79-83).
- Access keys and policies are never removed. `deleteAccessKey` and `deletePolicy` are never called.
- `deleteApp` ignores the upstream status and swallows rejections (lib/apps.ts:24-36). So `destroy` answers 202 whether or not the app was deleted, and its 500 branch is unreachable (lib/apps.ts:111-122).
- `deleteApp` sends its DELETE to `/apps/<name>`, not under `/v1` (lib/apps.ts:27).

One consequence shows in `Tigris.BucketsAfter`: the model follows the code here on purpose.

1. When the credentials fail and the compensating bucket delete also fails, the bucket stays.
2. `create` then sees `bucketCreated` still false, so it does not try to delete the bucket again.

## Model

| member | source | states |
|---|---|---|
| Strings.Split | lib/orgs.ts:22 | `split(",")` yields one piece more than there are separators, and no piece contains the separator |
| Strings.Trim | lib/orgs.ts:22 | `trim()` yields a result no longer than its input that neither starts nor ends with white space |
| Strings.TrimIsSlice | lib/orgs.ts:22 | the trimmed string is the slice of the input that starts where the leading white space ends |
| Strings.TrimStartRemovesSpace | lib/orgs.ts:22 | the white space removed at the front is all white space |
| Strings.TrimEndRemovesSpace | lib/orgs.ts:22 | the white space removed at the back is all white space |
| Strings.TrimRemovesSpace | lib/orgs.ts:22 | everything `trim()` removes, before and after that slice, is white space |
| Strings.JoinOfSplit | lib/orgs.ts:22 | joining the pieces of a split with the separator gives the input back |
| Strings.SplitOfJoin | lib/orgs.ts:22 | splitting a join of separator-free pieces gives the pieces back |
| Strings.LastSegmentStep | lib/apps.ts:93-94 | a string with no separator after a non-separator first character is its own last piece. Otherwise the last piece is that of the string without its first character |
| Strings.LastSegmentIsSuffix | lib/apps.ts:93-94 | the last piece of a split is the slash-free suffix after the last separator |
| Http.HeaderGet | lib/apps.ts:39 | `headers.get` finds a value exactly when some entry's name equals the asked name case-insensitively, and the value it returns belongs to such an entry |
| Http.HeadersFrom | lib/api.ts:37 | `new Headers(record)` appends each entry under its lower-cased name, joining a repeated name's values with ", ". Its names and values are stated by HeadersFromKeys and HeadersFromSingle |
| Http.HeadersFromKeys | lib/api.ts:37 | `new Headers(record)` has exactly the lower-cased names of the record's entries |
| Http.HeadersFromSingle | lib/api.ts:37 | a header name given once keeps its value in `new Headers(record)` |
| Api.RewriteUpstreamUrl | lib/api.ts:3-9 | the upstream URL is `https://api.machines.dev` followed by the inbound path, query and fragment. The port is dropped |
| Api.Stripped | lib/api.ts:14 | the two names the proxy never copies, compared in lower case. StrippedIgnoresCase and the contract of Copied state what that test means |
| Api.StrippedIgnoresCase | lib/api.ts:14 | the stripped test ignores case: a name is stripped exactly when its lower-cased form is |
| Api.Copied | lib/api.ts:13-17 | the copied headers never include accept-encoding or connection. Every copied header comes from an inbound entry of the same lower-cased name, with that entry's value |
| Api.CopiedKeepsLast | lib/api.ts:13-17 | any header that is not stripped is copied with the value of its last occurrence |
| Api.FilterHeaders | lib/api.ts:11-21 | the loop builds the copied headers, then forces host to api.machines.dev and accept-encoding to identity. Connection is never forwarded |
| Api.WithDefaultEncoding | lib/api.ts:38-40 | after the `has`/`set` default, accept-encoding is always present and every header the caller gave keeps its value |
| Api.DefaultEncodingKeeps | lib/api.ts:37-40 | Accept-Encoding defaulting adds only accept-encoding. It keeps every caller value, the caller's own accept-encoding included, and uses identity only when the caller gave none |
| Api.Fetch | lib/api.ts:35-42 | `api.fetch` targets the upstream origin plus the path. It uses the caller's method (GET by default), the caller's body, and the caller's headers with the encoding default applied |
| Api.Proxy | lib/api.ts:24-34 | the proxy forwards the method and body unchanged to the rewritten URL with the filtered headers. It returns the upstream response as it came, and a rejected fetch rejects |
| TigrisPolicy.CreateBucketPolicyDocument | lib/tigris.ts:71-90 | the document has version 2012-10-17 and exactly two statements, both Allow |
| TigrisPolicy.PolicyGrantsExactly | lib/tigris.ts:71-90 | the document allows exactly s3:ListObjects and s3:ListObjectsV2 on the bucket ARN, and s3:* on the bucket's objects. It allows nothing else |
| TigrisPolicy.ResourcesOfPolicy | lib/tigris.ts:79-85 | the resources named are exactly `arn:aws:s3:::<bucket>` and `arn:aws:s3:::<bucket>/*` |
| TigrisPolicy.PoliciesOfDistinctBucketsDisjoint | lib/tigris.ts:79-85 | the documents of two different slash-free bucket names share no resource, so a document names no bucket but its own |
| Remote.World.CreateApp | lib/apps.ts:54 | the upstream create is logged, and the app exists afterwards only when the reply was ok |
| Remote.World.DeleteApp | lib/apps.ts:27-32 | the app delete is logged, and it removes the app only when the reply was ok; nothing else changes |
| Remote.World.WriteSecret | lib/secrets.ts:14-21 | a secret write is logged and stores the value under the app only when the reply was ok |
| Remote.World.ReadSecrets | lib/secrets.ts:4-8 | reading the secret list is logged and changes no state |
| Remote.World.CreateBucket | lib/tigris.ts:47-57 | the create is logged, its error is rethrown, and the bucket exists afterwards only on success |
| Remote.World.DeleteBucket | lib/tigris.ts:59-69 | the delete is logged, its error is rethrown, and the bucket is removed only on success |
| Remote.World.CreateAccessKey | lib/tigris.ts:212-214 | the call is logged, and a key is recorded for the user only when the reply carries one |
| Remote.World.CreatePolicy | lib/tigris.ts:224-227 | the call is logged, and the document is stored under the policy name when the call succeeds |
| Remote.World.AttachUserPolicy | lib/tigris.ts:235-238 | the call is logged, and the (user, ARN) attachment is recorded only on success |
| Tigris.GetConfigOrThrow | lib/tigris.ts:15-21 | the value is returned exactly when the variable is set and non-empty. Otherwise the error names the key |
| Tigris.LoadConfig | lib/tigris.ts:23-24 | start-up succeeds exactly when both keys are set. Otherwise its error names the first missing key |
| Tigris.CreateAccessKeyResult | lib/tigris.ts:92-120 | the helper never throws: it returns the key exactly when both key fields came back, and otherwise an `{error, status: "error"}` record whose error starts with "Failed to create access key: " |
| Tigris.CreatePolicyResult | lib/tigris.ts:122-149 | it returns the ARN exactly when one came back, and otherwise an error record whose error starts with "Failed to create policy: " |
| Tigris.CredentialsOutcome | lib/tigris.ts:209-250 | the credentials succeed exactly when the key came back, the ARN came back and the attachment succeeded. The result has the response's key fields and the bucket argument. A missing key fails with "Failed to create access key" |
| Tigris.CreateCredentials | lib/tigris.ts:209-250 | the method yields CredentialsOutcome. The call log is key, then policy `<bucket>-policy`, then attach, with the user equal to the bucket. The IAM state changes per reply and nothing is undone |
| Tigris.AttachOnlyAfterKeyAndPolicy | lib/tigris.ts:209-238 | an attachment is made only after both creations returned. It is for the bucket's user and the returned ARN, and it is the third and last IAM call |
| Tigris.EarlyAborts | lib/tigris.ts:217-232 | a missing AccessKey stops before any policy is created, and a missing ARN stops before any attach |
| Tigris.BucketOutcome | lib/tigris.ts:252-270 | the saga succeeds exactly when the bucket was created and the credentials succeeded, returning credentials for this bucket. Every error it throws starts with "Failed to set up Tigris bucket: " |
| Tigris.CreateTigrisBucket | lib/tigris.ts:252-270 | the method yields BucketOutcome. The log is bucket create, then IAM calls, then compensating delete, and the bucket and IAM state change per the replies |
| Tigris.BucketFailureStopsEverything | lib/tigris.ts:252-269 | a failed bucket create makes no IAM call and throws the prefixed bucket error |
| Tigris.CredentialFailureCompensates | lib/tigris.ts:257-269 | when the credentials fail, the last call deletes the same bucket. The error is the delete's own if the delete fails, or else the credentials' error. Keys and policies already created remain |
| Secrets.Settled | lib/secrets.ts:4-10 | an awaited fetch gives the response, whatever its status, or rejects with the rejection's message |
| Secrets.ListSecrets | lib/secrets.ts:3-11 | the method sends a GET to `/v1/apps/<app>/secrets` with the caller's Authorization header. It returns the response unchanged and changes no state. A body that fails to parse for the log line rejects |
| Secrets.SetSecret | lib/secrets.ts:13-22 | the method POSTs `{value}` to `/v1/apps/<app>/secrets/<key>` with JSON content type and the caller's Authorization. It hands the reply back as it came |
| Secrets.FirstRejection | lib/secrets.ts:26 | the rejection reported belongs to an entry all of whose predecessors responded |
| Secrets.FailedStatusTexts | lib/secrets.ts:27 | no status text is collected exactly when every response is ok |
| Secrets.FailedStatusTextsExact | lib/secrets.ts:27 | a status text is collected exactly when some response that is not ok carries it |
| Secrets.FailedStatusTextsAppend | lib/secrets.ts:27 | the texts keep the responses' order: collecting over a concatenation concatenates the parts |
| Secrets.SettleSecrets | lib/secrets.ts:26-33 | the writes succeed exactly when every reply is an ok response, returning the responses in entry order. A rejection rejects. Otherwise the error is "Failed to set secrets: " followed by the failed status texts joined by ", " |
| Secrets.SetSecrets | lib/secrets.ts:24-34 | every write is issued before the decision, which is SettleSecrets of the replies in entry order. The log gains exactly the writes, and the store gains exactly the ok writes |
| Secrets.OneWritePerEntry | lib/secrets.ts:25 | the method makes exactly one write per entry, in entry order, with that entry's key and value |
| Secrets.WrittenSecretsStay | lib/secrets.ts:24-34 | nothing is rolled back: each ok write's value is in the store afterwards, whatever happened to the others |
| Secrets.StoreAfterFrame | lib/secrets.ts:24-34 | the writes touch only this app's store and remove nothing. A key is present afterwards exactly when it was before or got an ok write |
| Apps.DeleteApp | lib/apps.ts:24-36 | the method sends a DELETE to `/apps/<name>` with the caller's token and never fails. The app goes only when the reply was ok |
| Apps.ProvisionOutcome | lib/apps.ts:62-88 | the try block hands back the upstream response exactly when the bucket and all writes succeeded. It rejects exactly when writes failed and the unguarded bucket delete threw. Otherwise it answers 500 with "Failed to set up Tigris: …" |
| Apps.Compensate | lib/apps.ts:78-88 | the catch block deletes the bucket only if `bucketCreated`, and a throwing delete skips deleteApp and rejects. Otherwise it deletes the app and answers 500 |
| Apps.Provision | lib/apps.ts:62-88 | the try/catch yields ProvisionOutcome. Calls are logged in order, and apps, buckets, secrets and IAM state change as the replies dictate |
| Apps.NamedOutcome | lib/apps.ts:54-60 | a rejected upstream create rejects, and a non-ok upstream response is returned unchanged |
| Apps.CreateNamed | lib/apps.ts:52-88 | the method proxies the create, then provisions only when the upstream answered ok. A non-ok answer leaves buckets, secrets and IAM untouched |
| Apps.CreateOutcome | lib/apps.ts:38-89 | a missing, empty or non-string app_name gives 400, and a non-ok upstream response is returned as is. The handler rejects exactly when the body is unreadable, the upstream rejects, or the writes failed and the bucket delete threw |
| Apps.Create | lib/apps.ts:38-89 | the method yields CreateOutcome, with the call log and the new state of every backend collection as functions of the replies |
| Apps.CreateRefusesMissingName | lib/apps.ts:43-50 | without a usable app_name, create answers 400 and makes no call at all |
| Apps.CreateReturnsUpstreamFailure | lib/apps.ts:54-60 | a non-ok upstream create is returned unchanged, and no bucket or secret call follows |
| Apps.CreateSuccess | lib/apps.ts:62-77 | on full success, the bucket named after the app exists and the three FLY_TIGRIS_ secrets hold the credentials. The calls are create, bucket saga, three writes |
| Apps.CreateBucketFailure | lib/apps.ts:65-87 | when bucket setup fails, `bucketCreated` stays false. Create makes no bucket delete of its own, deletes the app and answers 500 with the setup error |
| Apps.CreateSecretsFailure | lib/apps.ts:70-87 | when the secret writes fail, the bucket delete runs before the app delete and create answers 500. If that delete throws, the app is not deleted and create rejects |
| Apps.Destroy | lib/apps.ts:91-123 | an empty last path segment gives 400 and no call. Otherwise the bucket delete comes first and then the app delete, and the answer is always 202 `{success: true, bucketDeleted}`, where bucketDeleted is true exactly when the bucket delete succeeded |
| Apps.DestroyTarget | lib/apps.ts:92-94 | the name destroy takes from the URL is the last piece of the pathname split on "/". It contains no "/" and is no longer than the pathname |
| Apps.DestroyTargetIsTail | lib/apps.ts:92-94 | the name destroy acts on is the slash-free tail of the path |
| Machines.RewriteMounts | lib/machines.ts:37-40 | the output mounts keep the length and order of the input, each with path /dev/fly_vol and its other fields kept. Absent mounts give [] |
| Machines.DataPath | lib/machines.ts:57 | FLY_USER_DATA_PATH is the first mount's original path when it exists and is non-empty, and /data otherwise |
| Machines.VisibleSecretNames | lib/machines.ts:43-44 | the filter keeps at most as many names as there are secrets. VisibleSecretNamesExact and VisibleSecretNamesAppend state which names it keeps and in what order |
| Machines.VisibleSecretNamesExact | lib/machines.ts:43-44 | a name is kept exactly when it is a given secret's name without the FLY_TIGRIS_ prefix |
| Machines.VisibleSecretNamesAppend | lib/machines.ts:43-44 | the filter keeps order: it distributes over concatenation |
| Machines.ContainerSecrets | lib/machines.ts:45-48 | there is one `{name, env_var: name}` object per kept name, in order |
| Machines.AppEnv | lib/machines.ts:55-58 | the app env has the caller's variables plus FLY_USER_DATA_PATH, which overrides any value the caller supplied |
| Machines.StampContainer | lib/machines.ts:51-70 | a container named "app" gets env, secrets, files `[{guest_path: /etc/app-image.json, image_config: image}]` and `restart.policy` (possibly undefined), with its other fields kept. Any other container is returned identical |
| Machines.StampContainers | lib/machines.ts:51-70 | container count and order are preserved, and each container is stamped on its own |
| Machines.StampVolume | lib/machines.ts:73-81 | only a volume named "app-image" gets `image`; others are unchanged |
| Machines.StampVolumes | lib/machines.ts:73-81 | volume count and order are preserved |
| Machines.ProcessConfig | lib/machines.ts:84-89 | the result is the caller's config with mounts, containers and volumes replaced. The caller's image, env and restart are kept. Every other caller field is preserved, except that a field of `rest` named like one of the six typed fields is overridden by it |
| Machines.TemplateRestIgnored | lib/machines.ts:84-89 | template fields other than containers and volumes do not reach the result |
| Machines.AppContainerSecrets | lib/machines.ts:43-66 | an "app" container lists exactly the `{name, env_var}` objects of the secrets without the FLY_TIGRIS_ prefix, so no such name is exposed |
| Orgs.TrimAll | lib/orgs.ts:22 | every listed entry is the trimmed piece at the same position |
| Orgs.ParseAllowedOrgs | lib/orgs.ts:11-25 | unset or empty gives an empty list and no wildcard. Exactly "*" is the wildcard, with an empty list. Anything else gives one entry per comma-separated piece |
| Orgs.FallsBackExactlyWhenUnset | lib/orgs.ts:11-25 | the list is empty and not the wildcard exactly when FLY_ALLOWED_ORGS is unset or empty |
| Orgs.ListedExactly | lib/orgs.ts:22 | a slug is listed exactly when one comma-separated piece trims to it |
| Orgs.ListedHaveNoComma | lib/orgs.ts:22 | no listed entry contains a comma |
| Orgs.CurrentOrg | lib/orgs.ts:27-50 | a non-empty cache answers at once. Otherwise the lookup needs FLY_APP_NAME, an ok response and a readable slug, and fails with "FLY_APP_NAME not set" or "Failed to get current app info" |
| Orgs.LookupMemoised | lib/orgs.ts:27-30 | after a lookup that found a non-empty slug, every later call answers that slug, whatever its token or reply |
| Orgs.FailedLookupKeepsCache | lib/orgs.ts:42-49 | a failed lookup leaves the cache empty |
| Orgs.Decision | lib/orgs.ts:63-83 | the slug is allowed exactly when the wildcard is set, the slug is listed, or the list is empty and the current organisation equals it. The decision fails exactly when it needed a lookup that failed |
| Orgs.OrgGate.GetCurrentOrg | lib/orgs.ts:27-50 | a lookup is sent exactly when the cache is empty and FLY_APP_NAME is set. It is a GET of `/v1/apps/<FLY_APP_NAME>` with the caller's token, and the cache keeps a successful slug |
| Orgs.OrgGate.ValidateOrg | lib/orgs.ts:52-84 | off a Fly machine, the slug is allowed with no parse and no lookup. Otherwise the config is parsed once and kept, and the decision is Decision's. A lookup is sent only when the list is empty, the wildcard is off and the cache is empty |
| Server.AppPathShape | server.ts:19 | the app-path regex accepts "/v1/apps/" followed by a segment exactly when the segment is non-empty and slash-free. Every path it accepts has that form |
| Server.MachinesPathShape | server.ts:24 | the machines-path regex accepts "/v1/apps/", a segment and "/machines" exactly when the segment is non-empty and slash-free. Its capture is that segment, and every accepted path is rebuilt from its capture |
| Server.RoutesDisjoint | server.ts:19-24 | no path matches both regexes, and the bare "/v1/apps" matches neither |
| Server.Dispatch | server.ts:13-30 | the routes are: POST on exactly /v1/apps to create; DELETE on an app path to destroy; POST on an app's machines path to machine creation. In that case the app is a non-empty slash-free name that rebuilds the path. Everything else goes to the proxy |

`processConfig` is a function of its config, secrets and template, so it is deterministic by construction.

## Left out

- The AWS SDK clients and their construction (lib/tigris.ts:28-45) are foreign code. Bucket and IAM calls are `Remote.World` methods whose reply is a parameter.
- Real `fetch`, response streaming and JSON text. Responses are kept as structured values.
  - The body parse of `create` (`req.clone().json()`) is the parameter `Apps.CreateBody`.
  - The log-line parse of `listSecrets` is the parameter `logParse`.
- `Secrets.SetSecrets`: the writes of `Promise.all` run concurrently in the source. The model issues them in entry order and reports the first rejection in entry order, whereas `Promise.all` reports the first rejection in time.
- `Secrets.SetSecrets`: it requires distinct keys, which an object's entries always have.
- `Secrets.SetSecrets`: the shape of each request is stated on `Secrets.SetSecret`, not repeated per entry.
- `Tigris.CreateCredentials`: the non-null assertions on `AccessKeyId` and `SecretAccessKey` (lib/tigris.ts:242-243) are not modelled. A key that comes back is taken to carry both strings (the empty string when absent).
- `createAccessKey` and `createPolicy` (lib/tigris.ts:92-149) are modelled as their decision on the reply (`Tigris.CreateAccessKeyResult`, `Tigris.CreatePolicyResult`). They are never called by the rest of the code.
- These functions are never called, so they are not modelled: `attachUserPolicy` (lib/tigris.ts:151-169), `deleteAccessKey` and `deletePolicy` (lib/tigris.ts:171-207).
- `machines.create` (lib/machines.ts:92-110) is HTTP plumbing around `processConfig`, and reading the template file (lib/machines.ts:33-34) is I/O. The template is a parameter.
- `Machines.ProcessConfig`:
  - JSON numbers are integers (`Machines.Json.Num` holds an `int`). Non-integer numbers in the caller's config or the template are not modelled.
  - The caller's `restart` is kept only as its `policy` string. The source's `...config` passes the caller's whole `restart` object through, including other fields or an object with no policy. The model loses that object's other content.
  - The order of JSON object fields is not modelled, since objects are maps.
  - A template that is missing `containers` or `volumes`, or holds malformed entries, is not modelled. The source throws in that case.
  - A caller config whose `env` holds something other than strings is not modelled.
- `Orgs.OrgGate.GetCurrentOrg`: an `organization.slug` that is not a string is not modelled. The slug reading is a `Result<string>` parameter.
- `Bun.serve`, server start and stop, and `import.meta.main` (server.ts:6-9, 33-45) are process plumbing. `Server.Dispatch` names the handler that a request reaches; the handlers themselves are the methods in `Apps` and `Api`.
- URL parsing by `new URL(...)` (percent-encoding, normalisation) is not modelled. The pathname is a field of `Http.Url`.
- Separate requests are modelled one at a time, each running to completion. In the source, handlers interleave at every `await`. For example, two overlapping first calls of `validateOrg` both see an empty `cachedOrg`, and both send the lookup. `Orgs.OrgGate` and the handler methods do not capture such interleavings.
- Every `console.*` call is left out: logging has no effect on results.
- Header lists of type `Http.HeaderEntries` are sequences of name-value pairs. A real `Headers` object has pairwise distinct lower-case names, so duplicate or mixed-case names cannot arise from it. The model does not require this. On such lists `Http.HeaderGet` answers the first case-insensitive match and `Api.Copied` keeps the last; inputs from a `Headers` object never show the difference.
- `Strings.ToLower` lower-cases ASCII letters only, where JavaScript lower-cases all of Unicode. Header names are ASCII.
