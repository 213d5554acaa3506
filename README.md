# OSDU MCP server: authentication, Legal client and legal tag tools in Dafny

This project models, and proves properties of, the decision logic and state of four parts of the OSDU MCP server.

- **The authentication handler** (`AuthHandler`):
  - it chooses the cloud provider from the environment, Azure before AWS before GCP, with an explicit `OSDU_MCP_AUTH_MODE` override;
  - it chooses the Azure credential's exclusions from the presence of a client secret;
  - it serves a cached bearer token while more than five minutes remain before the token expires;
  - it requests `AZURE_CLIENT_ID + "/.default"` on a miss, and the fetched token replaces the cache;
  - it translates credential failures into one of eight fixed user messages, by ordered substring tests on the lower-cased provider message;
  - it validates tokens and closes the credential.
- **The Legal service client** (`LegalClient`):
  - it puts the service base path in front of every request path;
  - it adds and removes the partition prefix of legal tag names;
  - it gates deletion on `OSDU_MCP_ENABLE_DELETE_MODE`;
  - it caps batch retrieval at 25 names;
  - it builds request bodies and parameters in which optional fields appear only when given (or truthy, for search).
- **The `legaltag_delete` and `legaltag_update` tools**:
  - each runs one check before anything is built: the confirmation for delete, `OSDU_MCP_ENABLE_WRITE_MODE` for update;
  - each builds the handler and the client, then makes one client call and shapes the result;
  - each closes the client exactly once on every path after the client exists.
- **`merge_dicts`**: a deep merge in which the override's values win, and nested dictionaries on both sides are merged.

## Files

- `wrappers.dfy`: `Option` and `Result`.
- `errors.dfy`: the raised exceptions, as the `Failure` datatype:
  - `OSMCPAuthError` is `AuthError`;
  - `NotImplementedError` is `NotImplemented`;
  - `OSMCPAPIError` with its status code is `ApiError`.
- `json.dfy`: JSON values for parameters, bodies and responses.
- `text.dfy`: `str.lower()`, `str.startswith` and the substring test `t in s`, with the lemmas used to decide substring tests on fixed messages.
- `environ.dfy`: the process environment as a map, and the `os.environ.get(k, "false").lower() == "true"` flags.
- `auth_handler.dfy`: module `Auth`:
  - the pure decisions as functions;
  - the token source as class `Credential`;
  - the handler as class `AuthHandler`.
- `legal_client.dfy`: module `Legal`, holding the naming and body functions and class `LegalClient`. Requests are recorded in `trace`, and the n-th request is answered by a transport oracle `transport(n, request)`.
- `legal_tools.dfy`: module `LegalTools`, the two tools as methods. Each returns the client it built, or null when no client was built.
- `utils.dfy`: module `Utils`:
  - `Merge` is the key-by-key specification;
  - `MergeDicts` is the loop of the source, proved equal to it.

How the environment is modelled:

- The handler's messages are modelled from the code.
- The Azure SDK credential is an abstract token source. Its n-th request for a scope gets a fixed answer:
  - a token with its expiry;
  - a `ClientAuthenticationError` with a message; or
  - any other error with a message.
- Time is integer epoch seconds, passed as `now`.
- The environment is read at the moment of each call, as `os.environ` is. Token requests take it as a parameter, so AZURE_CLIENT_ID and AZURE_CLIENT_SECRET are the values at the time of the request, not at construction.

## Model

| member | source | states |
|---|---|---|
| Text.Lower | src/osdu_mcp_server/shared/auth_handler.py:178 | lower-casing keeps the length and lowers every character in place |
| Environ.FlagEnabled | src/osdu_mcp_server/shared/clients/legal_client.py:74 | a flag is on only when its variable is present, and then exactly when its value lower-cases to "true" |
| Environ.FlagDefaults | src/osdu_mcp_server/tools/legal/update.py:41-45 | a flag is off when its variable is absent, on for "true" in any capitalisation, off for "" and "1" |
| Auth.ParseMode | src/osdu_mcp_server/shared/auth_handler.py:20-24 | a string yields a mode exactly when it is that mode's value string, and yields none when it names no mode |
| Auth.DetectedMode | src/osdu_mcp_server/shared/auth_handler.py:56-63 | Azure exactly when an Azure variable is set and not empty; AWS exactly when no Azure variable is and an AWS one is; none exactly when all six provider variables are unset or empty |
| Auth.ExplicitMode | src/osdu_mcp_server/shared/auth_handler.py:66-67 | a mode exactly when the lower-cased OSDU_MCP_AUTH_MODE is its value string; none when the variable is absent or names no mode |
| Auth.DetectMode | src/osdu_mcp_server/shared/auth_handler.py:56-82 | a recognised override wins; otherwise Azure, AWS, then GCP if one of their two variables is set and not empty; otherwise the detection error |
| Auth.OverrideWins | src/osdu_mcp_server/shared/auth_handler.py:65-72 | an override that lower-cases to a mode's name selects that mode, whatever the provider variables say |
| Auth.UnknownOverrideIgnored | src/osdu_mcp_server/shared/auth_handler.py:66-76 | an override that names no mode gives the same outcome as no override |
| Auth.EmptyVariableIgnored | src/osdu_mcp_server/shared/auth_handler.py:56-61 | a provider variable set to "" counts as unset |
| Auth.NoModeMessageNamesVariables | src/osdu_mcp_server/shared/auth_handler.py:78-82 | the detection error names AZURE_CLIENT_ID, AWS_ACCESS_KEY_ID and GOOGLE_APPLICATION_CREDENTIALS |
| Auth.Initialize | src/osdu_mcp_server/shared/auth_handler.py:84-130 | construction succeeds exactly in Azure mode; detection errors propagate; AWS and GCP fail with their NotImplementedError messages |
| Auth.InitializeFailures | src/osdu_mcp_server/shared/auth_handler.py:30-40 | construction fails with the authentication error exactly when neither an override nor a provider variable gives a mode, and any other failure is NotImplemented |
| Auth.AzureExclusions | src/osdu_mcp_server/shared/auth_handler.py:93-116 | browser and VS Code are always excluded; CLI and PowerShell are excluded exactly when AZURE_CLIENT_SECRET is set |
| Auth.TranslateClientAuthError | src/osdu_mcp_server/shared/auth_handler.py:176-207 | each fixed message is chosen exactly when its pattern matches the lower-cased message and no earlier pattern does; the no-accounts branch splits on the secret; the result is always one of the six fixed messages |
| Auth.TranslateOtherError | src/osdu_mcp_server/shared/auth_handler.py:208-218 | the connectivity message exactly when "connection" or "timeout" occurs in the lower-cased message, otherwise the configuration error |
| Auth.Translate | src/osdu_mcp_server/shared/auth_handler.py:176-218 | every raised error becomes one of the eight fixed messages, never the provider's own text |
| Auth.TranslationIgnoresCase | src/osdu_mcp_server/shared/auth_handler.py:178-210 | translating a message and translating its lower-cased form give the same result |
| Auth.MissingClientIdWordsLackConnection | src/osdu_mcp_server/shared/auth_handler.py:165-167 | no word of the missing-client-id message contains "connection" |
| Auth.MissingClientIdWordsLackTimeout | src/osdu_mcp_server/shared/auth_handler.py:165-167 | no word of the missing-client-id message contains "timeout" |
| Auth.MissingClientIdIsConfigurationError | src/osdu_mcp_server/shared/auth_handler.py:162-218 | the missing-client-id error, caught by the generic handler, becomes "Authentication configuration error" |
| Auth.TokenValid | src/osdu_mcp_server/shared/auth_handler.py:264-276 | valid only with a cached token, and then exactly when more than 300 seconds remain before its expiry |
| Auth.AzureTokenStep | src/osdu_mcp_server/shared/auth_handler.py:157-218 | at most one request, always for the scope; no request exactly when the cache is valid or AZURE_CLIENT_ID is unset; success exactly when the cache is valid or an issued token is fetched, which then replaces the cache; every failure keeps the cache and is an OSMCPAuthError with a fixed message |
| Auth.TokenStepFor | src/osdu_mcp_server/shared/auth_handler.py:141-146 | Azure takes the Azure token step; AWS and GCP fail with their NotImplementedError messages, request nothing and keep the cache |
| Auth.CachedTokenServed | src/osdu_mcp_server/shared/auth_handler.py:159-160 | a valid cached token is returned, the cache is unchanged and nothing is requested |
| Auth.ServedFromCacheOnlyWhenValid | src/osdu_mcp_server/shared/auth_handler.py:264-276 | a success without a request returns a cached token whose expiry is more than 300 seconds away |
| Auth.MissRequestsScope | src/osdu_mcp_server/shared/auth_handler.py:162-174 | on a miss exactly one request for AZURE_CLIENT_ID + "/.default" is made; a token replaces the cache and is returned; an error leaves the cache and fails with an OSMCPAuthError |
| Auth.AzureFailuresAreFixedAuthErrors | src/osdu_mcp_server/shared/auth_handler.py:157-218 | every failure of an Azure token request is an OSMCPAuthError with one of the fixed messages |
| Auth.MissingClientIdFails | src/osdu_mcp_server/shared/auth_handler.py:162-167 | without AZURE_CLIENT_ID a miss makes no request and fails with the configuration error |
| Auth.OneFetchWhileValid | src/osdu_mcp_server/shared/auth_handler.py:157-174 | two calls inside the validity window return the same token after a single request |
| Auth.ExpiredTokenRefetched | src/osdu_mcp_server/shared/auth_handler.py:157-174 | a token already inside its buffer is returned once, and the next call requests again and caches the new token |
| Auth.ScopeAndCachingExample | src/osdu_mcp_server/shared/auth_handler.py:169-174 | with AZURE_CLIENT_ID "abc" both calls return "T1" after one request for "abc/.default" |
| Auth.TranslationExamples | src/osdu_mcp_server/shared/auth_handler.py:180-217 | an "az login" message maps to the CLI message, "Connection timeout" to the connectivity message, "Unknown error" to the configuration error |
| Auth.ValidateOutcome | src/osdu_mcp_server/shared/auth_handler.py:248-262 | true iff the token request succeeds, false iff it raises OSMCPAuthError, and any other error propagates unchanged |
| Auth.Credential.constructor | src/osdu_mcp_server/shared/auth_handler.py:110-116 | the credential keeps its exclusions and has served no request |
| Auth.Credential.GetToken | src/osdu_mcp_server/shared/auth_handler.py:173 | returns the answer to the next request and appends the scope to the requests made |
| Auth.Credential.Close | src/osdu_mcp_server/shared/auth_handler.py:284-285 | counts one more close and leaves the requests alone |
| Auth.AuthHandler.constructor | src/osdu_mcp_server/shared/auth_handler.py:36-38 | the handler holds its mode and credential, and no cached token |
| Auth.AuthHandler.Create | src/osdu_mcp_server/shared/auth_handler.py:30-40 | fails exactly as the mode detection and credential initialisation fail; otherwise a fresh Azure handler with an empty cache and a fresh credential with the exclusions for the environment |
| Auth.AuthHandler.GetAccessToken | src/osdu_mcp_server/shared/auth_handler.py:132-218 | the result, the new cache and the requests made are those of one token step for the mode, the environment at the moment of the call, the cache, the time and the credential's reply |
| Auth.AuthHandler.ValidateToken | src/osdu_mcp_server/shared/auth_handler.py:248-262 | the validation outcome of that same token step in the environment of the call, with the same effect on cache and credential |
| Auth.AuthHandler.Close | src/osdu_mcp_server/shared/auth_handler.py:278-285 | the cache is empty afterwards and the credential, if any, is closed once more; calling it again is allowed |
| Legal.EnsureFullTagName | src/osdu_mcp_server/shared/clients/legal_client.py:40-54 | the result always carries the partition prefix; a name already carrying it is returned unchanged, any other gets the prefix added |
| Legal.SimplifyTagName | src/osdu_mcp_server/shared/clients/legal_client.py:56-66 | one leading prefix is removed when present, and other names are unchanged |
| Legal.EnsureFullIdempotent | src/osdu_mcp_server/shared/clients/legal_client.py:49-54 | making a full name full again changes nothing |
| Legal.SimplifyAfterEnsureFull | src/osdu_mcp_server/shared/clients/legal_client.py:40-66 | simplify(ensure_full(x)) == simplify(x) |
| Legal.SimplifyInvertsEnsureFull | src/osdu_mcp_server/shared/clients/legal_client.py:40-66 | simplify(ensure_full(x)) == x when x lacks the prefix |
| Legal.SimplifyRemovesOnePrefix | src/osdu_mcp_server/shared/clients/legal_client.py:65-66 | a doubly prefixed name loses only one prefix |
| Legal.EnsureFullAfterSimplify | src/osdu_mcp_server/shared/clients/legal_client.py:40-66 | a prefixed name is restored by ensure_full(simplify(x)) exactly when it does not carry the prefix twice |
| Legal.PrefixExample | src/osdu_mcp_server/shared/clients/legal_client.py:40-66 | in partition "opendes", "foo" and "opendes-foo" both become "opendes-foo" and simplify to "foo" |
| Legal.CheckDeletePermission | src/osdu_mcp_server/shared/clients/legal_client.py:68-78 | passes exactly when OSDU_MCP_ENABLE_DELETE_MODE (default "false") lower-cases to "true", otherwise the 403 error |
| Legal.DeleteModeDefaultsOff | src/osdu_mcp_server/shared/clients/legal_client.py:74 | deletion is refused when the variable is absent and allowed for "true" in any capitalisation |
| Legal.ListParams | src/osdu_mcp_server/shared/clients/legal_client.py:89-91 | "valid" is present exactly when a filter is given, as "true" for true and "false" for false |
| Legal.WithField | src/osdu_mcp_server/shared/clients/legal_client.py:201-208 | a given value is set under its key, and an absent value leaves the body unchanged |
| Legal.SearchBody | src/osdu_mcp_server/shared/clients/legal_client.py:130-138 | each of queryList, sortBy, sortOrder and limit is present exactly when its argument is truthy, with that argument's value, and no other key is present |
| Legal.SearchOmitsFalsyArguments | src/osdu_mcp_server/shared/clients/legal_client.py:131-138 | an empty query list and limit 0 are left out; no arguments give an empty body |
| Legal.FullTagNames | src/osdu_mcp_server/shared/clients/legal_client.py:157-158 | the same number of names, in order, each made full |
| Legal.FullTagNamesArePrefixed | src/osdu_mcp_server/shared/clients/legal_client.py:157-158 | every name sent in a batch carries the prefix |
| Legal.UpdateBody | src/osdu_mcp_server/shared/clients/legal_client.py:198-208 | the full name always; description, contractId, expirationDate and extensionProperties exactly when the argument is not None, with its value; nothing else |
| Legal.UpdateKeepsEmptyStrings | src/osdu_mcp_server/shared/clients/legal_client.py:201-208 | an empty description is still sent, and with no optional arguments only the name is sent |
| Legal.LegalClient.constructor | src/osdu_mcp_server/shared/clients/legal_client.py:15-18 | the client holds its partition, base path, handler and transport, and has issued nothing |
| Legal.LegalClient.Issue | src/osdu_mcp_server/shared/clients/legal_client.py:20-38 | the request is appended to the trace and answered by the transport for its position |
| Legal.LegalClient.Send | src/osdu_mcp_server/shared/clients/legal_client.py:20-38 | every verb issues exactly one request whose path is the base path followed by the given path |
| Legal.LegalClient.ListLegalTags | src/osdu_mcp_server/shared/clients/legal_client.py:80-93 | one GET of /legaltags with the parameters of the filter |
| Legal.LegalClient.GetLegalTag | src/osdu_mcp_server/shared/clients/legal_client.py:95-105 | one GET whose path ends in the full tag name |
| Legal.LegalClient.GetLegalTagProperties | src/osdu_mcp_server/shared/clients/legal_client.py:107-113 | one GET of /legaltags:properties |
| Legal.LegalClient.SearchLegalTags | src/osdu_mcp_server/shared/clients/legal_client.py:115-140 | one POST of /legaltags:query whose body is the search body of the arguments |
| Legal.LegalClient.BatchRetrieveLegalTags | src/osdu_mcp_server/shared/clients/legal_client.py:142-160 | more than 25 names: the 400 error and no request; otherwise one POST of /legaltags:batchRetrieve with the full names in order |
| Legal.LegalClient.CreateLegalTag | src/osdu_mcp_server/shared/clients/legal_client.py:162-180 | one POST of /legaltags whose body has the name as given, the description and the properties |
| Legal.LegalClient.UpdateLegalTag | src/osdu_mcp_server/shared/clients/legal_client.py:182-210 | one PUT of /legaltags whose body is the update body, whatever the environment |
| Legal.LegalClient.DeleteLegalTag | src/osdu_mcp_server/shared/clients/legal_client.py:212-222 | a failed permission check gives its 403 error and no request; otherwise exactly one DELETE of /legaltags/ followed by the full name |
| Legal.LegalClient.Close | src/osdu_mcp_server/tools/legal/delete.py:86-87 | counts one more close and issues nothing |
| LegalTools.LegaltagDelete | src/osdu_mcp_server/tools/legal/delete.py:17-87 | without confirmation: the 400 error and no client, whatever the environment; a failed handler construction: its error and no client; otherwise a fresh client closed exactly once, whose trace is empty when deletion is disabled and is the single DELETE otherwise, with the fixed result payload naming the full tag on success and the transport error on failure |
| LegalTools.LegaltagUpdate | src/osdu_mcp_server/tools/legal/update.py:17-98 | write mode off: the 403 error and no client; a failed handler construction: its error and no client; otherwise a fresh client closed exactly once whose trace is the single PUT carrying all five arguments, with the result payload holding the response and the partition on success and the transport error on failure |
| Utils.Merge | src/osdu_mcp_server/shared/utils.py:17-33 | the keys are the union of both; a key only in base keeps base's value; an override value wins unless both values are dictionaries, which are merged recursively |
| Utils.MergeDicts | src/osdu_mcp_server/shared/utils.py:27-33 | the copy-then-assign loop computes Merge(base, override) |
| Utils.MergeEmptyOverride | src/osdu_mcp_server/shared/utils.py:27-33 | merge_dicts(d, {}) == d |
| Utils.MergeEmptyBase | src/osdu_mcp_server/shared/utils.py:27-33 | merge_dicts({}, d) == d |
| Utils.MergeIdempotent | src/osdu_mcp_server/shared/utils.py:27-33 | merging a dictionary with itself returns it, at every depth |
| Utils.MergeOverrideWins | src/osdu_mcp_server/shared/utils.py:31-32 | an override value that is not a dictionary replaces whatever base had |
| Utils.MergeKeepsNestedBase | src/osdu_mcp_server/shared/utils.py:29-30 | merging nested dictionaries keeps the base's nested keys that the override does not mention |

## Left out

- Text.Lower: lower-cases only the ASCII letters A-Z. Python's `str.lower()` also maps other Unicode letters. This can differ only for messages with non-ASCII capitals.
- Legal.SimplifyTagName: the partition is assumed to contain no regular-expression metacharacters. Then `re.sub("^<partition>-", "", name)` is a plain prefix removal.
- Auth.MissingClientIdIsConfigurationError: relies on an assumption about `exceptions.py`, which is not part of this model. The assumption is that `OSMCPAuthError` is not a subclass of `ClientAuthenticationError`, so the error raised for a missing `AZURE_CLIENT_ID` inside the `try` reaches the generic handler. It also assumes `str()` of that error is its message.
- Auth.AuthHandler.GetAccessToken: time is integer epoch seconds. Fractional expiry times, `datetime.fromtimestamp` and local-time effects are not modelled.
- The Azure identity SDK is not modelled beyond its answers. `DefaultAzureCredential` is a token source answering from a fixed oracle.
- The HTTP layer is not modelled beyond its answers. `OsduClient` and `get_service_base_url` are not part of this model, and neither is attaching the bearer token to requests. The base path is a constant of the client, and responses come from a transport oracle.
- `OsduClient.close` is not part of this model. Legal.LegalClient.Close only counts calls.
- `ConfigManager` is not part of this model. The data partition is a parameter, and one value stands for both the configured partition and the client's partition.
- The `handle_osdu_exceptions` decorator is not part of this model. The tools return their failures instead of converting them.
- Logging and audit calls have no effect on the model.
- `async`/`await` is treated as sequential calls. There is no concurrency in the modelled code.
- Utils.MergeDicts: Dafny maps are values. So "base and override are not modified" holds by construction, and the copy's aliasing of nested dictionaries and the insertion order of keys are not represented.
- `get_timestamp` and `get_trace_id` in utils.py read the clock and generate UUIDs, so they are not modelled.
- The thin pass-through tools are not modelled, such as `tools/legal/get_properties.py`. Neither are prompts, resources, tool registration or re-export modules.
