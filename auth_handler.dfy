/**
 * The authentication handler: choice of the cloud provider from the environment,
 * the Azure credential's exclusions, the cached bearer token with its five-minute
 * buffer, and the translation of credential failures into fixed user messages.
 *
 * The Azure identity SDK is an abstract token source (class Credential): the
 * n-th request for a scope is answered by a fixed oracle with a token, a
 * client-authentication error or any other error, each with a message.
 * Time is integer epoch seconds passed in as `now`.
 */
module Auth {
  import opened Wrappers
  import opened Text
  import opened Environ
  import opened Errors

  // Environment variables read by the handler.
  const ClientIdVar := "AZURE_CLIENT_ID"
  const TenantIdVar := "AZURE_TENANT_ID"
  const ClientSecretVar := "AZURE_CLIENT_SECRET"
  const AwsAccessKeyVar := "AWS_ACCESS_KEY_ID"
  const AwsRegionVar := "AWS_REGION"
  const GoogleCredentialsVar := "GOOGLE_APPLICATION_CREDENTIALS"
  const GoogleProjectVar := "GOOGLE_CLOUD_PROJECT"
  const AuthModeVar := "OSDU_MCP_AUTH_MODE"

  /** A cached token is served only while more than this many seconds remain before it expires. */
  const ExpiryBufferSeconds := 300

  // Messages of the errors raised while the handler is constructed.
  const NoModeLead := "Cannot detect authentication mode from environment variables. Set Azure ("
  const NoModeAfterAzure := "), AWS ("
  const NoModeAfterAws := "), or GCP ("
  const NoModeTail := ") credentials."
  const NoModeMessage :=
    NoModeLead + ClientIdVar + NoModeAfterAzure + AwsAccessKeyVar + NoModeAfterAws + GoogleCredentialsVar + NoModeTail
  const AwsInitMessage :=
    "AWS authentication not yet implemented. Please use Azure authentication by setting AZURE_CLIENT_ID and AZURE_TENANT_ID."
  const GcpInitMessage :=
    "GCP authentication not yet implemented. Please use Azure authentication by setting AZURE_CLIENT_ID and AZURE_TENANT_ID."
  const AwsTokenMessage :=
    "AWS token retrieval not yet implemented. Please use Azure authentication by setting AZURE_CLIENT_ID and AZURE_TENANT_ID."
  const GcpTokenMessage :=
    "GCP token retrieval not yet implemented. Please use Azure authentication by setting AZURE_CLIENT_ID and AZURE_TENANT_ID."

  /** The message of the OSMCPAuthError raised inside the token request when AZURE_CLIENT_ID is unset. */
  const MissingClientIdWords := [ClientIdVar, "environment", "variable", "is", "required", "for", "Azure", "authentication"]
  const MissingClientIdMessage := JoinWords(MissingClientIdWords)

  // The user messages that credential failures are translated into.
  const CliLoginMessage := "Authentication failed. Please run 'az login' before using OSDU MCP Server"
  const TokenExpiredMessage := "Azure authentication token expired. Please run 'az login' to refresh"
  const InvalidClientIdMessage := "Invalid Azure client ID. Please verify your AZURE_CLIENT_ID is correct"
  const ServicePrincipalMessage :=
    "Service Principal authentication failed. Please check your " + ClientIdVar + ", "
    + TenantIdVar + ", and " + ClientSecretVar + " environment variables"
  const NoCredentialsMessage :=
    "No Azure credentials found. Please set up Service Principal credentials or run 'az login' for CLI authentication"
  const GenericAuthMessage := "Authentication failed. Please check your Azure credentials"
  const ConnectivityMessage :=
    "Failed to connect to Azure authentication service. Please check your network connection"
  const ConfigErrorMessage := "Authentication configuration error. Please check your environment setup"

  const ClientAuthMessages := {CliLoginMessage, TokenExpiredMessage, InvalidClientIdMessage,
                               ServicePrincipalMessage, NoCredentialsMessage, GenericAuthMessage}
  const OtherErrorMessages := {ConnectivityMessage, ConfigErrorMessage}

  datatype AuthMode = Azure | Aws | Gcp

  /** The enumeration's value strings. */
  function ModeValue(m: AuthMode): string {
    match m
    case Azure => "azure"
    case Aws => "aws"
    case Gcp => "gcp"
  }

  /** AuthenticationMode(s) for a string that is one of the value strings. */
  function ParseMode(s: string): (r: Option<AuthMode>)
    ensures r.Some? ==> ModeValue(r.value) == s
    ensures r.None? ==> forall m: AuthMode :: ModeValue(m) != s
  {
    if s == "azure" then Some(Azure)
    else if s == "aws" then Some(Aws)
    else if s == "gcp" then Some(Gcp)
    else None
  }

  /** The mode suggested by provider variables, Azure before AWS before GCP; empty values do not count. */
  function DetectedMode(env: Env): (r: Option<AuthMode>)
    ensures r == Some(Azure) <==> IsSet(env, ClientIdVar) || IsSet(env, TenantIdVar)
    ensures r == Some(Aws) <==>
      !IsSet(env, ClientIdVar) && !IsSet(env, TenantIdVar) && (IsSet(env, AwsAccessKeyVar) || IsSet(env, AwsRegionVar))
    ensures r.None? <==>
      forall k :: k in {ClientIdVar, TenantIdVar, AwsAccessKeyVar, AwsRegionVar, GoogleCredentialsVar, GoogleProjectVar}
        ==> !IsSet(env, k)
  {
    if IsSet(env, ClientIdVar) || IsSet(env, TenantIdVar) then Some(Azure)
    else if IsSet(env, AwsAccessKeyVar) || IsSet(env, AwsRegionVar) then Some(Aws)
    else if IsSet(env, GoogleCredentialsVar) || IsSet(env, GoogleProjectVar) then Some(Gcp)
    else None
  }

  /** The explicit override: OSDU_MCP_AUTH_MODE lower-cased, when it names a mode. */
  function ExplicitMode(env: Env): (r: Option<AuthMode>)
    ensures r.Some? ==> ModeValue(r.value) == Lower(Get(env, AuthModeVar, ""))
    ensures r.None? ==> forall m: AuthMode :: ModeValue(m) != Lower(Get(env, AuthModeVar, ""))
    ensures AuthModeVar !in env ==> r.None?
  {
    assert Lower("") == "";
    ParseMode(Lower(Get(env, AuthModeVar, "")))
  }

  /** _detect_authentication_mode */
  function DetectMode(env: Env): (r: Result<AuthMode, Failure>)
    ensures ExplicitMode(env).Some? ==> r == Success(ExplicitMode(env).value)
    ensures ExplicitMode(env).None? ==>
      if IsSet(env, ClientIdVar) || IsSet(env, TenantIdVar) then r == Success(Azure)
      else if IsSet(env, AwsAccessKeyVar) || IsSet(env, AwsRegionVar) then r == Success(Aws)
      else if IsSet(env, GoogleCredentialsVar) || IsSet(env, GoogleProjectVar) then r == Success(Gcp)
      else r == Failure(AuthError(NoModeMessage))
  {
    var detected := DetectedMode(env);
    var explicit := ExplicitMode(env);
    if explicit.Some? then Success(explicit.value)
    else if detected.Some? then Success(detected.value)
    else Failure(AuthError(NoModeMessage))
  }

  /** An override that lower-cases to a mode's name selects that mode, whatever the provider variables say. */
  lemma OverrideWins(env: Env, m: AuthMode, v: string)
    requires Lower(v) == ModeValue(m)
    ensures DetectMode(env[AuthModeVar := v]) == Success(m)
  {
  }

  /** An override that names no mode is ignored. */
  lemma UnknownOverrideIgnored(env: Env, v: string)
    requires ParseMode(Lower(v)).None?
    ensures DetectMode(env[AuthModeVar := v]) == DetectMode(env - {AuthModeVar})
  {
    assert Lower("") == "";
  }

  /** A provider variable set to the empty string counts as unset. */
  lemma EmptyVariableIgnored(env: Env, k: string)
    requires k != AuthModeVar
    ensures DetectMode(env[k := ""]) == DetectMode(env - {k})
  {
  }

  /** Three strings spliced between four others can all be found in the result. */
  lemma ContainsAllSpliced(a: string, x: string, b: string, y: string, c: string, z: string, d: string)
    ensures var s := a + x + b + y + c + z + d;
      Contains(s, x) && Contains(s, y) && Contains(s, z)
  {
    var s := a + x + b + y + c + z + d;
    assert s == a + x + (b + y + c + z + d);
    ContainsSpliced(a, x, b + y + c + z + d);
    assert s == (a + x + b) + y + (c + z + d);
    ContainsSpliced(a + x + b, y, c + z + d);
    ContainsSpliced(a + x + b + y + c, z, d);
  }

  /** The detection error names one variable of each provider. */
  lemma NoModeMessageNamesVariables()
    ensures Contains(NoModeMessage, ClientIdVar)
    ensures Contains(NoModeMessage, AwsAccessKeyVar)
    ensures Contains(NoModeMessage, GoogleCredentialsVar)
  {
    ContainsAllSpliced(NoModeLead, ClientIdVar, NoModeAfterAzure, AwsAccessKeyVar, NoModeAfterAws,
                       GoogleCredentialsVar, NoModeTail);
  }

  /** __init__: detect the mode, then initialise its credential; only Azure has one. */
  function Initialize(env: Env): (r: Result<AuthMode, Failure>)
    ensures r.Success? <==> DetectMode(env) == Success(Azure)
    ensures r.Success? ==> r.value == Azure
    ensures DetectMode(env).Failure? ==> r == DetectMode(env)
    ensures DetectMode(env) == Success(Aws) ==> r == Failure(NotImplemented(AwsInitMessage))
    ensures DetectMode(env) == Success(Gcp) ==> r == Failure(NotImplemented(GcpInitMessage))
  {
    match DetectMode(env)
    case Failure(e) => Failure(e)
    case Success(Azure) => Success(Azure)
    case Success(Aws) => Failure(NotImplemented(AwsInitMessage))
    case Success(Gcp) => Failure(NotImplemented(GcpInitMessage))
  }

  /** Construction fails with the authentication error exactly when no mode is found, and otherwise only with NotImplemented. */
  lemma InitializeFailures(env: Env)
    ensures Initialize(env) == Failure(AuthError(NoModeMessage))
            <==> ExplicitMode(env).None? && DetectedMode(env).None?
    ensures Initialize(env).Failure? && !(ExplicitMode(env).None? && DetectedMode(env).None?)
            ==> Initialize(env).error.NotImplemented?
  {
  }

  /** The keyword arguments given to DefaultAzureCredential. */
  datatype Exclusions = Exclusions(interactiveBrowser: bool, azureCli: bool, azurePowershell: bool,
                                   visualStudioCode: bool)

  /** _initialize_azure_credential: with a client secret only the secret-based sources remain. */
  function AzureExclusions(env: Env): (x: Exclusions)
    ensures x.interactiveBrowser && x.visualStudioCode
    ensures x.azureCli <==> IsSet(env, ClientSecretVar)
    ensures x.azurePowershell <==> IsSet(env, ClientSecretVar)
  {
    var hasClientSecret := IsSet(env, ClientSecretVar);
    if hasClientSecret then Exclusions(true, true, true, true)
    else Exclusions(true, false, false, true)
  }

  /** azure.core.credentials.AccessToken */
  datatype AccessToken = AccessToken(token: string, expiresOn: int)

  /** What the credential's get_token does: return a token or raise one of two kinds of error. */
  datatype FetchOutcome =
    | Issued(accessToken: AccessToken)
    | ClientAuthenticationError(message: string)
    | OtherError(message: string)

  /** _is_token_valid */
  predicate TokenValid(cache: Option<AccessToken>, now: int): (b: bool)
    ensures b ==> cache.Some?
    ensures cache.Some? ==> (b <==> cache.value.expiresOn - now > ExpiryBufferSeconds)
  {
    cache.Some? && now < cache.value.expiresOn - ExpiryBufferSeconds
  }

  /** The scope requested from the credential. */
  function Scope(env: Env): string {
    Get(env, ClientIdVar, "") + "/.default"
  }

  predicate MentionsCliLogin(m: string) { Contains(m, "az login") || Contains(m, "azurecli") }
  predicate MentionsExpiry(m: string) { Contains(m, "expired") || Contains(m, "refresh token") }
  predicate MentionsScope(m: string) { Contains(m, "invalid_scope") || Contains(m, "scope format is invalid") }
  predicate MentionsNoAccounts(m: string) {
    Contains(m, "no accounts were found") || Contains(m, "environment variables are not fully configured")
  }
  predicate MentionsNetwork(m: string) { Contains(m, "connection") || Contains(m, "timeout") }

  /** The handler for ClientAuthenticationError: the first matching pattern of the lower-cased message decides. */
  function TranslateClientAuthError(message: string, hasClientSecret: bool): (r: string)
    ensures r in ClientAuthMessages
    ensures r == CliLoginMessage <==> MentionsCliLogin(Lower(message))
    ensures r == TokenExpiredMessage <==> !MentionsCliLogin(Lower(message)) && MentionsExpiry(Lower(message))
    ensures r == InvalidClientIdMessage <==>
      !MentionsCliLogin(Lower(message)) && !MentionsExpiry(Lower(message)) && MentionsScope(Lower(message))
    ensures r in {ServicePrincipalMessage, NoCredentialsMessage} <==>
      !MentionsCliLogin(Lower(message)) && !MentionsExpiry(Lower(message)) && !MentionsScope(Lower(message))
      && MentionsNoAccounts(Lower(message))
    ensures r == ServicePrincipalMessage ==> hasClientSecret
    ensures r == NoCredentialsMessage ==> !hasClientSecret
  {
    var m := Lower(message);
    if MentionsCliLogin(m) then CliLoginMessage
    else if MentionsExpiry(m) then TokenExpiredMessage
    else if MentionsScope(m) then InvalidClientIdMessage
    else if MentionsNoAccounts(m) then
      if hasClientSecret then ServicePrincipalMessage else NoCredentialsMessage
    else GenericAuthMessage
  }

  /** The handler for any other exception. */
  function TranslateOtherError(message: string): (r: string)
    ensures r in OtherErrorMessages
    ensures r == ConnectivityMessage <==> MentionsNetwork(Lower(message))
  {
    if MentionsNetwork(Lower(message)) then ConnectivityMessage else ConfigErrorMessage
  }

  /** The message of the OSMCPAuthError that replaces a raised error; the provider's own text never appears. */
  function Translate(raised: FetchOutcome, env: Env): (r: string)
    requires !raised.Issued?
    ensures r in ClientAuthMessages + OtherErrorMessages
  {
    match raised
    case ClientAuthenticationError(m) => TranslateClientAuthError(m, IsSet(env, ClientSecretVar))
    case OtherError(m) => TranslateOtherError(m)
  }

  /** The translation depends on the message only through its lower-cased form. */
  lemma TranslationIgnoresCase(message: string, hasClientSecret: bool)
    ensures TranslateClientAuthError(Lower(message), hasClientSecret) == TranslateClientAuthError(message, hasClientSecret)
    ensures TranslateOtherError(Lower(message)) == TranslateOtherError(message)
  {
    LowerIdempotent(message);
  }

  /** No word of the missing-client-id message contains "connection". */
  lemma MissingClientIdWordsLackConnection()
    ensures forall k :: 0 <= k < |MissingClientIdWords| ==> !Contains(Lower(MissingClientIdWords[k]), "connection")
  {
    NotContainsLowerByTriple(ClientIdVar, "connection");
    NotContainsLowerByTriple("environment", "connection");
    NotContainsLowerByTriple("authentication", "connection");
  }

  /** No word of the missing-client-id message contains "timeout". */
  lemma MissingClientIdWordsLackTimeout()
    ensures forall k :: 0 <= k < |MissingClientIdWords| ==> !Contains(Lower(MissingClientIdWords[k]), "timeout")
  {
    NotContainsLowerByTriple(ClientIdVar, "timeout");
    NotContainsLowerByTriple("environment", "timeout");
    NotContainsLowerByTriple("variable", "timeout");
    NotContainsLowerByTriple("required", "timeout");
    NotContainsLowerByTriple("authentication", "timeout");
  }

  /** The error for a missing AZURE_CLIENT_ID, caught by the generic handler, becomes the configuration error. */
  lemma MissingClientIdIsConfigurationError()
    ensures TranslateOtherError(MissingClientIdMessage) == ConfigErrorMessage
  {
    var ws := MissingClientIdWords;
    MissingClientIdWordsLackConnection();
    MissingClientIdWordsLackTimeout();
    NotContainsLowerJoin(ws, "connection");
    NotContainsLowerJoin(ws, "timeout");
  }

  /** The result of one get_access_token call, the cache afterwards and the scopes requested from the credential. */
  datatype TokenStep = TokenStep(result: Result<string, Failure>, cache: Option<AccessToken>, requested: seq<string>)

  /**
   * _get_azure_token, given the reply the credential would give to the next request.
   * The OSMCPAuthError for a missing AZURE_CLIENT_ID is raised inside the `try`; it is not a
   * ClientAuthenticationError, so the generic handler translates it.
   */
  function AzureTokenStep(env: Env, cache: Option<AccessToken>, now: int, reply: FetchOutcome): (s: TokenStep)
    ensures s.requested == [] || s.requested == [Scope(env)]
    ensures s.requested == [] <==> TokenValid(cache, now) || !IsSet(env, ClientIdVar)
    ensures s.result.Success? <==> TokenValid(cache, now) || (IsSet(env, ClientIdVar) && reply.Issued?)
    ensures TokenValid(cache, now) ==> s.result == Success(cache.value.token) && s.cache == cache
    ensures s.requested != [] && reply.Issued? ==>
      s.result == Success(reply.accessToken.token) && s.cache == Some(reply.accessToken)
    ensures s.result.Failure? ==>
      s.cache == cache && s.result.error.AuthError? && s.result.error.message in ClientAuthMessages + OtherErrorMessages
  {
    if TokenValid(cache, now) then TokenStep(Success(cache.value.token), cache, [])
    else if !IsSet(env, ClientIdVar) then
      TokenStep(Failure(AuthError(Translate(OtherError(MissingClientIdMessage), env))), cache, [])
    else if reply.Issued? then TokenStep(Success(reply.accessToken.token), Some(reply.accessToken), [Scope(env)])
    else TokenStep(Failure(AuthError(Translate(reply, env))), cache, [Scope(env)])
  }

  /** get_access_token for every mode; only Azure is implemented. */
  function TokenStepFor(mode: AuthMode, env: Env, cache: Option<AccessToken>, now: int, reply: FetchOutcome): (s: TokenStep)
    ensures mode == Azure ==> s == AzureTokenStep(env, cache, now, reply)
    ensures mode == Aws ==> s.result == Failure(NotImplemented(AwsTokenMessage))
    ensures mode == Gcp ==> s.result == Failure(NotImplemented(GcpTokenMessage))
    ensures mode != Azure ==> s.cache == cache && s.requested == []
  {
    match mode
    case Azure => AzureTokenStep(env, cache, now, reply)
    case Aws => TokenStep(Failure(NotImplemented(AwsTokenMessage)), cache, [])
    case Gcp => TokenStep(Failure(NotImplemented(GcpTokenMessage)), cache, [])
  }

  /** A still-valid cached token is returned and the credential is not asked. */
  lemma CachedTokenServed(env: Env, cache: Option<AccessToken>, now: int, reply: FetchOutcome)
    requires TokenValid(cache, now)
    ensures AzureTokenStep(env, cache, now, reply) == TokenStep(Success(cache.value.token), cache, [])
  {
  }

  /** Anything served without asking the credential is a cached token more than five minutes from expiry. */
  lemma ServedFromCacheOnlyWhenValid(env: Env, cache: Option<AccessToken>, now: int, reply: FetchOutcome)
    ensures var s := AzureTokenStep(env, cache, now, reply);
      s.result.Success? && s.requested == [] ==>
        cache.Some? && cache.value.expiresOn - now > ExpiryBufferSeconds && s.result.value == cache.value.token
  {
  }

  /** On a miss the scope is exactly AZURE_CLIENT_ID + "/.default" and a fetched token replaces the cache, even an expired one. */
  lemma MissRequestsScope(env: Env, cache: Option<AccessToken>, now: int, reply: FetchOutcome)
    requires !TokenValid(cache, now) && IsSet(env, ClientIdVar)
    ensures var s := AzureTokenStep(env, cache, now, reply);
      && s.requested == [env[ClientIdVar] + "/.default"]
      && (reply.Issued? ==> s.result == Success(reply.accessToken.token) && s.cache == Some(reply.accessToken))
      && (!reply.Issued? ==> s.cache == cache && s.result.Failure? && s.result.error.AuthError?)
  {
  }

  /** Every failure of an Azure token request is an OSMCPAuthError carrying one of the fixed messages. */
  lemma AzureFailuresAreFixedAuthErrors(env: Env, cache: Option<AccessToken>, now: int, reply: FetchOutcome)
    ensures var s := AzureTokenStep(env, cache, now, reply);
      s.result.Failure? ==> s.result.error.AuthError? && s.result.error.message in ClientAuthMessages + OtherErrorMessages
  {
  }

  /** Without AZURE_CLIENT_ID a miss asks nothing and fails with the configuration error. */
  lemma MissingClientIdFails(env: Env, cache: Option<AccessToken>, now: int, reply: FetchOutcome)
    requires !TokenValid(cache, now) && !IsSet(env, ClientIdVar)
    ensures AzureTokenStep(env, cache, now, reply) == TokenStep(Failure(AuthError(ConfigErrorMessage)), cache, [])
  {
    MissingClientIdIsConfigurationError();
  }

  /** Two calls inside the validity window: the same token twice and a single request. */
  lemma OneFetchWhileValid(env: Env, t: AccessToken, now1: int, now2: int, reply2: FetchOutcome)
    requires IsSet(env, ClientIdVar)
    requires now1 <= now2 < t.expiresOn - ExpiryBufferSeconds
    ensures var s1 := AzureTokenStep(env, None, now1, Issued(t));
      var s2 := AzureTokenStep(env, s1.cache, now2, reply2);
      s1.result == Success(t.token) && s2.result == Success(t.token)
      && s1.requested + s2.requested == [env[ClientIdVar] + "/.default"]
  {
  }

  /** A token fetched inside its buffer is returned once, and the next call asks again. */
  lemma ExpiredTokenRefetched(env: Env, t1: AccessToken, t2: AccessToken, now1: int, now2: int)
    requires IsSet(env, ClientIdVar)
    requires t1.expiresOn - ExpiryBufferSeconds <= now2
    ensures var s1 := AzureTokenStep(env, None, now1, Issued(t1));
      var s2 := AzureTokenStep(env, s1.cache, now2, Issued(t2));
      s1.result == Success(t1.token) && s2.result == Success(t2.token)
      && |s1.requested + s2.requested| == 2 && s2.cache == Some(t2)
  {
  }

  /** AZURE_CLIENT_ID=abc and a token "T1" valid for an hour: both calls return "T1" after one request for "abc/.default". */
  lemma ScopeAndCachingExample(now: int)
    ensures var env := map[ClientIdVar := "abc"];
      var t := AccessToken("T1", now + 3600);
      var s1 := AzureTokenStep(env, None, now, Issued(t));
      var s2 := AzureTokenStep(env, s1.cache, now + 1, OtherError("unused"));
      s1.result == Success("T1") && s2.result == Success("T1") && s1.requested + s2.requested == ["abc/.default"]
  {
    assert "abc" + "/.default" == "abc/.default";
  }

  /** The messages used by the tests select the documented branches. */
  lemma TranslationExamples()
    ensures TranslateClientAuthError("Please run 'az login' to set up an account", false) == CliLoginMessage
    ensures TranslateOtherError("Connection timeout") == ConnectivityMessage
    ensures TranslateOtherError("Unknown error") == ConfigErrorMessage
  {
    var cli := Lower("Please run 'az login' to set up an account");
    assert forall j :: 0 <= j < 8 ==> cli[12..][j] == "az login"[j];
    assert StartsWith(cli[12..], "az login");
    assert "Unknown error" == "Unknown" + " " + "error";
    NotContainsLowerByTriple("Unknown", "timeout");
    NotContainsLowerJoin(["Unknown", "error"], "connection");
    NotContainsLowerJoin(["Unknown", "error"], "timeout");
    var net := Lower("Connection timeout");
    assert net[..10] == "connection";
    assert StartsWith(net[0..], "connection");
  }

  /** validate_token: true on success, false on OSMCPAuthError, any other error propagates. */
  function ValidateOutcome(r: Result<string, Failure>): (v: Result<bool, Failure>)
    ensures v == Success(true) <==> r.Success?
    ensures v == Success(false) <==> r.Failure? && r.error.AuthError?
    ensures v.Failure? <==> r.Failure? && !r.error.AuthError?
    ensures v.Failure? ==> v.error == r.error
  {
    match r
    case Success(_) => Success(true)
    case Failure(AuthError(_)) => Success(false)
    case Failure(e) => Failure(e)
  }

  /** The Azure credential: a token source that answers the n-th request for a scope with `answer(n, scope)`. */
  class Credential {
    const exclusions: Exclusions
    const answer: (nat, string) -> FetchOutcome
    /** The scopes requested so far, in order. */
    var requested: seq<string>
    var closeCalls: nat

    constructor (exclusions: Exclusions, answer: (nat, string) -> FetchOutcome)
      ensures this.exclusions == exclusions && this.answer == answer
      ensures requested == [] && closeCalls == 0
    {
      this.exclusions := exclusions;
      this.answer := answer;
      requested := [];
      closeCalls := 0;
    }

    /** The reply the next request for `scope` would get. */
    function NextReply(scope: string): FetchOutcome
      reads this
    {
      answer(|requested|, scope)
    }

    method GetToken(scope: string) returns (outcome: FetchOutcome)
      modifies this
      ensures outcome == old(NextReply(scope))
      ensures requested == old(requested) + [scope] && closeCalls == old(closeCalls)
    {
      outcome := answer(|requested|, scope);
      requested := requested + [scope];
    }

    method Close()
      modifies this
      ensures closeCalls == old(closeCalls) + 1 && requested == old(requested)
    {
      closeCalls := closeCalls + 1;
    }
  }

  class AuthHandler {
    const mode: AuthMode
    /** DefaultAzureCredential in Azure mode; no credential exists in the other modes. */
    const credential: Credential?
    var cachedToken: Option<AccessToken>

    ghost predicate Valid()
      reads this
    {
      (mode == Azure) == (credential != null)
    }

    /** The reply the credential would give to the next token request in `env` (unused outside Azure mode). */
    ghost function Reply(env: Env): FetchOutcome
      reads this, credential
    {
      if credential == null then OtherError("") else credential.NextReply(Scope(env))
    }

    /** The object with its fields assigned and no token, as AuthHandler.__new__ followed by assignments. */
    constructor (mode: AuthMode, credential: Credential?)
      requires (mode == Azure) == (credential != null)
      ensures Valid()
      ensures this.mode == mode && this.credential == credential && cachedToken == None
    {
      this.mode := mode;
      this.credential := credential;
      cachedToken := None;
    }

    /** AuthHandler(config): raises while detecting the mode or initialising a credential. */
    static method Create(env: Env, answer: (nat, string) -> FetchOutcome) returns (r: Result<AuthHandler, Failure>)
      ensures r.Failure? <==> Initialize(env).Failure?
      ensures r.Failure? ==> r.error == Initialize(env).error
      ensures r.Success? ==>
        && fresh(r.value) && fresh(r.value.credential) && r.value.Valid()
        && r.value.mode == Azure && r.value.cachedToken == None
        && r.value.credential.exclusions == AzureExclusions(env) && r.value.credential.answer == answer
        && r.value.credential.requested == [] && r.value.credential.closeCalls == 0
    {
      var detected := DetectMode(env);
      if detected.Failure? {
        return Failure(detected.error);
      }
      match detected.value
      case Azure =>
        var credential := new Credential(AzureExclusions(env), answer);
        var handler := new AuthHandler(Azure, credential);
        r := Success(handler);
      case Aws =>
        r := Failure(NotImplemented(AwsInitMessage));
      case Gcp =>
        r := Failure(NotImplemented(GcpInitMessage));
    }

    /** get_access_token, with `env` the environment at the moment of the call. */
    method GetAccessToken(env: Env, now: int) returns (r: Result<string, Failure>)
      requires Valid()
      modifies this, credential
      ensures Valid()
      ensures var step := TokenStepFor(mode, env, old(cachedToken), now, old(Reply(env)));
        r == step.result && cachedToken == step.cache
        && (credential != null ==> credential.requested == old(credential.requested) + step.requested
                                   && credential.closeCalls == old(credential.closeCalls))
    {
      if mode == Aws {
        return Failure(NotImplemented(AwsTokenMessage));
      } else if mode == Gcp {
        return Failure(NotImplemented(GcpTokenMessage));
      }
      if TokenValid(cachedToken, now) {
        return Success(cachedToken.value.token);
      }
      var raised: FetchOutcome;
      if !IsSet(env, ClientIdVar) {
        raised := OtherError(MissingClientIdMessage);
      } else {
        var scope := env[ClientIdVar] + "/.default";
        raised := credential.GetToken(scope);
        if raised.Issued? {
          cachedToken := Some(raised.accessToken);
          return Success(cachedToken.value.token);
        }
      }
      r := Failure(AuthError(Translate(raised, env)));
    }

    /** validate_token, with `env` the environment at the moment of the call. */
    method ValidateToken(env: Env, now: int) returns (valid: Result<bool, Failure>)
      requires Valid()
      modifies this, credential
      ensures Valid()
      ensures var step := TokenStepFor(mode, env, old(cachedToken), now, old(Reply(env)));
        valid == ValidateOutcome(step.result) && cachedToken == step.cache
        && (credential != null ==> credential.requested == old(credential.requested) + step.requested
                                   && credential.closeCalls == old(credential.closeCalls))
    {
      var token := GetAccessToken(env, now);
      valid := if token.Success? then Success(true)
               else if token.error.AuthError? then Success(false)
               else Failure(token.error);
    }

    /** close: drops the cached token and closes the credential; calling it again is harmless. */
    method Close()
      requires Valid()
      modifies this, credential
      ensures Valid() && cachedToken == None
      ensures credential != null ==> credential.closeCalls == old(credential.closeCalls) + 1
                                     && credential.requested == old(credential.requested)
    {
      cachedToken := None;
      if credential != null {
        credential.Close();
      }
    }
  }
}
