/**
 * Loading the chat service's configuration from the process environment
 * (ChatAPI.__init__, _get_required_env and _initialize_client in api.py).
 *
 * The environment is a map from variable names to values. Five variables
 * are required and are checked in a fixed order; the first one that is
 * absent or empty aborts loading with an error naming it. The credential
 * check runs inside a try block whose except clause re-wraps every error
 * it sees, so failures on the three credential variables carry a prefix.
 */
module Config {
  import opened Wrappers
  import opened Values

  type Env = map<string, string>

  const ENDPOINT_VAR := "AZURE_OPENAI_ENDPOINT"
  const DEPLOYMENT_VAR := "AZURE_OPENAI_DEPLOYMENT_NAME"
  const API_VERSION_VAR := "AZURE_OPENAI_API_VERSION"
  const TENANT_ID_VAR := "AZURE_TENANT_ID"
  const CLIENT_ID_VAR := "AZURE_CLIENT_ID"
  const CLIENT_SECRET_VAR := "AZURE_CLIENT_SECRET"

  const DEFAULT_API_VERSION := "2025-01-01-preview"
  /** The audience the bearer-token provider is scoped to. */
  const TOKEN_SCOPE := "https://cognitiveservices.azure.com/.default"
  const MISSING_PREFIX := "Missing required environment variable: "
  const INIT_PREFIX := "Failed to initialize Azure OpenAI client: "

  /** Checked by __init__ itself, in this order. */
  const SERVICE_VARS := [ENDPOINT_VAR, DEPLOYMENT_VAR]
  /** Checked inside _initialize_client's try block, in this order. */
  const CREDENTIAL_VARS := [TENANT_ID_VAR, CLIENT_ID_VAR, CLIENT_SECRET_VAR]
  /** Every required variable, in the order loading checks them. */
  const REQUIRED_VARS := SERVICE_VARS + CREDENTIAL_VARS

  /** The service-principal credential handed to the identity SDK. */
  datatype Credential = Credential(tenantId: string, clientId: string, clientSecret: string)

  /** The upstream client, modelled by what it is bound to. */
  datatype AzureClient = AzureClient(endpoint: string, apiVersion: string, tokenScope: string, credential: Credential)

  /** The fields of a constructed ChatAPI; none of them changes after construction. */
  datatype ChatConfig = ChatConfig(endpoint: string, deployment: string, apiVersion: string, client: AzureClient)

  /** `os.getenv(name)`. */
  function Getenv(env: Env, name: string): Option<string>
  {
    if name in env then Some(env[name]) else None
  }

  /** A required variable is set to a non-empty value. */
  predicate Provided(env: Env, name: string)
  {
    name in env && env[name] != ""
  }

  /** The ValueError that _get_required_env raises. */
  function MissingVariable(name: string): Error
  {
    Error("ValueError", MISSING_PREFIX + name)
  }

  /** The Exception that _initialize_client's except clause raises in place of `cause`. */
  function InitFailure(cause: Error): Error
  {
    Error("Exception", INIT_PREFIX + cause.message)
  }

  /** `_get_required_env`: the value when it is truthy, else a ValueError naming the variable. */
  function GetRequiredEnv(env: Env, name: string): (r: Result<string, Error>)
    ensures r.Success? <==> name in env && env[name] != ""
    ensures r.Success? ==> r.value == env[name]
    ensures r.Failure? ==> r.error.kind == "ValueError" && r.error.message == MISSING_PREFIX + name
  {
    var value := Getenv(env, name);
    if !Truthy(value) then Failure(MissingVariable(name)) else Success(value.value)
  }

  /**
   * The index of the first variable of `names` that is not provided, if
   * any: the reference definition of "checked in order, first failure
   * reported".
   */
  function FirstMissing(env: Env, names: seq<string>): (r: Option<nat>)
    ensures r.Some? ==> r.value < |names| && !Provided(env, names[r.value])
    ensures r.Some? ==> forall j :: 0 <= j < r.value ==> Provided(env, names[j])
    ensures r.None? <==> forall j :: 0 <= j < |names| ==> Provided(env, names[j])
    decreases |names|
  {
    if names == [] then None
    else if !Provided(env, names[0]) then Some(0)
    else
      match FirstMissing(env, names[1..])
      case None => None
      case Some(i) => Some(i + 1)
  }

  /** Variables that are all provided do not change where the first missing one is found. */
  lemma {:induction false} FirstMissingAfterProvided(env: Env, xs: seq<string>, ys: seq<string>)
    requires forall j :: 0 <= j < |xs| ==> Provided(env, xs[j])
    ensures FirstMissing(env, xs + ys) ==
      match FirstMissing(env, ys)
      case None => None
      case Some(i) => Some(|xs| + i)
  {
    if xs != [] {
      assert (xs + ys)[0] == xs[0];
      assert (xs + ys)[1..] == xs[1..] + ys;
      FirstMissingAfterProvided(env, xs[1..], ys);
    } else {
      assert xs + ys == ys;
    }
  }

  /**
   * The body of _initialize_client's try block: read the three credential
   * variables in order, then let the SDK build the credential, the token
   * provider and the client. `sdkFailure` is what the SDK raises, if it
   * raises.
   */
  function ClientAttempt(env: Env, endpoint: string, apiVersion: string, sdkFailure: Option<Error>): Result<AzureClient, Error>
  {
    var tenantId := GetRequiredEnv(env, TENANT_ID_VAR);
    if tenantId.Failure? then Failure(tenantId.error) else
    var clientId := GetRequiredEnv(env, CLIENT_ID_VAR);
    if clientId.Failure? then Failure(clientId.error) else
    var clientSecret := GetRequiredEnv(env, CLIENT_SECRET_VAR);
    if clientSecret.Failure? then Failure(clientSecret.error) else
    if sdkFailure.Some? then Failure(sdkFailure.value) else
    Success(AzureClient(endpoint, apiVersion, TOKEN_SCOPE, Credential(tenantId.value, clientId.value, clientSecret.value)))
  }

  /** Where the first missing credential variable is, spelled out for the literal order. */
  lemma CredentialOrder(env: Env)
    ensures FirstMissing(env, CREDENTIAL_VARS) ==
      if !Provided(env, TENANT_ID_VAR) then Some(0)
      else if !Provided(env, CLIENT_ID_VAR) then Some(1)
      else if !Provided(env, CLIENT_SECRET_VAR) then Some(2)
      else None
  {
    var names := CREDENTIAL_VARS;
    assert names[0] == TENANT_ID_VAR && names[1] == CLIENT_ID_VAR && names[2] == CLIENT_SECRET_VAR;
  }

  /** `_initialize_client`: the try block, with every escaping error re-wrapped. */
  function InitializeClient(env: Env, endpoint: string, apiVersion: string, sdkFailure: Option<Error>): (r: Result<AzureClient, Error>)
    ensures r.Success? <==>
      Provided(env, TENANT_ID_VAR) && Provided(env, CLIENT_ID_VAR) && Provided(env, CLIENT_SECRET_VAR) && sdkFailure.None?
    ensures r.Success? ==>
      r.value == AzureClient(endpoint, apiVersion, TOKEN_SCOPE,
                             Credential(env[TENANT_ID_VAR], env[CLIENT_ID_VAR], env[CLIENT_SECRET_VAR]))
    ensures r.Failure? ==> r.error.kind == "Exception" && |r.error.message| >= |INIT_PREFIX| && r.error.message[..|INIT_PREFIX|] == INIT_PREFIX
    ensures match FirstMissing(env, CREDENTIAL_VARS)
      case Some(i) => r == Failure(InitFailure(MissingVariable(CREDENTIAL_VARS[i])))
      case None => sdkFailure.Some? ==> r == Failure(InitFailure(sdkFailure.value))
  {
    CredentialOrder(env);
    match ClientAttempt(env, endpoint, apiVersion, sdkFailure)
    case Success(client) => Success(client)
    case Failure(e) => Failure(InitFailure(e))
  }

  /**
   * `ChatAPI.__init__`: the endpoint, then the deployment, then the API
   * version (which has a default), then the client. Raising is returning
   * a Failure; nothing after the first failure runs.
   */
  method LoadConfig(env: Env, sdkFailure: Option<Error>) returns (r: Result<ChatConfig, Error>)
    ensures r.Success? <==> FirstMissing(env, REQUIRED_VARS).None? && sdkFailure.None?
    ensures r.Success? <==>
      && Provided(env, ENDPOINT_VAR) && Provided(env, DEPLOYMENT_VAR)
      && Provided(env, TENANT_ID_VAR) && Provided(env, CLIENT_ID_VAR) && Provided(env, CLIENT_SECRET_VAR)
      && sdkFailure.None?
    ensures r.Success? ==> r.value.endpoint == env[ENDPOINT_VAR] && r.value.deployment == env[DEPLOYMENT_VAR]
    ensures r.Success? ==> r.value.apiVersion == if API_VERSION_VAR in env then env[API_VERSION_VAR] else DEFAULT_API_VERSION
    ensures r.Success? ==>
      r.value.client == AzureClient(r.value.endpoint, r.value.apiVersion, TOKEN_SCOPE,
                                    Credential(env[TENANT_ID_VAR], env[CLIENT_ID_VAR], env[CLIENT_SECRET_VAR]))
    ensures match FirstMissing(env, REQUIRED_VARS)
      case Some(i) =>
        r == Failure(if i < |SERVICE_VARS| then MissingVariable(REQUIRED_VARS[i])
                     else InitFailure(MissingVariable(REQUIRED_VARS[i])))
      case None => sdkFailure.Some? ==> r == Failure(InitFailure(sdkFailure.value))
  {
    var endpoint := GetRequiredEnv(env, ENDPOINT_VAR);
    if endpoint.Failure? {
      assert FirstMissing(env, REQUIRED_VARS) == Some(0);
      return Failure(endpoint.error);
    }
    var deployment := GetRequiredEnv(env, DEPLOYMENT_VAR);
    if deployment.Failure? {
      assert Provided(env, REQUIRED_VARS[0]);
      assert FirstMissing(env, REQUIRED_VARS) == Some(1);
      return Failure(deployment.error);
    }
    var apiVersion := if API_VERSION_VAR in env then env[API_VERSION_VAR] else DEFAULT_API_VERSION;
    FirstMissingAfterProvided(env, SERVICE_VARS, CREDENTIAL_VARS);
    CredentialOrder(env);
    var client := InitializeClient(env, endpoint.value, apiVersion, sdkFailure);
    if client.Failure? {
      return Failure(client.error);
    }
    r := Success(ChatConfig(endpoint.value, deployment.value, apiVersion, client.value));
  }
}
