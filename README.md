# Azure OpenAI chat proxy: a verified model of its decision layer

The repository is a small HTTP proxy in front of an Azure OpenAI deployment
(`api.py`). It reads its configuration from the process environment, builds
a request for the upstream chat-completion service from a user message, an
optional system message and a handful of generation options, and turns any
upstream failure into an error record that the HTTP endpoint answers with
status 500. This project models that decision layer in Dafny and proves what
the code promises about it:

- configuration loading checks `AZURE_OPENAI_ENDPOINT`,
  `AZURE_OPENAI_DEPLOYMENT_NAME`, `AZURE_TENANT_ID`, `AZURE_CLIENT_ID` and
  `AZURE_CLIENT_SECRET` in that order, fails on the first one that is absent
  or empty, and names it. Failures on the three credential variables carry the
  prefix `Failed to initialize Azure OpenAI client: `. The API version is the
  environment's value when the variable is set, and `2025-01-01-preview` when
  it is not;
- message assembly always yields exactly two messages, system then user. Each
  has one text block. The system text is the caller's when that text is
  truthy, and the fixed persona otherwise;
- the parameter record sends the configured deployment as the model and the
  assembled messages. Each option is the caller's value when its keyword is
  present, an explicit `None` included, and the documented default otherwise;
- the gateway never raises. Whatever the upstream step raises comes back as
  `{"error": message, "type": kind}`, and the endpoint answers that with 500;
- the health check always answers 200 `{"status": "healthy"}`.

Modules, one per component of `api.py`:

| file | module | models |
|---|---|---|
| wrappers.dfy | Wrappers | `Optional` values and raise-or-return results |
| values.dfy | Values | JSON-shaped Python values, exceptions, truthiness, the `in` operator |
| config.dfy | Config | `ChatAPI.__init__`, `_get_required_env`, `_initialize_client` |
| messages.dfy | Messages | `ChatAPI._build_messages` |
| gateway.dfy | Gateway | `ChatAPI.create_chat_completion` |
| endpoints.dfy | Endpoints | `chat_endpoint`, `health_check` |

Modelling choices:

- The environment is a `map<string, string>`. A raised exception is an
  `Error(kind, message)`, holding `type(e).__name__` and `str(e)`. Raising is
  returning a `Failure`.
- A `ChatAPI` object's fields are set only while it is built, so the object is
  a `ChatConfig` value returned by the method `LoadConfig`. The upstream client
  is the record of what it is bound to: endpoint, API version, token scope and
  credential. Whatever the Azure SDK constructors raise is the parameter
  `sdkFailure`.
- The upstream call, together with the extraction of the reply's content, is
  the function parameter `upstream` of type
  `(AzureClient, CompletionParams) -> UpstreamResult`. The result is either
  `Completed(content)` or `Raised(error)`.
- Generation options and responses are `Values.Value`s: null, bool, int,
  float, str, list or dict. Floats are reals that are only compared for
  equality.

Points to note about the code and the model:

- As written, a successful chat request is never answered with status 200
  (see Findings). `Endpoints.DispatchAsWritten` models the endpoint as
  written. `Endpoints.Dispatch` and `Endpoints.ChatEndpoint` model the
  corrected endpoint described there.
- `os.getenv` with a default returns an empty string when the variable is set
  to one, so the API version can be empty.
- The request schema accepts an empty `user_message`, and so does the model.
- The corrected dispatch keeps line 169's `"error" in response` check as it
  is. So a completed reply whose text contains the substring `error`
  (`"no error"`), or a list reply holding the string `"error"`, is still
  answered 500 (`Endpoints.ErrorTextIsServerError`).

Configuration loading is deterministic: `LoadConfig`'s postconditions fix its
result from the environment and `sdkFailure` alone. So loading twice from the
same environment yields the same configuration.

## Model

| member | source | states |
|---|---|---|
| `Config.GetRequiredEnv` | api.py:46-51 | succeeds exactly when the variable is present with a non-empty value, and returns that value; otherwise fails with a ValueError whose message is `Missing required environment variable: ` followed by the name |
| `Config.FirstMissing` | api.py:37-59 | the reference definition of checking variables in order: the index it returns names a variable that is not provided, and every earlier one is provided; `None` exactly when every variable is provided |
| `Config.InitializeClient` | api.py:53-78 | succeeds exactly when the three credential variables are provided and the SDK does not fail. The client is then bound to the endpoint, the API version, the cognitive-services token scope and the three credentials. Every failure is an `Exception` whose message starts with `Failed to initialize Azure OpenAI client: `: the first missing credential variable, in the order tenant, client id, secret, is reported wrapped that way, and so is the SDK's own failure |
| `Config.LoadConfig` | api.py:34-44 | succeeds exactly when all five required variables are provided and the SDK does not fail. The configuration then holds the environment's endpoint and deployment, the API version (the environment's value when set, else `2025-01-01-preview`) and the client. A failure reports the first missing variable in the fixed order: unwrapped for the endpoint and deployment, with the initialisation prefix for the credentials. When all five are provided, an SDK failure is reported with the prefix |
| `Messages.BuildMessages` | api.py:118-138 | returns exactly two messages, with roles `system` then `user`, each with one block of type `text`; the system text is the given system message when it is present and non-empty, otherwise `You are an AI assistant that helps people find information.`; the user text is the user message verbatim |
| `Gateway.BuildParams` | api.py:100-110 | the model is the deployment and the messages are the given ones. Each of the seven options is the caller's value when its keyword is present, an explicit None included, and otherwise its default from the table `OPTION_DEFAULTS`: max_tokens 800, temperature 0.7, top_p 0.95, both penalties 0, stop None, stream False |
| `Gateway.BuildParamsIgnoresOtherKeys` | api.py:100-110 | keyword arguments that agree on the seven option keys give the same parameter record; other keywords have no effect |
| `Gateway.CreateChatCompletion` | api.py:80-116 | never raises. The upstream step receives the configured client and exactly the record built from the deployment, the assembled messages and the keyword arguments. Completed content is returned unchanged. A raised error becomes a dict with exactly the keys `error` (the message) and `type` (the kind) |
| `Endpoints.EndpointSendsRequestOptions` | api.py:157-167 | on the HTTP path every option of the parameter record is the request's own field; no gateway default applies |
| `Endpoints.RequestDefaultsAgreeWithGateway` | api.py:22-31 | a request that leaves every option at its schema default yields the same parameter record as a gateway call with no keyword arguments |
| `Endpoints.DispatchAsWritten` | api.py:169-172 | the endpoint's dispatch as written: whenever `"error" in response` is true or raises TypeError, the reply is 500 (that the remaining case is a 500 too is `DispatchAsWrittenAlwaysFails`) |
| `Endpoints.Dispatch` | api.py:169-179 | the corrected dispatch from the Findings entry, not the code as written: the status is 200 or 500. It is 200 exactly when `"error" in response` evaluates to False, and the body is then the response itself. A dict carrying the key `error` always gets 500, and so does a value for which `in` raises TypeError |
| `Endpoints.ErrorTextIsServerError` | api.py:169 | the corrected dispatch keeps the source's `in` check: the completed text `"no error"` and the list `["error"]` are both answered 500 |
| `Endpoints.RaisedErrorBecomesServerError` | api.py:169-170 | the error record made from any raised error is answered with 500 |
| `Endpoints.DispatchAsWrittenAlwaysFails` | api.py:172 | as written, the endpoint's dispatch answers 500 for every response the gateway can return |
| `Endpoints.GreetingReplyDiffers` | api.py:172 | for the completed content `"Hi there!"`, the dispatch as written answers 500 and the corrected dispatch answers 200 with that content |
| `Endpoints.ChatEndpoint` | api.py:143-179 | the corrected endpoint from the Findings entry, which answers through `Dispatch` rather than line 172 as written. The upstream step receives the request's two messages assembled and every option exactly as the request holds it. A raised upstream error is answered with 500; completed content is answered as `Dispatch` says |
| `Endpoints.HealthCheck` | api.py:180-183 | always status 200 with body `{"status": "healthy"}`, independent of configuration and upstream |
| `Values.Contains` | api.py:169 | Python's `item in container`: key membership for a dict, element equality for a list, substring occurrence for a str, and TypeError (`None`) exactly for None, bools and numbers |

## Findings

| source | as written | input that shows it | evidently intended | confidence | as-written member | corrected member |
|---|---|---|---|---|---|---|
| api.py:172 | after the error check, the endpoint reads `response.completion.choices[0]...` on the value `json.loads` returned; no dict, list, str, number, bool or None has an attribute `completion`, so an AttributeError is raised and the outer except answers 500 | the upstream completes with content `"Hi there!"`: the gateway returns `"Hi there!"` and the endpoint answers 500 | a response for which `"error" in response` is False is answered with 200 and that content as the body; the check at line 169 is kept, so text containing `error` still gets 500 | high; not executed | `Endpoints.DispatchAsWritten`, shown by `Endpoints.DispatchAsWrittenAlwaysFails` and `Endpoints.GreetingReplyDiffers` | `Endpoints.Dispatch`, used by `Endpoints.ChatEndpoint` |

## Left out

- The Azure SDK objects (`ClientSecretCredential`, `get_bearer_token_provider`, `AzureOpenAI`, api.py:61-76) are foreign code. The client is the record of the values it is given, and whatever the SDK raises while constructing them is the parameter `sdkFailure`.
- The completion call and the extraction of its content (api.py:112-113) are the abstract `upstream` step. As written, line 113 reads `.message` on the `choices` list. With the real SDK that raises AttributeError on every call, so the gateway would always return an error record. The model does not fix what the step returns.
- The "No content returned" branch of api.py:172 is not modelled. As written it is never reached, and the corrected `Dispatch` returns the gateway's content as the body.
- The body of the 500 replies is not modelled, only the status. The HTTPException raised at api.py:170 is itself caught at api.py:177 and re-raised with `detail=str(e)`.
- FastAPI and pydantic plumbing is left out: routing, schema validation and coercion of body values, `load_dotenv`, `uvicorn` startup, and `traceback.print_exc` logging (api.py:8-21, 141, 143-144, 180-187). `ChatRequest` and its field defaults (api.py:22-31) are modelled; it holds the field values after validation.
- Floating-point arithmetic is left out. The option values are only passed through, so `0.7` and `0.95` are exact reals here, not binary floats.
- Exceptions outside `Exception` (for example KeyboardInterrupt) pass through both except clauses in Python. The model has no such exceptions.
- Concurrency of the async endpoints is left out; nothing in this layer depends on it.
