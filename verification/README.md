# herp-service-skeleton-rust: the plugin/orchestrator protocol in Dafny

The repository is an actix-web plugin ("service") for the hERP workflow
orchestrator. Around its HTTP and file plumbing it makes a small number of
decisions over JSON values, and this project models those decisions and
proves what they guarantee:

- the `POST /do` handler `run` and the business function `process`;
- `GET /install` (the node definition) and `POST /install` (credential
  delivery), with the persisted `Credentials` slot as an explicit
  `Option<Credentials>` state;
- the orchestrator client, which exists twice: the inline `herp_interaction`
  module of `src/main.rs` (fixed URLs, compile-time service name and title)
  and `Herp` in `src/herp_proxy.rs` (host and endpoint table as data). Both
  log in (`get_token`), resolve the service's id (`get_service_id`) and
  confirm the installation (`klick_install`);
- start-up registration (`register`) and the panic on its failure.

Every reply of the orchestrator is an input. Where the code reads the reply
as JSON it is an `Exchange` (`Delivered(json)` or `Failed(detail)`: the
result of sending and decoding the body as JSON). Registration never reads
its reply, so its input is an `Answer` (`Answered`, whatever the status and
body, or `NotSent(detail)`). Each client operation returns a `Trace`: its outcome and
the requests it sent, in order, so that "the lookup is not attempted" is a
statement about the trace. An outcome is `Ok(value)`, `Err(error)` or
`Panic`; every `unwrap()` that can fail in the code is a `Panic`, never an
error. JSON is `Json.Value`, mirroring `serde_json::Value`, and `Json.Index`
has serde's `value[key]` semantics (a missing key or a non-object gives
`Null`).

Modules: `Outcomes`, `Json`, `Http` (requests, exchanges, traces, endpoint
replies), `Config` (the constants of `src/main.rs`), `CredentialStore`,
`Orchestrator` (the decisions both clients share: login body, token
extraction, first-match lookup, install classification), `HerpInteraction`
(the inline client), `HerpProxy`, `NodeSchema` (the node definition as data,
its JSON form and a reader for it), `Plugin` (the endpoints) and
`Registration`.

Behaviour of the code worth knowing, all of it modelled as written:

- `register` never reads the reply: any answer, whatever its status or body, is success; only a failure to send is an error.
- `klick_install` does not inspect the status either; a non-2xx reply whose body is a JSON string is still a success.
- A login reply without a string `token` panics at `unwrap()`.
- A service list with no matching record, or whose first match has no string `_id`, panics at `unwrap()`; only a `data` member that is not an array gives "Service not found.".
- In `klick_install` only a transport failure of the login becomes "Authorization failed."; a panic while reading the token stays a panic.
- `Credentials` are deserialised by serde's derived implementation, which also accepts an array of exactly two strings `[name, password]` and ignores unknown object members.

## Model

| member | source | states |
|---|---|---|
| `Plugin.Run` | src/main.rs:131-149 | no body is refused before the handler runs; the reply is a success exactly when `inputField1` is a JSON string, and then it is the object with the single member `outputField` holding that same string (`process` reflects its input); otherwise it is the 400 "test error" |
| `Plugin.Process` | src/main.rs:155-159 | the business function reflects its input unchanged |
| `Plugin.RunFollowsSchema` | src/main.rs:136-146 | `/do` accepts a payload exactly when every input declared by the served node definition is present with its declared type, and the reply's members are exactly the declared outputs |
| `Plugin.RunExamples` | src/main.rs:241-273 | `{"inputField1":"value1"}` gives `{"outputField":"value1"}`; the key `input`, a number, or no body give a client error |
| `Plugin.InstallGet` | src/main.rs:89-112 | always succeeds, and the body reads back as exactly one node definition: `myService` with the string input `inputField1` and the string output `outputField` |
| `Plugin.InstallGetBody` | src/main.rs:91-110 | the served body is the literal object the unit test expects |
| `Plugin.InstallPost` | src/main.rs:118-126 | succeeds exactly when the body deserialises to credentials; then the reply is `{"test":"ok"}` and the store then loads those credentials; otherwise the extractor refuses it and the store is unchanged |
| `Plugin.InstallPostExamples` | src/main.rs:184-207 | `{name, password}` succeeds and stores the pair; `{namedd2, password}` is refused and the store is untouched |
| `Plugin.LoginUsesInstalledCredentials` | src/main.rs:119-122 | after credentials are delivered through `POST /install`, the next login posts exactly that name and password |
| `CredentialStore.Load` | src/main.rs:55-60 | an empty store loads the default `your-email@example.com` / `admin`; otherwise the stored pair |
| `CredentialStore.Save` | src/main.rs:52-54 | storing overwrites the single slot: afterwards it holds exactly the given pair |
| `CredentialStore.LoadAfterSave` | src/main.rs:52-60 | storing then loading returns what was stored, whatever the store held |
| `CredentialStore.LastWriteWins` | src/main.rs:52-54 | of two stores only the second is visible; the first leaves no trace |
| `CredentialStore.Decode` | src/main.rs:44-48 | an object decodes exactly when `name` and `password` are strings, to those strings; an array of exactly two strings decodes to them in field order; every other shape is refused |
| `CredentialStore.DecodeEncode` | src/main.rs:44-48 | serialising then deserialising credentials gives them back |
| `CredentialStore.DecodeIgnoresOtherMembers` | src/main.rs:44-48 | adding a member other than `name` and `password` never changes what decodes |
| `Json.Index` | src/herp_proxy.rs:62 | `value[key]`: an object's member under the key, and `Null` for a missing key or a non-object |
| `Json.AsStr` | src/herp_proxy.rs:87 | `as_str()`: a value exactly for a JSON string, and then that string |
| `Orchestrator.LoginBody` | src/herp_proxy.rs:37-41 | the login body has exactly the members `email` and `password`, holding the credentials' name and password |
| `Orchestrator.ExtractToken` | src/herp_proxy.rs:47 | a token is the string `token` member of the reply; when there is none the result is a panic, never an error |
| `Orchestrator.ExtractTokenFromReply` | src/herp_proxy.rs:43-49 | a reply carrying the string member `token` yields that token whatever else it holds |
| `Orchestrator.MatchesExactly` | src/herp_proxy.rs:65-67 | a record matches exactly when it has `name` and `title` members that are the expected strings; a missing or non-string `name` or `title` never matches |
| `Orchestrator.FirstMatch` | src/herp_proxy.rs:63-68 | the position found is a matching record with no matching record before it; none is found exactly when no record matches |
| `Orchestrator.ResolveServiceId` | src/herp_proxy.rs:62-70 | "Service not found." exactly when `data` is not an array; an id is the string `_id` of the first matching record; with an array, a panic exactly when the first match is absent or has no string `_id` |
| `Orchestrator.ResolvePicksFirstOfDuplicates` | src/herp_proxy.rs:63-68 | with several matching records the id of the first in array order is returned |
| `Orchestrator.ResolveWithoutData` | src/herp_proxy.rs:62 | a reply without `data` gives "Service not found." |
| `Orchestrator.ResolveNoMatchPanics` | src/herp_proxy.rs:68 | an array with no matching record panics rather than returning an error |
| `Orchestrator.ClassifyInstall` | src/herp_proxy.rs:87-90 | success exactly for a bare JSON string, with that string; every other value is "Installaton rejected." |
| `HerpInteraction.GetToken` | src/main.rs:284-303 | one POST to `http://127.0.0.1:5050/users/login` carrying the loaded credentials as `email`/`password`; an error exactly on transport failure; a delivered reply yields its string `token` member and panics without one |
| `HerpInteraction.InstallUrl` | src/main.rs:333 | the install URL is the fixed prefix `http://127.0.0.1:5050/services/install/` followed by exactly the id |
| `HerpInteraction.GetServiceId` | src/main.rs:305-325 | one GET of the services URL with the token as `Authorization`; a transport failure is an error, otherwise the lookup by the compile-time name and title decides |
| `HerpInteraction.KlickInstall` | src/main.rs:327-347 | the login request is sent first; "Authorization failed." exactly when the login could not be performed, and then nothing else is sent; a panic while reading the token, or in the lookup, is a panic with no further request; a failed install exchange is a transport error; a success is the string the install reply carried, after three requests: the login, the lookup, the install GET; the install request carries the same token as the lookup |
| `HerpInteraction.KlickInstallConfirms` | src/main.rs:329-344 | once token and id are known, exactly three requests are sent, in order: the login, the lookup and the install GET; the install request is a GET of `http://` + orchestrator host + `/services/install/` + id with the token, and its reply is classified |
| `HerpInteraction.KlickInstallPropagatesLookupError` | src/main.rs:329 | an error of the service lookup is returned unchanged and no install request is sent |
| `HerpProxy.GetUrl` | src/herp_proxy.rs:28-30 | `http://` + host + the endpoint's path when the entry is a string; a panic exactly when there is no string entry |
| `HerpProxy.Register` | src/herp_proxy.rs:19-26 | a missing `register` entry panics with nothing sent; otherwise one POST of the serialised service, a success exactly for an answer whatever its body, and a transport error exactly when it could not be sent |
| `HerpProxy.GetToken` | src/herp_proxy.rs:32-50 | a missing `login` entry panics before anything is sent; otherwise one POST of the loaded credentials, an error exactly on transport failure, and a delivered reply yields its string `token` member and panics without one |
| `HerpProxy.GetServiceId` | src/herp_proxy.rs:52-71 | a missing `services` entry panics before anything is sent; otherwise one GET with the token, and the lookup by the given service's name and title decides |
| `HerpProxy.InstallUrl` | src/herp_proxy.rs:79 | the install URL is `http://` + host + the `install` path + `/` + id, and it panics exactly when there is no string `install` entry |
| `HerpProxy.KlickInstallWithoutInstallEntry` | src/herp_proxy.rs:79 | with token and id obtained, a missing or non-string `install` entry panics after exactly the login and the lookup were sent |
| `HerpProxy.KlickInstall` | src/herp_proxy.rs:73-93 | the login's requests come first; with a usable `login` entry, "Authorization failed." exactly when the login could not be performed; a panic in the login or the lookup is a panic with no further request; a failed install exchange is a transport error; a success is the string the install reply carried, after three requests (the login, the lookup, the install GET), the last two sharing one token |
| `HerpProxy.KlickInstallConfirms` | src/herp_proxy.rs:75-90 | once token and id are known, exactly three requests are sent, in order: the login, the lookup and the install GET; the install request is a GET of `http://` + host + the `install` path + `/` + id with the token, and its reply is classified |
| `HerpProxy.KlickInstallPropagatesLookupError` | src/herp_proxy.rs:75 | an error of the service lookup is returned unchanged and no install request is sent |
| `HerpProxy.DefaultUrls` | src/herp_proxy.rs:101-111 | with the test endpoint table, every URL equals the one the inline copy hard-codes |
| `HerpProxy.ProxyAgreesWithInlineCopy` | src/herp_proxy.rs:73-93 | with the test endpoint table and the compile-time service identity, the proxy's `klick_install` has the same outcome and sends the same requests as the inline copy, for every store and every reply |
| `NodeSchema.DescriptionRoundTrip` | src/main.rs:91-110 | reading a served node description back yields exactly the definitions that were served |
| `NodeSchema.FieldsRoundTrip` | src/main.rs:95-108 | a list of field descriptors survives its JSON form unchanged |
| `Registration.RegisterAdvertisesOrchestratorHost` | src/main.rs:67-76 | as written and called from `main`, the registration body's `host` is the orchestrator's address, not the plugin's |
| `Registration.RegisterRequestAsWritten` | src/main.rs:68-76 | as written: a POST to `http://` + host + `/services/register` whose body has exactly the members name, host, title, version and description, with `host` the same address the URL uses |
| `Registration.Register` | src/main.rs:67-84 | sends the request as written; any answer is a success whatever its status or body; only a failure to send is an error |
| `Registration.Startup` | src/main.rs:34-37 | start-up continues exactly when the registration was answered and panics exactly when it could not be sent |
| `Registration.RegisterRequest` | src/main.rs:68-76 | corrected request (see Findings): as written, but the body advertises the plugin's own address `127.0.0.1:6100` |
| `Registration.CorrectionOnlyChangesHost` | src/main.rs:72 | the corrected request differs from the one written only in the body's `host` member |
| `Registration.RegisterCorrected` | src/main.rs:67-84 | corrected `register`: sends the corrected request, with the same outcome as written for every answer |
| `Registration.RegisterAgreesWithProxy` | src/herp_proxy.rs:19-26 | the corrected registration of `main` is exactly the proxy's `register` of the configured service with the test endpoints |

## Findings

| source | as written | input that shows it | evidently intended | confidence | as-written member | corrected member |
|---|---|---|---|---|---|---|
| src/main.rs:34,67-76 | `main` calls `register(&HERP_HOST, ..)` and the body sets `"host": host`, so the plugin advertises the orchestrator's address `127.0.0.1:5050` | the start-up registration itself | the body's `host` is the plugin's own address `SERVICE_HOST` (`127.0.0.1:6100`), as the proxy's `register` sends with the service's own `host` | medium; not executed | `Registration.RegisterAdvertisesOrchestratorHost` | `Registration.RegisterCorrected` |

`Registration.Register` and `Registration.Startup` model the code as written; `Registration.RegisterCorrected` sends `Registration.RegisterRequest`, the corrected request.

## Left out

- Server bootstrap, binding and routing of `main` (src/main.rs:17-41) apart from the panic on a failed registration: runtime plumbing.
- The HTTP client itself, connection handling and waiting: each orchestrator reply is an input `Exchange`, or an `Answer` for `register`. Request headers other than `Authorization` (`content-type`) are not modelled.
- The confy file: the store is an `Option<Credentials>`; a failure of `confy::store` (an `unwrap()` on file I/O) and a confy read error are not modelled, and an unreadable file is treated like an absent one.
- serde/actix decoding of bytes into JSON and the exact status codes: a body the extractor cannot turn into JSON is `None`, and every extractor refusal is one `PayloadRejected` reply, a client error (4xx). Duplicate members in a JSON object, which serde's derived `Credentials` decoder refuses, cannot be written in the map-based `Json.Value`.
- JSON numbers are integers; floating point is not modelled because no decision reads a number.
- Key order and byte layout of serialised JSON: replies are compared as values, so "the same bytes on every call" of `GET /install` is stated as "the same value" (a function has one result).
- `println!` logging.
- The integration tests that need a running orchestrator (token of length 171, id of length 24, connection refused): they depend on the external server.
- `Service` is imported by src/herp_proxy.rs but defined elsewhere; its fields are taken from the registration body of src/main.rs:69-76, and its serialisation is assumed to be the derived one.
