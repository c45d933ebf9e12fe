/** The inline orchestrator client of src/main.rs:279-347 (`mod
    herp_interaction`): URLs are fixed joins on the orchestrator host, and the
    service is identified by the compile-time name and title. Each reply of
    the orchestrator is an input `Exchange`; a reply that is never asked for
    is ignored. */
module HerpInteraction {
  import opened Outcomes
  import opened Json
  import opened Http
  import opened Config
  import CredentialStore
  import Orchestrator

  const LoginUrl: string := "http://" + HerpHost + "/users/login"
  const ServicesUrl: string := "http://" + HerpHost + "/content/system/service"

  /** The install URL of src/main.rs:333: a fixed prefix followed by the id. */
  function InstallUrl(id: string): (url: string)
    ensures |url| == |"http://" + HerpHost + "/services/install/"| + |id|
    ensures url[..|"http://" + HerpHost + "/services/install/"|] == "http://" + HerpHost + "/services/install/"
    ensures url[|"http://" + HerpHost + "/services/install/"|..] == id
  {
    "http://" + HerpHost + "/services/install/" + id
  }

  /** `get_token` (src/main.rs:284-303): posts the stored credentials (or the
      default pair) to the login URL and takes the string `token` member of
      the reply; a transport failure is an error, a reply without a string
      token panics. */
  function GetToken(store: CredentialStore.Store, reply: Exchange): (r: Trace<string>)
    ensures |r.sent| == 1 && r.sent[0].verb == Post && r.sent[0].url == LoginUrl
    ensures r.sent[0].authorization.None? && r.sent[0].body.Some?
    ensures HasString(r.sent[0].body.value, "email", CredentialStore.Load(store).name)
    ensures HasString(r.sent[0].body.value, "password", CredentialStore.Load(store).password)
    ensures r.outcome.Err? <==> reply.Failed?
    ensures r.outcome.Err? ==> r.outcome.error == Transport(reply.detail)
    ensures reply.Delivered? ==> r.outcome == Orchestrator.ExtractToken(reply.json)
    ensures r.outcome.Ok? ==> reply.Delivered? && HasString(reply.json, "token", r.outcome.value)
  {
    var request := Request(Post, LoginUrl, None, Some(Orchestrator.LoginBody(CredentialStore.Load(store))));
    match reply
    case Failed(detail) => Trace(Err(Transport(detail)), [request])
    case Delivered(response) => Trace(Orchestrator.ExtractToken(response), [request])
  }

  /** `get_service_id` (src/main.rs:305-325): fetches the service list with
      the token as `Authorization` and resolves this service's id by name and
      title. */
  function GetServiceId(token: string, reply: Exchange): (r: Trace<string>)
    ensures r.sent == [Request(Get, ServicesUrl, Some(token), None)]
    ensures reply.Failed? ==> r.outcome == Err(Transport(reply.detail))
    ensures reply.Delivered? ==> r.outcome == Orchestrator.ResolveServiceId(reply.json, ServiceName, ServiceTitle)
  {
    var request := Request(Get, ServicesUrl, Some(token), None);
    match reply
    case Failed(detail) => Trace(Err(Transport(detail)), [request])
    case Delivered(response) => Trace(Orchestrator.ResolveServiceId(response, ServiceName, ServiceTitle), [request])
  }

  /** `klick_install` (src/main.rs:327-347): token, then service id, then the
      install confirmation. A token that could not be fetched is
      "Authorization failed."; a panic while reading it still panics. */
  function KlickInstall(store: CredentialStore.Store, loginReply: Exchange, servicesReply: Exchange, installReply: Exchange): (r: Trace<string>)
    ensures r.outcome == Err(BadRequest(AuthorizationFailed)) <==> loginReply.Failed?
    ensures loginReply.Failed? ==> |r.sent| == 1
    ensures r.outcome.Ok? ==> installReply == Delivered(String(r.outcome.value)) && |r.sent| == 3
    ensures |r.sent| == 3 ==> r.sent[2].verb == Get && r.sent[2].authorization == r.sent[1].authorization
    ensures 1 <= |r.sent| <= 3 && r.sent[0] == GetToken(store, loginReply).sent[0]
    ensures GetToken(store, loginReply).outcome.Panic? ==> r == Trace(Panic, GetToken(store, loginReply).sent)
    ensures GetToken(store, loginReply).outcome.Ok?
            && GetServiceId(GetToken(store, loginReply).outcome.value, servicesReply).outcome.Panic? ==>
              r == Trace(Panic, GetToken(store, loginReply).sent
                                + GetServiceId(GetToken(store, loginReply).outcome.value, servicesReply).sent)
    ensures installReply.Failed? && |r.sent| == 3 ==> r.outcome == Err(Transport(installReply.detail))
  {
    var login := GetToken(store, loginReply);
    match login.outcome
    case Panic => Trace(Panic, login.sent)
    case Err(_) => Trace(Err(BadRequest(AuthorizationFailed)), login.sent)
    case Ok(token) =>
      var lookup := GetServiceId(token, servicesReply);
      var sent := login.sent + lookup.sent;
      match lookup.outcome
      case Panic => Trace(Panic, sent)
      case Err(e) => Trace(Err(e), sent)
      case Ok(id) =>
        var request := Request(Get, InstallUrl(id), Some(token), None);
        match installReply
        case Failed(detail) => Trace(Err(Transport(detail)), sent + [request])
        case Delivered(response) => Trace(Orchestrator.ClassifyInstall(response), sent + [request])
  }

  /** Once a token and an id are obtained, the install request goes to
      `http://<orchestrator>/services/install/<id>` with the token, and the
      outcome is the classification of its reply. */
  lemma KlickInstallConfirms(store: CredentialStore.Store, loginReply: Exchange, servicesReply: Exchange, installReply: Exchange, token: string, id: string)
    requires GetToken(store, loginReply).outcome == Ok(token)
    requires GetServiceId(token, servicesReply).outcome == Ok(id)
    ensures KlickInstall(store, loginReply, servicesReply, installReply).sent
            == GetToken(store, loginReply).sent + GetServiceId(token, servicesReply).sent
               + [Request(Get, InstallUrl(id), Some(token), None)]
    ensures KlickInstall(store, loginReply, servicesReply, installReply).sent[2]
            == Request(Get, "http://" + HerpHost + "/services/install/" + id, Some(token), None)
    ensures installReply.Delivered? ==>
              KlickInstall(store, loginReply, servicesReply, installReply).outcome == Orchestrator.ClassifyInstall(installReply.json)
  {
  }

  /** An error of the service lookup is returned unchanged and no install
      request is sent. */
  lemma KlickInstallPropagatesLookupError(store: CredentialStore.Store, loginReply: Exchange, servicesReply: Exchange, installReply: Exchange, token: string, e: Error)
    requires GetToken(store, loginReply).outcome == Ok(token)
    requires GetServiceId(token, servicesReply).outcome == Err(e)
    ensures KlickInstall(store, loginReply, servicesReply, installReply) == Trace(Err(e), GetToken(store, loginReply).sent + GetServiceId(token, servicesReply).sent)
  {
  }
}
