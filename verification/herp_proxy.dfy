/** `Herp` (src/herp_proxy.rs): the configurable orchestrator client. The
    host and the named endpoint paths are data; the service identity is a
    parameter. Every orchestrator reply is an input `Exchange`. */
module HerpProxy {
  import opened Outcomes
  import opened Json
  import opened Http
  import CredentialStore
  import Orchestrator
  import Config
  import HerpInteraction

  /** `Herp { host, endpoints }`; `Herp::new` is this constructor. The
      endpoint table is an untyped JSON value, as in the source. */
  datatype Herp = Herp(host: string, endpoints: Value)

  /** `get_url` (src/herp_proxy.rs:28-30): `http://` + host + the endpoint's
      path; a missing or non-string entry panics at `unwrap()`. */
  function GetUrl(herp: Herp, endpoint: string): (r: Outcome<string>)
    ensures forall path :: HasString(herp.endpoints, endpoint, path) ==> r == Ok("http://" + herp.host + path)
    ensures !r.Ok? ==> r.Panic?
    ensures r.Panic? <==> forall path :: !HasString(herp.endpoints, endpoint, path)
  {
    match AsStr(Index(herp.endpoints, endpoint))
    case Some(path) =>
      assert HasString(herp.endpoints, endpoint, path);
      Ok("http://" + herp.host + path)
    case None => Panic
  }

  /** `register` (src/herp_proxy.rs:19-26): posts the serialised service to
      the `register` endpoint. The reply is never read: any answer, whatever
      its status or body, counts as success; only a failure to send is an
      error. */
  function Register(herp: Herp, service: Orchestrator.Service, answer: Answer): (r: Trace<()>)
    ensures GetUrl(herp, "register").Panic? ==> r == Trace(Panic, [])
    ensures GetUrl(herp, "register").Ok? ==>
              r.sent == [Request(Post, GetUrl(herp, "register").value, None, Some(Orchestrator.ServiceToJson(service)))]
              && (r.outcome.Ok? <==> answer.Answered?)
    ensures r.outcome.Err? ==> r.outcome.error == Transport(answer.detail)
    ensures GetUrl(herp, "register").Ok? && answer.NotSent? ==> r.outcome == Err(Transport(answer.detail))
  {
    match GetUrl(herp, "register")
    case Ok(url) =>
      var request := Request(Post, url, None, Some(Orchestrator.ServiceToJson(service)));
      (match answer
       case Answered => Trace(Ok(()), [request])
       case NotSent(detail) => Trace(Err(Transport(detail)), [request]))
    case _ => Trace(Panic, [])
  }

  /** `get_token` (src/herp_proxy.rs:32-50). The URL is built before anything
      is sent, so a missing `login` entry panics with nothing sent. */
  function GetToken(herp: Herp, store: CredentialStore.Store, reply: Exchange): (r: Trace<string>)
    ensures GetUrl(herp, "login").Panic? <==> r == Trace(Panic, [])
    ensures GetUrl(herp, "login").Ok? ==>
              |r.sent| == 1 && r.sent[0].verb == Post && r.sent[0].url == GetUrl(herp, "login").value
              && r.sent[0].body == Some(Orchestrator.LoginBody(CredentialStore.Load(store)))
              && (r.outcome.Err? <==> reply.Failed?)
    ensures GetUrl(herp, "login").Ok? && reply.Failed? ==> r.outcome == Err(Transport(reply.detail))
    ensures GetUrl(herp, "login").Ok? && reply.Delivered? ==> r.outcome == Orchestrator.ExtractToken(reply.json)
    ensures r.outcome.Ok? ==> reply.Delivered? && HasString(reply.json, "token", r.outcome.value)
  {
    match GetUrl(herp, "login")
    case Ok(url) =>
      var request := Request(Post, url, None, Some(Orchestrator.LoginBody(CredentialStore.Load(store))));
      (match reply
       case Failed(detail) => Trace(Err(Transport(detail)), [request])
       case Delivered(response) => Trace(Orchestrator.ExtractToken(response), [request]))
    case _ => Trace(Panic, [])
  }

  /** `get_service_id` (src/herp_proxy.rs:52-71), resolving by the given
      service's name and title. */
  function GetServiceId(herp: Herp, token: string, service: Orchestrator.Service, reply: Exchange): (r: Trace<string>)
    ensures GetUrl(herp, "services").Panic? <==> r == Trace(Panic, [])
    ensures GetUrl(herp, "services").Ok? ==> r.sent == [Request(Get, GetUrl(herp, "services").value, Some(token), None)]
    ensures GetUrl(herp, "services").Ok? && reply.Failed? ==> r.outcome == Err(Transport(reply.detail))
    ensures GetUrl(herp, "services").Ok? && reply.Delivered? ==>
              r.outcome == Orchestrator.ResolveServiceId(reply.json, service.name, service.title)
  {
    match GetUrl(herp, "services")
    case Ok(url) =>
      var request := Request(Get, url, Some(token), None);
      (match reply
       case Failed(detail) => Trace(Err(Transport(detail)), [request])
       case Delivered(response) => Trace(Orchestrator.ResolveServiceId(response, service.name, service.title), [request]))
    case _ => Trace(Panic, [])
  }

  /** The install URL of src/herp_proxy.rs:79: the `install` endpoint's URL
      followed by `/` and the id; a missing entry panics. */
  function InstallUrl(herp: Herp, id: string): (r: Outcome<string>)
    ensures forall path :: HasString(herp.endpoints, "install", path) ==> r == Ok("http://" + herp.host + path + "/" + id)
    ensures !r.Ok? ==> r.Panic?
    ensures r.Panic? <==> forall path :: !HasString(herp.endpoints, "install", path)
  {
    match GetUrl(herp, "install")
    case Ok(url) => Ok(url + "/" + id)
    case _ => Panic
  }

  /** `klick_install` (src/herp_proxy.rs:73-93). */
  function KlickInstall(herp: Herp, service: Orchestrator.Service, store: CredentialStore.Store,
                        loginReply: Exchange, servicesReply: Exchange, installReply: Exchange): (r: Trace<string>)
    ensures GetUrl(herp, "login").Ok? ==> (r.outcome == Err(BadRequest(AuthorizationFailed)) <==> loginReply.Failed?)
    ensures loginReply.Failed? ==> |r.sent| <= 1
    ensures r.outcome.Ok? ==> installReply == Delivered(String(r.outcome.value)) && |r.sent| == 3
    ensures |r.sent| == 3 ==> r.sent[2].verb == Get && r.sent[2].authorization == r.sent[1].authorization
    ensures |r.sent| <= 3
    ensures |GetToken(herp, store, loginReply).sent| <= |r.sent|
            && r.sent[..|GetToken(herp, store, loginReply).sent|] == GetToken(herp, store, loginReply).sent
    ensures GetToken(herp, store, loginReply).outcome.Panic? ==> r == Trace(Panic, GetToken(herp, store, loginReply).sent)
    ensures GetToken(herp, store, loginReply).outcome.Ok?
            && GetServiceId(herp, GetToken(herp, store, loginReply).outcome.value, service, servicesReply).outcome.Panic? ==>
              r == Trace(Panic, GetToken(herp, store, loginReply).sent
                                + GetServiceId(herp, GetToken(herp, store, loginReply).outcome.value, service, servicesReply).sent)
    ensures installReply.Failed? && |r.sent| == 3 ==> r.outcome == Err(Transport(installReply.detail))
  {
    var login := GetToken(herp, store, loginReply);
    match login.outcome
    case Panic => Trace(Panic, login.sent)
    case Err(_) => Trace(Err(BadRequest(AuthorizationFailed)), login.sent)
    case Ok(token) =>
      var lookup := GetServiceId(herp, token, service, servicesReply);
      var sent := login.sent + lookup.sent;
      match lookup.outcome
      case Panic => Trace(Panic, sent)
      case Err(e) => Trace(Err(e), sent)
      case Ok(id) =>
        match InstallUrl(herp, id)
        case Ok(url) =>
          (var request := Request(Get, url, Some(token), None);
           match installReply
           case Failed(detail) => Trace(Err(Transport(detail)), sent + [request])
           case Delivered(response) => Trace(Orchestrator.ClassifyInstall(response), sent + [request]))
        case _ => Trace(Panic, sent)
  }

  /** Once a token and an id are obtained, the install request is a GET of
      the `install` endpoint's URL followed by `/` and the id, carrying the
      token, and the outcome is the classification of its reply. */
  lemma KlickInstallConfirms(herp: Herp, service: Orchestrator.Service, store: CredentialStore.Store,
                             loginReply: Exchange, servicesReply: Exchange, installReply: Exchange,
                             token: string, id: string, path: string)
    requires GetToken(herp, store, loginReply).outcome == Ok(token)
    requires GetServiceId(herp, token, service, servicesReply).outcome == Ok(id)
    requires HasString(herp.endpoints, "install", path)
    ensures KlickInstall(herp, service, store, loginReply, servicesReply, installReply).sent
            == GetToken(herp, store, loginReply).sent + GetServiceId(herp, token, service, servicesReply).sent
               + [Request(Get, "http://" + herp.host + path + "/" + id, Some(token), None)]
    ensures KlickInstall(herp, service, store, loginReply, servicesReply, installReply).sent[2]
            == Request(Get, "http://" + herp.host + path + "/" + id, Some(token), None)
    ensures installReply.Delivered? ==>
              KlickInstall(herp, service, store, loginReply, servicesReply, installReply).outcome
              == Orchestrator.ClassifyInstall(installReply.json)
  {
  }

  /** The install URL is built only once the id is known: a missing or
      non-string `install` entry panics after the login and the lookup were
      sent, and before any install request. */
  lemma KlickInstallWithoutInstallEntry(herp: Herp, service: Orchestrator.Service, store: CredentialStore.Store,
                                        loginReply: Exchange, servicesReply: Exchange, installReply: Exchange,
                                        token: string, id: string)
    requires GetToken(herp, store, loginReply).outcome == Ok(token)
    requires GetServiceId(herp, token, service, servicesReply).outcome == Ok(id)
    requires forall path :: !HasString(herp.endpoints, "install", path)
    ensures KlickInstall(herp, service, store, loginReply, servicesReply, installReply)
            == Trace(Panic, GetToken(herp, store, loginReply).sent + GetServiceId(herp, token, service, servicesReply).sent)
    ensures |KlickInstall(herp, service, store, loginReply, servicesReply, installReply).sent| == 2
  {
  }

  /** An error of the service lookup is returned unchanged and no install
      request is sent. */
  lemma KlickInstallPropagatesLookupError(herp: Herp, service: Orchestrator.Service, store: CredentialStore.Store,
                                          loginReply: Exchange, servicesReply: Exchange, installReply: Exchange,
                                          token: string, e: Error)
    requires GetToken(herp, store, loginReply).outcome == Ok(token)
    requires GetServiceId(herp, token, service, servicesReply).outcome == Err(e)
    ensures KlickInstall(herp, service, store, loginReply, servicesReply, installReply)
            == Trace(Err(e), GetToken(herp, store, loginReply).sent + GetServiceId(herp, token, service, servicesReply).sent)
  {
  }

  /** The client configuration of the test module (src/herp_proxy.rs:101-111). */
  const DefaultHerp: Herp := Herp(Config.HerpHost, Object(map[
    "register" := String("/services/register"),
    "login" := String("/users/login"),
    "install" := String("/services/install"),
    "services" := String("/content/system/service")]))

  lemma DefaultUrls()
    ensures GetUrl(DefaultHerp, "register") == Ok("http://" + Config.HerpHost + "/services/register")
    ensures GetUrl(DefaultHerp, "login") == Ok(HerpInteraction.LoginUrl)
    ensures GetUrl(DefaultHerp, "services") == Ok(HerpInteraction.ServicesUrl)
    ensures forall id :: InstallUrl(DefaultHerp, id) == Ok(HerpInteraction.InstallUrl(id))
  {
    assert HasString(DefaultHerp.endpoints, "register", "/services/register");
    assert HasString(DefaultHerp.endpoints, "login", "/users/login");
    assert HasString(DefaultHerp.endpoints, "services", "/content/system/service");
    assert HasString(DefaultHerp.endpoints, "install", "/services/install");
    forall id
      ensures InstallUrl(DefaultHerp, id) == Ok(HerpInteraction.InstallUrl(id))
    {
      var prefix := "http://" + Config.HerpHost;
      calc {
        prefix + "/services/install" + "/" + id;
        prefix + ("/services/install" + "/") + id;
        { assert "/services/install" + "/" == "/services/install/"; }
        prefix + "/services/install/" + id;
      }
    }
  }

  /** Configured with the test endpoints and given a service carrying the
      compile-time name and title, the proxy behaves exactly like the inline
      copy of src/main.rs: same outcome, same requests, for every credential
      store and every orchestrator reply. */
  lemma {:induction false} ProxyAgreesWithInlineCopy(service: Orchestrator.Service, store: CredentialStore.Store,
                                                     loginReply: Exchange, servicesReply: Exchange, installReply: Exchange)
    requires service.name == Config.ServiceName && service.title == Config.ServiceTitle
    ensures KlickInstall(DefaultHerp, service, store, loginReply, servicesReply, installReply)
         == HerpInteraction.KlickInstall(store, loginReply, servicesReply, installReply)
  {
    DefaultUrls();
  }
}
