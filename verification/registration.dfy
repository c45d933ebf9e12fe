/** Start-up registration of src/main.rs:17-41 and 67-84: the plugin posts
    its identity to the orchestrator once, and a failure to reach the
    orchestrator aborts the process. */
module Registration {
  import opened Outcomes
  import opened Json
  import opened Http
  import opened Config
  import Orchestrator
  import HerpProxy

  /** The identity the compile-time constants describe. */
  const ConfiguredService: Orchestrator.Service :=
    Orchestrator.Service(ServiceName, ServiceTitle, ServiceVersion, ServiceHost, ServiceDescription)

  /** The request `register(host, ..)` builds, as the code writes it: the
      parameter `host` is the orchestrator's address and is used both for the
      URL and for the body's `host` member. */
  function RegisterRequestAsWritten(host: string): (req: Request)
    ensures req.verb == Post && req.url == "http://" + host + "/services/register" && req.authorization.None?
    ensures req.body.Some? && req.body.value.Object?
    ensures req.body.value.fields.Keys == {"name", "host", "title", "version", "description"}
    ensures HasString(req.body.value, "host", host)
    ensures HasString(req.body.value, "name", ServiceName) && HasString(req.body.value, "title", ServiceTitle)
  {
    Request(Post, "http://" + host + "/services/register", None, Some(Object(map[
      "name" := String(ServiceName),
      "host" := String(host),
      "title" := String(ServiceTitle),
      "version" := String(ServiceVersion),
      "description" := String(ServiceDescription)])))
  }

  /** As called from `main`, the registration advertises the orchestrator's
      own address as the plugin's host, not the address the plugin listens
      on. */
  lemma RegisterAdvertisesOrchestratorHost()
    ensures HasString(RegisterRequestAsWritten(HerpHost).body.value, "host", HerpHost)
    ensures !HasString(RegisterRequestAsWritten(HerpHost).body.value, "host", ServiceHost)
  {
  }

  /** `register` (src/main.rs:67-84) as written: the answer is never read, so
      any answer counts as success, whatever its status or body; only a
      failure to send is an error. */
  function Register(host: string, answer: Answer): (r: Trace<()>)
    ensures r.sent == [RegisterRequestAsWritten(host)]
    ensures r.outcome.Ok? <==> answer.Answered?
    ensures !r.outcome.Ok? ==> r.outcome == Err(Transport(answer.detail))
  {
    match answer
    case Answered => Trace(Ok(()), [RegisterRequestAsWritten(host)])
    case NotSent(detail) => Trace(Err(Transport(detail)), [RegisterRequestAsWritten(host)])
  }

  /** The registration step of `main`: a failed registration panics, any
      answer lets start-up continue. */
  function Startup(answer: Answer): (r: Outcome<()>)
    ensures r.Ok? <==> answer.Answered?
    ensures r.Panic? <==> answer.NotSent?
  {
    match Register(HerpHost, answer).outcome
    case Ok(_) => Ok(())
    case _ => Panic
  }

  // ------------------------------------------------------------ corrected

  /** The corrected registration request: the plugin's own address as
      `host`, everything else as written. */
  function RegisterRequest(host: string): (req: Request)
    ensures req.verb == Post && req.url == "http://" + host + "/services/register"
    ensures req.body.Some? && HasString(req.body.value, "host", ServiceHost)
    ensures req.body.Some? && HasString(req.body.value, "name", ServiceName) && HasString(req.body.value, "title", ServiceTitle)
  {
    Request(Post, "http://" + host + "/services/register", None, Some(Orchestrator.ServiceToJson(ConfiguredService)))
  }

  /** The correction touches the body's `host` member and nothing else. */
  lemma CorrectionOnlyChangesHost(host: string)
    ensures RegisterRequest(host).body.value
            == Object(RegisterRequestAsWritten(host).body.value.fields["host" := String(ServiceHost)])
    ensures RegisterRequest(host).(body := None) == RegisterRequestAsWritten(host).(body := None)
  {
  }

  /** `register` sending the corrected request; same outcome as written. */
  function RegisterCorrected(host: string, answer: Answer): (r: Trace<()>)
    ensures r.sent == [RegisterRequest(host)]
    ensures r.outcome == Register(host, answer).outcome
  {
    match answer
    case Answered => Trace(Ok(()), [RegisterRequest(host)])
    case NotSent(detail) => Trace(Err(Transport(detail)), [RegisterRequest(host)])
  }

  /** The corrected registration of `main` sends exactly what the proxy's
      `register` sends for the configured service with the test endpoints. */
  lemma RegisterAgreesWithProxy(answer: Answer)
    ensures HerpProxy.Register(HerpProxy.DefaultHerp, ConfiguredService, answer) == RegisterCorrected(HerpHost, answer)
  {
  }
}
