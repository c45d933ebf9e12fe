/** The traffic of the plugin: requests it sends to the orchestrator, the
    replies it receives, and the replies its own endpoints give. */
module Http {
  import opened Outcomes
  import opened Json

  datatype Verb = Get | Post

  /** An outbound request: verb, full URL, the `Authorization` header if any,
      and the JSON body if any. */
  datatype Request = Request(verb: Verb, url: string, authorization: Option<string>, body: Option<Value>)

  /** What `send().await?.json::<Value>().await?` yields: either the parsed
      body, or a failure of the connection or of JSON decoding. The HTTP status
      is not part of it: the code never looks at it. */
  datatype Exchange =
    | Delivered(json: Value)
    | Failed(detail: string)

  /** What `send_json(..).await?` alone yields, as `register` uses it: the
      orchestrator answered (with any status and any body, JSON or not), or
      the request could not be sent. */
  datatype Answer =
    | Answered
    | NotSent(detail: string)

  /** An orchestrator-facing operation's result together with the requests it
      sent, in order. A request that is not in `sent` was never attempted. */
  datatype Trace<+T> = Trace(outcome: Outcome<T>, sent: seq<Request>)

  /** The reply of one of the plugin's own endpoints. `PayloadRejected` is the
      actix `web::Json` extractor refusing the body before the handler runs;
      `Refused` is a handler's own `ErrorBadRequest`. Both are client errors (4xx). */
  datatype Reply =
    | Success(body: Value)
    | Refused(message: string)
    | PayloadRejected
  {
    predicate IsClientError() { Refused? || PayloadRejected? }
  }
}
