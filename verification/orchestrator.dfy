/** The decisions the plugin takes over the orchestrator's JSON replies. Both
    copies of the client (the `herp_interaction` module of src/main.rs and
    `Herp` in src/herp_proxy.rs) make exactly these decisions; they differ
    only in where URLs and the service identity come from. */
module Orchestrator {
  import opened Outcomes
  import opened Json
  import CredentialStore

  /** The plugin's identity as sent to the orchestrator. The Rust type
      `Service` lives outside the two files; its fields are those the
      registration body of src/main.rs:69-76 lists. */
  datatype Service = Service(name: string, title: string, version: string, host: string, description: string)

  /** `#[derive(Serialize)]` of `Service`. */
  function ServiceToJson(s: Service): Value
  {
    Object(map[
      "name" := String(s.name),
      "host" := String(s.host),
      "title" := String(s.title),
      "version" := String(s.version),
      "description" := String(s.description)])
  }

  // ---------------------------------------------------------------- login

  /** The login body `{"email": name, "password": password}`. */
  function LoginBody(c: CredentialStore.Credentials): (body: Value)
    ensures body.Object? && body.fields.Keys == {"email", "password"}
    ensures HasString(body, "email", c.name) && HasString(body, "password", c.password)
  {
    Object(map["email" := String(c.name), "password" := String(c.password)])
  }

  /** `response["token"].as_str().unwrap()`: a reply without a string `token`
      member panics; there is no error path. */
  function ExtractToken(response: Value): (r: Outcome<string>)
    ensures r.Ok? ==> HasString(response, "token", r.value)
    ensures !r.Ok? ==> r.Panic?
    ensures r.Panic? <==> forall t :: !HasString(response, "token", t)
  {
    match AsStr(Index(response, "token"))
    case Some(token) => Ok(token)
    case None => Panic
  }

  /** Whatever else the reply holds, a string `token` member is the token. */
  lemma ExtractTokenFromReply(fields: map<string, Value>, token: string)
    ensures ExtractToken(Object(fields["token" := String(token)])) == Ok(token)
  {
  }

  // ------------------------------------------------------- service lookup

  /** The filter of src/herp_proxy.rs:65-67: `name` and `title` both read as
      the expected strings through `as_str()`. */
  predicate Matches(record: Value, name: string, title: string)
  {
    AsStr(Index(record, "name")) == Some(name) && AsStr(Index(record, "title")) == Some(title)
  }

  /** A record whose `name` or `title` is missing, or is not a string, is
      never selected, whatever it is compared with; one that has both as the
      expected strings always is. */
  lemma MatchesExactly(record: Value, name: string, title: string)
    ensures Matches(record, name, title) <==> HasString(record, "name", name) && HasString(record, "title", title)
    ensures !Index(record, "name").String? ==> !Matches(record, name, title)
    ensures !Index(record, "title").String? ==> !Matches(record, name, title)
  {
  }

  /** Position `i` holds the first matching record. */
  ghost predicate IsFirstMatch(records: seq<Value>, i: int, name: string, title: string)
  {
    0 <= i < |records| && Matches(records[i], name, title)
    && forall j :: 0 <= j < i ==> !Matches(records[j], name, title)
  }

  /** `array.iter().filter(..).next()`, as a position: the first matching
      record in array order, or `None` when no record matches. */
  function FirstMatch(records: seq<Value>, name: string, title: string): (r: Option<nat>)
    ensures r.Some? ==> IsFirstMatch(records, r.value, name, title)
    ensures r.None? <==> forall j :: 0 <= j < |records| ==> !Matches(records[j], name, title)
  {
    if |records| == 0 then None
    else if Matches(records[0], name, title) then Some(0)
    else
      match FirstMatch(records[1..], name, title)
      case None => None
      case Some(k) => Some(k + 1)
  }

  /** The lookup over the reply of the services endpoint
      (src/herp_proxy.rs:62-70, src/main.rs:316-324): a non-array `data`
      (a missing one included) is the error "Service not found."; in an array,
      the first matching record's `_id` string is the id; no matching record,
      or an `_id` that is not a string, hits an `unwrap()` and panics. */
  function ResolveServiceId(response: Value, name: string, title: string): (r: Outcome<string>)
    ensures r.Err? <==> !Index(response, "data").Array?
    ensures r.Err? ==> r.error == BadRequest(ServiceNotFound)
    ensures r.Ok? ==> exists i :: IsFirstMatch(Index(response, "data").items, i, name, title)
                              && HasString(Index(response, "data").items[i], "_id", r.value)
    ensures Index(response, "data").Array? ==>
              (r.Panic? <==> forall i :: IsFirstMatch(Index(response, "data").items, i, name, title)
                                         ==> !Index(Index(response, "data").items[i], "_id").String?)
  {
    match Index(response, "data")
    case Array(records) =>
      (match FirstMatch(records, name, title)
       case None => Panic
       case Some(i) =>
         match AsStr(Index(records[i], "_id"))
         case Some(id) => Ok(id)
         case None => Panic)
    case _ => Err(BadRequest(ServiceNotFound))
  }

  /** With several matching records, the first in array order wins. */
  lemma ResolvePicksFirstOfDuplicates(records: seq<Value>, i: nat, j: nat, name: string, title: string, id: string)
    requires i < j < |records|
    requires Matches(records[i], name, title) && Matches(records[j], name, title)
    requires forall k :: 0 <= k < i ==> !Matches(records[k], name, title)
    requires HasString(records[i], "_id", id)
    ensures ResolveServiceId(Object(map["data" := Array(records)]), name, title) == Ok(id)
  {
  }

  /** A reply without `data` is "Service not found.", not a panic. */
  lemma ResolveWithoutData(fields: map<string, Value>, name: string, title: string)
    requires "data" !in fields
    ensures ResolveServiceId(Object(fields), name, title) == Err(BadRequest(ServiceNotFound))
  {
  }

  /** An array with no matching record panics instead of reporting "Service
      not found.". */
  lemma ResolveNoMatchPanics(records: seq<Value>, name: string, title: string)
    requires forall j :: 0 <= j < |records| ==> !Matches(records[j], name, title)
    ensures ResolveServiceId(Object(map["data" := Array(records)]), name, title) == Panic
  {
  }

  // ------------------------------------------------- install confirmation

  /** `match response.as_str()`: a bare JSON string is the confirmation, any
      other value is "Installaton rejected.". */
  function ClassifyInstall(response: Value): (r: Outcome<string>)
    ensures r.Ok? <==> response.String?
    ensures r.Ok? ==> response == String(r.value)
    ensures !r.Ok? ==> r == Err(BadRequest(InstallationRejected))
  {
    match AsStr(response)
    case Some(value) => Ok(value)
    case None => Err(BadRequest(InstallationRejected))
  }
}
