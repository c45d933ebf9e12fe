/** The plugin's own HTTP surface (src/main.rs:86-159): `POST /do`,
    `GET /install` and `POST /install`. A request body is `None` when the
    actix `web::Json` extractor cannot produce a value (no body, wrong
    content type, text that is not JSON); the handler then never runs. */
module Plugin {
  import opened Outcomes
  import opened Json
  import opened Http
  import CredentialStore
  import NodeSchema
  import HerpInteraction

  /** `process`: the business logic, which reflects its input. */
  function Process(input: string): (output: string)
    ensures output == input
  {
    input
  }

  /** `run`, the `POST /do` handler (src/main.rs:131-149). */
  function Run(body: Option<Value>): (r: Reply)
    ensures body.None? ==> r == PayloadRejected
    ensures r.Success? <==> body.Some? && Index(body.value, "inputField1").String?
    ensures body.Some? && !r.Success? ==> r == Refused("test error")
    ensures r.Success? ==>
              r.body.Object? && r.body.fields.Keys == {"outputField"}
              && r.body.fields["outputField"] == Index(body.value, "inputField1")
  {
    match body
    case None => PayloadRejected
    case Some(payload) =>
      match Index(payload, "inputField1")
      case String(input) => Success(Object(map["outputField" := String(Process(input))]))
      case _ => Refused("test error")
  }

  /** `run` accepts a payload exactly when it carries every input the served
      node definition declares, with the declared type, and its reply has
      exactly the declared outputs. */
  lemma RunFollowsSchema(payload: Value)
    ensures Run(Some(payload)).Success? <==> NodeSchema.SatisfiesInputs(payload, NodeSchema.MyService.inputs)
    ensures Run(Some(payload)).Success? ==>
              Run(Some(payload)).body.fields.Keys == NodeSchema.FieldNames(NodeSchema.MyService.outputs)
  {
    var inputs := NodeSchema.MyService.inputs;
    assert inputs[0].name == "inputField1" && inputs[0].fieldType == "string";
    if NodeSchema.SatisfiesInputs(payload, inputs) {
      assert NodeSchema.HasFieldType(Index(payload, inputs[0].name), inputs[0].fieldType);
    }
    var outputs := NodeSchema.MyService.outputs;
    assert outputs[0].name == "outputField";
    assert NodeSchema.FieldNames(outputs) == {"outputField"};
  }

  /** The cases exercised by the unit test of src/main.rs:241-273. */
  lemma RunExamples()
    ensures Run(Some(Object(map["inputField1" := String("value1")]))) == Success(Object(map["outputField" := String("value1")]))
    ensures Run(Some(Object(map["input" := String("value1")]))).IsClientError()
    ensures Run(Some(Object(map["inputField1" := Number(1)]))).IsClientError()
    ensures Run(None).IsClientError()
  {
  }

  /** `install_get` (src/main.rs:89-112). */
  function InstallGet(): (r: Reply)
    ensures r.Success?
    ensures NodeSchema.DescriptionFromJson(r.body) == Some([NodeSchema.MyService])
  {
    NodeSchema.DescriptionRoundTrip([NodeSchema.MyService]);
    Success(NodeSchema.DescriptionToJson([NodeSchema.MyService]))
  }

  /** The served body is the literal object of src/main.rs:91-110, the one the
      unit test of src/main.rs:212-238 expects. */
  lemma InstallGetBody()
    ensures InstallGet().body == Object(map["nodeDefinitions" := Array([Object(map[
              "name" := String("myService"),
              "label" := String("My Service Node"),
              "inputs" := Array([Object(map[
                "fieldType" := String("string"),
                "name" := String("inputField1"),
                "label" := String("String input field.")])]),
              "outputs" := Array([Object(map[
                "fieldType" := String("string"),
                "name" := String("outputField"),
                "label" := String("Output strings")])])])])])
  {
    var d := NodeSchema.MyService;
    assert NodeSchema.FieldsToJson(d.inputs) == [NodeSchema.FieldToJson(d.inputs[0])];
    assert NodeSchema.FieldsToJson(d.outputs) == [NodeSchema.FieldToJson(d.outputs[0])];
    assert NodeSchema.DefinitionsToJson([d]) == [NodeSchema.DefinitionToJson(d)];
  }

  /** A handler's reply together with the credential store after it. */
  datatype Posted = Posted(reply: Reply, store: CredentialStore.Store)

  /** `install_post` (src/main.rs:118-126): a body that deserialises to
      `Credentials` is stored, overwriting the previous pair, and answered
      with `{"test": "ok"}`; any other body is refused by the extractor and
      the store is left as it was. */
  function InstallPost(store: CredentialStore.Store, body: Option<Value>): (r: Posted)
    ensures r.reply.Success? <==> body.Some? && CredentialStore.Decode(body.value).Some?
    ensures r.reply.Success? ==>
              r.reply.body == Object(map["test" := String("ok")])
              && CredentialStore.Load(r.store) == CredentialStore.Decode(body.value).value
    ensures !r.reply.Success? ==> r.reply == PayloadRejected && r.store == store
  {
    match body
    case Some(payload) =>
      (match CredentialStore.Decode(payload)
       case Some(credentials) => Posted(Success(Object(map["test" := String("ok")])), CredentialStore.Save(store, credentials))
       case None => Posted(PayloadRejected, store))
    case None => Posted(PayloadRejected, store)
  }

  /** The cases exercised by the unit test of src/main.rs:184-207. */
  lemma InstallPostExamples(store: CredentialStore.Store)
    ensures InstallPost(store, Some(Object(map["name" := String("testname"), "password" := String("testpassword")])))
            == Posted(Success(Object(map["test" := String("ok")])), Some(CredentialStore.Credentials("testname", "testpassword")))
    ensures InstallPost(store, Some(Object(map["namedd2" := String("testname"), "password" := String("testpassword")])))
            == Posted(PayloadRejected, store)
  {
  }

  /** After the orchestrator has delivered credentials through
      `POST /install`, the next login posts exactly those credentials. */
  lemma LoginUsesInstalledCredentials(store: CredentialStore.Store, name: string, password: string, reply: Exchange)
    ensures var after := InstallPost(store, Some(Object(map["name" := String(name), "password" := String(password)])));
            var login := HerpInteraction.GetToken(after.store, reply);
            HasString(login.sent[0].body.value, "email", name) && HasString(login.sent[0].body.value, "password", password)
  {
  }
}
