/** The node definition served by `GET /install` (src/main.rs:89-112), as
    data, with its JSON form and a reader for that form. */
module NodeSchema {
  import opened Outcomes
  import opened Json

  datatype FieldDescriptor = FieldDescriptor(fieldType: string, name: string, labelText: string)

  datatype NodeDefinition = NodeDefinition(name: string, labelText: string, inputs: seq<FieldDescriptor>, outputs: seq<FieldDescriptor>)

  /** The single node of this plugin: one string input `inputField1`, one
      string output `outputField`. */
  const MyService: NodeDefinition := NodeDefinition(
    "myService", "My Service Node",
    [FieldDescriptor("string", "inputField1", "String input field.")],
    [FieldDescriptor("string", "outputField", "Output strings")])

  function FieldToJson(f: FieldDescriptor): Value
  {
    Object(map["fieldType" := String(f.fieldType), "name" := String(f.name), "label" := String(f.labelText)])
  }

  function FieldsToJson(fs: seq<FieldDescriptor>): (js: seq<Value>)
    ensures |js| == |fs|
  {
    if |fs| == 0 then [] else [FieldToJson(fs[0])] + FieldsToJson(fs[1..])
  }

  function DefinitionToJson(d: NodeDefinition): Value
  {
    Object(map[
      "name" := String(d.name),
      "label" := String(d.labelText),
      "inputs" := Array(FieldsToJson(d.inputs)),
      "outputs" := Array(FieldsToJson(d.outputs))])
  }

  function DefinitionsToJson(ds: seq<NodeDefinition>): (js: seq<Value>)
    ensures |js| == |ds|
  {
    if |ds| == 0 then [] else [DefinitionToJson(ds[0])] + DefinitionsToJson(ds[1..])
  }

  /** The body of `GET /install`: `{"nodeDefinitions": [...]}`. */
  function DescriptionToJson(ds: seq<NodeDefinition>): Value
  {
    Object(map["nodeDefinitions" := Array(DefinitionsToJson(ds))])
  }

  // ------------------------------------------------------------- reading

  function FieldFromJson(v: Value): Option<FieldDescriptor>
  {
    match (AsStr(Index(v, "fieldType")), AsStr(Index(v, "name")), AsStr(Index(v, "label")))
    case (Some(t), Some(n), Some(l)) => Some(FieldDescriptor(t, n, l))
    case _ => None
  }

  function FieldsFromJson(js: seq<Value>): Option<seq<FieldDescriptor>>
  {
    if |js| == 0 then Some([])
    else
      match (FieldFromJson(js[0]), FieldsFromJson(js[1..]))
      case (Some(f), Some(rest)) => Some([f] + rest)
      case _ => None
  }

  function DefinitionFromJson(v: Value): Option<NodeDefinition>
  {
    match (AsStr(Index(v, "name")), AsStr(Index(v, "label")), Index(v, "inputs"), Index(v, "outputs"))
    case (Some(n), Some(l), Array(ins), Array(outs)) =>
      (match (FieldsFromJson(ins), FieldsFromJson(outs))
       case (Some(i), Some(o)) => Some(NodeDefinition(n, l, i, o))
       case _ => None)
    case _ => None
  }

  function DefinitionsFromJson(js: seq<Value>): Option<seq<NodeDefinition>>
  {
    if |js| == 0 then Some([])
    else
      match (DefinitionFromJson(js[0]), DefinitionsFromJson(js[1..]))
      case (Some(d), Some(rest)) => Some([d] + rest)
      case _ => None
  }

  /** A reader for the served form, defined here (the plugin has none) so
      that the round-trip lemmas below can state that the JSON form of a
      description loses nothing. */
  function DescriptionFromJson(v: Value): Option<seq<NodeDefinition>>
  {
    match Index(v, "nodeDefinitions")
    case Array(js) => DefinitionsFromJson(js)
    case _ => None
  }

  // ---------------------------------------------------------- round trip

  lemma FieldRoundTrip(f: FieldDescriptor)
    ensures FieldFromJson(FieldToJson(f)) == Some(f)
  {
  }

  lemma {:induction false} FieldsRoundTrip(fs: seq<FieldDescriptor>)
    ensures FieldsFromJson(FieldsToJson(fs)) == Some(fs)
  {
    if |fs| > 0 {
      var js := FieldsToJson(fs);
      assert js[0] == FieldToJson(fs[0]) && js[1..] == FieldsToJson(fs[1..]);
      FieldRoundTrip(fs[0]);
      FieldsRoundTrip(fs[1..]);
      assert [fs[0]] + fs[1..] == fs;
    }
  }

  lemma DefinitionRoundTrip(d: NodeDefinition)
    ensures DefinitionFromJson(DefinitionToJson(d)) == Some(d)
  {
    FieldsRoundTrip(d.inputs);
    FieldsRoundTrip(d.outputs);
  }

  lemma {:induction false} DefinitionsRoundTrip(ds: seq<NodeDefinition>)
    ensures DefinitionsFromJson(DefinitionsToJson(ds)) == Some(ds)
  {
    if |ds| > 0 {
      var js := DefinitionsToJson(ds);
      assert js[0] == DefinitionToJson(ds[0]) && js[1..] == DefinitionsToJson(ds[1..]);
      DefinitionRoundTrip(ds[0]);
      DefinitionsRoundTrip(ds[1..]);
      assert [ds[0]] + ds[1..] == ds;
    }
  }

  /** Reading a served description gives back exactly the definitions served. */
  lemma DescriptionRoundTrip(ds: seq<NodeDefinition>)
    ensures DescriptionFromJson(DescriptionToJson(ds)) == Some(ds)
  {
    DefinitionsRoundTrip(ds);
  }

  // ------------------------------------------------ inputs and outputs

  /** A payload value has a declared field type. Only `"string"` is declared
      anywhere in the plugin. */
  predicate HasFieldType(v: Value, fieldType: string)
  {
    fieldType == "string" && v.String?
  }

  /** Every declared input is present in the payload with its declared type. */
  predicate SatisfiesInputs(payload: Value, inputs: seq<FieldDescriptor>)
  {
    forall i :: 0 <= i < |inputs| ==> HasFieldType(Index(payload, inputs[i].name), inputs[i].fieldType)
  }

  function FieldNames(fs: seq<FieldDescriptor>): set<string>
  {
    set i | 0 <= i < |fs| :: fs[i].name
  }
}
