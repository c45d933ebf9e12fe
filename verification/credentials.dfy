/** `Credentials` (src/main.rs:44-65): the name and password the orchestrator
    hands over on installation, kept in a single persisted slot. */
module CredentialStore {
  import opened Outcomes
  import opened Json

  datatype Credentials = Credentials(name: string, password: string)

  /** `Credentials::default()`: the placeholder used until the orchestrator has
      supplied a real pair. */
  const Default: Credentials := Credentials("your-email@example.com", "admin")

  /** The confy file: `None` until something was stored. */
  type Store = Option<Credentials>

  /** `Credentials::load()`. */
  function Load(store: Store): (c: Credentials)
    ensures store.None? ==> c == Default
    ensures store.Some? ==> c == store.value
  {
    match store
    case None => Default
    case Some(stored) => stored
  }

  /** `credentials.store()`: overwrites the single slot. */
  function Save(store: Store, c: Credentials): (after: Store)
    ensures after.Some? && after.value == c
  {
    Some(c)
  }

  /** Storing then loading gives back what was stored, whatever was there. */
  lemma LoadAfterSave(store: Store, c: Credentials)
    ensures Load(Save(store, c)) == c
  {
  }

  /** Only the last write is visible. */
  lemma LastWriteWins(store: Store, first: Credentials, second: Credentials)
    ensures Load(Save(Save(store, first), second)) == second
    ensures Save(Save(store, first), second) == Save(store, second)
  {
  }

  /** `#[derive(Serialize)]`: an object with the two fields. */
  function Encode(c: Credentials): Value
  {
    Object(map["name" := String(c.name), "password" := String(c.password)])
  }

  /** `#[derive(Deserialize)]` through serde_json: an object whose `name` and
      `password` members are strings (other members are ignored), or an array
      of exactly two strings taken in field order. Anything else is refused. */
  function Decode(v: Value): (r: Option<Credentials>)
    ensures r.Some? && v.Object? ==> HasString(v, "name", r.value.name) && HasString(v, "password", r.value.password)
    ensures v.Object? ==> (r.Some? <==> Index(v, "name").String? && Index(v, "password").String?)
    ensures r.Some? ==> v.Object? || v == Array([String(r.value.name), String(r.value.password)])
    ensures v.Array? && |v.items| == 2 && v.items[0].String? && v.items[1].String? ==>
              r == Some(Credentials(v.items[0].s, v.items[1].s))
  {
    match v
    case Object(fields) =>
      if "name" in fields && fields["name"].String? && "password" in fields && fields["password"].String?
      then Some(Credentials(fields["name"].s, fields["password"].s))
      else None
    case Array(items) =>
      if |items| == 2 && items[0].String? && items[1].String?
      then Some(Credentials(items[0].s, items[1].s))
      else None
    case _ => None
  }

  /** What is serialised is read back unchanged. */
  lemma DecodeEncode(c: Credentials)
    ensures Decode(Encode(c)) == Some(c)
  {
  }

  /** Unknown members are ignored: adding any member other than `name` and
      `password` does not change the decoded value. */
  lemma DecodeIgnoresOtherMembers(fields: map<string, Value>, key: string, extra: Value)
    requires key != "name" && key != "password"
    ensures Decode(Object(fields[key := extra])) == Decode(Object(fields))
  {
  }
}
