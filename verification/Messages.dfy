/** JSON values and JSON-RPC messages, as far as the outbound relay reads them. */
module Messages {
  import opened Wrappers

  const U64_MAX: nat := 0xFFFF_FFFF_FFFF_FFFF

  /** A JSON value; `Natural` is a non-negative integer, `Number` any other number. */
  datatype Json =
    | Null
    | Boolean(flag: bool)
    | Natural(n: nat)
    | Number(digits: string)
    | Text(text: string)
    | Array(items: seq<Json>)
    | Object(fields: Fields)

  type Fields = map<string, Json>

  datatype Params = Named(fields: Fields) | Positional(items: seq<Json>)

  /** One transport frame: a single message, or a JSON-RPC batch, which the relay never opens. */
  datatype Message =
    | Request(id: Json, action: string, params: Option<Params>)
    | Notification(action: string, params: Option<Params>)
    | Response(id: Json, outcome: Json)
    | Batch(messages: seq<Message>)

  const NAMESPACE := "clawcode"

  function At(fields: Fields, key: string): Option<Json> {
    if key in fields then Some(fields[key]) else None
  }

  function TextAt(fields: Fields, key: string): Option<string> {
    if key in fields && fields[key].Text? then Some(fields[key].text) else None
  }

  function ObjectAt(fields: Fields, key: string): Option<Fields> {
    if key in fields && fields[key].Object? then Some(fields[key].fields) else None
  }

  function U64At(fields: Fields, key: string): Option<nat> {
    if key in fields && fields[key].Natural? && fields[key].n <= U64_MAX then Some(fields[key].n) else None
  }

  /** The named parameters of a `session/update` notification. */
  function UpdateParams(message: Message): Option<Fields> {
    if message.Notification? && message.action == "session/update" && message.params.Some? && message.params.value.Named?
    then Some(message.params.value.fields) else None
  }

  // ---------------------------------------------------------------- paths

  /** What a path of object keys leads to. */
  function Lookup(value: Json, path: seq<string>): Option<Json> {
    if path == [] then Some(value)
    else if value.Object? && path[0] in value.fields then Lookup(value.fields[path[0]], path[1..])
    else None
  }

  /** A field of a `session/update` notification, by its path in the parameters. */
  function FieldAt(message: Message, path: seq<string>): Option<Json> {
    if UpdateParams(message).Some? then Lookup(Object(UpdateParams(message).value), path) else None
  }

  function Enter(value: Option<Json>, key: string): Option<Json> {
    if value.Some? && value.value.Object? then At(value.value.fields, key) else None
  }

  lemma {:induction false} LookupLast(value: Json, path: seq<string>, key: string)
    ensures Lookup(value, path + [key]) == Enter(Lookup(value, path), key)
  {
    if path == [] {
      assert [] + [key] == [key] && [key][1..] == [];
    } else {
      assert (path + [key])[1..] == path[1..] + [key];
      if value.Object? && path[0] in value.fields {
        LookupLast(value.fields[path[0]], path[1..], key);
      }
    }
  }

  /** A field is found by entering one key after the other. */
  lemma FieldLast(message: Message, path: seq<string>, key: string)
    ensures FieldAt(message, path + [key]) == Enter(FieldAt(message, path), key)
  {
    if UpdateParams(message).Some? {
      LookupLast(Object(UpdateParams(message).value), path, key);
    }
  }
}
