/** Decoded Kubernetes manifests, as the untyped maps the gate works on. */
module Manifests {
  import opened Results

  /** What the gate reads of a parsed resource quantity: its value in thousandths and in whole
      units, both already rounded by the quantity library. */
  datatype Quantity = Quantity(milliValue: int, value: int)

  /** A string, paired with what the quantity library makes of it. */
  datatype Text = Text(s: string, quantity: Option<Quantity>)

  datatype Value =
    | Null
    | Bool(b: bool)
    | Int(n: int)
    | Float(truncated: int, quantity: Option<Quantity>)
    | Str(text: Text)
    | List(items: seq<Value>)
    | Map(fields: map<string, Value>)

  type Object = map<string, Value>

  function Field(fields: map<string, Value>, key: string): Value {
    if key in fields then fields[key] else Null
  }

  /** A type assertion that fails yields the zero value: "", an empty map, an empty list. */
  function AsText(v: Value): string {
    if v.Str? then v.text.s else ""
  }

  function AsMap(v: Value): map<string, Value> {
    if v.Map? then v.fields else map[]
  }

  function AsList(v: Value): seq<Value> {
    if v.List? then v.items else []
  }

  function IntOr(v: Value, def: int): int {
    match v
    case Int(n) => n
    case Float(t, _) => t
    case _ => def
  }

  function ParseQuantity(v: Value): Option<Quantity> {
    match v
    case Str(t) => t.quantity
    case Int(n) => Some(Quantity(1000 * n, n))
    case Float(_, q) => q
    case _ => None
  }

  function KindOf(obj: Object): string {
    AsText(Field(obj, "kind"))
  }

  function NameOf(obj: Object): string {
    AsText(Field(AsMap(Field(obj, "metadata")), "name"))
  }

  function NamespaceOf(obj: Object): string {
    AsText(Field(AsMap(Field(obj, "metadata")), "namespace"))
  }

  function SpecOf(obj: Object): map<string, Value> {
    AsMap(Field(obj, "spec"))
  }
}
