/** JSON values as the run store holds them. */
module Json {

  datatype Value =
    | Null
    | Bool(flag: bool)
    | Int(n: int)
    | Float(r: real)
    | Text(text: string)
    | List(items: seq<Value>)
    | Object(fields: map<string, Value>)

  predicate Truthy(v: Value) {
    match v
    case Null => false
    case Bool(flag) => flag
    case Int(n) => n != 0
    case Float(r) => r != 0.0
    case Text(text) => text != ""
    case List(items) => items != []
    case Object(fields) => fields != map[]
  }

  predicate NonEmptyText(v: Value) { v.Text? && v.text != "" }
}
