/** The dynamically typed PHP values that ORM fields and enumerations hold. */
module PhpValue {
  import opened Wrappers
  import Text

  datatype Value =
    | Null
    | Bool(b: bool)
    | Int(i: int)
    | Str(s: string)
    | List(items: seq<Value>)
      /** an instance of \Leap\Core\DB\SQL\Expression: raw SQL kept verbatim */
    | Expression(sql: string)
      /** an instance of \Leap\Core\Data\ByteString built from `data` with
          ByteString::HEXADECIMAL_DATA */
    | ByteString(data: string)
      /** any other object, known by its class name */
    | Object(className: string)

  /** PHP's (bool) cast. */
  function Truthy(v: Value): (r: bool)
    ensures v.Null? ==> !r
    ensures v.Bool? ==> r == v.b
    ensures v.Str? ==> (r <==> v.s != "" && v.s != "0")
  {
    match v
    case Null => false
    case Bool(b) => b
    case Int(i) => i != 0
    case Str(s) => s != "" && s != "0"
    case List(items) => |items| > 0
    case _ => true
  }

  /** PHP's string conversion ('' . $v) for the values whose conversion does not
      depend on a class this model does not see; None for objects. */
  function StringForm(v: Value): (r: Option<string>)
    ensures v.Str? ==> r == Some(v.s)
    ensures v.Null? ==> r == Some("")
    ensures v.Int? ==> r.Some? && |r.value| > 0
  {
    match v
    case Null => Some("")
    case Bool(b) => Some(if b then "1" else "")
    case Int(i) => Some(Text.IntString(i))
    case Str(s) => Some(s)
    case List(_) => Some("Array")
    case _ => None
  }

  /** PHP's (string) cast as a value: the string form where it is known; an
      object, whose conversion runs its own __toString, is kept as it is. */
  function StringCast(v: Value): (r: Value)
    ensures StringForm(v).Some? ==> r == Str(StringForm(v).value)
    ensures v.Str? ==> r == v
  {
    match StringForm(v)
    case Some(s) => Str(s)
    case None => v
  }
}
