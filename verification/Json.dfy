/** JSON values, and the pair of functions that print and parse them. */
module Json {
  import opened Wrappers
  import opened Base64Url
  import opened Decimal

  /** Numbers are kept apart as the library does: unsigned integers, integers below zero, and floating-point numbers. */
  datatype Value =
    | Null
    | Truth(truth: bool)
    | Text(text: string)
    | Unsigned(number: nat)
    | Negative(magnitude: nat)
    | Floating(value: real)
    | List(items: seq<Value>)
    | Object(members: map<string, Value>)

  /**
   A JSON library: `dump` prints a value as bytes, `parse` reads one or fails.
   `outOfRange` is what the platform makes of a floating-point number that does
   not fit when it is converted to 64 bits.
   */
  datatype Library = Library(dump: Value -> seq<byte>, parse: seq<byte> -> Option<Value>, outOfRange: real -> nat)

  /** An object of texts and unsigned integers. */
  predicate IsFlat(v: Value) {
    v.Object? && forall name :: name in v.members ==> v.members[name].Text? || v.members[name].Unsigned?
  }

  /** What is assumed of the library: parsing undoes printing, for the objects the server prints. */
  ghost predicate Lawful(json: Library) {
    forall v {:trigger json.dump(v)} :: IsFlat(v) ==> json.parse(json.dump(v)) == Some(v)
  }

  /** A number as a 64-bit unsigned integer, by the conversion of the language; an exception for anything else. */
  function ToUint64(json: Library, v: Value): Option<nat> {
    match v
    case Unsigned(n) => Some(n)
    case Negative(m) => Some((TWO_64 - m % TWO_64) % TWO_64)
    case Floating(r) =>
      if 0.0 <= r < TWO_64 as real then Some(r.Floor)
      else if -1.0 < r < 0.0 then Some(0)
      else Some(json.outOfRange(r))
    case _ => None
  }

  predicate Contains(v: Value, name: string) {
    v.Object? && name in v.members
  }
}
