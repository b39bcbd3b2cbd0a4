/**
 * The parsed JSON tree the protocol works on, with the handful of node
 * queries the server uses (`has`, `get`, `isTextual`, `asText`, ...).
 * Integer literals and other numbers are kept apart because the protocol
 * distinguishes `isInt` from `isNumber`.
 */
module JsonTree {

  datatype Json =
    | JNull
    | JBool(b: bool)
    | JInt(i: int)        // an integer literal, of any size
    | JNum(r: real)       // a literal with a fraction or an exponent
    | JStr(s: string)
    | JArr(items: seq<Json>)
    | JObj(fields: map<string, Json>)

  /** Bounds of a Java `int`: an integer literal outside them is not `isInt`. */
  const IntMin: int := -0x8000_0000
  const IntMax: int := 0x7fff_ffff

  /** `node.has(k)`: only objects have fields; a field holding JSON null is present. */
  predicate Has(j: Json, k: string)
  {
    j.JObj? && k in j.fields
  }

  predicate IsNull(j: Json) { j.JNull? }
  predicate IsTextual(j: Json) { j.JStr? }
  predicate IsBoolean(j: Json) { j.JBool? }
  predicate IsNumber(j: Json) { j.JInt? || j.JNum? }
  predicate IsInt(j: Json) { j.JInt? && IntMin <= j.i <= IntMax }
  predicate IsObject(j: Json) { j.JObj? }
  predicate IsArray(j: Json) { j.JArr? }

  function DigitChar(d: nat): char
    requires d < 10
  {
    "0123456789"[d]
  }

  function NatToString(n: nat): (r: string)
    ensures |r| >= 1
  {
    if n < 10 then [DigitChar(n)] else NatToString(n / 10) + [DigitChar(n % 10)]
  }

  /** `node.asText()`: the text of a string node, the literal text of a scalar, "" for containers. */
  function AsText(j: Json): string
  {
    match j
    case JNull => "null"
    case JBool(b) => if b then "true" else "false"
    case JInt(i) => if i < 0 then "-" + NatToString(-i) else NatToString(i)
    case JNum(_) => ""
    case JStr(s) => s
    case JArr(_) => ""
    case JObj(_) => ""
  }

  /** `node.asDouble()`: numbers as themselves, booleans as 1 or 0, everything else 0. */
  function AsDouble(j: Json): (r: real)
    ensures IsNumber(j) ==> r == (if j.JInt? then j.i as real else j.r)
    ensures !IsNumber(j) ==> r == 0.0 || r == 1.0
  {
    match j
    case JInt(i) => i as real
    case JNum(r) => r
    case JBool(b) => if b then 1.0 else 0.0
    case _ => 0.0
  }
}
