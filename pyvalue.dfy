/**
 * The Python values that reach query parameters and the configuration data:
 * `None`, booleans, integers and strings, with the three built-ins the
 * integration applies to them: `str(v)`, truthiness and `int(v)`.
 */
module PyValue {
  import opened Wrappers
  import opened Decimal

  datatype Value = VNone | VBool(b: bool) | VInt(i: int) | VStr(s: string)

  /** `str(v)`, which is also what an f-string substitutes for `{v}`. */
  function Render(v: Value): string
  {
    match v
    case VNone => "None"
    case VBool(b) => if b then "True" else "False"
    case VInt(i) => IntToString(i)
    case VStr(s) => s
  }

  /** Python truthiness: `None`, `False`, `0` and `""` are false. */
  predicate Truthy(v: Value)
  {
    match v
    case VNone => false
    case VBool(b) => b
    case VInt(i) => i != 0
    case VStr(s) => s != ""
  }

  /** `int(v)`; `None` stands for the exception `int` raises. */
  function ToInt(v: Value): Option<int>
  {
    match v
    case VNone => None
    case VBool(b) => Some(if b then 1 else 0)
    case VInt(i) => Some(i)
    case VStr(s) => ParseInt(s)
  }

  /** An optional integer field as the value it contributes. */
  function OfInt(o: Option<int>): Value
  {
    if o.Some? then VInt(o.value) else VNone
  }

  /** An optional boolean field as the value it contributes. */
  function OfBool(o: Option<bool>): Value
  {
    if o.Some? then VBool(o.value) else VNone
  }

  /** An optional string field as the value it contributes. */
  function OfStr(o: Option<string>): Value
  {
    if o.Some? then VStr(o.value) else VNone
  }

  /** `str` and `int` agree: converting the text of a number, or the number itself, gives it back. */
  lemma ToIntOfRendered(n: int)
    ensures ToInt(VStr(Render(VInt(n)))) == Some(n)
    ensures ToInt(VInt(n)) == Some(n)
  {
    IntRoundTrip(n);
  }
}
