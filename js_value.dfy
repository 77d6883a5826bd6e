/** JavaScript values as they reach the ingestion handler after JSON parsing,
    abstracted to the distinctions the handler's guards make: which values are
    numbers (and NaN or not), which are truthy, and what `x?.key` yields. */
module JsValues {

  /** A JavaScript number. Only the NaN / non-NaN and zero / non-zero
      distinctions matter to the handler; `+0` and `-0` are both `Finite(0.0)`. */
  datatype JsNumber = Finite(value: real) | PosInfinity | NegInfinity | NaN

  /** A JavaScript value. `Undefined` also stands for a field the report lacks. */
  datatype JsValue =
    | Undefined
    | Null
    | Bool(b: bool)
    | Number(n: JsNumber)
    | Str(s: string)
    | Array(elements: seq<JsValue>)
    | Object(properties: map<string, JsValue>)

  /** The number 1, the value the geo gauge records. */
  const One: JsValue := Number(Finite(1.0))

  /** JavaScript truthiness, as used by `if (x)`: `undefined`, `null`, `false`,
      `0`, `-0`, `NaN` and `""` are falsy; every other value, the infinities,
      arrays and objects included, is truthy. */
  predicate Truthy(v: JsValue) {
    match v
    case Undefined => false
    case Null => false
    case Bool(b) => b
    case Number(n) => !n.NaN? && n != Finite(0.0)
    case Str(s) => s != ""
    case Array(_) => true
    case Object(_) => true
  }

  /** The guard `typeof v === 'number' && !isNaN(v)`. Only NaN is excluded,
      so both infinities pass. */
  predicate IsNumberNotNaN(v: JsValue) {
    v.Number? && !v.n.NaN?
  }

  /** Optional chaining `v?.key`: `undefined` when `v` is `undefined` or `null`,
      the own property when `v` is an object that has it, and otherwise
      `undefined`. No primitive or array carries a property named `region`,
      `bs` or `mtp`, the only keys the handler reads this way. */
  function OptionalGet(v: JsValue, key: string): (r: JsValue)
    ensures r != Undefined ==> v.Object? && key in v.properties && r == v.properties[key]
    ensures v.Object? && key in v.properties ==> r == v.properties[key]
  {
    match v
    case Object(props) => if key in props then props[key] else Undefined
    case _ => Undefined
  }

  /** How the two guard styles differ on the values where they disagree. */
  lemma GuardsDisagree()
    ensures IsNumberNotNaN(Number(Finite(0.0))) && !Truthy(Number(Finite(0.0)))
    ensures IsNumberNotNaN(Number(PosInfinity)) && Truthy(Number(PosInfinity))
    ensures IsNumberNotNaN(Number(NegInfinity)) && Truthy(Number(NegInfinity))
    ensures !IsNumberNotNaN(Number(NaN)) && !Truthy(Number(NaN))
    ensures !IsNumberNotNaN(Str("12.5")) && Truthy(Str("12.5"))
    ensures !IsNumberNotNaN(Bool(true)) && Truthy(Bool(true))
  {
  }

  /** A value that passes the numeric guard is truthy exactly when it is not zero. */
  lemma NumberGuardAndTruthiness(v: JsValue)
    requires IsNumberNotNaN(v)
    ensures Truthy(v) <==> v.n != Finite(0.0)
  {
  }
}
