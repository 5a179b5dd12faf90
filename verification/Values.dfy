/** Python values as they occur in robot state, skill arguments and contracts. */
module Values {

  datatype Option<+T> = None | Some(value: T)

  /** A float is a real: rounding is not modelled. */
  datatype Value = Bool(b: bool) | Int(i: int) | Float(r: real) | Str(s: string)

  /** `float(v)` when `isinstance(v, (int, float))`; a Python bool is an int. */
  function Num(v: Value): Option<real> {
    match v
    case Bool(b) => Some(if b then 1.0 else 0.0)
    case Int(i) => Some(i as real)
    case Float(r) => Some(r)
    case Str(_) => None
  }

  /** Python's `==`: numbers compare by value across bool, int and float. */
  predicate PyEq(a: Value, b: Value) {
    if a.Str? || b.Str? then a == b else Num(a) == Num(b)
  }

  predicate OptEq(a: Option<Value>, b: Option<Value>) {
    a == b || (a.Some? && b.Some? && PyEq(a.value, b.value))
  }

  /** Equality is an equivalence; numbers are equal by value whatever their type, and text only
      to the same text. An absent value equals only another. */
  lemma EqualityExact(a: Value, b: Value, c: Value)
    ensures PyEq(a, a) && (PyEq(a, b) ==> PyEq(b, a)) && (PyEq(a, b) && PyEq(b, c) ==> PyEq(a, c))
    ensures PyEq(a, b) <==>
            (match (a, b)
             case (Str(s), Str(t)) => s == t
             case (Str(_), _) => false
             case (_, Str(_)) => false
             case _ => Num(a).Some? && Num(b).Some? && Num(a).value == Num(b).value)
    ensures forall i: int, r: real :: PyEq(Int(i), Float(r)) <==> i as real == r
    ensures PyEq(Bool(true), Int(1)) && PyEq(Bool(false), Int(0)) && !PyEq(Bool(true), Bool(false))
    ensures OptEq(None, None) && !OptEq(Some(a), None) && !OptEq(None, Some(a))
    ensures OptEq(Some(a), Some(b)) <==> PyEq(a, b)
  {
  }

  /** `if v:` */
  predicate Truthy(v: Option<Value>) {
    v.Some? && match v.value
               case Str(s) => s != ""
               case other => Num(other) != Some(0.0)
  }

  /** A product the arithmetic of counters need not look into. */
  function Times(k: int, n: int): int { k * n }

  lemma TimesAdd(a: int, b: int, n: int)
    ensures Times(a + b, n) == Times(a, n) + Times(b, n)
  {
  }

  function Abs(x: real): real { if x < 0.0 then -x else x }

  /** The comparison shared by outcome verification, goal checking, replanning and the
      oracle: a float target is met within a tolerance by any number, another target only
      by an equal value. */
  predicate Within(actual: Option<Value>, target: Value, tolerance: real) {
    actual.Some? &&
    if target.Float? then
      Num(actual.value).Some? && Abs(Num(actual.value).value - target.r) <= tolerance
    else
      PyEq(actual.value, target)
  }
}
