/** Values shared by every component: an optional value, the Python scalars that
    custom properties and OSC arguments carry, 3-vectors and OSC messages. */
module Common {

  datatype Option<T> = None | Some(value: T)

  /** A Python scalar as it is stored in a custom property or passed as an OSC argument. */
  datatype Value = Int(i: int) | Real(r: real) | Bool(b: bool) | Str(s: string)

  /** The numeric value of a non-string scalar; `bool` is a subclass of `int` in Python. */
  function Numeric(v: Value): real
    requires !v.Str?
  {
    match v
    case Int(i) => i as real
    case Real(r) => r
    case Bool(b) => if b then 1.0 else 0.0
  }

  /** Python's `==` on scalars: numbers compare by value across int, float and bool,
      a string equals only the same string. */
  predicate PyEq(a: Value, b: Value)
  {
    if a.Str? || b.Str? then a == b else Numeric(a) == Numeric(b)
  }

  /** PyEq is an equivalence, so "changed" (its negation) is symmetric and a value never
      differs from itself. */
  lemma PyEqIsEquivalence(a: Value, b: Value, c: Value)
    ensures PyEq(a, a)
    ensures PyEq(a, b) ==> PyEq(b, a)
    ensures PyEq(a, b) && PyEq(b, c) ==> PyEq(a, c)
  {
  }

  /** Python's `==` is coarser than structural equality: 1, 1.0 and True are all equal. */
  lemma PyEqAcrossNumericTypes()
    ensures PyEq(Int(1), Real(1.0)) && PyEq(Int(1), Bool(true)) && Int(1) != Real(1.0)
    ensures !PyEq(Str("1"), Int(1))
  {
  }

  /** The Python exceptions the modelled code raises, catches or lets escape. */
  datatype PyError = TypeError | ValueError | AttributeError | KeyError | ReferenceError | OSError(errno: int)

  /** Python's `int(x)` of a float: truncation toward zero. */
  function Trunc(r: real): (n: int)
    ensures r >= 0.0 ==> 0 <= n && n as real <= r < n as real + 1.0
    ensures r < 0.0 ==> n <= 0 && n as real - 1.0 < r <= n as real
  {
    if r >= 0.0 then r.Floor else -((-r).Floor)
  }

  datatype Vec3 = Vec3(x: real, y: real, z: real)

  /** A game-engine object, known by its identity. */
  type GameObject = nat

  /** A Blender object or scene, known by its identity: what the add-ons' registries are
      keyed by and what a rename leaves as it is. */
  type BlenderRef = nat

  /** One OSC message as handed to the message builder: an address and its arguments in order. */
  datatype Message = Message(address: string, args: seq<Value>)
}
