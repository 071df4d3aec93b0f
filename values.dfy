/** Dynamic JavaScript values as the document store sees them, and the two
    host-language comparisons the query matcher relies on: strict equality
    (`===`, and `includes`, which agrees with it on integers) and the
    relational operator `<`. */
module Values {

  datatype Option<T> = None | Some(value: T)

  /** A JavaScript value held in a document field or in a query. Numbers are
      integers only; `List` is an array and `Obj` a plain object. */
  datatype Value =
    | Undefined
    | Null
    | Bool(b: bool)
    | Num(n: int)
    | Str(s: string)
    | List(items: seq<Value>)
    | Obj(fields: map<string, Value>)

  /** A stored document, a partial document passed to an insert, and an
      update patch all have this shape. */
  type Document = map<string, Value>

  /** `item[key]`: a field that is absent reads as `undefined`. */
  function Get(d: map<string, Value>, key: string): (v: Value)
    ensures key !in d ==> v == Undefined
    ensures key in d ==> v == d[key]
  {
    if key in d then d[key] else Undefined
  }

  /** `typeof v === 'object' && v !== null`: arrays and plain objects. */
  predicate IsObject(v: Value) {
    v.List? || v.Obj?
  }

  /** Property lookup on an operator object. A plain object yields its own
      field; an array has none of the `$`-named properties. */
  function Property(v: Value, key: string): (p: Value)
    requires IsObject(v)
    ensures v.List? ==> p == Undefined
  {
    if v.Obj? then Get(v.fields, key) else Undefined
  }

  /** JavaScript truthiness: `undefined`, `null`, `false`, `0` and `""` are
      falsy; every array and object is truthy, even an empty one. */
  predicate Truthy(v: Value) {
    match v
    case Undefined => false
    case Null => false
    case Bool(b) => b
    case Num(n) => n != 0
    case Str(s) => s != ""
    case List(_) => true
    case Obj(_) => true
  }

  /** `a === b`. Two arrays or objects are equal only when they are the same
      reference; values here carry no identity, so composite values are
      never strictly equal. */
  predicate StrictEquals(a: Value, b: Value) {
    match (a, b)
    case (Undefined, Undefined) => true
    case (Null, Null) => true
    case (Bool(x), Bool(y)) => x == y
    case (Num(x), Num(y)) => x == y
    case (Str(x), Str(y)) => x == y
    case _ => false
  }

  /** `arr.includes(x)`, which agrees with `===` when numbers are integers. */
  predicate Includes(arr: seq<Value>, x: Value) {
    exists i :: 0 <= i < |arr| && StrictEquals(arr[i], x)
  }

  /** The number `<` converts an operand to when neither operand is a
      string: `null` is 0, booleans are 0 and 1, `undefined` is NaN (None). */
  function NumericValue(v: Value): (r: Option<int>)
    ensures v.Undefined? ==> r.None?
    ensures v.Num? ==> r == Some(v.n)
  {
    match v
    case Null => Some(0)
    case Bool(b) => Some(if b then 1 else 0)
    case Num(n) => Some(n)
    case _ => None
  }

  /** Lexicographic order on strings, character by character (Unicode
      scalar values), as `<` compares two strings: a proper prefix is
      smaller. */
  predicate StrLess(x: string, y: string)
    decreases |x|
  {
    if |y| == 0 then false
    else if |x| == 0 then true
    else if x[0] != y[0] then x[0] < y[0]
    else StrLess(x[1..], y[1..])
  }

  /** `a < b` on two field values. Two strings compare lexicographically;
      numbers, booleans and `null` compare numerically; a comparison with
      `undefined` (NaN) is false. */
  predicate LessThan(a: Value, b: Value) {
    if a.Str? && b.Str? then StrLess(a.s, b.s)
    else
      match (NumericValue(a), NumericValue(b))
      case (Some(x), Some(y)) => x < y
      case _ => false
  }

  lemma {:induction false} StrLessIrreflexive(x: string)
    ensures !StrLess(x, x)
    decreases |x|
  {
    if |x| > 0 {
      StrLessIrreflexive(x[1..]);
    }
  }

  lemma {:induction false} StrLessTotal(x: string, y: string)
    ensures x == y || StrLess(x, y) || StrLess(y, x)
    decreases |x|
  {
    if |x| > 0 && |y| > 0 && x[0] == y[0] {
      StrLessTotal(x[1..], y[1..]);
      if x[1..] == y[1..] {
        assert x == [x[0]] + x[1..] && y == [y[0]] + y[1..];
      }
    }
  }

  /** On two values of the same kind, number or string, `<` is a strict
      total order: exactly one of `a < b`, `a === b`, `b < a` holds. */
  lemma LessThanTrichotomy(a: Value, b: Value)
    requires (a.Num? && b.Num?) || (a.Str? && b.Str?)
    ensures StrictEquals(a, b) <==> (!LessThan(a, b) && !LessThan(b, a))
    ensures !(LessThan(a, b) && LessThan(b, a))
  {
    if a.Str? {
      StrLessTotal(a.s, b.s);
      StrLessAsymmetric(a.s, b.s);
      if a.s == b.s {
        StrLessIrreflexive(a.s);
      }
    }
  }

  lemma {:induction false} StrLessAsymmetric(x: string, y: string)
    ensures !(StrLess(x, y) && StrLess(y, x))
    decreases |x|
  {
    if |x| > 0 && |y| > 0 && x[0] == y[0] {
      StrLessAsymmetric(x[1..], y[1..]);
    }
  }

  /** Strict equality against a primitive (the literal branch of a query)
      is ordinary equality of values. */
  lemma StrictEqualsPrimitive(a: Value, b: Value)
    requires !IsObject(b)
    ensures StrictEquals(a, b) <==> a == b
  {
  }
}
