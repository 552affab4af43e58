/** Cell values, cell references and observer patterns.

    A cell is an attribute `name` of the object `obj`; the value of a cell
    that was never assigned is `Nil`, as an unset instance variable is nil.
    Patterns stand for the objects an observer passes as its pattern and
    that are matched against new values with `===`. */
module Values {

  type ObjId = nat
  type Name = string

  /** One cell: the owning object and the cell's name. */
  datatype Ref = Ref(obj: ObjId, name: Name)

  /** The values a cell can hold: nil, an integer or a symbol. */
  datatype Value = Nil | Int(i: int) | Sym(symbol: string)

  /** `Any` is the default pattern `Object`; `IntRange(lo, hi, exclusive)` is
      the integer range `lo..hi`, or `lo...hi` when `exclusive`. */
  datatype Pattern = Any | IntRange(lo: int, hi: int, exclusive: bool)

  /** `pattern === value`: every value is an Object; a range matches exactly
      the integers it covers and nothing else (nil and symbols do not match). */
  predicate Matches(p: Pattern, v: Value)
    ensures p.Any? ==> Matches(p, v)
    ensures Matches(p, v) && p.IntRange? ==> v.Int? && p.lo <= v.i <= p.hi
  {
    match p
    case Any => true
    case IntRange(lo, hi, exclusive) =>
      v.Int? && lo <= v.i && (if exclusive then v.i < hi else v.i <= hi)
  }

  /** The value a cell currently reads as, in the store `values`. */
  function ValueOf(values: map<Ref, Value>, r: Ref): (v: Value)
    ensures r !in values ==> v == Nil
    ensures r in values ==> v == values[r]
  {
    if r in values then values[r] else Nil
  }

  /** Assigning one cell changes what that cell reads as and nothing else. */
  lemma ValueOfUpdate(values: map<Ref, Value>, r: Ref, v: Value, q: Ref)
    ensures ValueOf(values[r := v], q) == if q == r then v else ValueOf(values, q)
  {
  }

  /** The default pattern lets every value through, and a range only
      integers between its bounds: with `0..10`, 2 matches and 20 does not. */
  lemma PatternExamples(v: Value)
    ensures Matches(Any, v)
    ensures Matches(IntRange(0, 10, false), Int(2))
    ensures !Matches(IntRange(0, 10, false), Int(20))
    ensures Matches(IntRange(0, 10, false), Int(10)) && !Matches(IntRange(0, 10, true), Int(10))
    ensures !Matches(IntRange(0, 10, false), Nil) && !Matches(IntRange(0, 10, false), Sym("low"))
  {
  }
}
