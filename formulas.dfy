/** Formulas: the blocks handed to `calculate`.

    A formula reads cells through their getters, computes with integers and
    classifies a value by a `case ... when` over patterns, which covers the
    formulas of the test suite (`cell1 * 10` and the low/medium/high
    classification). Evaluating a formula yields its result or the error it
    raises, together with the cells it read, in reading order. */
module Formulas {
  import opened Values

  /** Errors that escape a setter or `calculate`: arithmetic on a value that
      is not an integer (NoMethodError or TypeError), a propagation chain
      deeper than the call stack allows (SystemStackError), and a raise or
      `throw` out of an external observer's block. */
  datatype Failure = OperandError | StackOverflow | Thrown

  datatype Outcome = Ok(value: Value) | Raised(error: Failure)

  datatype Op = Plus | Times

  /** One `when pattern then result` branch of a `case` expression. */
  datatype Arm = Arm(pattern: Pattern, result: Value)

  datatype Formula =
    | Const(v: Value)
    | Read(cell: Ref)
    | Binary(op: Op, left: Formula, right: Formula)
    | Case(subject: Formula, arms: seq<Arm>, otherwise: Value)

  /** The outcome of a formula, and the getter calls it made, in order. */
  datatype Evaluation = Evaluation(result: Outcome, sources: seq<Ref>)

  /** The cells a formula mentions. */
  function Mentions(f: Formula): (refs: set<Ref>) {
    match f
    case Const(_) => {}
    case Read(r) => {r}
    case Binary(_, a, b) => Mentions(a) + Mentions(b)
    case Case(s, _, _) => Mentions(s)
  }

  /** `left op right` on Ruby integers, which do not overflow; any other
      receiver or argument raises. */
  function Apply(op: Op, a: Value, b: Value): (o: Outcome)
    ensures o.Ok? <==> a.Int? && b.Int?
    ensures o.Ok? ==> o.value.Int?
    ensures o.Raised? ==> o.error == OperandError
  {
    if a.Int? && b.Int? then
      match op
      case Plus => Ok(Int(a.i + b.i))
      case Times => Ok(Int(a.i * b.i))
    else Raised(OperandError)
  }

  /** The result of the first arm whose pattern matches `v`, else `otherwise`. */
  function SelectArm(arms: seq<Arm>, v: Value, otherwise: Value): (r: Value) {
    if arms == [] then otherwise
    else if Matches(arms[0].pattern, v) then arms[0].result
    else SelectArm(arms[1..], v, otherwise)
  }

  /** Evaluates `f` over the store `values`. Both operands of an operator are
      evaluated (left first) before the operator is applied, so the reads of
      the right operand are recorded even when the left one is not an
      integer; an operand that raises stops the evaluation there. */
  function Eval(values: map<Ref, Value>, f: Formula): (e: Evaluation)
    ensures forall i :: 0 <= i < |e.sources| ==> e.sources[i] in Mentions(f)
    ensures e.result.Raised? ==> e.result.error == OperandError
  {
    match f
    case Const(v) => Evaluation(Ok(v), [])
    case Read(r) => Evaluation(Ok(ValueOf(values, r)), [r])
    case Binary(op, a, b) =>
      var ea := Eval(values, a);
      if ea.result.Raised? then ea
      else
        var eb := Eval(values, b);
        if eb.result.Raised? then Evaluation(eb.result, ea.sources + eb.sources)
        else Evaluation(Apply(op, ea.result.value, eb.result.value), ea.sources + eb.sources)
    case Case(s, arms, otherwise) =>
      var es := Eval(values, s);
      if es.result.Raised? then es
      else Evaluation(Ok(SelectArm(arms, es.result.value, otherwise)), es.sources)
  }

  /** A `case` takes the first `when` whose pattern matches. */
  lemma {:induction false} SelectArmIsFirstMatch(arms: seq<Arm>, v: Value, otherwise: Value, i: nat)
    requires i < |arms| && Matches(arms[i].pattern, v)
    requires forall j :: 0 <= j < i ==> !Matches(arms[j].pattern, v)
    ensures SelectArm(arms, v, otherwise) == arms[i].result
    decreases i
  {
    if i > 0 {
      assert !Matches(arms[0].pattern, v);
      forall j | 0 <= j < i - 1 ensures !Matches(arms[1..][j].pattern, v) {
        assert arms[1..][j] == arms[j + 1];
      }
      SelectArmIsFirstMatch(arms[1..], v, otherwise, i - 1);
    }
  }

  /** A `case` takes the `else` value when no `when` matches. */
  lemma {:induction false} SelectArmOtherwise(arms: seq<Arm>, v: Value, otherwise: Value)
    requires forall j :: 0 <= j < |arms| ==> !Matches(arms[j].pattern, v)
    ensures SelectArm(arms, v, otherwise) == otherwise
    decreases |arms|
  {
    if arms != [] {
      assert !Matches(arms[0].pattern, v);
      forall j | 0 <= j < |arms| - 1 ensures !Matches(arms[1..][j].pattern, v) {
        assert arms[1..][j] == arms[j + 1];
      }
      SelectArmOtherwise(arms[1..], v, otherwise);
    }
  }

  /** The read trace is a sound dependency set: two stores that agree on
      every cell an evaluation read give that evaluation the same outcome and
      the same cells read. This is why registering an observer per recorded read is
      enough to keep a computed cell up to date. */
  lemma {:induction false} TraceIsSound(values: map<Ref, Value>, other: map<Ref, Value>, f: Formula)
    requires forall i :: 0 <= i < |Eval(values, f).sources| ==>
               ValueOf(values, Eval(values, f).sources[i]) == ValueOf(other, Eval(values, f).sources[i])
    ensures Eval(other, f) == Eval(values, f)
  {
    match f
    case Const(_) =>
    case Read(r) =>
      assert Eval(values, f).sources[0] == r;
    case Binary(op, a, b) =>
      var ea := Eval(values, a);
      forall i | 0 <= i < |ea.sources| ensures ValueOf(values, ea.sources[i]) == ValueOf(other, ea.sources[i]) {
        assert Eval(values, f).sources[i] == ea.sources[i];
      }
      TraceIsSound(values, other, a);
      if !ea.result.Raised? {
        var eb := Eval(values, b);
        forall i | 0 <= i < |eb.sources| ensures ValueOf(values, eb.sources[i]) == ValueOf(other, eb.sources[i]) {
          assert Eval(values, f).sources[|ea.sources| + i] == eb.sources[i];
        }
        TraceIsSound(values, other, b);
      }
    case Case(s, _, _) =>
      assert Eval(values, f).sources == Eval(values, s).sources;
      TraceIsSound(values, other, s);
  }

  /** A formula that succeeds reads the same cells over every store: `when`
      results are constants and there is no `if`, so which cells are read
      never depends on the values read. */
  lemma {:induction false} ReadsIndependentOfStore(values: map<Ref, Value>, other: map<Ref, Value>, f: Formula)
    requires Eval(values, f).result.Ok? && Eval(other, f).result.Ok?
    ensures Eval(values, f).sources == Eval(other, f).sources
  {
    match f
    case Const(_) =>
    case Read(_) =>
    case Binary(_, a, b) =>
      ReadsIndependentOfStore(values, other, a);
      ReadsIndependentOfStore(values, other, b);
    case Case(s, _, _) =>
      ReadsIndependentOfStore(values, other, s);
  }
}
