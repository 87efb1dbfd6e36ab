/** The arithmetic behind calculateResult (MainActivity.kt:127-156).

    The activity parses its two operand strings with Kotlin's `toDouble`,
    combines them with one of five Double operators and renders the result
    with `formatResult`. Floating point, `String.format` and the device locale
    are not modelled: an `Arithmetic` value supplies the three operations, and
    `Sound` collects the only facts about them that the state machine relies on.
 */
module Evaluation {

  datatype Option<+T> = None | Some(value: T)

  /** The marker that calculateResult stores in currentResult when a parse throws. */
  const ErrorMarker: string := "Error"

  /** The five operator buttons. */
  datatype Operator = Plus | Minus | Times | Divide | Percent {

    /** The string the button passes to the operator listener. */
    function Symbol(): (s: string)
      ensures |s| == 1
    {
      match this
      case Plus => "+"
      case Minus => "-"
      case Times => "×"
      case Divide => "/"
      case Percent => "%"
    }
  }

  /** The `when (lastOperator)` dispatch: the operator a stored string selects,
      or None for the `else` branch. */
  function OperatorOf(s: string): (r: Option<Operator>)
    ensures r.Some? ==> r.value.Symbol() == s
    ensures r.None? ==> forall op: Operator :: op.Symbol() != s
  {
    if s == "+" then Some(Plus)
    else if s == "-" then Some(Minus)
    else if s == "×" then Some(Times)
    else if s == "/" then Some(Divide)
    else if s == "%" then Some(Percent)
    else None
  }

  /** The number semantics the activity borrows from Kotlin:
      `parse` is `String.toDouble` (None where it throws),
      `apply` is the Double operator the `when` selects,
      `format` is `formatResult`. */
  datatype Arithmetic<!Num> = Arithmetic(
    parse: string -> Option<Num>,
    apply: (Operator, Num, Num) -> Num,
    format: Num -> string)

  /** No two characters of `s` are both a decimal point. */
  predicate AtMostOneDot(s: string)
  {
    forall i, j :: 0 <= i < j < |s| && s[i] == '.' ==> s[j] != '.'
  }

  /** What the state machine assumes of Kotlin's numbers: the marker "Error" is
      not a number, and `formatResult` yields a non-empty string with at most one
      '.' (an integer rendering has none, "%.2f" has one, or none when the locale
      uses a decimal comma; "NaN" and "Infinity" have none). */
  ghost predicate Sound<Num(!new)>(a: Arithmetic<Num>)
  {
    a.parse(ErrorMarker) == None &&
    forall x :: a.format(x) != [] && AtMostOneDot(a.format(x))
  }

  /** The try block of calculateResult: the formatted result, or None where one
      of the `toDouble` calls throws. The right operand (the input buffer) is
      parsed first; the committed left operand is parsed only when `op` selects
      one of the five operators, and the `else` branch yields the input itself. */
  function Evaluate<Num(!new)>(a: Arithmetic<Num>, op: string, lhs: string, rhs: string): (r: Option<string>)
    ensures a.parse(rhs).None? ==> r.None?
    ensures OperatorOf(op).Some? && a.parse(lhs).None? ==> r.None?
    ensures r.None? ==> a.parse(rhs).None? || (OperatorOf(op).Some? && a.parse(lhs).None?)
    ensures OperatorOf(op).Some? && a.parse(lhs).Some? && a.parse(rhs).Some? ==>
      r == Some(a.format(a.apply(OperatorOf(op).value, a.parse(lhs).value, a.parse(rhs).value)))
    ensures OperatorOf(op).None? && a.parse(rhs).Some? ==> r == Some(a.format(a.parse(rhs).value))
    ensures Sound(a) && r.Some? ==> r.value != [] && AtMostOneDot(r.value)
  {
    match a.parse(rhs)
    case None => None
    case Some(input) =>
      match OperatorOf(op)
      case None => Some(a.format(input))
      case Some(o) =>
        match a.parse(lhs)
        case None => None
        case Some(left) => Some(a.format(a.apply(o, left, input)))
  }

  /** Reading back a button's symbol selects that button's operator. */
  lemma OperatorOfSymbol(op: Operator)
    ensures OperatorOf(op.Symbol()) == Some(op)
  {
  }

  /** Pressing operator `o` on two parsable operands yields the formatted
      result of `o` applied to them, left operand first. */
  lemma EvaluateApplies<Num(!new)>(a: Arithmetic<Num>, o: Operator, lhs: string, rhs: string, x: Num, y: Num)
    requires a.parse(lhs) == Some(x) && a.parse(rhs) == Some(y)
    ensures Evaluate(a, o.Symbol(), lhs, rhs) == Some(a.format(a.apply(o, x, y)))
  {
    OperatorOfSymbol(o);
  }

  /** Once the committed operand is the marker, any evaluation through one of
      the five operators fails again, whatever the input buffer holds. */
  lemma EvaluateErrorFails<Num(!new)>(a: Arithmetic<Num>, op: string, rhs: string)
    requires Sound(a)
    requires OperatorOf(op).Some?
    ensures Evaluate(a, op, ErrorMarker, rhs) == None
  {
  }
}
