/** The input state machine of MainActivity, one pure function per button.

    A `CalcState` holds the four fields of the activity (MainActivity.kt:14-17);
    each `Press…` function gives the state a click listener leaves behind. The
    class in module Calculator performs the same updates in place and is proved
    to agree with these functions.
 */
module CalculatorSpec {
  import opened Evaluation

  /** currentInput (the StringBuilder buffer), currentResult (the committed
      operand or the marker), lastOperator and isNewOperation. */
  datatype CalcState = CalcState(input: string, result: string, op: string, isNew: bool)

  /** The field initialisers, which are also what the clear button restores. */
  const Initial: CalcState := CalcState([], [], [], true)

  /** The value of one of the ten number buttons. */
  type Digit = d: int | 0 <= d <= 9

  /** The text of a number button. */
  function DigitChar(d: Digit): (c: char)
    ensures '0' <= c <= '9'
  {
    ('0' as int + d) as char
  }

  /** The state invariant: the buffer holds at most one decimal point,
      lastOperator is empty or one of the five symbols, and a committed operand
      always comes with an operator, so the `else` branch of calculateResult's
      `when` is never taken. */
  predicate Inv(s: CalcState)
  {
    AtMostOneDot(s.input) &&
    (s.op == [] || OperatorOf(s.op).Some?) &&
    (s.result != [] ==> s.op != [])
  }

  /** The empty-to-"0" mapping updateDisplay applies to both text views. */
  function Display(text: string): (shown: string)
    ensures shown != []
    ensures text != [] ==> shown == text
    ensures text == [] ==> shown == "0"
  {
    if text == [] then "0" else text
  }

  /** A number button: a fresh number starts from an empty buffer, otherwise the
      digit extends the buffer; the flag is cleared either way. */
  function PressDigit(s: CalcState, d: Digit): (r: CalcState)
    ensures s.isNew ==> r.input == [DigitChar(d)]
    ensures !s.isNew ==> r.input == s.input + [DigitChar(d)]
    ensures !r.isNew && r.result == s.result && r.op == s.op
    ensures Inv(s) ==> Inv(r)
  {
    var buffer := if s.isNew then [] else s.input;
    s.(input := buffer + [DigitChar(d)], isNew := false)
  }

  /** The decimal button: ignored when the buffer already has a point; on an
      empty buffer or a fresh number it seeds "0" first. */
  function PressDecimal(s: CalcState): (r: CalcState)
    ensures '.' in s.input ==> r == s
    ensures '.' !in s.input && (s.input == [] || s.isNew) ==> r.input == "0." && !r.isNew
    ensures '.' !in s.input && s.input != [] && !s.isNew ==> r.input == s.input + "." && !r.isNew
    ensures r.result == s.result && r.op == s.op
    ensures '.' in r.input
    ensures Inv(s) ==> Inv(r)
  {
    if '.' in s.input then s
    else
      var buffer := if s.input == [] || s.isNew then "0" else s.input;
      s.(input := buffer + ".", isNew := false)
  }

  /** The text calculateResult stores in currentResult for an evaluation outcome. */
  function ResultText(e: Option<string>): (t: string)
    ensures e.Some? ==> t == e.value
    ensures e.None? ==> t == ErrorMarker
  {
    match e
    case Some(v) => v
    case None => ErrorMarker
  }

  /** calculateResult: evaluate lastOperator on (currentResult, currentInput).
      On success the formatted result becomes both the operand and the buffer;
      when a parse throws the buffer is emptied and the operand becomes the
      marker. The operator and the flag are untouched. */
  function Calculate<Num(!new)>(s: CalcState, a: Arithmetic<Num>): (r: CalcState)
    ensures r.result == ResultText(Evaluate(a, s.op, s.result, s.input))
    ensures Evaluate(a, s.op, s.result, s.input).Some? ==> r.input == r.result
    ensures Evaluate(a, s.op, s.result, s.input).None? ==> r.input == []
    ensures r.op == s.op && r.isNew == s.isNew
    ensures Sound(a) ==> AtMostOneDot(r.input) && r.result != []
    ensures Sound(a) && s.result == ErrorMarker && OperatorOf(s.op).Some? ==> r.result == ErrorMarker && r.input == []
  {
    match Evaluate(a, s.op, s.result, s.input)
    case Some(v) => s.(input := v, result := v)
    case None => s.(input := [], result := ErrorMarker)
  }

  /** An operator button. Nothing happens on an empty buffer. Otherwise the
      pressed operator is stored BEFORE anything is evaluated: the first
      operator commits the buffer as the operand, a later one evaluates with the
      operator just pressed. The next digit then starts a fresh number. */
  function PressOperator<Num(!new)>(s: CalcState, op: Operator, a: Arithmetic<Num>): (r: CalcState)
    ensures s.input == [] ==> r == s
    ensures s.input != [] ==> r.op == op.Symbol() && r.isNew
    ensures s.input != [] && s.result == [] ==> r.result == s.input && r.input == s.input
    ensures s.input != [] && s.result != [] ==>
      r.result == ResultText(Evaluate(a, op.Symbol(), s.result, s.input)) &&
      r.input == (if Evaluate(a, op.Symbol(), s.result, s.input).Some? then r.result else [])
    ensures Sound(a) && Inv(s) ==> Inv(r)
  {
    if s.input == [] then s
    else
      var t := s.(op := op.Symbol());
      var u := if t.result == [] then t.(result := t.input) else Calculate(t, a);
      u.(isNew := true)
  }

  /** The equals button: evaluates only when both the buffer and the operand
      are non-empty, keeping lastOperator, and marks the next digit as a fresh
      number. */
  function PressEquals<Num(!new)>(s: CalcState, a: Arithmetic<Num>): (r: CalcState)
    ensures s.input == [] || s.result == [] ==> r == s
    ensures s.input != [] && s.result != [] ==>
      r.isNew && r.op == s.op && r.result == ResultText(Evaluate(a, s.op, s.result, s.input)) &&
      r.input == (if Evaluate(a, s.op, s.result, s.input).Some? then r.result else [])
    ensures Sound(a) && Inv(s) ==> Inv(r)
  {
    if s.input != [] && s.result != [] then Calculate(s, a).(isNew := true) else s
  }

  /** The clear button: back to the initial state, whatever came before; both
      views then show "0". */
  function PressClear(s: CalcState): (r: CalcState)
    ensures r.input == [] && r.result == [] && r.op == [] && r.isNew
    ensures Display(r.input) == "0" && Display(r.result) == "0"
    ensures Inv(r)
  {
    Initial
  }

  /** A tap on one of the calculator's buttons. */
  datatype Event =
    | DigitKey(d: Digit)
    | DecimalKey
    | OperatorKey(op: Operator)
    | EqualsKey
    | ClearKey

  /** The listener a tap runs. */
  function Step<Num(!new)>(s: CalcState, e: Event, a: Arithmetic<Num>): CalcState
  {
    match e
    case DigitKey(d) => PressDigit(s, d)
    case DecimalKey => PressDecimal(s)
    case OperatorKey(op) => PressOperator(s, op, a)
    case EqualsKey => PressEquals(s, a)
    case ClearKey => PressClear(s)
  }

  /** A sequence of taps, handled one after another on the UI thread. */
  function Run<Num(!new)>(s: CalcState, es: seq<Event>, a: Arithmetic<Num>): CalcState
    decreases |es|
  {
    if es == [] then s else Run(Step(s, es[0], a), es[1..], a)
  }
}
