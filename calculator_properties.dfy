/** Properties of the calculator that relate several taps: the invariant holds
    in every reachable state, the marker "Error" survives every tap but clear,
    typed digits appear verbatim, and chained operators use the key just
    pressed.
 */
module CalculatorProperties {
  import opened Evaluation
  import opened CalculatorSpec

  /** Every listener keeps the state invariant. */
  lemma StepPreservesInv<Num(!new)>(s: CalcState, e: Event, a: Arithmetic<Num>)
    requires Sound(a) && Inv(s)
    ensures Inv(Step(s, e, a))
  {
  }

  /** Any sequence of taps keeps the state invariant. */
  lemma {:induction false} RunPreservesInv<Num(!new)>(s: CalcState, es: seq<Event>, a: Arithmetic<Num>)
    requires Sound(a) && Inv(s)
    ensures Inv(Run(s, es, a))
    decreases |es|
  {
    if es != [] {
      StepPreservesInv(s, es[0], a);
      RunPreservesInv(Step(s, es[0], a), es[1..], a);
    }
  }

  /** In every state the activity can reach, the buffer holds at most one
      decimal point and a committed operand comes with one of the five
      operators, so calculateResult never takes its `else` branch. */
  lemma ReachableStatesSatisfyInv<Num(!new)>(es: seq<Event>, a: Arithmetic<Num>)
    requires Sound(a)
    ensures var s := Run(Initial, es, a);
      AtMostOneDot(s.input) && (s.result != [] ==> OperatorOf(s.op).Some?)
  {
    RunPreservesInv(Initial, es, a);
  }

  /** One tap other than clear leaves the marker in place. */
  lemma ErrorPersistsStep<Num(!new)>(s: CalcState, e: Event, a: Arithmetic<Num>)
    requires Sound(a) && Inv(s) && s.result == ErrorMarker
    requires !e.ClearKey?
    ensures Step(s, e, a).result == ErrorMarker
  {
  }

  /** Once the operand is "Error", it stays "Error" until the clear button. */
  lemma {:induction false} ErrorPersistsUntilClear<Num(!new)>(s: CalcState, es: seq<Event>, a: Arithmetic<Num>)
    requires Sound(a) && Inv(s) && s.result == ErrorMarker
    requires forall i :: 0 <= i < |es| ==> !es[i].ClearKey?
    ensures Run(s, es, a).result == ErrorMarker
    decreases |es|
  {
    if es != [] {
      ErrorPersistsStep(s, es[0], a);
      StepPreservesInv(s, es[0], a);
      ErrorPersistsUntilClear(Step(s, es[0], a), es[1..], a);
    }
  }

  /** The digit buttons for a sequence of digit values. */
  function DigitKeys(ds: seq<Digit>): (es: seq<Event>)
    ensures |es| == |ds|
    ensures forall i :: 0 <= i < |ds| ==> es[i] == DigitKey(ds[i])
  {
    seq(|ds|, i requires 0 <= i < |ds| => DigitKey(ds[i]))
  }

  /** The text of a sequence of digit values. */
  function DigitText(ds: seq<Digit>): (t: string)
    ensures |t| == |ds|
    ensures forall i :: 0 <= i < |ds| ==> t[i] == DigitChar(ds[i])
  {
    seq(|ds|, i requires 0 <= i < |ds| => DigitChar(ds[i]))
  }

  /** While a number is being typed, each digit key extends the buffer and
      nothing else changes. */
  lemma {:induction false} DigitsExtendBuffer<Num(!new)>(s: CalcState, ds: seq<Digit>, a: Arithmetic<Num>)
    requires !s.isNew
    ensures Run(s, DigitKeys(ds), a) == s.(input := s.input + DigitText(ds))
    decreases |ds|
  {
    if ds == [] {
      assert s.input + DigitText(ds) == s.input;
    } else {
      var t := PressDigit(s, ds[0]);
      assert DigitKeys(ds)[1..] == DigitKeys(ds[1..]);
      DigitsExtendBuffer(t, ds[1..], a);
      assert s.input + DigitText(ds) == t.input + DigitText(ds[1..]);
    }
  }

  /** Digits typed after clear show up verbatim in the input view ("0" when
      none was typed); the operand view still shows "0". */
  lemma TypedDigitsShowVerbatim<Num(!new)>(s: CalcState, ds: seq<Digit>, a: Arithmetic<Num>)
    ensures var t := Run(s, [ClearKey] + DigitKeys(ds), a);
      Display(t.input) == (if ds == [] then "0" else DigitText(ds)) && Display(t.result) == "0"
  {
    var c := PressClear(s);
    assert ([ClearKey] + DigitKeys(ds))[1..] == DigitKeys(ds);
    if ds != [] {
      var t := PressDigit(c, ds[0]);
      assert DigitKeys(ds)[1..] == DigitKeys(ds[1..]);
      DigitsExtendBuffer(t, ds[1..], a);
      assert t.input + DigitText(ds[1..]) == DigitText(ds);
    }
  }

  /** A second decimal press in the same number is ignored. */
  lemma DecimalIdempotent(s: CalcState)
    ensures PressDecimal(PressDecimal(s)) == PressDecimal(s)
  {
  }

  /** Clearing twice is clearing once. */
  lemma ClearIdempotent(s: CalcState)
    ensures PressClear(PressClear(s)) == PressClear(s)
  {
  }

  /** "x op y =" computes op on x and y. */
  lemma SingleOperation<Num(!new)>(x: Digit, op: Operator, y: Digit, a: Arithmetic<Num>)
    ensures Run(Initial, [DigitKey(x), OperatorKey(op), DigitKey(y), EqualsKey], a).result
         == ResultText(Evaluate(a, op.Symbol(), [DigitChar(x)], [DigitChar(y)]))
  {
    var s1 := PressDigit(Initial, x);
    var s2 := PressOperator(s1, op, a);
    var s3 := PressDigit(s2, y);
    assert Run(s3, [EqualsKey], a) == PressEquals(s3, a);
    assert Run(s2, [DigitKey(y), EqualsKey], a) == Run(s3, [EqualsKey], a);
    assert Run(s1, [OperatorKey(op), DigitKey(y), EqualsKey], a) == Run(s2, [DigitKey(y), EqualsKey], a);
  }

  /** "x op1 y op2": the second operator key evaluates x and y with op2, the
      key just pressed, not with the pending op1, and leaves op2 pending. */
  lemma ChainUsesPressedOperator<Num(!new)>(x: Digit, op1: Operator, y: Digit, op2: Operator, a: Arithmetic<Num>)
    ensures var s := Run(Initial, [DigitKey(x), OperatorKey(op1), DigitKey(y), OperatorKey(op2)], a);
      s.result == ResultText(Evaluate(a, op2.Symbol(), [DigitChar(x)], [DigitChar(y)])) &&
      s.op == op2.Symbol() && s.isNew
  {
    var s1 := PressDigit(Initial, x);
    var s2 := PressOperator(s1, op1, a);
    var s3 := PressDigit(s2, y);
    assert Run(s3, [OperatorKey(op2)], a) == PressOperator(s3, op2, a);
    assert Run(s2, [DigitKey(y), OperatorKey(op2)], a) == Run(s3, [OperatorKey(op2)], a);
    assert Run(s1, [OperatorKey(op1), DigitKey(y), OperatorKey(op2)], a) == Run(s2, [DigitKey(y), OperatorKey(op2)], a);
  }

  /** Equals keeps lastOperator, so pressing it again applies the same
      operator to the previous result, taken as both operands; after a failed
      evaluation the buffer is empty and the second press does nothing. */
  lemma RepeatedEqualsReappliesOperator<Num(!new)>(s: CalcState, a: Arithmetic<Num>)
    requires Sound(a)
    requires s.input != [] && s.result != []
    ensures var t := PressEquals(s, a);
      t.op == s.op &&
      match Evaluate(a, s.op, s.result, s.input)
      case Some(v) => PressEquals(t, a).result == ResultText(Evaluate(a, s.op, v, v))
      case None => PressEquals(t, a) == t
  {
  }
}
