/** The activity itself: four mutable fields and one method per click
    listener, each updating the fields in place as MainActivity.kt does and
    proved to leave the state the matching function of CalculatorSpec gives.
 */
module Calculator {
  import opened Evaluation
  import opened CalculatorSpec

  class MainActivity<Num(!new)> {
    /** The number semantics the activity uses (Kotlin's Double). */
    const arith: Arithmetic<Num>

    /** The StringBuilder buffer of the number being typed. */
    var currentInput: string
    /** The committed left operand, or the marker "Error". */
    var currentResult: string
    /** The pending operator's symbol, or "". */
    var lastOperator: string
    /** Whether the next digit starts a fresh number. */
    var isNewOperation: bool

    /** The four fields as a value. */
    function State(): CalcState
      reads this
    {
      CalcState(currentInput, currentResult, lastOperator, isNewOperation)
    }

    ghost predicate Valid()
      reads this
    {
      Sound(arith) && Inv(State())
    }

    /** The field initialisers. */
    constructor (a: Arithmetic<Num>)
      requires Sound(a)
      ensures Valid() && arith == a
      ensures State() == Initial
    {
      arith := a;
      currentInput := [];
      currentResult := [];
      lastOperator := [];
      isNewOperation := true;
    }

    /** The listener of the number buttons. */
    method OnDigitClick(d: Digit)
      requires Valid()
      modifies this
      ensures Valid()
      ensures State() == PressDigit(old(State()), d)
    {
      if isNewOperation {
        currentInput := [];
        isNewOperation := false;
      }
      currentInput := currentInput + [DigitChar(d)];
    }

    /** operatorClickListener. */
    method OnOperatorClick(op: Operator)
      requires Valid()
      modifies this
      ensures Valid()
      ensures State() == PressOperator(old(State()), op, arith)
    {
      if currentInput != [] {
        lastOperator := op.Symbol();
        if currentResult == [] {
          currentResult := currentInput;
        } else {
          CalculateResult();
        }
        isNewOperation := true;
      }
    }

    /** The listener of the clear button. */
    method OnClearClick()
      requires Valid()
      modifies this
      ensures Valid()
      ensures State() == PressClear(old(State()))
    {
      currentInput := [];
      currentResult := [];
      lastOperator := [];
      isNewOperation := true;
    }

    /** The listener of the decimal button. */
    method OnDecimalClick()
      requires Valid()
      modifies this
      ensures Valid()
      ensures State() == PressDecimal(old(State()))
    {
      if '.' !in currentInput {
        if currentInput == [] || isNewOperation {
          currentInput := [];
          currentInput := currentInput + "0";
          isNewOperation := false;
        }
        currentInput := currentInput + ".";
      }
    }

    /** The listener of the equals button. */
    method OnEqualsClick()
      requires Valid()
      modifies this
      ensures Valid()
      ensures State() == PressEquals(old(State()), arith)
    {
      if currentInput != [] && currentResult != [] {
        CalculateResult();
        isNewOperation := true;
      }
    }

    /** calculateResult: the try block writes the formatted result into the
        operand and the buffer, the catch block empties the buffer and stores
        the marker. */
    method CalculateResult()
      modifies this
      ensures State() == Calculate(old(State()), arith)
    {
      var outcome := Evaluate(arith, lastOperator, currentResult, currentInput);
      match outcome
      case Some(v) =>
        currentResult := v;
        currentInput := [];
        currentInput := currentInput + currentResult;
      case None =>
        currentInput := [];
        currentResult := ErrorMarker;
    }

    /** The texts updateDisplay writes into the input view and the result view. */
    method UpdateDisplay() returns (inputText: string, resultText: string)
      ensures inputText != [] && resultText != []
      ensures currentInput != [] ==> inputText == currentInput
      ensures currentResult != [] ==> resultText == currentResult
      ensures currentInput == [] ==> inputText == "0"
      ensures currentResult == [] ==> resultText == "0"
    {
      inputText := Display(currentInput);
      resultText := Display(currentResult);
    }
  }

  /** A client of the class: "2 + 3 =" and a later clear, seen only through
      the methods' contracts. */
  method ClientSession<Num(!new)>(a: Arithmetic<Num>)
    requires Sound(a)
  {
    var activity := new MainActivity(a);
    activity.OnDigitClick(2);
    activity.OnOperatorClick(Plus);
    assert activity.currentResult == "2" && activity.lastOperator == "+";
    activity.OnDigitClick(3);
    assert activity.currentInput == "3" && activity.currentResult == "2";
    activity.OnEqualsClick();
    assert activity.currentResult == ResultText(Evaluate(a, "+", "2", "3"));
    activity.OnDecimalClick();
    assert AtMostOneDot(activity.currentInput);
    activity.OnClearClick();
    var shownInput, shownResult := activity.UpdateDisplay();
    assert shownInput == "0" && shownResult == "0";
  }
}
