/** The calculator view: four mutable fields and one method per button handler,
    updated in place exactly as the view's handlers assign them. The dispatcher
    is proved to perform `Engine.Step`, so every property proved of the state
    machine holds of the object. */
module Calculator {
  import opened Labels
  import opened Engine

  class ContentView {
    /** The host's number conversions the handlers call. */
    const host: Host

    var display: string
    var firstOperand: real
    var currentOperator: Option<Operator>
    var isTypingNumber: bool

    /** The four fields as one value. */
    function Snapshot(): (s: State)
      reads this
    {
      State(display, firstOperand, currentOperator, isTypingNumber)
    }

    constructor (host: Host)
      ensures this.host == host
      ensures display == "0" && firstOperand == 0.0 && currentOperator == None && !isTypingNumber
      ensures Snapshot() == Initial()
    {
      this.host := host;
      display := "0";
      firstOperand := 0.0;
      currentOperator := None;
      isTypingNumber := false;
    }

    /** Routes one key to its handler, trying the cases in the view's order;
        a key no case matches changes nothing. */
    method HandleButtonPress(button: string)
      modifies this
      ensures Snapshot() == Step(host, old(Snapshot()), button)
      ensures button !in OperatorLabels + {".", "C", "±", "%", "="} && !InDigitRange(button) ==>
        Snapshot() == old(Snapshot())
    {
      if InDigitRange(button) {
        HandleNumber(button);
      } else if button == "." {
        HandleDecimal();
      } else if button == "C" {
        Clear();
      } else if button == "±" {
        ToggleSign();
      } else if button == "%" {
        CalculatePercentage();
      } else if button in OperatorLabels {
        SetOperator(button);
      } else if button == "=" {
        PerformCalculation();
      }
    }

    /** A digit: replaces the display if no number is being typed, appends to
        it otherwise. */
    method HandleNumber(number: string)
      modifies this
      ensures display == if old(isTypingNumber) then old(display) + number else number
      ensures isTypingNumber
      ensures firstOperand == old(firstOperand) && currentOperator == old(currentOperator)
      ensures Snapshot() == Engine.HandleNumber(old(Snapshot()), number)
    {
      if isTypingNumber {
        display := display + number;
      } else {
        display := number;
        isTypingNumber := true;
      }
    }

    /** ".": appends a point and turns number entry on, unless the display
        already holds a point, in which case nothing changes. */
    method HandleDecimal()
      modifies this
      ensures '.' in display
      ensures '.' in old(display) ==> Snapshot() == old(Snapshot())
      ensures '.' !in old(display) ==> display == old(display) + "." && isTypingNumber
      ensures firstOperand == old(firstOperand) && currentOperator == old(currentOperator)
      ensures Snapshot() == Engine.HandleDecimal(old(Snapshot()))
    {
      if '.' !in display {
        display := display + ".";
        isTypingNumber := true;
      }
    }

    /** "C": all four fields back to their initial values. */
    method Clear()
      modifies this
      ensures display == "0" && firstOperand == 0.0 && currentOperator == None && !isTypingNumber
      ensures Snapshot() == Initial()
    {
      display := "0";
      firstOperand := 0.0;
      currentOperator := None;
      isTypingNumber := false;
    }

    /** "±": shows the negated number; does nothing when the display does not parse. */
    method ToggleSign()
      modifies this
      ensures host.parse(old(display)).None? ==> Snapshot() == old(Snapshot())
      ensures host.parse(old(display)).Some? ==> display == host.format(-host.parse(old(display)).value)
      ensures firstOperand == old(firstOperand) && currentOperator == old(currentOperator)
      ensures isTypingNumber == old(isTypingNumber)
      ensures Snapshot() == Engine.ToggleSign(host, old(Snapshot()))
    {
      match host.parse(display)
      case Some(value) =>
        display := host.format(value * -1.0);
      case None =>
    }

    /** "%": shows the number divided by 100; does nothing when the display
        does not parse. */
    method CalculatePercentage()
      modifies this
      ensures host.parse(old(display)).None? ==> Snapshot() == old(Snapshot())
      ensures host.parse(old(display)).Some? ==> display == host.format(host.parse(old(display)).value / 100.0)
      ensures firstOperand == old(firstOperand) && currentOperator == old(currentOperator)
      ensures isTypingNumber == old(isTypingNumber)
      ensures Snapshot() == Engine.CalculatePercentage(host, old(Snapshot()))
    {
      match host.parse(display)
      case Some(value) =>
        display := host.format(value / 100.0);
      case None =>
    }

    /** An operator: captures the displayed number (0 if it does not parse),
        stops number entry and makes the key's operator pending; the display
        is untouched, and a key that is not an operator leaves the pending
        operator as it was. */
    method SetOperator(op: string)
      modifies this
      ensures display == old(display)
      ensures firstOperand == OperandOf(host, old(display))
      ensures !isTypingNumber
      ensures currentOperator == if op in OperatorLabels then OperatorOf(op) else old(currentOperator)
      ensures Snapshot() == Engine.SetOperator(host, old(Snapshot()), op)
    {
      firstOperand := OperandOf(host, display);
      isTypingNumber := false;
      match op
      case "+" => currentOperator := Some(Add);
      case "-" => currentOperator := Some(Subtract);
      case "×" => currentOperator := Some(Multiply);
      case "÷" => currentOperator := Some(Divide);
      case _ =>
    }

    /** "=": nothing without a pending operator; otherwise shows the result of
        the pending operation on the captured operand and the displayed number
        (0 if it does not parse), or the error marker for a division by 0, and
        leaves no operator pending and number entry off. */
    method PerformCalculation()
      modifies this
      ensures old(currentOperator).None? ==> Snapshot() == old(Snapshot())
      ensures old(currentOperator).Some? ==> currentOperator == None && !isTypingNumber
      ensures old(currentOperator) == Some(Divide) && OperandOf(host, old(display)) == 0.0 ==> display == ErrorMarker
      ensures old(currentOperator).Some? && !(old(currentOperator) == Some(Divide) && OperandOf(host, old(display)) == 0.0) ==>
        display == host.format(Evaluate(old(currentOperator).value, firstOperand, OperandOf(host, old(display))).value)
      ensures firstOperand == old(firstOperand)
      ensures Snapshot() == Engine.PerformCalculation(host, old(Snapshot()))
    {
      if currentOperator.None? {
        return;
      }
      var operator1 := currentOperator.value;
      var secondOperand := OperandOf(host, display);
      match operator1 {
        case Add =>
          display := host.format(firstOperand + secondOperand);
        case Subtract =>
          display := host.format(firstOperand - secondOperand);
        case Multiply =>
          display := host.format(Product(firstOperand, secondOperand));
        case Divide =>
          display := if secondOperand != 0.0 then host.format(Quotient(firstOperand, secondOperand)) else ErrorMarker;
      }
      isTypingNumber := false;
      currentOperator := None;
    }
  }
}
