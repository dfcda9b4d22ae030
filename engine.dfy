/** The calculator's accumulator state machine as values: the four fields of the
    view's state, one transition function per button handler, the dispatcher
    (`Step`) and a whole session of presses (`Run`).

    The host's number conversions, `Double(String)` and `String(Double)`, are not
    modelled: they are the two functions of a `Host` that every operation needing
    them takes as a parameter. Arithmetic is on `real`. */
module Engine {
  import opened Labels

  datatype Option<T> = None | Some(value: T)

  /** The four binary operators of the keypad. */
  datatype Operator = Add | Subtract | Multiply | Divide

  /** The host's conversions between display text and numbers. `parse` answers
      `None` for text that is not a number (such as the error marker). */
  datatype Host = Host(parse: string -> Option<real>, format: real -> string)

  /** The view's state: the text on screen, the operand captured when an
      operator was chosen, the pending operator, and whether the user is
      composing a number. */
  datatype State = State(
    display: string,
    firstOperand: real,
    currentOperator: Option<Operator>,
    isTypingNumber: bool)

  /** What the display shows after a division by zero. */
  const ErrorMarker: string := "Error"

  /** The state when the view appears. */
  function Initial(): (s: State)
    ensures s.display == "0" && s.firstOperand == 0.0 && s.currentOperator == None && !s.isTypingNumber
  {
    State("0", 0.0, None, false)
  }

  /** A digit key: start a new number, or extend the one being typed. */
  function HandleNumber(s: State, number: string): (t: State)
    ensures t.isTypingNumber
    ensures t.display == if s.isTypingNumber then s.display + number else number
    ensures t.firstOperand == s.firstOperand && t.currentOperator == s.currentOperator
  {
    if s.isTypingNumber then s.(display := s.display + number)
    else s.(display := number, isTypingNumber := true)
  }

  /** The "." key: add a decimal point unless the display already has one. */
  function HandleDecimal(s: State): (t: State)
    ensures '.' in t.display
    ensures '.' in s.display ==> t == s
    ensures '.' !in s.display ==> t == s.(display := s.display + ".", isTypingNumber := true)
  {
    if '.' !in s.display then s.(display := s.display + ".", isTypingNumber := true)
    else s
  }

  /** The "C" key: back to the state the view starts in, whatever came before. */
  function Clear(s: State): (t: State)
    ensures t == Initial()
    ensures t.display == "0" && t.firstOperand == 0.0 && t.currentOperator == None && !t.isTypingNumber
  {
    State("0", 0.0, None, false)
  }

  /** The "±" key: negate the displayed number; nothing happens if the display
      does not parse. */
  function ToggleSign(h: Host, s: State): (t: State)
    ensures h.parse(s.display).None? ==> t == s
    ensures h.parse(s.display).Some? ==> t == s.(display := h.format(-h.parse(s.display).value))
  {
    match h.parse(s.display)
    case Some(value) => s.(display := h.format(value * -1.0))
    case None => s
  }

  /** The "%" key: divide the displayed number by 100; nothing happens if the
      display does not parse. */
  function CalculatePercentage(h: Host, s: State): (t: State)
    ensures h.parse(s.display).None? ==> t == s
    ensures h.parse(s.display).Some? ==> t == s.(display := h.format(h.parse(s.display).value / 100.0))
  {
    match h.parse(s.display)
    case Some(value) => s.(display := h.format(value / 100.0))
    case None => s
  }

  /** The operator a key stands for, if any. */
  function OperatorOf(button: string): (r: Option<Operator>)
    ensures r.Some? <==> button in OperatorLabels
    ensures r == Some(Add) <==> button == "+"
    ensures r == Some(Subtract) <==> button == "-"
    ensures r == Some(Multiply) <==> button == "×"
    ensures r == Some(Divide) <==> button == "÷"
  {
    match button
    case "+" => Some(Add)
    case "-" => Some(Subtract)
    case "×" => Some(Multiply)
    case "÷" => Some(Divide)
    case _ => None
  }

  /** The number a display stands for when an operand is needed: unparsable
      text counts as 0. */
  function OperandOf(h: Host, display: string): (v: real)
    ensures h.parse(display).Some? ==> v == h.parse(display).value
    ensures h.parse(display).None? ==> v == 0.0
  {
    match h.parse(display)
    case Some(value) => value
    case None => 0.0
  }

  /** An operator key: capture the displayed number as the first operand and
      remember the operator; the display is left as it is. A key that is not an
      operator leaves the pending operator alone. */
  function SetOperator(h: Host, s: State, button: string): (t: State)
    ensures t.display == s.display
    ensures t.firstOperand == OperandOf(h, s.display)
    ensures !t.isTypingNumber
    ensures t.currentOperator == if button in OperatorLabels then OperatorOf(button) else s.currentOperator
  {
    var t := s.(firstOperand := OperandOf(h, s.display), isTypingNumber := false);
    match OperatorOf(button)
    case Some(op) => t.(currentOperator := Some(op))
    case None => t
  }

  /** Real multiplication, the model of the floating-point product `a * b`. */
  function Product(a: real, b: real): (p: real)
  {
    a * b
  }

  /** Real division, the model of the floating-point division `a / b`. */
  function Quotient(a: real, b: real): (q: real)
    requires b != 0.0
  {
    a / b
  }

  /** The value of `a op b`, or `None` for a division by zero. */
  function Evaluate(op: Operator, a: real, b: real): (r: Option<real>)
    ensures r.None? <==> op == Divide && b == 0.0
  {
    match op
    case Add => Some(a + b)
    case Subtract => Some(a - b)
    case Multiply => Some(Product(a, b))
    case Divide => if b != 0.0 then Some(Quotient(a, b)) else None
  }

  /** The "=" key: with no pending operator nothing happens; otherwise the
      displayed number is the second operand, the display shows the result (or
      the error marker for a division by zero), and the machine waits for a new
      number with no operator pending. */
  function PerformCalculation(h: Host, s: State): (t: State)
    ensures s.currentOperator.None? ==> t == s
    ensures s.currentOperator.Some? ==> t.currentOperator.None? && !t.isTypingNumber
    ensures t.firstOperand == s.firstOperand
    ensures s.currentOperator == Some(Divide) && OperandOf(h, s.display) == 0.0 ==> t.display == ErrorMarker
    ensures s.currentOperator.Some? && Evaluate(s.currentOperator.value, s.firstOperand, OperandOf(h, s.display)).Some? ==>
      t.display == h.format(Evaluate(s.currentOperator.value, s.firstOperand, OperandOf(h, s.display)).value)
  {
    match s.currentOperator
    case None => s
    case Some(op) =>
      var second := OperandOf(h, s.display);
      var shown := match Evaluate(op, s.firstOperand, second)
                   case Some(result) => h.format(result)
                   case None => ErrorMarker;
      s.(display := shown, isTypingNumber := false, currentOperator := None)
  }

  /** The dispatcher: the cases are tried in the order the view lists them, and
      a key none of them matches changes nothing. */
  function Step(h: Host, s: State, button: string): (t: State)
    ensures t.currentOperator.Some? <==> button in OperatorLabels || (s.currentOperator.Some? && button != "C" && button != "=")
    ensures t.firstOperand != s.firstOperand ==> button in OperatorLabels || button == "C"
    ensures button in OperatorLabels ==> t.display == s.display && !t.isTypingNumber
    ensures button !in OperatorLabels + {".", "C", "±", "%", "="} && !InDigitRange(button) ==> t == s
  {
    if InDigitRange(button) then HandleNumber(s, button)
    else if button == "." then HandleDecimal(s)
    else if button == "C" then Clear(s)
    else if button == "±" then ToggleSign(h, s)
    else if button == "%" then CalculatePercentage(h, s)
    else if button in OperatorLabels then SetOperator(h, s, button)
    else if button == "=" then PerformCalculation(h, s)
    else s
  }

  /** The state after pressing the keys in order, starting from `s`. */
  function Run(h: Host, s: State, buttons: seq<string>): (t: State)
    decreases |buttons|
  {
    if buttons == [] then s else Run(h, Step(h, s, buttons[0]), buttons[1..])
  }

  /** The strings of `parts` written one after another. */
  function Concat(parts: seq<string>): (text: string)
    decreases |parts|
  {
    if parts == [] then "" else parts[0] + Concat(parts[1..])
  }
}
