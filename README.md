# Calculator accumulator state machine in Dafny

This project models the only logic of a SwiftUI calculator app: the button-event state machine in
`ContentView`. The view holds four fields:

- `display`: the text on screen
- `firstOperand`: the number captured when an operator key was pressed
- `currentOperator`: the pending operator, if any
- `isTypingNumber`: whether the user is composing a number

Each of the 19 keypad labels goes to one of seven handlers. The handlers are digit, ".", "C", "±",
"%", the four operators, and "=". A label that is neither in the digit range nor one of the nine
non-digit labels is ignored. Some strings outside the keypad, such as "10", do fall in the digit range.

Files:

- `labels.dfy` (module `Labels`): the keypad table and the dispatcher's first pattern, `"0"..."9"`.
  In Swift that pattern is a closed range of strings, compared lexicographically. The model keeps
  it as a range test. It proves which strings the range accepts ("10" does, "90" does not), and that
  within the 19 labels it accepts exactly the ten digits.
- `engine.dfy` (module `Engine`): the state as a value and one transition function per handler.
  `Step` is the dispatcher and `Run` is a session of key presses. Multiplication and division are
  written through the one-line functions `Product` and `Quotient`.
- `properties.dfy` (module `Properties`): lemmas about one or several presses. These cover digit
  concatenation after "C", idempotence of "." and "C", and no-ops on unparsable displays. They also
  cover the error marker on division by zero, the at-most-one-point invariant, when an operator is
  pending, and a few end-to-end sessions.
- `content_view.dfy` (module `Calculator`): class `ContentView`. It has the four mutable fields and
  one `modifies this` method per handler, each stating the whole new state. The dispatcher
  `HandleButtonPress` is proved to perform `Engine.Step`, so the lemmas apply to the object.

The host's conversions `Double(String)` and `String(Double)` are a `Host` value with two functions,
`parse: string -> Option<real>` and `format: real -> string`. The model assumes nothing else about
them. A lemma that needs a particular answer (say, that "7" parses to 7) takes it as a hypothesis.
Arithmetic is on `real`.

"=" with no pending operator returns before touching anything, so the typing flag keeps its value:
after "5", "=" a further "1" shows "51" (`Properties.EqualsWithoutOperatorKeepsTyping`). "=" turns
number entry off only when an operator was pending.

## Model

| member | source | states |
|---|---|---|
| `Labels.InDigitRange` | Calculator/ContentView.swift:58 | the pattern `"0"..."9"` as `"0" <= label <= "9"` on strings; a label it accepts is non-empty and starts with a character from '0' to '9' |
| `Labels.InDigitRangeIff` | Calculator/ContentView.swift:58 | the `"0"..."9"` string range accepts exactly the non-empty strings starting with '0' to '8', plus "9" itself |
| `Labels.DigitLabelsInRange` | Calculator/ContentView.swift:58 | each of the ten digit labels matches the digit case |
| `Labels.VocabularyContents` | Calculator/ContentView.swift:20-26 | the keypad table `Buttons` and the label set `Vocabulary` built from it hold exactly the ten digits, the four operators and ".", "C", "±", "%", "=" |
| `Labels.VocabularyDigitRange` | Calculator/ContentView.swift:57-59 | within the keypad vocabulary, a label takes the digit case if and only if it is one of the ten digits |
| `Labels.NonDigitKeysOutOfRange` | Calculator/ContentView.swift:58-71 | none of the nine non-digit labels falls into the digit range |
| `Labels.DigitRangeIsNotADigitTest` | Calculator/ContentView.swift:58 | outside the vocabulary the range accepts "10", "5x" and "0.5", and rejects "90", "" and "C" |
| `Engine.Initial` | Calculator/ContentView.swift:11-14 | the view starts with "0", operand 0, no operator pending, not typing |
| `Engine.HandleNumber` | Calculator/ContentView.swift:77-84 | a digit replaces the display when not typing and is appended when typing; typing is on afterwards; operand and operator are unchanged |
| `Engine.HandleDecimal` | Calculator/ContentView.swift:86-91 | afterwards the display holds a point; with a point already present the state is unchanged; otherwise "." is appended and typing turns on |
| `Engine.Clear` | Calculator/ContentView.swift:93-98 | the result is the initial state ("0", 0, no operator, not typing), whatever the state before |
| `Engine.ToggleSign` | Calculator/ContentView.swift:100-104 | unparsable display: state unchanged; otherwise only the display changes, to the host's text for the negated value |
| `Engine.CalculatePercentage` | Calculator/ContentView.swift:106-110 | unparsable display: state unchanged; otherwise only the display changes, to the host's text for the value divided by 100 |
| `Engine.OperatorOf` | Calculator/ContentView.swift:116-122 | a label has an operator if and only if it is one of "+", "-", "×", "÷", each mapped to its own operator |
| `Engine.OperandOf` | Calculator/ContentView.swift:113 | the operand is the parsed display, or 0 when the display does not parse |
| `Engine.SetOperator` | Calculator/ContentView.swift:112-123 | display unchanged, first operand is the parsed display or 0, typing off, operator set by the label (left alone for a non-operator label) |
| `Engine.Evaluate` | Calculator/ContentView.swift:129-138 | the computation fails exactly for a division by a zero second operand |
| `Engine.PerformCalculation` | Calculator/ContentView.swift:125-142 | no pending operator: state unchanged; otherwise no operator is pending and typing is off afterwards; dividing by 0 shows "Error", any other operation shows the host's text for its result; the first operand is kept |
| `Engine.Step` | Calculator/ContentView.swift:56-75 | an operator is pending afterwards exactly when the key is an operator or one was pending and the key is neither "C" nor "="; only operator keys and "C" change the operand; operator keys keep the display and stop typing; an unmatched key changes nothing (the per-case lemmas `DigitKey`, `DecimalKey`, `ClearResets`, `SignAndPercentOnlyTouchDisplay`, `OperatorKey`, `EqualsWithoutOperator`, `EqualsWithOperator`, `UnknownKeyIgnored` state each case) |
| `Properties.TypingAppends` | Calculator/ContentView.swift:77-84 | while typing, a run of keys in the digit range appends their concatenation to the display and changes nothing else |
| `Properties.DigitsAfterClear` | Calculator/ContentView.swift:77-98 | after "C", a non-empty run of digits shows exactly their concatenation (no leading-zero suppression), with operand 0, no operator, typing on |
| `Properties.DigitsAfterClearExamples` | Calculator/ContentView.swift:77-98 | "C","1","2","3" shows "123" and "C","0","5" shows "05" |
| `Properties.DigitKey` | Calculator/ContentView.swift:77-84 | a digit key through the dispatcher replaces or extends the display, turns typing on and keeps operand and operator |
| `Properties.DecimalIdempotent` | Calculator/ContentView.swift:86-91 | pressing "." twice gives the same state as pressing it once |
| `Properties.DecimalKey` | Calculator/ContentView.swift:86-91 | "." through the dispatcher is a complete no-op when a point is present, and appends "." and turns typing on otherwise |
| `Properties.ClearResets` | Calculator/ContentView.swift:93-98 | "C" resets all four fields from any state and is idempotent |
| `Properties.SignAndPercentOnlyTouchDisplay` | Calculator/ContentView.swift:100-110 | "±" and "%" leave the state unchanged on an unparsable display (such as "Error"), and otherwise change only the display, to the formatted -v or v/100 |
| `Properties.ToggleSignTwice` | Calculator/ContentView.swift:100-104 | if the host reads back its text for -v, two "±" presses show the host's text for v, which parses to v when the host reads that back too |
| `Properties.OperatorKey` | Calculator/ContentView.swift:112-123 | an operator key keeps the display, captures the parsed display or 0, stops typing and makes its own operator pending, replacing any pending one |
| `Properties.EqualsWithoutOperator` | Calculator/ContentView.swift:125-126 | "=" with no pending operator changes nothing |
| `Properties.EqualsWithOperator` | Calculator/ContentView.swift:125-142 | "=" with a pending operator clears it and stops typing; it shows "Error" exactly when dividing by 0, else the host's text for the result |
| `Properties.UnknownKeyIgnored` | Calculator/ContentView.swift:72-73 | a label outside the digit range and not one of the nine non-digit labels changes nothing |
| `Properties.AtMostOnePoint` | Calculator/ContentView.swift:86-91 | if the host never writes two points, no keypad key can make a display with at most one point hold two |
| `Properties.SessionKeepsOnePoint` | Calculator/ContentView.swift:56-142 | under the same host hypothesis, any session of keypad presses keeps at most one point in the display |
| `Properties.DivideByZeroSession` | Calculator/ContentView.swift:136-137 | "5","÷","0","=" shows "Error", and a following "7" starts a new number "7" |
| `Properties.AdditionSession` | Calculator/ContentView.swift:130-131 | "7","+","3","=" shows the host's text for 10 |
| `Properties.PercentSession` | Calculator/ContentView.swift:106-110 | "2","5","%" shows the host's text for 0.25 without "=" |
| `Properties.SecondOperatorReplacesFirst` | Calculator/ContentView.swift:112-123 | a second operator does not evaluate the first: "9","×","0","-","4","=" shows the host's text for 0 - 4 |
| `Properties.EqualsWithoutOperatorKeepsTyping` | Calculator/ContentView.swift:126 | after "5","=" typing is still on, and "1" extends the display to "51" |
| `Properties.DecimalAfterOperatorExtendsDisplay` | Calculator/ContentView.swift:86-91 | "." right after an operator extends the captured display: "7","+",".","5" shows "7.5" |
| `Properties.DecimalAfterOperatorWithPointIgnored` | Calculator/ContentView.swift:86-91 | "." after an operator is a no-op when the captured display already holds a point: "1",".","5","+","." still shows "1.5", and a further "2" shows "2" |
| `Properties.PendingOperatorSinceReset` | Calculator/ContentView.swift:93-142 | after any key sequence an operator is pending if and only if an operator key was pressed since the last "C" or "=", or one was pending before and neither "C" nor "=" was pressed |
| `Calculator.ContentView.constructor` | Calculator/ContentView.swift:11-14 | the view starts with "0", operand 0, no operator, not typing |
| `Calculator.ContentView.HandleButtonPress` | Calculator/ContentView.swift:56-75 | the new state is `Engine.Step` of the old state and the label; an unknown label leaves every field unchanged |
| `Calculator.ContentView.HandleNumber` | Calculator/ContentView.swift:77-84 | display replaced or appended to, typing on, operand and operator unchanged |
| `Calculator.ContentView.HandleDecimal` | Calculator/ContentView.swift:86-91 | a point is present afterwards; the state is unchanged if one was there; otherwise "." is appended and typing turns on |
| `Calculator.ContentView.Clear` | Calculator/ContentView.swift:93-98 | all four fields take their initial values |
| `Calculator.ContentView.ToggleSign` | Calculator/ContentView.swift:100-104 | no change on an unparsable display; otherwise only the display changes, to the formatted negation |
| `Calculator.ContentView.CalculatePercentage` | Calculator/ContentView.swift:106-110 | no change on an unparsable display; otherwise only the display changes, to the formatted value / 100 |
| `Calculator.ContentView.SetOperator` | Calculator/ContentView.swift:112-123 | display untouched, operand is the parsed display or 0, typing off, operator set by the label |
| `Calculator.ContentView.PerformCalculation` | Calculator/ContentView.swift:125-142 | no-op without an operator; otherwise the operator is cleared and typing is off; "Error" when dividing by 0, else the formatted result |

## Left out

- The SwiftUI `body` layout (Calculator/ContentView.swift:28-54) and the `CalculatorButton` view (Calculator/ContentView.swift:145-173) are presentation only.
- `Double(String)` and `String(Double)` are not modelled. They are the `parse` and `format` functions of a `Host` parameter, and nothing is assumed of them beyond their types. No result such as "7+3 shows 10.0" is claimed. Session lemmas give the result as the host's text for the exact real value.
- IEEE-754 arithmetic is replaced by exact `real` arithmetic. Rounding, infinities and NaN are not modelled, and neither is the sign of zero. In IEEE terms, a NaN second operand passes the `!= 0` test and -0.0 does not; with reals only the single zero exists.
- The digit-range test compares strings by character code. Swift's comparison of strings under Unicode canonical equivalence is not modelled. It agrees with code order for every label the keypad sends.
- `Properties.AtMostOnePoint`, `Properties.SessionKeepsOnePoint`: these hold only under the hypothesis that the host never writes two decimal points. What `String(Double)` emits is outside the model.
- The claim that the display is always a valid numeric literal or the error marker is not modelled. Whether it holds depends on the host's formatting, and on "." being appended to "Error" (which gives "Error.").
- SwiftUI's `@State` storage and re-rendering are out of scope: the class fields are plain mutable fields.
