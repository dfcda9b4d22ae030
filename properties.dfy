/** Properties of the calculator's state machine across one or several key
    presses. Where a property depends on what the host's conversions answer
    for particular text, that answer is a hypothesis of the lemma. */
module Properties {
  import opened Labels
  import opened Engine

  /** Pressing `a` and then `b` is pressing `a` then pressing `b`. */
  lemma {:induction false} RunAppend(h: Host, s: State, a: seq<string>, b: seq<string>)
    ensures Run(h, s, a + b) == Run(h, Run(h, s, a), b)
    decreases |a|
  {
    if a != [] {
      assert (a + b)[0] == a[0] && (a + b)[1..] == a[1..] + b;
      assert Run(h, s, a + b) == Run(h, Step(h, s, a[0]), a[1..] + b);
      RunAppend(h, Step(h, s, a[0]), a[1..], b);
    } else {
      assert a + b == b;
    }
  }

  /** While a number is being typed, keys of the digit range are appended to
      the display one after another, and nothing else changes. */
  lemma {:induction false} TypingAppends(h: Host, s: State, keys: seq<string>)
    requires s.isTypingNumber
    requires forall i :: 0 <= i < |keys| ==> InDigitRange(keys[i])
    ensures Run(h, s, keys) == s.(display := s.display + Concat(keys))
    decreases |keys|
  {
    if keys == [] {
      assert s.display + Concat(keys) == s.display;
    } else {
      var next := Step(h, s, keys[0]);
      assert next == s.(display := s.display + keys[0]);
      TypingAppends(h, next, keys[1..]);
      assert s.display + keys[0] + Concat(keys[1..]) == s.display + Concat(keys);
    }
  }

  /** After "C", a run of digit keys shows exactly those digits written one
      after another: no leading zero is dropped ("0", "5" shows "05"). The
      operand and operator stay as "C" left them. */
  lemma DigitsAfterClear(h: Host, s: State, digits: seq<string>)
    requires |digits| > 0
    requires forall i :: 0 <= i < |digits| ==> digits[i] in DigitLabels
    ensures Run(h, s, ["C"] + digits) == State(Concat(digits), 0.0, None, true)
  {
    forall i | 0 <= i < |digits| ensures InDigitRange(digits[i]) {
      DigitLabelsInRange(digits[i]);
    }
    DigitLabelsInRange(digits[0]);
    var cleared := Step(h, s, "C");
    assert cleared == Initial();
    var first := Step(h, cleared, digits[0]);
    assert first == State(digits[0], 0.0, None, true);
    RunAppend(h, s, ["C"], digits);
    assert Run(h, s, ["C"]) == cleared;
    assert Run(h, cleared, digits) == Run(h, first, digits[1..]);
    TypingAppends(h, first, digits[1..]);
  }

  /** Examples: "1", "2", "3" after "C" shows "123"; "0", "5" shows "05". */
  lemma DigitsAfterClearExamples(h: Host, s: State)
    ensures Run(h, s, ["C", "1", "2", "3"]).display == "123"
    ensures Run(h, s, ["C", "0", "5"]).display == "05"
  {
  }

  /** A digit key replaces the display when no number is being typed, and
      extends it otherwise; only the display and the typing flag can change. */
  lemma DigitKey(h: Host, s: State, digit: string)
    requires digit in DigitLabels
    ensures Step(h, s, digit).display == if s.isTypingNumber then s.display + digit else digit
    ensures Step(h, s, digit).isTypingNumber
    ensures Step(h, s, digit).firstOperand == s.firstOperand
    ensures Step(h, s, digit).currentOperator == s.currentOperator
  {
    DigitLabelsInRange(digit);
  }

  /** Pressing "." twice in a row is the same as pressing it once. */
  lemma DecimalIdempotent(h: Host, s: State)
    ensures Step(h, Step(h, s, "."), ".") == Step(h, s, ".")
  {
  }

  /** "." adds one point to a display without one, and changes nothing at all
      when the display already has one. */
  lemma DecimalKey(h: Host, s: State)
    ensures '.' in s.display ==> Step(h, s, ".") == s
    ensures '.' !in s.display ==> Step(h, s, ".") == s.(display := s.display + ".", isTypingNumber := true)
  {
  }

  /** "C" resets all four fields, from any state; pressing it again changes nothing. */
  lemma ClearResets(h: Host, s: State)
    ensures Step(h, s, "C") == State("0", 0.0, None, false)
    ensures Step(h, Step(h, s, "C"), "C") == Step(h, s, "C")
  {
  }

  /** "±" and "%" change nothing when the display is not a number (for
      instance the error marker), and otherwise change only the display. */
  lemma SignAndPercentOnlyTouchDisplay(h: Host, s: State, button: string)
    requires button == "±" || button == "%"
    ensures h.parse(s.display).None? ==> Step(h, s, button) == s
    ensures h.parse(s.display).Some? ==>
      var v := h.parse(s.display).value;
      Step(h, s, button) == s.(display := h.format(if button == "±" then -v else v / 100.0))
  {
  }

  /** "±" pressed twice shows the host's text for the number first displayed,
      provided the host reads back the text it writes for the negated value; if
      it also reads back its text for the number itself, that number is what
      the display parses to again. */
  lemma ToggleSignTwice(h: Host, s: State, v: real)
    requires h.parse(s.display) == Some(v)
    requires h.parse(h.format(-v)) == Some(-v)
    ensures Run(h, s, ["±", "±"]).display == h.format(v)
    ensures h.parse(h.format(v)) == Some(v) ==> h.parse(Run(h, s, ["±", "±"]).display) == Some(v)
  {
  }

  /** An operator key never changes the display, captures the displayed
      number (0 if it does not parse), stops number entry and makes its own
      operator the pending one, replacing any operator already pending. */
  lemma OperatorKey(h: Host, s: State, button: string)
    requires button in OperatorLabels
    ensures Step(h, s, button).display == s.display
    ensures Step(h, s, button).firstOperand == (if h.parse(s.display).Some? then h.parse(s.display).value else 0.0)
    ensures !Step(h, s, button).isTypingNumber
    ensures Step(h, s, button).currentOperator ==
      Some(if button == "+" then Add else if button == "-" then Subtract else if button == "×" then Multiply else Divide)
  {
  }

  /** "=" with no pending operator changes nothing. */
  lemma EqualsWithoutOperator(h: Host, s: State)
    requires s.currentOperator.None?
    ensures Step(h, s, "=") == s
  {
  }

  /** "=" with a pending operator leaves no operator pending and number entry
      off; it shows the error marker exactly for a division by a second operand
      of 0, and the formatted result otherwise. */
  lemma EqualsWithOperator(h: Host, s: State, op: Operator)
    requires s.currentOperator == Some(op)
    ensures Step(h, s, "=").currentOperator == None
    ensures !Step(h, s, "=").isTypingNumber
    ensures Step(h, s, "=").firstOperand == s.firstOperand
    ensures op == Divide && OperandOf(h, s.display) == 0.0 ==> Step(h, s, "=").display == ErrorMarker
    ensures !(op == Divide && OperandOf(h, s.display) == 0.0) ==>
      Step(h, s, "=").display == h.format(Evaluate(op, s.firstOperand, OperandOf(h, s.display)).value)
  {
  }

  /** A key that is neither in the digit range nor one of the nine non-digit
      labels (the four operators and ".", "C", "±", "%", "=") changes nothing. */
  lemma UnknownKeyIgnored(h: Host, s: State, button: string)
    requires !InDigitRange(button)
    requires button !in OperatorLabels + {".", "C", "±", "%", "="}
    ensures Step(h, s, button) == s
  {
  }

  /** The number of decimal points in a text. */
  function Points(text: string): (n: nat)
  {
    multiset(text)['.']
  }

  /** Hypothesis on the host: it never writes more than one decimal point. */
  ghost predicate FormatsWithOnePointAtMost(h: Host)
  {
    forall r: real :: Points(h.format(r)) <= 1
  }

  /** If the host never writes two decimal points, no key of the keypad can
      make the display hold two. */
  lemma AtMostOnePoint(h: Host, s: State, button: string)
    requires FormatsWithOnePointAtMost(h)
    requires button in Vocabulary
    requires Points(s.display) <= 1
    ensures Points(Step(h, s, button).display) <= 1
  {
  }

  /** The same along a whole session of keypad presses, from any state whose
      display has at most one point (the initial "0" has none). */
  lemma {:induction false} SessionKeepsOnePoint(h: Host, s: State, buttons: seq<string>)
    requires FormatsWithOnePointAtMost(h)
    requires forall i :: 0 <= i < |buttons| ==> buttons[i] in Vocabulary
    requires Points(s.display) <= 1
    ensures Points(Run(h, s, buttons).display) <= 1
    decreases |buttons|
  {
    if buttons != [] {
      AtMostOnePoint(h, s, buttons[0]);
      SessionKeepsOnePoint(h, Step(h, s, buttons[0]), buttons[1..]);
    }
  }

  /** "5", "÷", "0", "=" shows the error marker, and a digit afterwards
      starts a new number. */
  lemma DivideByZeroSession(h: Host)
    requires h.parse("0") == Some(0.0)
    ensures Run(h, Initial(), ["5", "÷", "0", "="]).display == ErrorMarker
    ensures Run(h, Initial(), ["5", "÷", "0", "=", "7"]).display == "7"
  {
  }

  /** "7", "+", "3", "=" shows the host's text for 7 + 3. */
  lemma AdditionSession(h: Host)
    requires h.parse("7") == Some(7.0) && h.parse("3") == Some(3.0)
    ensures Run(h, Initial(), ["7", "+", "3", "="]).display == h.format(10.0)
  {
  }

  /** "2", "5", "%" shows the host's text for 25 / 100 with no "=" needed. */
  lemma PercentSession(h: Host)
    requires h.parse("25") == Some(25.0)
    ensures Run(h, Initial(), ["2", "5", "%"]).display == h.format(0.25)
  {
    DigitLabelsInRange("2");
    DigitLabelsInRange("5");
    NonDigitKeysOutOfRange("%");
    var s1 := Step(h, Initial(), "2");
    var s2 := Step(h, s1, "5");
    assert s2.display == "25";
    var s3 := Step(h, s2, "%");
    assert Run(h, Initial(), ["2", "5", "%"]) == s3 by {
      assert Run(h, s3, []) == s3;
    }
  }

  /** A second operator before "=" does not evaluate the first one: "9", "×",
      "0", "-", "4", "=" captures 0 as the new first operand and shows 0 - 4. */
  lemma SecondOperatorReplacesFirst(h: Host)
    requires h.parse("0") == Some(0.0) && h.parse("4") == Some(4.0)
    ensures Run(h, Initial(), ["9", "×", "0", "-", "4", "="]).display == h.format(-4.0)
  {
  }

  /** "=" with no pending operator keeps number entry on: after "5", "=" the
      user is still typing, and a further "1" extends the display to "51". */
  lemma EqualsWithoutOperatorKeepsTyping(h: Host)
    ensures Run(h, Initial(), ["5", "="]).isTypingNumber
    ensures Run(h, Initial(), ["5", "=", "1"]).display == "51"
  {
  }

  /** "." right after an operator extends the display that was captured as the
      first operand instead of starting a new number: "7", "+", ".", "5" shows
      "7.5". */
  lemma DecimalAfterOperatorExtendsDisplay(h: Host)
    ensures Run(h, Initial(), ["7", "+", ".", "5"]).display == "7.5"
  {
  }

  /** The twin of the case above: when the captured display already holds a
      point, "." after an operator does nothing, so "1", ".", "5", "+", ".", "2"
      shows "2" rather than a number with a fractional part. */
  lemma DecimalAfterOperatorWithPointIgnored(h: Host)
    ensures Run(h, Initial(), ["1", ".", "5", "+", "."]).display == "1.5"
    ensures Run(h, Initial(), ["1", ".", "5", "+", ".", "2"]).display == "2"
  {
    DigitLabelsInRange("1");
    DigitLabelsInRange("5");
    DigitLabelsInRange("2");
    NonDigitKeysOutOfRange("+");
    NonDigitKeysOutOfRange(".");
    var s1 := Step(h, Initial(), "1");
    var s2 := Step(h, s1, ".");
    var s3 := Step(h, s2, "5");
    assert s3.display == "1.5";
    var s4 := Step(h, s3, "+");
    assert !s4.isTypingNumber;
    var s5 := Step(h, s4, ".");
    assert s5 == s4;
    var s6 := Step(h, s5, "2");
    assert s6.display == "2";
    assert Run(h, Initial(), ["1", ".", "5", "+", "."]) == s5 by {
      assert Run(h, s5, []) == s5;
    }
    assert Run(h, Initial(), ["1", ".", "5", "+", ".", "2"]) == s6 by {
      assert Run(h, s6, []) == s6;
    }
  }

  /** The keys that drop a pending operator. */
  predicate Resets(button: string)
  {
    button == "C" || button == "="
  }

  /** Some operator key was pressed and no "C" or "=" came after it. */
  ghost predicate OperatorSinceReset(buttons: seq<string>)
  {
    exists i :: 0 <= i < |buttons| && buttons[i] in OperatorLabels &&
      forall j :: i < j < |buttons| ==> !Resets(buttons[j])
  }

  /** No "C" and no "=" among the keys. */
  ghost predicate NoReset(buttons: seq<string>)
  {
    forall j :: 0 <= j < |buttons| ==> !Resets(buttons[j])
  }

  /** An operator is pending after a session exactly when an operator key was
      pressed since the last "C" or "=", or one was already pending and no "C"
      or "=" was pressed at all. This holds for every key string, not only the
      keypad's. */
  lemma {:induction false} PendingOperatorSinceReset(h: Host, s: State, buttons: seq<string>)
    ensures Run(h, s, buttons).currentOperator.Some? <==>
      OperatorSinceReset(buttons) || (s.currentOperator.Some? && NoReset(buttons))
    decreases |buttons|
  {
    if buttons != [] {
      var n := |buttons| - 1;
      var prefix, last := buttons[..n], buttons[n];
      assert buttons == prefix + [last];
      RunAppend(h, s, prefix, [last]);
      PendingOperatorSinceReset(h, s, prefix);
      var p := Run(h, s, prefix);
      assert Run(h, s, buttons) == Step(h, p, last) by {
        assert Run(h, p, [last]) == Run(h, Step(h, p, last), []);
      }
      if last in OperatorLabels {
        assert OperatorSinceReset(buttons) by {
          assert buttons[n] in OperatorLabels;
        }
      } else if Resets(last) {
        assert !NoReset(buttons) by {
          assert Resets(buttons[n]);
        }
      } else {
        assert NoReset(buttons) <==> NoReset(prefix) by {
          if NoReset(prefix) {
            forall j | 0 <= j < |buttons| ensures !Resets(buttons[j]) {
              if j < n { assert buttons[j] == prefix[j]; }
            }
          }
          if NoReset(buttons) {
            forall j | 0 <= j < |prefix| ensures !Resets(prefix[j]) {
              assert buttons[j] == prefix[j];
            }
          }
        }
        assert OperatorSinceReset(buttons) <==> OperatorSinceReset(prefix) by {
          if OperatorSinceReset(buttons) {
            var i :| 0 <= i < |buttons| && buttons[i] in OperatorLabels &&
              forall j :: i < j < |buttons| ==> !Resets(buttons[j]);
            assert i < n && prefix[i] == buttons[i];
            forall j | i < j < |prefix| ensures !Resets(prefix[j]) {
              assert prefix[j] == buttons[j];
            }
          }
          if OperatorSinceReset(prefix) {
            var i :| 0 <= i < |prefix| && prefix[i] in OperatorLabels &&
              forall j :: i < j < |prefix| ==> !Resets(prefix[j]);
            assert buttons[i] == prefix[i];
            forall j | i < j < |buttons| ensures !Resets(buttons[j]) {
              if j < n { assert buttons[j] == prefix[j]; }
            }
          }
        }
      }
    }
  }
}
