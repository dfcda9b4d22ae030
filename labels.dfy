/** The button labels of the calculator and the way the dispatcher classifies them.

    The dispatcher's first case is the Swift pattern `"0"..."9"`, a closed range of
    strings: a label matches it when it lies between "0" and "9" in the string order,
    which for the characters used here is the lexicographic order of their code points.
    That is not a single-character test ("10" and "5x" lie in the range), so it is
    modelled as the range test it is, and the lemmas below show what it accepts. */
module Labels {

  /** The keypad, row by row, as laid out on screen. */
  const Buttons: seq<seq<string>> := [
    ["C", "±", "%", "÷"],
    ["7", "8", "9", "×"],
    ["4", "5", "6", "-"],
    ["1", "2", "3", "+"],
    ["0", ".", "="]
  ]

  /** Every label the keypad can send. */
  const Vocabulary: set<string> := set i, j | 0 <= i < |Buttons| && 0 <= j < |Buttons[i]| :: Buttons[i][j]

  const DigitLabels: set<string> := {"0", "1", "2", "3", "4", "5", "6", "7", "8", "9"}

  const OperatorLabels: set<string> := {"+", "-", "×", "÷"}

  /** Swift's `a <= b` on strings: lexicographic, a proper prefix comes first. */
  predicate LexLessOrEqual(a: string, b: string)
  {
    if |a| == 0 then true
    else if |b| == 0 then false
    else if a[0] != b[0] then a[0] < b[0]
    else LexLessOrEqual(a[1..], b[1..])
  }

  /** The pattern `"0"..."9"`, i.e. `"0" <= button && button <= "9"`. */
  predicate InDigitRange(button: string)
    ensures InDigitRange(button) ==> |button| > 0 && '0' <= button[0] <= '9'
  {
    LexLessOrEqual("0", button) && LexLessOrEqual(button, "9")
  }

  /** The range accepts exactly the non-empty strings whose first character is
      one of '0' to '8', plus the string "9" itself (anything longer starting
      with '9' sorts after "9"). */
  lemma InDigitRangeIff(button: string)
    ensures InDigitRange(button) <==> |button| > 0 && ('0' <= button[0] < '9' || button == "9")
  {
    if |button| > 0 {
      assert LexLessOrEqual("0", button) <==> '0' <= button[0] by {
        if button[0] == '0' { assert LexLessOrEqual("0"[1..], button[1..]); }
      }
      if button[0] == '9' {
        assert LexLessOrEqual(button, "9") == LexLessOrEqual(button[1..], "9"[1..]);
        assert "9"[1..] == [];
        assert button == "9" <==> |button[1..]| == 0;
      }
    }
  }

  /** Each of the ten digit labels lies in the range. */
  lemma DigitLabelsInRange(button: string)
    requires button in DigitLabels
    ensures InDigitRange(button)
  {
  }

  /** The keypad sends exactly nineteen distinct labels: the ten digits, the
      four operators and ".", "C", "±", "%", "=". */
  lemma VocabularyContents()
    ensures Vocabulary == DigitLabels + OperatorLabels + {".", "C", "±", "%", "="}
  {
    var rest := {".", "C", "±", "%", "="};
    forall l | l in Vocabulary ensures l in DigitLabels + OperatorLabels + rest {
      var i, j :| 0 <= i < |Buttons| && 0 <= j < |Buttons[i]| && Buttons[i][j] == l;
    }
    forall l | l in DigitLabels + OperatorLabels + rest ensures l in Vocabulary {
      var p :=
        if l == "C" then (0, 0) else if l == "±" then (0, 1) else if l == "%" then (0, 2) else if l == "÷" then (0, 3)
        else if l == "7" then (1, 0) else if l == "8" then (1, 1) else if l == "9" then (1, 2) else if l == "×" then (1, 3)
        else if l == "4" then (2, 0) else if l == "5" then (2, 1) else if l == "6" then (2, 2) else if l == "-" then (2, 3)
        else if l == "1" then (3, 0) else if l == "2" then (3, 1) else if l == "3" then (3, 2) else if l == "+" then (3, 3)
        else if l == "0" then (4, 0) else if l == "." then (4, 1) else (4, 2);
      assert Buttons[p.0][p.1] == l;
    }
  }

  /** Within the keypad's vocabulary the range test picks out exactly the ten digits. */
  lemma VocabularyDigitRange(button: string)
    requires button in Vocabulary
    ensures InDigitRange(button) <==> button in DigitLabels
  {
  }

  lemma NonDigitKeysOutOfRange(button: string)
    requires button in OperatorLabels + {".", "C", "±", "%", "="}
    ensures !InDigitRange(button) && button !in DigitLabels
  {
  }

  /** Outside the vocabulary the range is wider than the digits: multi-character
      strings starting with '0' to '8' match it, strings longer than one character
      starting with '9' do not. */
  lemma DigitRangeIsNotADigitTest()
    ensures InDigitRange("10") && InDigitRange("5x") && InDigitRange("0.5")
    ensures !InDigitRange("90") && !InDigitRange("") && !InDigitRange("C")
  {
  }
}
