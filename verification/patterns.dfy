/**
 * The four regular expressions the agents match against text, each written
 * out as "does the pattern match at offset i, and what does it capture",
 * together with the leftmost-offset search that `String.prototype.match`
 * and `RegExp.prototype.test` perform for a non-global expression.
 */
module Patterns {
  import opened Optional
  import opened Strings

  /**
   * The first offset from `i` on at which `at` matches, with what it yields.
   * Offsets run up to and including `|s|`, where only an empty match could sit.
   */
  function Leftmost<T>(s: string, i: nat, at: nat -> Option<T>): (r: Option<(nat, T)>)
    requires i <= |s|
    ensures r.Some? ==> i <= r.value.0 <= |s| && at(r.value.0) == Some(r.value.1)
    ensures r.Some? ==> forall j :: i <= j < r.value.0 ==> at(j).None?
    ensures r.None? ==> forall j :: i <= j <= |s| ==> at(j).None?
    decreases |s| - i
  {
    match at(i)
    case Some(v) => Some((i, v))
    case None => if i == |s| then None else Leftmost(s, i + 1, at)
  }

  /** The ASCII keyword `word` (given in lower case) occurs at offset `i`, in any case. */
  predicate KeywordAt(s: string, i: nat, word: string)
  {
    i + |word| <= |s| && Lower(s[i..i + |word|]) == word
  }

  /** Every character of `t` is a decimal digit. */
  predicate AllDigits(t: string)
  {
    forall k :: 0 <= k < |t| ==> IsDigit(t[k])
  }

  // ---------------------------------------------------------------------
  // /grade\s*(\d+)|(\d+)th\s*grade/i — the grade a learner mentions
  // ---------------------------------------------------------------------

  /**
   * The digits the grade pattern captures when it matches at offset `i`:
   * the first alternative ("grade 7") is tried before the second ("7th grade").
   */
  function GradeAt(s: string, i: nat): Option<string>
  {
    var j := i + 5 + Run(s, i + 5, IsSpace);
    var d := Run(s, i, IsDigit);
    var k := i + d + 2;
    if KeywordAt(s, i, "grade") && Run(s, j, IsDigit) > 0 then
      Some(s[j..j + Run(s, j, IsDigit)])
    else if d > 0 && KeywordAt(s, i + d, "th") && KeywordAt(s, k + Run(s, k, IsSpace), "grade") then
      Some(s[i..i + d])
    else
      None
  }

  /** What the grade pattern captures always is a non-empty run of digits. */
  lemma GradeAtIsDigits(s: string, i: nat)
    ensures GradeAt(s, i).Some? ==> |GradeAt(s, i).value| > 0 && AllDigits(GradeAt(s, i).value)
  {
  }

  /**
   * `s.match(gradePattern)` reduced to its capture: the digits of the
   * leftmost match, `None` when the pattern matches nowhere.
   */
  function GradeIn(s: string): (r: Option<string>)
    ensures r.None? <==> forall i :: 0 <= i <= |s| ==> GradeAt(s, i).None?
    ensures r.Some? ==> |r.value| > 0 && AllDigits(r.value)
    ensures r.Some? ==> exists i :: 0 <= i <= |s| && GradeAt(s, i) == r && forall j :: 0 <= j < i ==> GradeAt(s, j).None?
  {
    var at := (i: nat) => GradeAt(s, i);
    match Leftmost(s, 0, at)
    case None =>
      assert forall i :: 0 <= i <= |s| ==> at(i) == GradeAt(s, i);
      None
    case Some(m) =>
      assert at(m.0) == GradeAt(s, m.0);
      assert forall j :: 0 <= j < m.0 ==> at(j) == GradeAt(s, j);
      GradeAtIsDigits(s, m.0);
      Some(m.1)
  }

  // ---------------------------------------------------------------------
  // /step\s*(\d+)|first|second|third|next|finally/i — a tutoring step cue
  // ---------------------------------------------------------------------

  /** The text the step pattern matches at offset `i`, tried alternative by alternative. */
  function StepAt(s: string, i: nat): Option<string>
  {
    var sp := Run(s, i + 4, IsSpace);
    var d := Run(s, i + 4 + sp, IsDigit);
    if KeywordAt(s, i, "step") && d > 0 then Some(s[i..i + 4 + sp + d])
    else if KeywordAt(s, i, "first") then Some(s[i..i + 5])
    else if KeywordAt(s, i, "second") then Some(s[i..i + 6])
    else if KeywordAt(s, i, "third") then Some(s[i..i + 5])
    else if KeywordAt(s, i, "next") then Some(s[i..i + 4])
    else if KeywordAt(s, i, "finally") then Some(s[i..i + 7])
    else None
  }

  /** `s.match(stepPattern)` reduced to the whole matched text of the leftmost match. */
  function StepIn(s: string): (r: Option<string>)
    ensures r.None? <==> forall i :: 0 <= i <= |s| ==> StepAt(s, i).None?
    ensures r.Some? ==> exists i :: 0 <= i <= |s| && StepAt(s, i) == r && forall j :: 0 <= j < i ==> StepAt(s, j).None?
  {
    var at := (i: nat) => StepAt(s, i);
    match Leftmost(s, 0, at)
    case None =>
      assert forall i :: 0 <= i <= |s| ==> at(i) == StepAt(s, i);
      None
    case Some(m) =>
      assert at(m.0) == StepAt(s, m.0);
      assert forall j :: 0 <= j < m.0 ==> at(j) == StepAt(s, j);
      Some(m.1)
  }

  // ---------------------------------------------------------------------
  // /\d+\s*[+\-×÷]\s*\d+/ — a binary arithmetic expression
  // ---------------------------------------------------------------------

  /** One of the four operator characters `+ - × ÷`. */
  predicate IsOperator(c: char)
  {
    c == '+' || c == '-' || c == '\U{D7}' || c == '\U{F7}'
  }

  /** The text the arithmetic pattern matches at offset `i`. */
  function ArithmeticAt(s: string, i: nat): Option<string>
  {
    var j := i + Run(s, i, IsDigit);
    var op := j + Run(s, j, IsSpace);
    var k := op + 1 + Run(s, op + 1, IsSpace);
    var d := Run(s, k, IsDigit);
    if Run(s, i, IsDigit) > 0 && op < |s| && IsOperator(s[op]) && d > 0 then Some(s[i..k + d])
    else None
  }

  /** `arithmeticPattern.test(s)`: the pattern matches at some offset. */
  function HasArithmetic(s: string): (r: bool)
    ensures r <==> exists i :: 0 <= i <= |s| && ArithmeticAt(s, i).Some?
  {
    var at := (i: nat) => ArithmeticAt(s, i);
    var m := Leftmost(s, 0, at);
    if m.Some? then
      assert at(m.value.0) == ArithmeticAt(s, m.value.0);
      true
    else
      assert forall i :: 0 <= i <= |s| ==> at(i) == ArithmeticAt(s, i);
      false
  }

  // ---------------------------------------------------------------------
  // /\d+(?:\.\d+)?/ — a number in a learner's answer
  // ---------------------------------------------------------------------

  /** The text the number pattern matches at offset `i`: digits, then an optional decimal part. */
  function NumberAt(s: string, i: nat): Option<string>
  {
    var d := Run(s, i, IsDigit);
    var f := Run(s, i + d + 1, IsDigit);
    if d == 0 then None
    else if i + d < |s| && s[i + d] == '.' && f > 0 then Some(s[i..i + d + 1 + f])
    else Some(s[i..i + d])
  }

  /** `s.match(numberPattern)` succeeds exactly when `s` holds a decimal digit somewhere. */
  function HasNumber(s: string): (r: bool)
    ensures r <==> exists k :: 0 <= k < |s| && IsDigit(s[k])
  {
    var at := (i: nat) => NumberAt(s, i);
    var m := Leftmost(s, 0, at);
    if m.Some? then
      assert at(m.value.0) == NumberAt(s, m.value.0);
      assert IsDigit(s[m.value.0]);
      true
    else
      assert forall k :: 0 <= k < |s| ==> at(k) == NumberAt(s, k);
      assert forall k :: 0 <= k < |s| ==> NumberAt(s, k).None? ==> !IsDigit(s[k]);
      false
  }
}
