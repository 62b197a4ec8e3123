/** What is sent on a run's output channel. A message is kept apart from its text, because a
    step may print a line that reads like one of the executor's own messages. */
module Messages {

  datatype Msg =
    | StageStarted(stage: string)
    | StepStarted(step: string)
    | StepPassed(step: string)
    | StagePassed(stage: string)
    | TimeoutNotice(seconds: int, script: string)
    | CancelNotice
    | Line(text: string)
    | Note(text: string)
    | PassBanner
    | FailBanner

  const RULE := "\n" + "=============================================" + "\n"

  function Digits(n: nat): string {
    (if n < 10 then [] else Digits(n / 10)) + [('0' as int + n % 10) as char]
  }

  function Decimal(n: int): string {
    if n < 0 then "-" + Digits(-n) else Digits(n)
  }

  /** The text of a message, as handed to the output channel. */
  function Text(m: Msg): string {
    match m
    case StageStarted(stage) => "    |    Executing pipeline stage '" + stage + "'\n"
    case StepStarted(step) => "    |    |    Executing step '" + step + "'\n"
    case StepPassed(step) => "    |    |    STEP '" + step + "' PASSED\n"
    case StagePassed(stage) => "    |    STAGE '" + stage + "' PASSED\n"
    case TimeoutNotice(seconds, script) =>
      "step execution timed out in " + Decimal(seconds) + " seconds, script: '" + script + "'"
    case CancelNotice => "step execution cancelled by user"
    case Line(text) => text + "\n"
    case Note(text) => text
    case PassBanner => RULE + "PASS || Executed pipeline steps successfully." + RULE
    case FailBanner => RULE + "FAIL || Pipeline execution failed." + RULE
  }

  /** The number that a text of decimal digits stands for. */
  function Value(s: string): int {
    if s == "" then 0 else 10 * Value(s[..|s| - 1]) + (s[|s| - 1] as int - '0' as int)
  }

  lemma {:induction false} DigitsHaveValue(n: nat)
    ensures Value(Digits(n)) == n && Digits(n) != ""
    ensures forall c <- Digits(n) :: '0' <= c <= '9'
    ensures n > 0 ==> Digits(n)[0] != '0'
  {
    var s := Digits(n);
    assert s[|s| - 1] == ('0' as int + n % 10) as char;
    if n >= 10 {
      DigitsHaveValue(n / 10);
      assert s[..|s| - 1] == Digits(n / 10);
    } else {
      assert s[..0] == "";
    }
  }

  /** Numbers are printed in decimal notation, without leading zeros. */
  lemma DecimalIsRight(n: int)
    ensures n >= 0 ==> Value(Decimal(n)) == n && (Decimal(n)[0] == '0' ==> n == 0)
    ensures n < 0 ==> Decimal(n) != "" && Decimal(n)[0] == '-' && Value(Decimal(n)[1..]) == -n
  {
    DigitsHaveValue(if n >= 0 then n else -n);
  }
}
