/**
  The submission guard: a value is accepted only when it is exactly one
  character from `0` to `9`, and it then stands for that digit.
 */
module Input {
  import opened Options
  import opened Classifier
  import opened Text

  /** The digit a submitted value stands for, or None when the guard rejects it. */
  function ParseDigitText(value: string): Option<Digit>
  {
    if |value| == 1 && IsDigitChar(value[0]) then Some(value[0] as int - '0' as int) else None
  }

  /** The guard accepts exactly the one-character digit strings. */
  lemma ParseDigitTextAccepts(value: string)
    ensures ParseDigitText(value).Some? <==> |value| == 1 && '0' <= value[0] <= '9'
  {
  }

  /** Printing a digit and submitting it gives the digit back. */
  lemma ParseDigitTextRoundTrip(d: Digit)
    ensures ParseDigitText([DigitChar(d)]) == Some(d)
  {
  }

  /** An accepted value is the printed form of the digit it stands for. */
  lemma ParseDigitTextInverse(value: string)
    requires ParseDigitText(value).Some?
    ensures value == [DigitChar(ParseDigitText(value).value)]
  {
  }
}
