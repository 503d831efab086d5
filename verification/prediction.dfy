/**
  The two forward predictions made for the next round: P from the parity of
  the pending digit, E from the parity of the sum of the last three digits.
 */
module Prediction {
  import opened Options
  import opened Classifier
  import opened Ledger

  /** Rounds the E prediction looks back over. */
  const ExtraWindow: nat := 3

  /** P: none before the first round, otherwise S for an even digit and B for an odd one. */
  function PredictPrimary(pending: Option<Digit>): Option<Group>
  {
    match pending
    case None => None
    case Some(d) => if d % 2 == 0 then Some(S) else Some(B)
  }

  function LastThreeSum(h: seq<Entry>): int
    requires |h| >= ExtraWindow
  {
    h[|h| - 3].userDigit + h[|h| - 2].userDigit + h[|h| - 1].userDigit
  }

  /** E: none while the ledger holds fewer than three rounds, otherwise the parity of the last three digits' sum. */
  function PredictSecondary(h: seq<Entry>): Option<Group>
  {
    if |h| < ExtraWindow then None
    else if LastThreeSum(h) % 2 == 0 then Some(S)
    else Some(B)
  }

  /** P as a table: none without a pending digit, S for 0, 2, 4, 6, 8 and B for 1, 3, 5, 7, 9. */
  lemma PrimaryPredictionTable(pending: Option<Digit>)
    ensures PredictPrimary(pending).None? <==> pending.None?
    ensures pending.Some? ==> (PredictPrimary(pending) == Some(S) <==> pending.value in {0, 2, 4, 6, 8})
    ensures pending.Some? ==> (PredictPrimary(pending) == Some(B) <==> pending.value in {1, 3, 5, 7, 9})
  {
  }

  /** How many of the given digits are odd. */
  function OddCount(ds: seq<Digit>): nat
  {
    if ds == [] then 0 else (if ds[0] % 2 == 1 then 1 else 0) + OddCount(ds[1..])
  }

  function LastThreeDigits(h: seq<Entry>): seq<Digit>
    requires |h| >= ExtraWindow
  {
    [h[|h| - 3].userDigit, h[|h| - 2].userDigit, h[|h| - 1].userDigit]
  }

  lemma OddCountOfThree(a: Digit, b: Digit, c: Digit)
    ensures OddCount([a, b, c]) == a % 2 + b % 2 + c % 2
  {
    var ds := [a, b, c];
    assert ds[1..] == [b, c] && [b, c][1..] == [c] && [c][1..] == [];
    assert OddCount([c]) == c % 2;
    assert OddCount([b, c]) == b % 2 + c % 2;
  }

  lemma SumParity(a: nat, b: nat, c: nat)
    ensures (a + b + c) % 2 == (a % 2 + b % 2 + c % 2) % 2
  {
  }

  /**
    E restated without sums: it is defined exactly from the third round on,
    and it predicts S exactly when an even number of the last three digits are odd.
   */
  lemma SecondaryPredictionByOddDigits(h: seq<Entry>)
    ensures PredictSecondary(h).None? <==> |h| < ExtraWindow
    ensures |h| >= ExtraWindow ==>
      (PredictSecondary(h) == Some(S) <==> OddCount(LastThreeDigits(h)) % 2 == 0)
  {
    if |h| >= ExtraWindow {
      var a: Digit, b: Digit, c: Digit := h[|h| - 3].userDigit, h[|h| - 2].userDigit, h[|h| - 1].userDigit;
      OddCountOfThree(a, b, c);
      SumParity(a, b, c);
      assert LastThreeSum(h) == a as int + b + c;
    }
  }

  /** E only looks at the last three rounds: older rounds never change it. */
  lemma SecondaryIgnoresOlderRounds(older: seq<Entry>, h: seq<Entry>)
    requires |h| >= ExtraWindow
    ensures PredictSecondary(older + h) == PredictSecondary(h)
  {
    var all := older + h;
    assert all[|all| - 3] == h[|h| - 3];
    assert all[|all| - 2] == h[|h| - 2];
    assert all[|all| - 1] == h[|h| - 1];
  }
}
