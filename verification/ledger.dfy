/**
  The history ledger: one immutable entry per submitted round, and the
  (roll, round) positions that rounds occupy.
 */
module Ledger {
  import opened Options
  import opened Classifier

  /** Rounds in one roll; the round counter cycles 1..RoundsPerRoll. */
  const RoundsPerRoll: int := 10

  /**
    One round of the ledger. `prediction` and `extraPrediction` are the P and E
    predictions that were pending before `userDigit` was known; `rollNumber` and
    `roundInRoll` are the position the round was played at.
   */
  datatype Entry = Entry(
    priorDigit: Option<Digit>,
    prediction: Option<Group>,
    extraPrediction: Option<Group>,
    userDigit: Digit,
    targetGroup: Group,
    isCorrect: bool,
    isExtraCorrect: bool,
    rollNumber: int,
    roundInRoll: int,
    sumRemainder: int,
    timestamp: string)

  /** The target-group sequence of a ledger (the original joins it into a string). */
  function Groups(h: seq<Entry>): (g: seq<Group>)
    ensures |g| == |h|
    ensures forall i :: 0 <= i < |h| ==> g[i] == h[i].targetGroup
  {
    if h == [] then [] else Groups(h[..|h| - 1]) + [h[|h| - 1].targetGroup]
  }

  /** The digit of the most recent round, if any. */
  function LastDigit(h: seq<Entry>): Option<Digit>
  {
    if h == [] then None else Some(h[|h| - 1].userDigit)
  }

  datatype Position = Position(roll: int, round: int)

  function PositionOf(e: Entry): Position
  {
    Position(e.rollNumber, e.roundInRoll)
  }

  /** Lexicographic order on (roll, round). */
  predicate Earlier(p: Position, q: Position)
  {
    p.roll < q.roll || (p.roll == q.roll && p.round < q.round)
  }

  /** The position after `p`: the round counter wraps from 10 to 1 and bumps the roll. */
  function Advance(p: Position): Position
  {
    if p.round == RoundsPerRoll then Position(p.roll + 1, 1) else Position(p.roll, p.round + 1)
  }

  /** Where a fresh game starts. */
  const FirstPosition: Position := Position(1, 1)

  /** The position of the n-th round (counting from 0) of a game started fresh. */
  function PositionAfter(n: nat): Position
  {
    if n == 0 then FirstPosition else Advance(PositionAfter(n - 1))
  }

  /** Round n of a fresh game is round n mod 10 + 1 of roll n div 10 + 1. */
  lemma {:induction false} PositionAfterClosedForm(n: nat)
    ensures PositionAfter(n) == Position(n / RoundsPerRoll + 1, n % RoundsPerRoll + 1)
  {
    if n > 0 {
      PositionAfterClosedForm(n - 1);
      if (n - 1) % RoundsPerRoll == RoundsPerRoll - 1 {
        assert n / RoundsPerRoll == (n - 1) / RoundsPerRoll + 1;
        assert n % RoundsPerRoll == 0;
      } else {
        assert n / RoundsPerRoll == (n - 1) / RoundsPerRoll;
        assert n % RoundsPerRoll == (n - 1) % RoundsPerRoll + 1;
      }
    }
  }

  /** The round counter of a fresh game stays in 1..10 and the roll is at least 1. */
  lemma PositionAfterInRange(n: nat)
    ensures 1 <= PositionAfter(n).round <= RoundsPerRoll
    ensures 1 <= PositionAfter(n).roll
  {
    PositionAfterClosedForm(n);
  }

  /** Later rounds of a fresh game have strictly later (roll, round) positions. */
  lemma {:induction false} PositionsIncrease(i: nat, j: nat)
    requires i < j
    ensures Earlier(PositionAfter(i), PositionAfter(j))
    decreases j
  {
    PositionAfterInRange(j - 1);
    if i < j - 1 {
      PositionsIncrease(i, j - 1);
    }
  }
}
