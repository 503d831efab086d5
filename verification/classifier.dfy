/**
  Digits and the binary target group ("Small"/"Big") a digit falls in.
  The group of a digit is the only thing the pattern detectors look at.
 */
module Classifier {

  /** A single decimal digit: the only value a round accepts. */
  type Digit = d: int | 0 <= d <= 9

  /** The target group of a digit, printed as `S` or `B`. */
  datatype Group = S | B

  /** Digits from this one upward are Big. */
  const BigFrom: int := 5

  /** The target group of a digit: 0..4 are Small, 5..9 are Big. */
  function GroupOf(d: Digit): Group
  {
    if d >= BigFrom then B else S
  }

  /** The group's one-letter display form. */
  function GroupChar(g: Group): char
  {
    match g
    case S => 'S'
    case B => 'B'
  }

  /** The digits of each group: exactly 0..4 are Small and exactly 5..9 are Big. */
  lemma GroupPreimages()
    ensures (set d: int | 0 <= d <= 9 && GroupOf(d) == S) == {0, 1, 2, 3, 4}
    ensures (set d: int | 0 <= d <= 9 && GroupOf(d) == B) == {5, 6, 7, 8, 9}
  {
  }

  /** The classifier is monotone: a larger digit is never in a smaller group. */
  lemma GroupOfMonotone(d: Digit, e: Digit)
    requires d <= e
    ensures GroupOf(d) == B ==> GroupOf(e) == B
    ensures GroupOf(e) == S ==> GroupOf(d) == S
  {
  }

  /** The display letter determines the group. */
  lemma GroupCharInjective(g: Group, h: Group)
    ensures GroupChar(g) == GroupChar(h) <==> g == h
  {
  }
}
