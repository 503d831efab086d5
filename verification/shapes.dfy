/**
  The three pattern shapes both detectors look for in a run of target groups.
 */
module Shapes {
  import opened Classifier

  datatype PatternKind = Streak | SingleAlternating | DoubleAlternating

  /** Every label is the first one (the original tests that the labels form a one-element set). */
  predicate IsStreak(w: seq<Group>)
  {
    forall k :: 0 <= k < |w| ==> w[k] == w[0]
  }

  /** No two neighbouring labels (positions i and j = i + 1) are equal. */
  predicate IsSingleAlternating(w: seq<Group>)
  {
    forall i, j :: 0 <= i < |w| && 0 <= j < |w| && j == i + 1 ==> w[i] != w[j]
  }

  /** The fixed double-alternating literals of each length the detectors use. */
  function DoubleAltLiterals(n: nat): set<seq<Group>>
  {
    if n == 4 then {[S, S, B, B], [B, B, S, S]}
    else if n == 6 then {[S, S, B, B, S, S], [B, B, S, S, B, B]}
    else if n == 8 then {[S, S, B, B, S, S, B, B], [B, B, S, S, B, B, S, S]}
    else {}
  }

  /**
    Reference shape of a double-alternating run: labels come in equal pairs and
    neighbouring pairs differ, i.e. position i equals position j = i + 1 exactly when i is even.
   */
  predicate PairsAlternate(w: seq<Group>)
  {
    forall i, j :: 0 <= i < |w| && 0 <= j < |w| && j == i + 1 ==> (w[i] == w[j] <==> i % 2 == 0)
  }

  /** The literals are exactly the pair-alternating runs of lengths 4, 6 and 8. */
  lemma DoubleAltLiteralsArePairRuns(n: nat, w: seq<Group>)
    requires n == 4 || n == 6 || n == 8
    ensures w in DoubleAltLiterals(n) <==> |w| == n && PairsAlternate(w)
  {
    if |w| == n && PairsAlternate(w) {
      assert w[0] == w[1] && w[1] != w[2] && w[2] == w[3];
      if n >= 6 {
        assert w[3] != w[4] && w[4] == w[5];
      }
      if n == 8 {
        assert w[5] != w[6] && w[6] == w[7];
      }
      if w[0] == S {
        assert w == (if n == 4 then [S, S, B, B] else if n == 6 then [S, S, B, B, S, S] else [S, S, B, B, S, S, B, B]);
      } else {
        assert w == (if n == 4 then [B, B, S, S] else if n == 6 then [B, B, S, S, B, B] else [B, B, S, S, B, B, S, S]);
      }
    }
  }

  /** From two labels on, no run is both a streak and single-alternating, and no literal is either. */
  lemma ShapesExclusive(w: seq<Group>)
    requires |w| >= 2
    ensures !(IsStreak(w) && IsSingleAlternating(w))
    ensures w in DoubleAltLiterals(|w|) ==> !IsStreak(w) && !IsSingleAlternating(w)
  {
    if IsStreak(w) {
      assert w[1] == w[0];
    }
    if w in DoubleAltLiterals(|w|) {
      assert w[0] == w[1] && w[1] != w[2];
    }
  }
}
