/**
  The terminated-pattern detector: after each new round it looks at the 8, 7
  and 6 labels just before that round and decides whether a pattern has just
  ended, and which record (if any) the store should receive.
 */
module Termination {
  import opened Options
  import opened Classifier
  import opened Shapes
  import opened Ledger
  import opened RecordStore

  /** The shortest pattern that can be recorded. */
  const MinPatternLength: nat := 6

  /** Rounds needed before a termination can be seen: a pattern plus its terminator. */
  const MinHistoryForTermination: nat := MinPatternLength + 1

  /** Window lengths tried, longest first. */
  const TerminationLengths: seq<nat> := [8, 7, 6]

  /** The L labels just before the newest round (the newest round is the terminator). */
  function PatternWindow(h: seq<Entry>, L: nat): (w: seq<Group>)
    requires L < |h|
    ensures |w| == L
  {
    Groups(h)[|h| - L - 1 .. |h| - 1]
  }

  /**
    The kind of terminated pattern `w` followed by `t` forms, tried in the
    original's order: streak, then single-alternating, then (for 6 and 8 labels)
    a double-alternating literal.
   */
  function Classify(w: seq<Group>, t: Group): Option<PatternKind>
    requires |w| >= 1
  {
    var last := w[|w| - 1];
    var first :=
      if IsStreak(w) then (if t != w[0] then Some(Streak) else None)
      else if IsSingleAlternating(w) && t == last then Some(SingleAlternating)
      else None;
    if first.None? && (|w| == 6 || |w| == 8) && w in DoubleAltLiterals(|w|) && t == last then Some(DoubleAlternating)
    else first
  }

  /**
    What each verdict of the classifier means: a streak ends when the terminator
    differs from it; a single- or double-alternating run "ends" when the terminator
    repeats its last label.
   */
  lemma ClassifyCharacterized(w: seq<Group>, t: Group)
    requires |w| >= 2
    ensures Classify(w, t) == Some(Streak) <==> IsStreak(w) && t != w[|w| - 1]
    ensures Classify(w, t) == Some(SingleAlternating) <==> IsSingleAlternating(w) && t == w[|w| - 1]
    ensures Classify(w, t) == Some(DoubleAlternating) <==>
      (|w| == 6 || |w| == 8) && w in DoubleAltLiterals(|w|) && t == w[|w| - 1]
  {
    ShapesExclusive(w);
  }

  /** The record for a pattern of length L ending just before the newest round. */
  function MakeRecord(h: seq<Entry>, L: nat, kind: PatternKind): PatternRecord
    requires 1 <= L < |h|
  {
    var end := h[|h| - 2];
    var w := PatternWindow(h, L);
    PatternRecord(kind, w, L, end.rollNumber, end.roundInRoll, h[|h| - 1].targetGroup, end.timestamp,
                  IdText(end.rollNumber, end.roundInRoll, w))
  }

  /** The record a window of length L yields, if it is a terminated pattern. */
  function Candidate(h: seq<Entry>, L: nat): Option<PatternRecord>
    requires L >= 1
  {
    if |h| <= L then None
    else
      match Classify(PatternWindow(h, L), h[|h| - 1].targetGroup)
      case None => None
      case Some(kind) => Some(MakeRecord(h, L, kind))
  }

  /**
    The first length in `lengths` whose candidate is not yet recorded. A candidate
    that is already recorded does not stop the scan: shorter lengths are still tried.
   */
  function DetectAmong(h: seq<Entry>, recs: seq<PatternRecord>, lengths: seq<nat>): Option<PatternRecord>
    requires forall i :: 0 <= i < |lengths| ==> lengths[i] >= 1
  {
    if lengths == [] then None
    else
      var c := Candidate(h, lengths[0]);
      if c.Some? && !Recorded(recs, c.value) then c
      else DetectAmong(h, recs, lengths[1..])
  }

  /** The record one run of the detector adds to the store, if any. */
  function Detect(h: seq<Entry>, recs: seq<PatternRecord>): Option<PatternRecord>
  {
    if |h| < MinHistoryForTermination then None else DetectAmong(h, recs, TerminationLengths)
  }

  /** A candidate is not worth adding: there is none, or its key is stored already. */
  predicate Blocked(h: seq<Entry>, recs: seq<PatternRecord>, L: nat)
    requires L >= 1
  {
    Candidate(h, L).None? || Recorded(recs, Candidate(h, L).value)
  }

  lemma {:induction false} DetectAmongAllBlocked(h: seq<Entry>, recs: seq<PatternRecord>, lengths: seq<nat>)
    requires forall i :: 0 <= i < |lengths| ==> lengths[i] >= 1
    requires DetectAmong(h, recs, lengths).None?
    ensures forall i :: 0 <= i < |lengths| ==> Blocked(h, recs, lengths[i])
  {
    if lengths != [] {
      var rest := lengths[1..];
      DetectAmongAllBlocked(h, recs, rest);
      forall i | 0 <= i < |lengths|
        ensures Blocked(h, recs, lengths[i])
      {
        if i > 0 {
          assert lengths[i] == rest[i - 1];
        }
      }
    }
  }

  lemma {:induction false} DetectAmongFirstUnblocked(h: seq<Entry>, recs: seq<PatternRecord>, lengths: seq<nat>)
    returns (i: nat)
    requires forall i :: 0 <= i < |lengths| ==> lengths[i] >= 1
    requires DetectAmong(h, recs, lengths).Some?
    ensures i < |lengths| && DetectAmong(h, recs, lengths) == Candidate(h, lengths[i])
    ensures !Blocked(h, recs, lengths[i])
    ensures forall j :: 0 <= j < i ==> Blocked(h, recs, lengths[j])
  {
    var c := Candidate(h, lengths[0]);
    if c.Some? && !Recorded(recs, c.value) {
      i := 0;
    } else {
      var rest := lengths[1..];
      assert Blocked(h, recs, lengths[0]);
      assert DetectAmong(h, recs, lengths) == DetectAmong(h, recs, rest);
      var k := DetectAmongFirstUnblocked(h, recs, rest);
      i := k + 1;
      assert lengths[i] == rest[k];
      forall j | 0 <= j < i
        ensures Blocked(h, recs, lengths[j])
      {
        if j > 0 {
          assert lengths[j] == rest[j - 1];
        }
      }
    }
  }

  /** The detector never adds a record while the ledger holds fewer than seven rounds. */
  lemma DetectNeedsSevenRounds(h: seq<Entry>, recs: seq<PatternRecord>)
    requires |h| < 7
    ensures Detect(h, recs) == None
  {
  }

  /** A window at least as long as the ledger yields nothing, so the scan moves on. */
  lemma SkipShortWindow(h: seq<Entry>, recs: seq<PatternRecord>, lengths: seq<nat>)
    requires forall i :: 0 <= i < |lengths| ==> lengths[i] >= 1
    requires lengths != [] && |h| <= lengths[0]
    ensures DetectAmong(h, recs, lengths) == DetectAmong(h, recs, lengths[1..])
  {
    assert Candidate(h, lengths[0]).None?;
  }

  /** Against an empty store, a scan of one length yields that length's candidate. */
  lemma LastLengthOnEmptyStore(h: seq<Entry>, L: nat)
    requires L >= 1
    ensures DetectAmong(h, [], [L]) == Candidate(h, L)
  {
    assert [L][0] == L && [L][1..] == [];
    var c := Candidate(h, L);
    assert c.Some? ==> !Recorded([], c.value);
  }

  /**
    A detected record is the candidate of one of the lengths 8, 7, 6, it is not
    yet in the store, and every longer length was blocked (no terminated pattern,
    or one already recorded).
   */
  lemma DetectedIsFirstNewCandidate(h: seq<Entry>, recs: seq<PatternRecord>)
    requires Detect(h, recs).Some?
    ensures var r := Detect(h, recs).value;
      && (r.length == 8 || r.length == 7 || r.length == 6)
      && Candidate(h, r.length) == Some(r)
      && !Recorded(recs, r)
      && forall L :: r.length < L <= 8 ==> Blocked(h, recs, L)
  {
    var i := DetectAmongFirstUnblocked(h, recs, TerminationLengths);
    var found := TerminationLengths[i];
    assert found == 8 - i;
    CandidateLength(h, found);
    forall L | found < L <= 8
      ensures Blocked(h, recs, L)
    {
      assert L == TerminationLengths[8 - L];
    }
  }

  /** A candidate of length L records length L. */
  lemma CandidateLength(h: seq<Entry>, L: nat)
    requires L >= 1
    requires Candidate(h, L).Some?
    ensures Candidate(h, L).value.length == L
  {
  }

  /**
    The detector returns nothing only when every length 8, 7, 6 is blocked; so
    whenever some length has a new terminated pattern, a record at least that long is added.
   */
  lemma DetectFindsEveryNewCandidate(h: seq<Entry>, recs: seq<PatternRecord>, L: nat)
    requires 6 <= L <= 8
    requires !Blocked(h, recs, L)
    ensures Detect(h, recs).Some? && Detect(h, recs).value.length >= L
  {
    assert |h| > L;
    assert TerminationLengths[8 - L] == L;
    if Detect(h, recs).None? {
      DetectAmongAllBlocked(h, recs, TerminationLengths);
    }
    DetectedIsFirstNewCandidate(h, recs);
  }

  /** Everything a candidate record says about the ledger it came from. */
  lemma CandidateShape(h: seq<Entry>, L: nat)
    requires L >= 2
    requires Candidate(h, L).Some?
    ensures var r := Candidate(h, L).value;
      && L < |h|
      && r.length == L
      && r.sequence == Groups(h)[|h| - L - 1 .. |h| - 1]
      && |r.sequence| == L
      && r.terminatorGroup == h[|h| - 1].targetGroup
      && r.rollNumber == h[|h| - 2].rollNumber
      && r.roundInRoll == h[|h| - 2].roundInRoll
      && r.timestamp == h[|h| - 2].timestamp
      && r.id == IdText(r.rollNumber, r.roundInRoll, r.sequence)
      && (r.patternType == Streak <==> IsStreak(r.sequence) && r.terminatorGroup != r.sequence[L - 1])
      && (r.patternType == SingleAlternating <==>
            IsSingleAlternating(r.sequence) && r.terminatorGroup == r.sequence[L - 1])
      && (r.patternType == DoubleAlternating <==>
            (L == 6 || L == 8) && r.sequence in DoubleAltLiterals(L) && r.terminatorGroup == r.sequence[L - 1])
  {
    ClassifyCharacterized(PatternWindow(h, L), h[|h| - 1].targetGroup);
  }

  /**
    The fall-through the original has: when the 8-long streak that just ended is
    already in the store, the scan goes on and records the 7-long streak inside it.
   */
  lemma RecordedStreakFallsThrough(h: seq<Entry>, recs: seq<PatternRecord>)
    requires |h| > 8
    requires Candidate(h, 8).Some? && Candidate(h, 8).value.patternType == Streak
    requires Recorded(recs, Candidate(h, 8).value)
    requires !Recorded(recs, MakeRecord(h, 7, Streak))
    ensures Detect(h, recs) == Some(MakeRecord(h, 7, Streak))
  {
    CandidateShape(h, 8);
    var w8, w7 := PatternWindow(h, 8), PatternWindow(h, 7);
    assert w7 == w8[1..];
    assert IsStreak(w7) by {
      forall k | 0 <= k < 7
        ensures w7[k] == w7[0]
      {
        assert w7[k] == w8[k + 1] && w7[0] == w8[1];
      }
    }
    ClassifyCharacterized(w7, h[|h| - 1].targetGroup);
    assert Candidate(h, 7) == Some(MakeRecord(h, 7, Streak));
    assert TerminationLengths[1..] == [7, 6];
    assert [7, 6][0] == 7;
    assert Detect(h, recs) == DetectAmong(h, recs, TerminationLengths);
    assert DetectAmong(h, recs, TerminationLengths) == DetectAmong(h, recs, [7, 6]);
    assert DetectAmong(h, recs, [7, 6]) == Candidate(h, 7);
  }

  /** Record `r` is the one a length-`r.length` window yields on the first n rounds of `h`. */
  predicate RecordedAt(h: seq<Entry>, n: nat, r: PatternRecord)
  {
    1 <= r.length < n <= |h| && Candidate(h[..n], r.length) == Some(r)
  }

  /** `r` describes a pattern that really terminated somewhere in `h`. */
  ghost predicate Genuine(h: seq<Entry>, r: PatternRecord)
  {
    exists n :: RecordedAt(h, n, r)
  }

  /** Appending rounds never makes a genuine record stop being genuine. */
  lemma GenuineExtends(h: seq<Entry>, more: seq<Entry>, r: PatternRecord)
    requires Genuine(h, r)
    ensures Genuine(h + more, r)
  {
    var n: nat :| RecordedAt(h, n, r);
    assert (h + more)[..n] == h[..n];
    assert RecordedAt(h + more, n, r);
  }

  /** A detected record is genuine for the ledger it was detected on. */
  lemma DetectedIsGenuine(h: seq<Entry>, recs: seq<PatternRecord>)
    requires Detect(h, recs).Some?
    ensures Genuine(h, Detect(h, recs).value)
  {
    DetectedIsFirstNewCandidate(h, recs);
    assert h[..|h|] == h;
    assert RecordedAt(h, |h|, Detect(h, recs).value);
  }
}
