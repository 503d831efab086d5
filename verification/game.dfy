/**
  The game engine as the original runs it: one object whose fields are the
  game's globals, updated in place by start-up, reset, the pattern detector
  and round submission. Each method is tied to the value-level transition it
  performs, so everything proved about those transitions holds of the object.
 */
module Game {
  import opened Options
  import opened Classifier
  import opened Shapes
  import opened Ledger
  import opened Prediction
  import opened RecordStore
  import opened Termination
  import opened Input
  import opened Round

  /** The globals before start-up has run: nothing pending, roll and round 0, no start time. */
  function Unbooted(): State
  {
    State(None, None, None, 0, 0, None, [], [])
  }

  /**
    The classifier run imperatively, as the detector's loop body does it: the
    streak test, then a scan for two equal neighbours that stops at the first
    one, then the double-alternating literals.
   */
  method ClassifyWindow(w: seq<Group>, t: Group) returns (kind: Option<PatternKind>)
    requires |w| >= 1
    ensures kind == Classify(w, t)
  {
    kind := None;
    if IsStreak(w) {
      if t != w[0] {
        kind := Some(Streak);
      }
    } else {
      var isSingleAlt := true;
      var k := 0;
      while k < |w| - 1
        invariant 0 <= k <= |w| - 1
        invariant isSingleAlt
        invariant forall i, j :: 0 <= i < k && 0 <= j < |w| && j == i + 1 ==> w[i] != w[j]
      {
        if w[k] == w[k + 1] {
          isSingleAlt := false;
          break;
        }
        k := k + 1;
      }
      if isSingleAlt && t == w[|w| - 1] {
        kind := Some(SingleAlternating);
      }
    }
    if kind.None? && (|w| == 6 || |w| == 8) && w in DoubleAltLiterals(|w|) && t == w[|w| - 1] {
      kind := Some(DoubleAlternating);
    }
  }

  /**
    The detector's scan: tries lengths 8, 7, 6 and stops at the first terminated
    pattern whose key is not stored in `recs`; one already stored does not stop
    the scan. Nothing is found before seven rounds have been played.
   */
  method FindTerminated(h: seq<Entry>, recs: seq<PatternRecord>) returns (found: Option<PatternRecord>)
    ensures found == Detect(h, recs)
  {
    found := None;
    if |h| < MinHistoryForTermination {
      return;
    }
    var terminatorGroup := h[|h| - 1].targetGroup;
    var i := 0;
    while i < |TerminationLengths|
      invariant 0 <= i <= |TerminationLengths|
      invariant DetectAmong(h, recs, TerminationLengths[i..]) == Detect(h, recs)
    {
      var len := TerminationLengths[i];
      assert TerminationLengths[i..] == [len] + TerminationLengths[i + 1..];
      if |h| > len {
        var kind := ClassifyWindow(PatternWindow(h, len), terminatorGroup);
        if kind.Some? {
          var r := MakeRecord(h, len, kind.value);
          assert Candidate(h, len) == Some(r);
          if !Recorded(recs, r) {
            found := Some(r);
            return;
          }
        } else {
          assert Candidate(h, len).None?;
        }
      } else {
        assert Candidate(h, len).None?;
      }
      i := i + 1;
    }
  }

  class GameState {
    var currentDigit: Option<Digit>
    var appPrediction: Option<Group>
    var appExtraPrediction: Option<Group>
    var currentRoll: int
    var roundInRoll: int
    var gameStartTime: Option<Instant>
    var history: seq<Entry>
    var recordedPatterns: seq<PatternRecord>

    /** The object's fields as a state value. */
    function Snapshot(): State
      reads this
    {
      State(currentDigit, appPrediction, appExtraPrediction, currentRoll, roundInRoll, gameStartTime,
            history, recordedPatterns)
    }

    /** The object is in a state a game started fresh can reach. */
    ghost predicate Valid()
      reads this
    {
      ValidGame(Snapshot())
    }

    constructor()
      ensures Snapshot() == Unbooted()
    {
      currentDigit := None;
      appPrediction := None;
      appExtraPrediction := None;
      currentRoll := 0;
      roundInRoll := 0;
      gameStartTime := None;
      history := [];
      recordedPatterns := [];
    }

    /** Reorders the store in place: roll descending, then round descending, ties kept in order. */
    method SortRecords()
      modifies this
      ensures Snapshot() == old(Snapshot()).(recordedPatterns := SortedByRecency(old(recordedPatterns)))
    {
      recordedPatterns := SortedByRecency(recordedPatterns);
    }

    /**
      Start-up: restore the saved state if there is one and make both predictions
      again, otherwise start a fresh game at `now`; then sort the store.
     */
    method InitGame(saved: Option<State>, now: Instant)
      modifies this
      ensures Snapshot() == Boot(saved, old(gameStartTime), now)
      ensures saved.None? ==> Valid()
      ensures saved.Some? && ValidGame(saved.value) ==> Valid()
    {
      match saved {
        case None =>
          currentRoll := 1;
          roundInRoll := 1;
          history := [];
          recordedPatterns := [];
          currentDigit := None;
          gameStartTime := Some(now);
          appPrediction := None;
          appExtraPrediction := None;
          FreshIsValid(now);
        case Some(t) =>
          history := t.history;
          recordedPatterns := t.recordedPatterns;
          currentDigit := t.currentDigit;
          currentRoll := t.currentRoll;
          roundInRoll := t.roundInRoll;
          appPrediction := t.appPrediction;
          appExtraPrediction := t.appExtraPrediction;
          if t.gameStartTime.Some? {
            gameStartTime := t.gameStartTime;
          }
          appPrediction := PredictPrimary(currentDigit);
          appExtraPrediction := PredictSecondary(history);
          if ValidGame(t) {
            BootPreservesValid(t, old(gameStartTime), now);
          }
      }
      SortRecords();
    }

    /** The confirmed reset: empty the store and start a fresh game. */
    method Reset(now: Instant)
      modifies this
      ensures Snapshot() == FreshGame(now)
      ensures Valid()
    {
      recordedPatterns := [];
      InitGame(None, now);
    }

    /**
      The terminated-pattern detector: runs the scan over the ledger and the
      store and appends the record it finds. Returns the appended record, if any.
     */
    method CheckAndRecordPatterns() returns (added: Option<PatternRecord>)
      modifies this
      ensures added == Detect(history, old(recordedPatterns))
      ensures Snapshot() == old(Snapshot()).(recordedPatterns := old(recordedPatterns) + Added(history, old(recordedPatterns)))
    {
      added := FindTerminated(history, recordedPatterns);
      if added.Some? {
        recordedPatterns := recordedPatterns + [added.value];
      }
    }

    /**
      The first half of a round: score the pending predictions against the new
      digit's group, append the round's entry to the ledger and make the digit the
      pending one.
     */
    method RecordRound(userDigit: Digit, timestamp: string)
      modifies this
      ensures Snapshot() == old(Snapshot()).(history := old(history) + [RoundEntry(old(Snapshot()), userDigit, timestamp)],
                                             currentDigit := Some(userDigit))
    {
      var isFirstEntry := currentDigit.None?;
      var targetGroup := GroupOf(userDigit);
      var isCorrect := appPrediction == Some(targetGroup);
      var isExtraCorrect := appExtraPrediction.Some? && appExtraPrediction == Some(targetGroup);
      var previousRoll := currentRoll;
      var previousRoundInRoll := roundInRoll;
      var digitForSum := if currentDigit.Some? then currentDigit.value else 0;
      var sumRemainder := (digitForSum + userDigit) % 10;
      var roundData := Entry(currentDigit, appPrediction, appExtraPrediction, userDigit, targetGroup,
                             if isFirstEntry then false else isCorrect,
                             if isFirstEntry then false else isExtraCorrect,
                             previousRoll, previousRoundInRoll, sumRemainder, timestamp);
      history := history + [roundData];
      currentDigit := Some(userDigit);
    }

    /**
      One round: record it, run the detector, sort the store, advance the round
      counter and make both predictions again. The live warning shown after the
      round is `PatternWarning(history)` of the new state.
     */
    method SubmitAnswer(userDigit: Digit, timestamp: string) returns (added: Option<PatternRecord>)
      modifies this
      ensures Snapshot() == Step(old(Snapshot()), userDigit, timestamp)
      ensures added == Detect(history, old(recordedPatterns))
    {
      var previousRoundInRoll := roundInRoll;
      RecordRound(userDigit, timestamp);
      added := CheckAndRecordPatterns();
      SortRecords();
      if previousRoundInRoll == RoundsPerRoll {
        currentRoll := currentRoll + 1;
        roundInRoll := 1;
      } else {
        roundInRoll := roundInRoll + 1;
      }
      appPrediction := PredictPrimary(currentDigit);
      appExtraPrediction := PredictSecondary(history);
      StepFromFields(old(Snapshot()), userDigit, timestamp, Snapshot());
    }

    /**
      The submit action: a value that is exactly one character `0`..`9` is played
      as that digit; anything else is ignored and changes nothing.
     */
    method SubmitDigit(value: string, timestamp: string) returns (accepted: bool, added: Option<PatternRecord>)
      modifies this
      ensures accepted <==> ParseDigitText(value).Some?
      ensures accepted ==> Snapshot() == Step(old(Snapshot()), ParseDigitText(value).value, timestamp)
      ensures !accepted ==> Snapshot() == old(Snapshot()) && added.None?
      ensures old(Valid()) ==> Valid()
    {
      var parsed := ParseDigitText(value);
      if parsed.Some? {
        accepted := true;
        ghost var before := Snapshot();
        added := SubmitAnswer(parsed.value, timestamp);
        StepPreservesValidTo(before, parsed.value, timestamp, Snapshot());
      } else {
        accepted := false;
        added := None;
      }
    }
  }
}
