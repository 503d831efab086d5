/**
  The game state as a value and the transitions on it: a fresh game, booting
  from a saved state, and one round submission (score, append, detect, sort,
  advance, predict again).
 */
module Round {
  import opened Options
  import opened Classifier
  import opened Shapes
  import opened Ledger
  import opened Prediction
  import opened RecordStore
  import opened Termination
  import opened HistoryView

  /** A point in time (the game start); its calendar meaning is not modelled. */
  type Instant = int

  datatype State = State(
    currentDigit: Option<Digit>,
    appPrediction: Option<Group>,
    appExtraPrediction: Option<Group>,
    currentRoll: int,
    roundInRoll: int,
    gameStartTime: Option<Instant>,
    history: seq<Entry>,
    recordedPatterns: seq<PatternRecord>)

  function CurrentPosition(s: State): Position
  {
    Position(s.currentRoll, s.roundInRoll)
  }

  /** The state a new game starts in: roll 1, round 1, nothing played or recorded. */
  function FreshGame(now: Instant): State
  {
    State(None, None, None, FirstPosition.roll, FirstPosition.round, Some(now), [], [])
  }

  /**
    The entry a submission of digit d appends: the pending digit and predictions,
    the scores, the position before advancing, and the last-digit sum.
   */
  function RoundEntry(s: State, d: Digit, timestamp: string): Entry
  {
    var isFirst := s.currentDigit.None?;
    var g := GroupOf(d);
    var digitForSum := if isFirst then 0 else s.currentDigit.value;
    Entry(s.currentDigit, s.appPrediction, s.appExtraPrediction, d, g,
          if isFirst then false else s.appPrediction == Some(g),
          if isFirst then false else s.appExtraPrediction.Some? && s.appExtraPrediction == Some(g),
          s.currentRoll, s.roundInRoll, (digitForSum + d) % 10, timestamp)
  }

  /** The record the detector adds on this submission, as a list of zero or one. */
  function Added(h: seq<Entry>, recs: seq<PatternRecord>): seq<PatternRecord>
  {
    match Detect(h, recs)
    case Some(r) => [r]
    case None => []
  }

  /** One round: append the entry, run the detector, sort the store, advance, predict again. */
  function Step(s: State, d: Digit, timestamp: string): State
  {
    var h := s.history + [RoundEntry(s, d, timestamp)];
    var recs := SortedByRecency(s.recordedPatterns + Added(h, s.recordedPatterns));
    var next := Advance(CurrentPosition(s));
    State(Some(d), PredictPrimary(Some(d)), PredictSecondary(h), next.roll, next.round, s.gameStartTime, h, recs)
  }

  /** A state whose fields are, one by one, those one round from `s` produces is that successor. */
  lemma StepFromFields(s: State, d: Digit, timestamp: string, t: State)
    requires t.history == s.history + [RoundEntry(s, d, timestamp)]
    requires t.recordedPatterns == SortedByRecency(s.recordedPatterns + Added(t.history, s.recordedPatterns))
    requires t.currentDigit == Some(d)
    requires t.appPrediction == PredictPrimary(Some(d))
    requires t.appExtraPrediction == PredictSecondary(t.history)
    requires t.gameStartTime == s.gameStartTime
    requires CurrentPosition(t) == Advance(CurrentPosition(s))
    ensures t == Step(s, d, timestamp)
  {
  }

  /** Several rounds in a row, all stamped with the same time text. */
  function Play(s: State, ds: seq<Digit>, timestamp: string): State
    decreases |ds|
  {
    if ds == [] then s else Play(Step(s, ds[0], timestamp), ds[1..], timestamp)
  }

  /**
    Start-up: without a saved state, a fresh game; with one, that state with the
    predictions made again and the store sorted. The start time is only replaced
    when the saved state has one.
   */
  function Boot(saved: Option<State>, priorStart: Option<Instant>, now: Instant): State
  {
    match saved
    case None => FreshGame(now)
    case Some(t) =>
      State(t.currentDigit, PredictPrimary(t.currentDigit), PredictSecondary(t.history), t.currentRoll, t.roundInRoll,
            if t.gameStartTime.Some? then t.gameStartTime else priorStart,
            t.history, SortedByRecency(t.recordedPatterns))
  }

  /** The entry `e` is what a submission of its digit would append after the rounds in `prefix`. */
  predicate EntryFits(prefix: seq<Entry>, e: Entry)
  {
    var isFirst := prefix == [];
    var prior := LastDigit(prefix);
    && e.priorDigit == prior
    && e.prediction == PredictPrimary(prior)
    && e.extraPrediction == PredictSecondary(prefix)
    && e.targetGroup == GroupOf(e.userDigit)
    && e.isCorrect == (!isFirst && e.prediction == Some(e.targetGroup))
    && e.isExtraCorrect == (!isFirst && e.extraPrediction == Some(e.targetGroup))
    && e.sumRemainder == ((if isFirst then 0 else prior.value) + e.userDigit) % 10
    && PositionOf(e) == PositionAfter(|prefix|)
  }

  /** Every stored record is genuine for the ledger. */
  ghost predicate AllGenuine(h: seq<Entry>, recs: seq<PatternRecord>)
  {
    forall r :: r in recs ==> Genuine(h, r)
  }

  /** The states a game started fresh can reach. */
  ghost predicate ValidGame(s: State)
  {
    && s.gameStartTime.Some?
    && (forall i :: 0 <= i < |s.history| ==> EntryFits(s.history[..i], s.history[i]))
    && CurrentPosition(s) == PositionAfter(|s.history|)
    && s.currentDigit == LastDigit(s.history)
    && s.appPrediction == PredictPrimary(s.currentDigit)
    && s.appExtraPrediction == PredictSecondary(s.history)
    && UniqueKeys(s.recordedPatterns)
    && ByRecency(s.recordedPatterns)
    && AllGenuine(s.history, s.recordedPatterns)
  }

  /** A submission appends exactly one entry, at the position before the call, and keeps the older ones. */
  lemma StepAppendsEntry(s: State, d: Digit, timestamp: string)
    ensures var t := Step(s, d, timestamp);
      && |t.history| == |s.history| + 1
      && t.history[..|s.history|] == s.history
      && var e := t.history[|s.history|];
      && e.userDigit == d && e.targetGroup == GroupOf(d) && e.timestamp == timestamp
      && e.rollNumber == s.currentRoll && e.roundInRoll == s.roundInRoll
      && e.priorDigit == s.currentDigit && e.prediction == s.appPrediction && e.extraPrediction == s.appExtraPrediction
      && e.sumRemainder == ((if s.currentDigit.None? then 0 else s.currentDigit.value) + d) % 10
  {
    var t := Step(s, d, timestamp);
    assert t.history[..|s.history|] == s.history;
  }

  /**
    Scoring: the first round is never scored correct; E is never correct without
    an E prediction; otherwise each flag says its pending prediction matched the new group.
   */
  lemma StepScoring(s: State, d: Digit, timestamp: string)
    ensures var e := Step(s, d, timestamp).history[|s.history|];
      && (s.currentDigit.None? ==> !e.isCorrect && !e.isExtraCorrect)
      && (s.appExtraPrediction.None? ==> !e.isExtraCorrect)
      && (s.currentDigit.Some? ==>
            (e.isCorrect <==> s.appPrediction == Some(GroupOf(d))) &&
            (e.isExtraCorrect <==> s.appExtraPrediction == Some(GroupOf(d))))
  {
  }

  /** The round counter moves on by one and wraps from 10 to 1, bumping the roll. */
  lemma StepAdvance(s: State, d: Digit, timestamp: string)
    ensures var t := Step(s, d, timestamp);
      && (s.roundInRoll == RoundsPerRoll ==> t.currentRoll == s.currentRoll + 1 && t.roundInRoll == 1)
      && (s.roundInRoll != RoundsPerRoll ==> t.currentRoll == s.currentRoll && t.roundInRoll == s.roundInRoll + 1)
  {
  }

  /** After a submission the P prediction is always made (S for an even digit), and E follows the new ledger. */
  lemma StepPredictions(s: State, d: Digit, timestamp: string)
    ensures var t := Step(s, d, timestamp);
      && t.currentDigit == Some(d)
      && t.appPrediction.Some?
      && (t.appPrediction == Some(S) <==> d % 2 == 0)
      && t.appExtraPrediction == PredictSecondary(t.history)
      && (t.appExtraPrediction.None? <==> |s.history| < 2)
      && t.gameStartTime == s.gameStartTime
  {
    var t := Step(s, d, timestamp);
    SecondaryPredictionByOddDigits(t.history);
  }

  /**
    The store after a submission: the old records, untouched, plus at most the one
    detected record, whose key was not stored yet; nothing is added before the
    seventh round; the store ends up sorted by recency.
   */
  lemma StepRecords(s: State, d: Digit, timestamp: string)
    ensures var t := Step(s, d, timestamp);
      var found := Detect(t.history, s.recordedPatterns);
      && multiset(t.recordedPatterns) == multiset(s.recordedPatterns) + multiset(Added(t.history, s.recordedPatterns))
      && |t.recordedPatterns| <= |s.recordedPatterns| + 1
      && (found.Some? ==> !Recorded(s.recordedPatterns, found.value))
      && (|t.history| < MinHistoryForTermination ==> multiset(t.recordedPatterns) == multiset(s.recordedPatterns))
      && ByRecency(t.recordedPatterns)
  {
    var t := Step(s, d, timestamp);
    var added := Added(t.history, s.recordedPatterns);
    SortedByRecencyOrdered(s.recordedPatterns + added);
    assert |t.recordedPatterns| == |multiset(t.recordedPatterns)|;
    if Detect(t.history, s.recordedPatterns).Some? {
      DetectedIsFirstNewCandidate(t.history, s.recordedPatterns);
    }
    if |t.history| < MinHistoryForTermination {
      DetectNeedsSevenRounds(t.history, s.recordedPatterns);
    }
  }

  /** A submission keeps stored keys distinct. */
  lemma StepKeepsUniqueKeys(s: State, d: Digit, timestamp: string)
    requires UniqueKeys(s.recordedPatterns)
    ensures UniqueKeys(Step(s, d, timestamp).recordedPatterns)
  {
    var h := s.history + [RoundEntry(s, d, timestamp)];
    var recs := s.recordedPatterns;
    var added := Added(h, recs);
    if Detect(h, recs).Some? {
      var r := Detect(h, recs).value;
      DetectedIsFirstNewCandidate(h, recs);
      forall i, j | 0 <= i < j < |recs + added| ensures !SameKey((recs + added)[i], (recs + added)[j]) {
        if j == |recs| {
          assert (recs + added)[i] in recs;
        }
      }
    } else {
      assert recs + added == recs;
    }
    SortedByRecencyKeepsUniqueKeys(recs + added);
  }

  lemma FreshIsValid(now: Instant)
    ensures ValidGame(FreshGame(now))
  {
  }

  lemma PrefixOfSnoc(h: seq<Entry>, e: Entry, i: nat)
    requires i <= |h|
    ensures (h + [e])[..i] == h[..i]
  {
  }

  /** The new entry fits the ledger it is appended to when the pending values came from that ledger. */
  lemma RoundEntryFits(s: State, d: Digit, timestamp: string)
    requires s.currentDigit == LastDigit(s.history)
    requires s.appPrediction == PredictPrimary(s.currentDigit)
    requires s.appExtraPrediction == PredictSecondary(s.history)
    requires CurrentPosition(s) == PositionAfter(|s.history|)
    ensures EntryFits(s.history, RoundEntry(s, d, timestamp))
  {
    assert s.currentDigit.None? <==> s.history == [];
  }

  /** Every stored record stays genuine, and the detected one is genuine. */
  lemma StepKeepsGenuine(s: State, d: Digit, timestamp: string)
    requires AllGenuine(s.history, s.recordedPatterns)
    ensures var t := Step(s, d, timestamp); AllGenuine(t.history, t.recordedPatterns)
  {
    var e := RoundEntry(s, d, timestamp);
    var h := s.history + [e];
    var added := Added(h, s.recordedPatterns);
    var t := Step(s, d, timestamp);
    SortedByRecencyOrdered(s.recordedPatterns + added);
    forall r | r in t.recordedPatterns ensures Genuine(h, r) {
      assert r in multiset(s.recordedPatterns + added);
      if r in s.recordedPatterns {
        GenuineExtends(s.history, [e], r);
      } else {
        assert r in added;
        DetectedIsGenuine(h, s.recordedPatterns);
      }
    }
  }

  /** Submissions keep a game reachable from a fresh start. */
  lemma StepPreservesValid(s: State, d: Digit, timestamp: string)
    requires ValidGame(s)
    ensures ValidGame(Step(s, d, timestamp))
  {
    var t := Step(s, d, timestamp);
    var e := RoundEntry(s, d, timestamp);
    var h := t.history;
    assert h == s.history + [e];
    forall i | 0 <= i < |h| ensures EntryFits(h[..i], h[i]) {
      PrefixOfSnoc(s.history, e, i);
      if i == |s.history| {
        RoundEntryFits(s, d, timestamp);
      }
    }
    StepKeepsUniqueKeys(s, d, timestamp);
    StepRecords(s, d, timestamp);
    StepKeepsGenuine(s, d, timestamp);
  }

  /** The same, for a state already known to be the successor. */
  lemma StepPreservesValidTo(s: State, d: Digit, timestamp: string, t: State)
    requires t == Step(s, d, timestamp)
    ensures ValidGame(s) ==> ValidGame(t)
  {
    if ValidGame(s) {
      StepPreservesValid(s, d, timestamp);
    }
  }

  /** Loading a saved game that was reachable from a fresh start keeps it so. */
  lemma BootPreservesValid(saved: State, priorStart: Option<Instant>, now: Instant)
    requires ValidGame(saved)
    ensures ValidGame(Boot(Some(saved), priorStart, now))
  {
    var b := Boot(Some(saved), priorStart, now);
    SortedByRecencyOrdered(saved.recordedPatterns);
    SortedByRecencyKeepsUniqueKeys(saved.recordedPatterns);
    forall r | r in b.recordedPatterns ensures Genuine(b.history, r) {
      assert r in multiset(saved.recordedPatterns);
    }
  }

  /**
    Start-up without a saved state is a fresh game at `now`; with one, every field
    is restored except that both predictions are made again from it, the store is
    sorted, and a missing start time keeps the earlier one.
   */
  lemma BootRestores(saved: Option<State>, priorStart: Option<Instant>, now: Instant)
    ensures saved.None? ==> Boot(saved, priorStart, now) == FreshGame(now)
    ensures saved.Some? ==>
      var t, b := saved.value, Boot(saved, priorStart, now);
      && b.history == t.history && b.currentDigit == t.currentDigit
      && CurrentPosition(b) == CurrentPosition(t)
      && b.appPrediction == PredictPrimary(t.currentDigit)
      && b.appExtraPrediction == PredictSecondary(t.history)
      && multiset(b.recordedPatterns) == multiset(t.recordedPatterns) && ByRecency(b.recordedPatterns)
      && b.gameStartTime == (if t.gameStartTime.Some? then t.gameStartTime else priorStart)
  {
    if saved.Some? {
      SortedByRecencyOrdered(saved.value.recordedPatterns);
    }
  }

  /**
    In a game reachable from a fresh start, rounds stay in 1..10, rolls start at 1,
    and the ledger is in strictly increasing (roll, round) order.
   */
  lemma ValidGameOrdered(s: State)
    requires ValidGame(s)
    ensures 1 <= s.roundInRoll <= RoundsPerRoll && 1 <= s.currentRoll
    ensures forall i :: 0 <= i < |s.history| ==>
      1 <= s.history[i].roundInRoll <= RoundsPerRoll && 1 <= s.history[i].rollNumber
    ensures forall i, j :: 0 <= i < j < |s.history| ==> Earlier(PositionOf(s.history[i]), PositionOf(s.history[j]))
  {
    PositionAfterInRange(|s.history|);
    ValidGamePositions(s);
    PositionedLedgerOrdered(s.history);
  }

  /** In a game reachable from a fresh start, round i of the ledger sits where the i-th submission puts it. */
  lemma ValidGamePositions(s: State)
    requires ValidGame(s)
    ensures forall i :: 0 <= i < |s.history| ==> PositionOf(s.history[i]) == PositionAfter(i)
  {
    forall i | 0 <= i < |s.history|
      ensures PositionOf(s.history[i]) == PositionAfter(i)
    {
      assert EntryFits(s.history[..i], s.history[i]);
    }
  }

  /** A ledger whose rounds sit where successive submissions put them is in range and strictly ordered. */
  lemma PositionedLedgerOrdered(h: seq<Entry>)
    requires forall i :: 0 <= i < |h| ==> PositionOf(h[i]) == PositionAfter(i)
    ensures forall i :: 0 <= i < |h| ==> 1 <= h[i].roundInRoll <= RoundsPerRoll && 1 <= h[i].rollNumber
    ensures forall i, j :: 0 <= i < j < |h| ==> Earlier(PositionOf(h[i]), PositionOf(h[j]))
  {
    forall i | 0 <= i < |h|
      ensures 1 <= h[i].roundInRoll <= RoundsPerRoll && 1 <= h[i].rollNumber
    {
      PositionAfterInRange(i);
    }
    forall i, j | 0 <= i < j < |h|
      ensures Earlier(PositionOf(h[i]), PositionOf(h[j]))
    {
      PositionsIncrease(i, j);
    }
  }

  /** So the history panel of such a game, read column by column, is the ledger itself. */
  lemma ValidGameHistoryPanel(s: State)
    requires ValidGame(s)
    ensures Flatten(HistoryByRoll(s.history)) == s.history
  {
    ValidGameOrdered(s);
    HistoryByRollFlatten(s.history);
  }

  /** Any run of submissions from a fresh game stays reachable and appends one entry per digit. */
  lemma {:induction false} PlayPreservesValid(s: State, ds: seq<Digit>, timestamp: string)
    requires ValidGame(s)
    ensures ValidGame(Play(s, ds, timestamp))
    ensures |Play(s, ds, timestamp).history| == |s.history| + |ds|
    decreases |ds|
  {
    if ds != [] {
      StepPreservesValid(s, ds[0], timestamp);
      PlayPreservesValid(Step(s, ds[0], timestamp), ds[1..], timestamp);
    }
  }

  lemma StepGroups(s: State, d: Digit, timestamp: string)
    ensures Groups(Step(s, d, timestamp).history) == Groups(s.history) + [GroupOf(d)]
  {
    var h := Step(s, d, timestamp).history;
    assert h == s.history + [RoundEntry(s, d, timestamp)];
    assert h[..|h| - 1] == s.history;
  }

  /** A submission on an empty store before the seventh round leaves the store empty. */
  lemma StepEarlyStoreEmpty(s: State, d: Digit, timestamp: string)
    requires s.recordedPatterns == [] && |s.history| < MinHistoryForTermination - 1
    ensures Step(s, d, timestamp).recordedPatterns == []
  {
    StepRecords(s, d, timestamp);
  }

  /** On a seven-round ledger and an empty store, only the 6-long window can be recorded. */
  lemma DetectOnSevenRounds(h: seq<Entry>)
    requires |h| == 7
    ensures Detect(h, []) == Candidate(h, 6)
  {
    assert TerminationLengths[0] == 8 && TerminationLengths[1..] == [7, 6];
    SkipShortWindow(h, [], TerminationLengths);
    assert [7, 6][0] == 7 && [7, 6][1..] == [6];
    SkipShortWindow(h, [], [7, 6]);
    LastLengthOnEmptyStore(h, 6);
  }

  /** Playing one more digit is one more step. */
  lemma {:induction false} PlaySnoc(s: State, ds: seq<Digit>, d: Digit, timestamp: string)
    ensures Play(s, ds + [d], timestamp) == Step(Play(s, ds, timestamp), d, timestamp)
    decreases |ds|
  {
    if ds == [] {
      assert Play(Step(s, d, timestamp), [], timestamp) == Step(s, d, timestamp);
    } else {
      assert (ds + [d])[0] == ds[0] && (ds + [d])[1..] == ds[1..] + [d];
      PlaySnoc(Step(s, ds[0], timestamp), ds[1..], d, timestamp);
    }
  }

  /** The target groups of a run of digits. */
  function DigitGroups(ds: seq<Digit>): (g: seq<Group>)
    ensures |g| == |ds|
    ensures forall i :: 0 <= i < |ds| ==> g[i] == GroupOf(ds[i])
  {
    if ds == [] then [] else [GroupOf(ds[0])] + DigitGroups(ds[1..])
  }

  /** Playing a run of digits appends their groups to the ledger's groups. */
  lemma {:induction false} PlayGroups(s: State, ds: seq<Digit>, timestamp: string)
    ensures Groups(Play(s, ds, timestamp).history) == Groups(s.history) + DigitGroups(ds)
    decreases |ds|
  {
    if ds != [] {
      var t := Step(s, ds[0], timestamp);
      StepGroups(s, ds[0], timestamp);
      PlayGroups(t, ds[1..], timestamp);
      assert Play(s, ds, timestamp) == Play(t, ds[1..], timestamp);
      assert DigitGroups(ds) == [GroupOf(ds[0])] + DigitGroups(ds[1..]);
      assert Groups(s.history) + [GroupOf(ds[0])] + DigitGroups(ds[1..]) == Groups(s.history) + DigitGroups(ds);
    }
  }

  /** Before the seventh round nothing can be recorded. */
  lemma {:induction false} EarlyPlayStoreEmpty(s: State, ds: seq<Digit>, timestamp: string)
    requires s.recordedPatterns == [] && |s.history| + |ds| < MinHistoryForTermination
    ensures Play(s, ds, timestamp).recordedPatterns == []
    decreases |ds|
  {
    if ds != [] {
      StepEarlyStoreEmpty(s, ds[0], timestamp);
      EarlyPlayStoreEmpty(Step(s, ds[0], timestamp), ds[1..], timestamp);
    }
  }

  /** Six Small digits from a fresh start: six S labels, nothing recorded, round 7 of roll 1 next. */
  lemma SixSmallDigits(now: Instant, timestamp: string)
    ensures var s6 := Play(FreshGame(now), [0, 1, 2, 3, 4, 0], timestamp);
      && s6.recordedPatterns == []
      && |s6.history| == 6
      && Groups(s6.history) == [S, S, S, S, S, S]
      && CurrentPosition(s6) == Position(1, 7)
      && PositionOf(s6.history[5]) == Position(1, 6)
  {
    var ds: seq<Digit> := [0, 1, 2, 3, 4, 0];
    var s6 := Play(FreshGame(now), ds, timestamp);
    FreshIsValid(now);
    PlayPreservesValid(FreshGame(now), ds, timestamp);
    PlayGroups(FreshGame(now), ds, timestamp);
    EarlyPlayStoreEmpty(FreshGame(now), ds, timestamp);
    SmallDigitGroups();
    assert Groups([]) == [];
    SixRoundsPosition(s6);
  }

  lemma SmallDigitGroups()
    ensures DigitGroups([0, 1, 2, 3, 4, 0]) == [S, S, S, S, S, S]
  {
    var g := DigitGroups([0, 1, 2, 3, 4, 0]);
    assert g[0] == S && g[1] == S && g[2] == S && g[3] == S && g[4] == S && g[5] == S;
  }

  /** After six rounds of a game started fresh, round 7 of roll 1 is next and the sixth was round 6. */
  lemma SixRoundsPosition(s: State)
    requires ValidGame(s) && |s.history| == 6
    ensures CurrentPosition(s) == Position(1, 7)
    ensures PositionOf(s.history[5]) == Position(1, 6)
  {
    PositionAfterClosedForm(6);
    PositionAfterClosedForm(5);
    assert EntryFits(s.history[..5], s.history[5]);
  }

  /**
    Six Small digits and then a Big one: the seventh round ends a 6-long streak,
    recorded at roll 1, round 6, with terminator B.
   */
  lemma StreakScenario(now: Instant, timestamp: string)
    ensures var t := Play(FreshGame(now), [0, 1, 2, 3, 4, 0, 9], timestamp);
      && |t.recordedPatterns| == 1
      && var r := t.recordedPatterns[0];
      && r.patternType == Streak && r.sequence == [S, S, S, S, S, S] && r.length == 6
      && r.rollNumber == 1 && r.roundInRoll == 6 && r.terminatorGroup == B
      && t.currentRoll == 1 && t.roundInRoll == 8
  {
    SixSmallDigits(now, timestamp);
    var s6 := Play(FreshGame(now), [0, 1, 2, 3, 4, 0], timestamp);
    PlaySnoc(FreshGame(now), [0, 1, 2, 3, 4, 0], 9, timestamp);
    assert [0, 1, 2, 3, 4, 0] + [9] == [0, 1, 2, 3, 4, 0, 9];
    var s7 := Step(s6, 9, timestamp);
    StepGroups(s6, 9, timestamp);
    StepAppendsEntry(s6, 9, timestamp);
    var h := s7.history;
    assert h[5] == s6.history[5];
    assert PatternWindow(h, 6) == [S, S, S, S, S, S];
    var r := MakeRecord(h, 6, Streak);
    assert Candidate(h, 6) == Some(r);
    DetectOnSevenRounds(h);
    assert s7.recordedPatterns == SortedByRecency([r]);
  }
}
