/**
  The live warning: a transient notice about a pattern still in progress among
  the last (at most) eight target groups. Streaks beat double-alternating
  literals, which beat single-alternating runs; within a class the longest wins.
 */
module Warning {
  import opened Options
  import opened Classifier
  import opened Shapes
  import opened Ledger

  /** Rounds needed before any warning is given. */
  const MinWarningHistory: nat := 3

  /** How many of the newest groups the warning looks at. */
  const WarningWindow: nat := 8

  const MinStreakWarning: nat := 4
  const MinSingleAltWarning: nat := 3

  datatype Warning = NoWarning | Warn(kind: PatternKind, pattern: seq<Group>)

  /** The newest (at most) eight target groups, oldest first. */
  function RecentGroups(h: seq<Entry>): (g: seq<Group>)
    ensures |g| == if |h| <= WarningWindow then |h| else WarningWindow
  {
    if |h| <= WarningWindow then Groups(h) else Groups(h[|h| - WarningWindow..])
  }

  /** The last l labels of g. */
  function Suffix(g: seq<Group>, l: nat): seq<Group>
    requires l <= |g|
  {
    g[|g| - l..]
  }

  /** The longest streak suffix of length l or less (and at least 4). */
  function StreakScan(g: seq<Group>, l: nat): (r: Option<nat>)
    requires l <= |g|
    ensures r.Some? ==> MinStreakWarning <= r.value <= l
    decreases l
  {
    if l < MinStreakWarning then None
    else if IsStreak(Suffix(g, l)) then Some(l)
    else StreakScan(g, l - 1)
  }

  /** The 8-long double-alternating literal suffix, else the 4-long one. */
  function DoubleAltScan(g: seq<Group>): (r: Option<nat>)
    ensures r.Some? ==> (r.value == 8 || r.value == 4) && r.value <= |g|
  {
    if |g| >= 8 && Suffix(g, 8) in DoubleAltLiterals(8) then Some(8)
    else if |g| >= 4 && Suffix(g, 4) in DoubleAltLiterals(4) then Some(4)
    else None
  }

  /** The longest single-alternating suffix of length l or less (and at least 3). */
  function SingleAltScan(g: seq<Group>, l: nat): (r: Option<nat>)
    requires l <= |g|
    ensures r.Some? ==> MinSingleAltWarning <= r.value <= l
    decreases l
  {
    if l < MinSingleAltWarning then None
    else if IsSingleAlternating(Suffix(g, l)) then Some(l)
    else SingleAltScan(g, l - 1)
  }

  /** The class and length of the suffix to warn about, in the original's precedence order. */
  function WarningChoice(g: seq<Group>): (r: Option<(PatternKind, nat)>)
    ensures r.Some? ==> r.value.1 <= |g|
  {
    match StreakScan(g, |g|)
    case Some(l) => Some((Streak, l))
    case None =>
      match DoubleAltScan(g)
      case Some(l) => Some((DoubleAlternating, l))
      case None =>
        match SingleAltScan(g, |g|)
        case Some(l) => Some((SingleAlternating, l))
        case None => None
  }

  /** The warning the ledger currently raises. */
  function PatternWarning(h: seq<Entry>): Warning
  {
    if |h| < MinWarningHistory then NoWarning
    else
      var g := RecentGroups(h);
      var c := WarningChoice(g);
      if c.None? then NoWarning else Warn(c.value.0, Suffix(g, c.value.1))
  }

  predicate HasStreakSuffix(g: seq<Group>)
  {
    exists l :: MinStreakWarning <= l <= |g| && IsStreak(Suffix(g, l))
  }

  predicate HasDoubleAltSuffix(g: seq<Group>)
  {
    (|g| >= 8 && Suffix(g, 8) in DoubleAltLiterals(8)) || (|g| >= 4 && Suffix(g, 4) in DoubleAltLiterals(4))
  }

  predicate HasSingleAltSuffix(g: seq<Group>)
  {
    exists l :: MinSingleAltWarning <= l <= |g| && IsSingleAlternating(Suffix(g, l))
  }

  lemma {:induction false} StreakScanFindsLongest(g: seq<Group>, l: nat)
    requires l <= |g|
    ensures StreakScan(g, l).Some? ==>
      var k := StreakScan(g, l).value;
      MinStreakWarning <= k <= l && IsStreak(Suffix(g, k)) &&
      forall m :: k < m <= l ==> !IsStreak(Suffix(g, m))
    ensures StreakScan(g, l).None? ==> forall m :: MinStreakWarning <= m <= l ==> !IsStreak(Suffix(g, m))
    decreases l
  {
    if l >= MinStreakWarning && !IsStreak(Suffix(g, l)) {
      StreakScanFindsLongest(g, l - 1);
    }
  }

  lemma {:induction false} SingleAltScanFindsLongest(g: seq<Group>, l: nat)
    requires l <= |g|
    ensures SingleAltScan(g, l).Some? ==>
      var k := SingleAltScan(g, l).value;
      MinSingleAltWarning <= k <= l && IsSingleAlternating(Suffix(g, k)) &&
      forall m :: k < m <= l ==> !IsSingleAlternating(Suffix(g, m))
    ensures SingleAltScan(g, l).None? ==>
      forall m :: MinSingleAltWarning <= m <= l ==> !IsSingleAlternating(Suffix(g, m))
    decreases l
  {
    if l >= MinSingleAltWarning && !IsSingleAlternating(Suffix(g, l)) {
      SingleAltScanFindsLongest(g, l - 1);
    }
  }

  /** No warning is given while the ledger holds fewer than three rounds. */
  lemma WarningNeedsThreeRounds(h: seq<Entry>)
    requires |h| < MinWarningHistory
    ensures PatternWarning(h) == NoWarning
  {
  }

  /** The recent window holds the target groups of the newest rounds, oldest first. */
  lemma RecentGroupsAreNewest(h: seq<Entry>)
    ensures |RecentGroups(h)| <= |h|
    ensures forall k :: 0 <= k < |RecentGroups(h)| ==>
      RecentGroups(h)[k] == h[|h| - |RecentGroups(h)| + k].targetGroup
  {
    var g := RecentGroups(h);
    var newest := h[|h| - |g|..];
    assert g == Groups(newest);
    forall k | 0 <= k < |g|
      ensures g[k] == h[|h| - |g| + k].targetGroup
    {
      assert g[k] == newest[k].targetGroup;
    }
  }

  /**
    A warning's pattern is the target groups of the newest rounds, at most eight
    of them, oldest first.
   */
  lemma WarningIsRecentSuffix(h: seq<Entry>)
    ensures var w := PatternWarning(h);
      w.Warn? ==>
        && |w.pattern| <= WarningWindow
        && |w.pattern| <= |h|
        && forall k :: 0 <= k < |w.pattern| ==> w.pattern[k] == h[|h| - |w.pattern| + k].targetGroup
  {
    if |h| >= MinWarningHistory {
      PatternWarningUnfold(h);
      if PatternWarning(h).Warn? {
        NewestSuffixWarning(h, PatternWarning(h));
      }
    }
  }

  /** A warning whose pattern is a suffix of the scanned window is made of the newest labels. */
  lemma NewestSuffixWarning(h: seq<Entry>, w: Warning)
    requires w.Warn? && |w.pattern| <= |RecentGroups(h)| && w.pattern == Suffix(RecentGroups(h), |w.pattern|)
    ensures |w.pattern| <= WarningWindow
    ensures |w.pattern| <= |h|
    ensures forall k :: 0 <= k < |w.pattern| ==> w.pattern[k] == h[|h| - |w.pattern| + k].targetGroup
  {
    var g, l := RecentGroups(h), |w.pattern|;
    RecentGroupsAreNewest(h);
    forall k | 0 <= k < l
      ensures w.pattern[k] == h[|h| - l + k].targetGroup
    {
      assert w.pattern[k] == g[|g| - l + k];
    }
  }

  lemma PatternWarningUnfold(h: seq<Entry>)
    requires |h| >= MinWarningHistory
    ensures var g := RecentGroups(h); var c := WarningChoice(g);
      && (c.None? ==> PatternWarning(h) == NoWarning)
      && (c.Some? ==> c.value.1 <= |g| && PatternWarning(h) == Warn(c.value.0, Suffix(g, c.value.1)))
  {
  }

  lemma ChoiceDoubleAlt(g: seq<Group>)
    ensures var c := WarningChoice(g);
      && (c.Some? && c.value.0 == DoubleAlternating <==> !HasStreakSuffix(g) && HasDoubleAltSuffix(g))
      && (c.Some? && c.value.0 == DoubleAlternating ==>
            var l := c.value.1;
            (l == 8 || l == 4) && l <= |g| && Suffix(g, l) in DoubleAltLiterals(l) &&
            (l == 4 ==> !(|g| >= 8 && Suffix(g, 8) in DoubleAltLiterals(8))))
  {
    StreakScanFindsLongest(g, |g|);
  }

  lemma ChoiceStreak(g: seq<Group>)
    ensures var c := WarningChoice(g);
      && (c.Some? && c.value.0 == Streak <==> HasStreakSuffix(g))
      && (c.Some? && c.value.0 == Streak ==>
            var l := c.value.1;
            MinStreakWarning <= l <= |g| && IsStreak(Suffix(g, l)) &&
            forall m :: l < m <= |g| ==> !IsStreak(Suffix(g, m)))
  {
    StreakScanFindsLongest(g, |g|);
    var st := StreakScan(g, |g|);
    if st.Some? {
      assert MinStreakWarning <= st.value <= |g| && IsStreak(Suffix(g, st.value));
    }
  }

  /** Streaks come first: a streak warning is given exactly when some suffix of 4 or more is a streak, and it is the longest one. */
  lemma WarningStreakFirst(h: seq<Entry>)
    requires |h| >= MinWarningHistory
    ensures var w, g := PatternWarning(h), RecentGroups(h);
      && (w.Warn? && w.kind == Streak <==> HasStreakSuffix(g))
      && (w.Warn? && w.kind == Streak ==>
            var l := |w.pattern|;
            MinStreakWarning <= l <= |g| && w.pattern == Suffix(g, l) && IsStreak(w.pattern) &&
            forall m :: l < m <= |g| ==> !IsStreak(Suffix(g, m)))
  {
    PatternWarningUnfold(h);
    ChoiceStreak(RecentGroups(h));
  }

  lemma ChoiceSingleAlt(g: seq<Group>)
    ensures var c := WarningChoice(g);
      && (c.Some? && c.value.0 == SingleAlternating <==>
            !HasStreakSuffix(g) && !HasDoubleAltSuffix(g) && HasSingleAltSuffix(g))
      && (c.Some? && c.value.0 == SingleAlternating ==>
            var l := c.value.1;
            MinSingleAltWarning <= l <= |g| && IsSingleAlternating(Suffix(g, l)) &&
            forall m :: l < m <= |g| ==> !IsSingleAlternating(Suffix(g, m)))
  {
    StreakScanFindsLongest(g, |g|);
    SingleAltScanFindsLongest(g, |g|);
  }

  /**
    Double-alternating literals come second: such a warning is given exactly when
    no streak qualifies and the last 8 or last 4 labels are a literal; the 8-long one wins.
   */
  lemma WarningDoubleAltSecond(h: seq<Entry>)
    requires |h| >= MinWarningHistory
    ensures var w, g := PatternWarning(h), RecentGroups(h);
      && (w.Warn? && w.kind == DoubleAlternating <==> !HasStreakSuffix(g) && HasDoubleAltSuffix(g))
      && (w.Warn? && w.kind == DoubleAlternating ==>
            var l := |w.pattern|;
            (l == 8 || l == 4) && l <= |g| && w.pattern == Suffix(g, l) && w.pattern in DoubleAltLiterals(l) &&
            (l == 4 ==> !(|g| >= 8 && Suffix(g, 8) in DoubleAltLiterals(8))))
  {
    PatternWarningUnfold(h);
    ChoiceDoubleAlt(RecentGroups(h));
  }

  /**
    Single-alternating runs come last: such a warning is given exactly when neither
    earlier class qualifies and some suffix of 3 or more alternates; it is the longest one.
   */
  lemma WarningSingleAltLast(h: seq<Entry>)
    requires |h| >= MinWarningHistory
    ensures var w, g := PatternWarning(h), RecentGroups(h);
      && (w.Warn? && w.kind == SingleAlternating <==>
            !HasStreakSuffix(g) && !HasDoubleAltSuffix(g) && HasSingleAltSuffix(g))
      && (w.Warn? && w.kind == SingleAlternating ==>
            var l := |w.pattern|;
            MinSingleAltWarning <= l <= |g| && w.pattern == Suffix(g, l) && IsSingleAlternating(w.pattern) &&
            forall m :: l < m <= |g| ==> !IsSingleAlternating(Suffix(g, m)))
  {
    PatternWarningUnfold(h);
    ChoiceSingleAlt(RecentGroups(h));
  }

  lemma ChoiceNone(g: seq<Group>)
    ensures WarningChoice(g).None? <==> !HasStreakSuffix(g) && !HasDoubleAltSuffix(g) && !HasSingleAltSuffix(g)
  {
    StreakScanFindsLongest(g, |g|);
    SingleAltScanFindsLongest(g, |g|);
    var st, sa := StreakScan(g, |g|), SingleAltScan(g, |g|);
    if st.Some? {
      assert MinStreakWarning <= st.value <= |g| && IsStreak(Suffix(g, st.value));
    }
    if sa.Some? {
      assert MinSingleAltWarning <= sa.value <= |g| && IsSingleAlternating(Suffix(g, sa.value));
    }
  }

  /** No warning exactly when the ledger is too short or no class qualifies. */
  lemma WarningNoneMeansNoPattern(h: seq<Entry>)
    ensures var g := RecentGroups(h);
      PatternWarning(h) == NoWarning <==>
        |h| < MinWarningHistory || (!HasStreakSuffix(g) && !HasDoubleAltSuffix(g) && !HasSingleAltSuffix(g))
  {
    if |h| >= MinWarningHistory {
      PatternWarningUnfold(h);
      ChoiceNone(RecentGroups(h));
    }
  }
}
