/**
  The ledger as the history panel lays it out: one column per roll, rolls in
  ascending numeric order, and each column holding that roll's rounds in the
  order they were played.
 */
module HistoryView {
  import opened Ledger

  datatype RollColumn = RollColumn(roll: int, entries: seq<Entry>)

  /** The rolls that occur in a ledger. */
  function RollsOf(h: seq<Entry>): set<int>
  {
    set i | 0 <= i < |h| :: h[i].rollNumber
  }

  /** The rounds of roll r, in ledger order. */
  function EntriesOfRoll(h: seq<Entry>, r: int): seq<Entry>
  {
    if h == [] then []
    else
      var e := h[|h| - 1];
      EntriesOfRoll(h[..|h| - 1], r) + (if e.rollNumber == r then [e] else [])
  }

  /** The left fold that buckets rounds by roll, appending each round to its roll's bucket. */
  function RollBuckets(h: seq<Entry>): map<int, seq<Entry>>
  {
    if h == [] then map[]
    else
      var acc := RollBuckets(h[..|h| - 1]);
      var e := h[|h| - 1];
      acc[e.rollNumber := (if e.rollNumber in acc then acc[e.rollNumber] else []) + [e]]
  }

  predicate StrictlyAscending(xs: seq<int>)
  {
    forall i, j :: 0 <= i < j < |xs| ==> xs[i] < xs[j]
  }

  /** Inserts r into an ascending list of distinct numbers, unless it is already there. */
  function InsertAscending(xs: seq<int>, r: int): seq<int>
  {
    if xs == [] then [r]
    else if r < xs[0] then [r] + xs
    else if r == xs[0] then xs
    else [xs[0]] + InsertAscending(xs[1..], r)
  }

  /** The distinct rolls of a ledger, ascending (the bucket keys after a numeric sort). */
  function SortedRolls(h: seq<Entry>): seq<int>
  {
    if h == [] then [] else InsertAscending(SortedRolls(h[..|h| - 1]), h[|h| - 1].rollNumber)
  }

  /** The columns of the history panel. */
  function HistoryByRoll(h: seq<Entry>): seq<RollColumn>
  {
    var buckets := RollBuckets(h);
    var ks := SortedRolls(h);
    SortedRollsAreBucketKeys(h);
    seq(|ks|, i requires 0 <= i < |ks| => RollColumn(ks[i], buckets[ks[i]]))
  }

  /** Column i for key ks[i], built from the filter rather than the buckets. */
  function ColumnsOf(h: seq<Entry>, ks: seq<int>): seq<RollColumn>
  {
    if ks == [] then []
    else ColumnsOf(h, ks[..|ks| - 1]) + [RollColumn(ks[|ks| - 1], EntriesOfRoll(h, ks[|ks| - 1]))]
  }

  /** The rounds of a list of columns, column after column. */
  function Flatten(cols: seq<RollColumn>): seq<Entry>
  {
    if cols == [] then [] else Flatten(cols[..|cols| - 1]) + cols[|cols| - 1].entries
  }

  predicate RollsNondecreasing(h: seq<Entry>)
  {
    forall i, j :: 0 <= i < j < |h| ==> h[i].rollNumber <= h[j].rollNumber
  }

  lemma RollsOfSnoc(h: seq<Entry>)
    requires h != []
    ensures RollsOf(h) == RollsOf(h[..|h| - 1]) + {h[|h| - 1].rollNumber}
  {
    var p := h[..|h| - 1];
    forall r | r in RollsOf(h) ensures r in RollsOf(p) + {h[|h| - 1].rollNumber} {
      var i :| 0 <= i < |h| && h[i].rollNumber == r;
      if i < |h| - 1 {
        assert p[i] == h[i];
      }
    }
    forall r | r in RollsOf(p) ensures r in RollsOf(h) {
      var i :| 0 <= i < |p| && p[i].rollNumber == r;
      assert h[i] == p[i];
    }
  }

  /** The filter keeps exactly the rounds of roll r, in ledger order. */
  lemma {:induction false} EntriesOfRollSpec(h: seq<Entry>, r: int)
    ensures forall e :: e in EntriesOfRoll(h, r) ==> e in h && e.rollNumber == r
    ensures forall k :: 0 <= k < |h| && h[k].rollNumber == r ==> h[k] in EntriesOfRoll(h, r)
    ensures EntriesOfRoll(h, r) == [] <==> r !in RollsOf(h)
  {
    if h != [] {
      var p := h[..|h| - 1];
      EntriesOfRollSpec(p, r);
      RollsOfSnoc(h);
      forall k | 0 <= k < |h| && h[k].rollNumber == r ensures h[k] in EntriesOfRoll(h, r) {
        if k < |h| - 1 {
          assert p[k] == h[k];
        }
      }
    }
  }

  /** The buckets are the filters: one per roll that occurs, none empty. */
  lemma {:induction false} RollBucketsAreFilters(h: seq<Entry>)
    ensures RollBuckets(h).Keys == RollsOf(h)
    ensures forall r :: r in RollBuckets(h) ==> RollBuckets(h)[r] == EntriesOfRoll(h, r) && RollBuckets(h)[r] != []
  {
    if h != [] {
      var p := h[..|h| - 1];
      RollBucketsAreFilters(p);
      RollsOfSnoc(h);
      EntriesOfRollSpec(p, h[|h| - 1].rollNumber);
    }
  }

  lemma AscendingTail(xs: seq<int>)
    requires xs != [] && StrictlyAscending(xs)
    ensures StrictlyAscending(xs[1..])
    ensures forall x :: x in xs[1..] ==> xs[0] < x
  {
    var tail := xs[1..];
    forall i, j | 0 <= i < j < |tail| ensures tail[i] < tail[j] {
      assert tail[i] == xs[i + 1] && tail[j] == xs[j + 1];
    }
    forall x | x in tail ensures xs[0] < x {
      var i :| 0 <= i < |tail| && tail[i] == x;
      assert xs[i + 1] == x;
    }
  }

  /** Membership in a non-empty list: the head or something in the tail. */
  lemma MemberOfCons(xs: seq<int>)
    requires xs != []
    ensures forall x :: x in xs <==> x == xs[0] || x in xs[1..]
  {
    assert xs == [xs[0]] + xs[1..];
  }

  lemma ConsAscending(x: int, ys: seq<int>)
    requires StrictlyAscending(ys)
    requires forall y :: y in ys ==> x < y
    ensures StrictlyAscending([x] + ys)
  {
    var t := [x] + ys;
    forall i, j | 0 <= i < j < |t| ensures t[i] < t[j] {
      assert t[j] == ys[j - 1] && ys[j - 1] in ys;
      if i > 0 {
        assert t[i] == ys[i - 1];
      }
    }
  }

  lemma {:induction false} InsertAscendingSpec(xs: seq<int>, r: int)
    requires StrictlyAscending(xs)
    ensures StrictlyAscending(InsertAscending(xs, r))
    ensures forall x :: x in InsertAscending(xs, r) <==> x in xs || x == r
    decreases |xs|
  {
    if xs == [] {
    } else if r < xs[0] {
      MemberOfCons([r] + xs);
      assert ([r] + xs)[1..] == xs;
      AscendingTail(xs);
      MemberOfCons(xs);
      ConsAscending(r, xs);
    } else if r > xs[0] {
      AscendingTail(xs);
      MemberOfCons(xs);
      InsertAscendingSpec(xs[1..], r);
      var ys := InsertAscending(xs[1..], r);
      assert InsertAscending(xs, r) == [xs[0]] + ys;
      MemberOfCons([xs[0]] + ys);
      assert ([xs[0]] + ys)[1..] == ys;
      ConsAscending(xs[0], ys);
    }
  }

  /** Inserting a number no smaller than every element appends it (or finds it last). */
  lemma {:induction false} InsertAscendingAtEnd(xs: seq<int>, r: int)
    requires StrictlyAscending(xs)
    requires forall x :: x in xs ==> x <= r
    ensures InsertAscending(xs, r) == if xs != [] && xs[|xs| - 1] == r then xs else xs + [r]
    decreases |xs|
  {
    if |xs| == 1 {
      assert xs[0] in xs;
    } else if |xs| > 1 {
      var tail := xs[1..];
      AscendingTail(xs);
      assert xs == [xs[0]] + tail;
      assert xs[0] < xs[1] && xs[1] in xs;
      assert forall x :: x in tail ==> x in xs;
      InsertAscendingAtEnd(tail, r);
      assert InsertAscending(xs, r) == [xs[0]] + InsertAscending(tail, r);
      assert tail[|tail| - 1] == xs[|xs| - 1];
    }
  }

  /** The sorted rolls are ascending, distinct, and exactly the rolls that occur. */
  lemma {:induction false} SortedRollsSpec(h: seq<Entry>)
    ensures StrictlyAscending(SortedRolls(h))
    ensures forall r :: r in SortedRolls(h) <==> r in RollsOf(h)
  {
    if h != [] {
      SortedRollsSpec(h[..|h| - 1]);
      InsertAscendingSpec(SortedRolls(h[..|h| - 1]), h[|h| - 1].rollNumber);
      RollsOfSnoc(h);
    }
  }

  lemma SortedRollsAreBucketKeys(h: seq<Entry>)
    ensures forall r :: r in SortedRolls(h) <==> r in RollBuckets(h)
    ensures forall i :: 0 <= i < |SortedRolls(h)| ==> SortedRolls(h)[i] in RollBuckets(h)
  {
    SortedRollsSpec(h);
    RollBucketsAreFilters(h);
  }

  /**
    The panel has one column per roll that occurs, rolls ascending, and each
    column holds exactly that roll's rounds in ledger order, never none.
   */
  lemma HistoryByRollColumns(h: seq<Entry>)
    ensures var cols := HistoryByRoll(h);
      && (forall i, j :: 0 <= i < j < |cols| ==> cols[i].roll < cols[j].roll)
      && (forall i :: 0 <= i < |cols| ==> cols[i].entries == EntriesOfRoll(h, cols[i].roll) && cols[i].entries != [])
      && (forall r :: r in RollsOf(h) <==> exists i :: 0 <= i < |cols| && cols[i].roll == r)
  {
    var cols := HistoryByRoll(h);
    var ks := SortedRolls(h);
    HistoryByRollIsColumnsOf(h);
    ColumnsOfShape(h, ks);
    SortedRollsSpec(h);
    forall i | 0 <= i < |cols|
      ensures cols[i].entries == EntriesOfRoll(h, cols[i].roll) && cols[i].entries != []
    {
      assert cols[i] == RollColumn(ks[i], EntriesOfRoll(h, ks[i]));
      EntriesOfRollSpec(h, ks[i]);
    }
    forall r | r in RollsOf(h) ensures exists i :: 0 <= i < |cols| && cols[i].roll == r {
      var i :| 0 <= i < |ks| && ks[i] == r;
      assert cols[i].roll == r;
    }
  }

  lemma {:induction false} ColumnsOfShape(h: seq<Entry>, ks: seq<int>)
    ensures |ColumnsOf(h, ks)| == |ks|
    ensures forall i :: 0 <= i < |ks| ==> ColumnsOf(h, ks)[i] == RollColumn(ks[i], EntriesOfRoll(h, ks[i]))
  {
    if ks != [] {
      ColumnsOfShape(h, ks[..|ks| - 1]);
    }
  }

  /** The panel's columns are the filter columns over the sorted rolls. */
  lemma HistoryByRollIsColumnsOf(h: seq<Entry>)
    ensures HistoryByRoll(h) == ColumnsOf(h, SortedRolls(h))
  {
    ColumnsOfShape(h, SortedRolls(h));
    RollBucketsAreFilters(h);
    SortedRollsSpec(h);
  }

  /** A round of a roll outside ks does not change the columns for ks. */
  lemma {:induction false} ColumnsOfIgnoresOtherRoll(p: seq<Entry>, e: Entry, ks: seq<int>)
    requires forall k :: k in ks ==> k != e.rollNumber
    ensures ColumnsOf(p + [e], ks) == ColumnsOf(p, ks)
  {
    if ks != [] {
      var front := ks[..|ks| - 1];
      assert forall k :: k in front ==> k in ks;
      ColumnsOfIgnoresOtherRoll(p, e, front);
      assert (p + [e])[..|p + [e]| - 1] == p;
      assert ks[|ks| - 1] in ks;
      assert EntriesOfRoll(p + [e], ks[|ks| - 1]) == EntriesOfRoll(p, ks[|ks| - 1]);
    }
  }

  lemma MaximumIsLast(ks: seq<int>, r: int)
    requires StrictlyAscending(ks)
    requires forall x :: x in ks ==> x <= r
    ensures r in ks ==> ks[|ks| - 1] == r
  {
    if r in ks {
      assert ks[|ks| - 1] in ks;
    }
  }

  /** Appending a round to the newest roll extends the last column. */
  lemma ExtendLastColumn(p: seq<Entry>, e: Entry, ks: seq<int>)
    requires StrictlyAscending(ks) && ks != [] && ks[|ks| - 1] == e.rollNumber
    ensures Flatten(ColumnsOf(p + [e], ks)) == Flatten(ColumnsOf(p, ks)) + [e]
  {
    var r := e.rollNumber;
    var h := p + [e];
    var front := ks[..|ks| - 1];
    assert ks == front + [r];
    forall k | k in front ensures k != r {
      var i :| 0 <= i < |front| && front[i] == k;
      assert ks[i] == k;
    }
    ColumnsOfIgnoresOtherRoll(p, e, front);
    assert h[..|h| - 1] == p;
    assert EntriesOfRoll(h, r) == EntriesOfRoll(p, r) + [e];
    var colsH := ColumnsOf(h, front) + [RollColumn(r, EntriesOfRoll(h, r))];
    var colsP := ColumnsOf(p, front) + [RollColumn(r, EntriesOfRoll(p, r))];
    assert ColumnsOf(h, ks) == colsH;
    assert ColumnsOf(p, ks) == colsP;
    assert colsH[..|colsH| - 1] == ColumnsOf(p, front);
    assert colsP[..|colsP| - 1] == ColumnsOf(p, front);
  }

  /** Appending a round of a roll beyond every key opens a new last column. */
  lemma OpenNewColumn(p: seq<Entry>, e: Entry, ks: seq<int>)
    requires e.rollNumber !in ks && e.rollNumber !in RollsOf(p)
    ensures Flatten(ColumnsOf(p + [e], ks + [e.rollNumber])) == Flatten(ColumnsOf(p, ks)) + [e]
  {
    var r := e.rollNumber;
    var h := p + [e];
    ColumnsOfIgnoresOtherRoll(p, e, ks);
    EntriesOfRollSpec(p, r);
    assert h[..|h| - 1] == p;
    assert EntriesOfRoll(h, r) == [e];
    assert (ks + [r])[..|ks + [r]| - 1] == ks;
    var cols := ColumnsOf(h, ks) + [RollColumn(r, [e])];
    assert ColumnsOf(h, ks + [r]) == cols;
    assert cols[..|cols| - 1] == ColumnsOf(p, ks);
  }

  lemma NondecreasingPrefix(p: seq<Entry>, e: Entry)
    requires RollsNondecreasing(p + [e])
    ensures RollsNondecreasing(p)
    ensures forall x :: x in RollsOf(p) ==> x <= e.rollNumber
  {
    var h := p + [e];
    forall i, j | 0 <= i < j < |p| ensures p[i].rollNumber <= p[j].rollNumber {
      assert p[i] == h[i] && p[j] == h[j];
    }
    forall x | x in RollsOf(p) ensures x <= e.rollNumber {
      var i :| 0 <= i < |p| && p[i].rollNumber == x;
      assert p[i] == h[i] && h[|h| - 1] == e;
    }
  }

  /** One more round of the newest roll (or of a later one) extends the panel's reading by that round. */
  lemma FlattenSnoc(p: seq<Entry>, e: Entry)
    requires RollsNondecreasing(p + [e])
    requires Flatten(ColumnsOf(p, SortedRolls(p))) == p
    ensures Flatten(ColumnsOf(p + [e], SortedRolls(p + [e]))) == p + [e]
  {
    var h := p + [e];
    var r := e.rollNumber;
    assert h[..|h| - 1] == p && h[|h| - 1] == e;
    var ks := SortedRolls(p);
    assert SortedRolls(h) == InsertAscending(ks, r);
    NondecreasingPrefix(p, e);
    SortedRollsSpec(p);
    InsertAscendingAtEnd(ks, r);
    MaximumIsLast(ks, r);
    if ks != [] && ks[|ks| - 1] == r {
      ExtendLastColumn(p, e, ks);
    } else {
      OpenNewColumn(p, e, ks);
    }
  }

  /**
    When rolls never go down along the ledger (as in every game started fresh),
    reading the columns left to right and top to bottom gives back the ledger.
   */
  lemma {:induction false} HistoryByRollFlatten(h: seq<Entry>)
    requires RollsNondecreasing(h)
    ensures Flatten(HistoryByRoll(h)) == h
  {
    HistoryByRollIsColumnsOf(h);
    if h != [] {
      var p, e := h[..|h| - 1], h[|h| - 1];
      assert h == p + [e];
      NondecreasingPrefix(p, e);
      HistoryByRollFlatten(p);
      HistoryByRollIsColumnsOf(p);
      FlattenSnoc(p, e);
    }
  }
}
