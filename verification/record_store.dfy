/**
  The pattern record store: the records of terminated patterns, their
  deduplication key, their textual id, and the recency order they are shown in.
 */
module RecordStore {
  import opened Classifier
  import opened Shapes
  import opened Text
  import opened Ledger

  /**
    A terminated pattern. `rollNumber`, `roundInRoll` and `timestamp` belong to the
    last round of the pattern (the round just before the terminator).
   */
  datatype PatternRecord = PatternRecord(
    patternType: PatternKind,
    sequence: seq<Group>,
    length: nat,
    rollNumber: int,
    roundInRoll: int,
    terminatorGroup: Group,
    timestamp: string,
    id: string)

  function RecordPosition(r: PatternRecord): Position
  {
    Position(r.rollNumber, r.roundInRoll)
  }

  /** The labels joined into text, as the original's `join('')`. */
  function GroupsText(w: seq<Group>): (t: string)
    ensures |t| == |w|
  {
    seq(|w|, i requires 0 <= i < |w| => GroupChar(w[i]))
  }

  /** The textual id `roll-round-sequence` the original stores with each record. */
  function IdText(roll: int, round: int, w: seq<Group>): string
  {
    IntToString(roll) + "-" + IntToString(round) + "-" + GroupsText(w)
  }

  /**
    For non-negative rolls and rounds the textual id determines the key, so
    deduplicating on the fields (as the code does) and on the id agree.
   */
  lemma IdTextInjective(roll: nat, round: nat, w: seq<Group>, roll': nat, round': nat, w': seq<Group>)
    requires IdText(roll, round, w) == IdText(roll', round', w')
    ensures roll == roll' && round == round' && w == w'
  {
    IdTextSplits(roll, round, w);
    IdTextSplits(roll', round', w');
    ParseNatRoundTrip(roll);
    ParseNatRoundTrip(roll');
    ParseNatRoundTrip(round);
    ParseNatRoundTrip(round');
    var t, t' := GroupsText(w), GroupsText(w');
    assert t == t';
    forall k | 0 <= k < |w|
      ensures w[k] == w'[k]
    {
      assert t[k] == GroupChar(w[k]) && t'[k] == GroupChar(w'[k]);
      GroupCharInjective(w[k], w'[k]);
    }
  }

  lemma IdTextSplits(roll: nat, round: nat, w: seq<Group>)
    ensures Split(IdText(roll, round, w), '-') == [NatToString(roll), NatToString(round), GroupsText(w)]
  {
    var parts := [NatToString(roll), NatToString(round), GroupsText(w)];
    NatToStringHasNoSign(roll, '-');
    NatToStringHasNoSign(round, '-');
    assert '-' !in GroupsText(w);
    assert IntToString(roll) == NatToString(roll) && IntToString(round) == NatToString(round);
    assert parts[1..] == [NatToString(round), GroupsText(w)];
    assert parts[1..][1..] == [GroupsText(w)];
    var a, b, c := NatToString(roll), NatToString(round), GroupsText(w);
    assert Join(parts[1..], '-') == b + ['-'] + c;
    assert Join(parts, '-') == a + ['-'] + (b + ['-'] + c);
    assert "-" == ['-'];
    assert a + ['-'] + (b + ['-'] + c) == a + "-" + b + "-" + c;
    SplitJoin(parts, '-');
  }

  /** Records with the same key: the fields the original compares when deduplicating. */
  predicate SameKey(p: PatternRecord, q: PatternRecord)
  {
    p.sequence == q.sequence && p.rollNumber == q.rollNumber && p.roundInRoll == q.roundInRoll
  }

  /** Some stored record already has `r`'s key. */
  predicate Recorded(recs: seq<PatternRecord>, r: PatternRecord)
  {
    exists p :: p in recs && SameKey(p, r)
  }

  predicate UniqueKeys(recs: seq<PatternRecord>)
  {
    forall i, j :: 0 <= i < j < |recs| ==> !SameKey(recs[i], recs[j])
  }

  /** `a` sorts before `b`: a later roll, or the same roll and a later round. */
  predicate NewerThan(a: PatternRecord, b: PatternRecord)
  {
    Earlier(RecordPosition(b), RecordPosition(a))
  }

  /** Roll descending, then round descending. */
  predicate ByRecency(recs: seq<PatternRecord>)
  {
    forall i, j :: 0 <= i < j < |recs| ==> !NewerThan(recs[j], recs[i])
  }

  /** Inserts `r` after every record that is not strictly older than it. */
  function InsertByRecency(sorted: seq<PatternRecord>, r: PatternRecord): seq<PatternRecord>
  {
    if sorted == [] then [r]
    else if NewerThan(r, sorted[0]) then [r] + sorted
    else [sorted[0]] + InsertByRecency(sorted[1..], r)
  }

  /**
    The records in the order the original's stable array sort leaves them with
    its comparator (roll descending, then round descending).
   */
  function SortedByRecency(recs: seq<PatternRecord>): seq<PatternRecord>
  {
    if recs == [] then [] else InsertByRecency(SortedByRecency(recs[..|recs| - 1]), recs[|recs| - 1])
  }

  /** The records at one position, in store order. */
  function AtPosition(recs: seq<PatternRecord>, p: Position): seq<PatternRecord>
  {
    if recs == [] then []
    else (if RecordPosition(recs[0]) == p then [recs[0]] else []) + AtPosition(recs[1..], p)
  }

  /** The tail of an ordered store is ordered, and nothing in it is newer than the head. */
  lemma ByRecencyTail(s: seq<PatternRecord>)
    requires s != [] && ByRecency(s)
    ensures ByRecency(s[1..])
    ensures forall y :: y in s[1..] ==> !NewerThan(y, s[0])
  {
    var t := s[1..];
    forall y | y in t
      ensures !NewerThan(y, s[0])
    {
      var k :| 0 <= k < |t| && t[k] == y;
      assert s[k + 1] == y;
    }
    forall i, j | 0 <= i < j < |t|
      ensures !NewerThan(t[j], t[i])
    {
      assert t[i] == s[i + 1] && t[j] == s[j + 1];
    }
  }

  /** Putting a record in front of an ordered store keeps it ordered when nothing there is newer. */
  lemma ConsByRecency(x: PatternRecord, u: seq<PatternRecord>)
    requires ByRecency(u)
    requires forall y :: y in u ==> !NewerThan(y, x)
    ensures ByRecency([x] + u)
  {
    var t := [x] + u;
    forall i, j | 0 <= i < j < |t|
      ensures !NewerThan(t[j], t[i])
    {
      assert t[j] == u[j - 1] && u[j - 1] in u;
      if i > 0 {
        assert t[i] == u[i - 1];
      }
    }
  }

  /** What an insertion holds: the store's records and the inserted one. */
  lemma InsertByRecencyMembers(s: seq<PatternRecord>, r: PatternRecord, y: PatternRecord)
    requires multiset(InsertByRecency(s, r)) == multiset(s) + multiset{r}
    requires y in InsertByRecency(s, r)
    ensures y in s || y == r
  {
    assert y in multiset(InsertByRecency(s, r));
  }

  lemma {:induction false} InsertByRecencyOrdered(s: seq<PatternRecord>, r: PatternRecord)
    requires ByRecency(s)
    ensures multiset(InsertByRecency(s, r)) == multiset(s) + multiset{r}
    ensures ByRecency(InsertByRecency(s, r))
  {
    if s != [] {
      ByRecencyTail(s);
      if NewerThan(r, s[0]) {
        ConsByRecency(r, s);
      } else {
        assert s == [s[0]] + s[1..];
        InsertByRecencyOrdered(s[1..], r);
        var u := InsertByRecency(s[1..], r);
        forall y | y in u
          ensures !NewerThan(y, s[0])
        {
          InsertByRecencyMembers(s[1..], r, y);
        }
        ConsByRecency(s[0], u);
      }
    }
  }

  /** The recency sort orders the store: roll descending, then round descending. */
  lemma {:induction false} SortedByRecencyOrdered(recs: seq<PatternRecord>)
    ensures ByRecency(SortedByRecency(recs))
    ensures multiset(SortedByRecency(recs)) == multiset(recs)
  {
    if recs != [] {
      var init, last := recs[..|recs| - 1], recs[|recs| - 1];
      SortedByRecencyOrdered(init);
      OrderedSnoc(init, last);
      assert recs == init + [last];
    }
  }

  /** Sorting a store with one more record inserts that record into the sorted rest. */
  lemma SortedByRecencySnoc(init: seq<PatternRecord>, last: PatternRecord)
    ensures SortedByRecency(init + [last]) == InsertByRecency(SortedByRecency(init), last)
  {
    var recs := init + [last];
    assert recs[..|recs| - 1] == init;
  }

  lemma OrderedSnoc(init: seq<PatternRecord>, last: PatternRecord)
    requires ByRecency(SortedByRecency(init)) && multiset(SortedByRecency(init)) == multiset(init)
    ensures ByRecency(SortedByRecency(init + [last]))
    ensures multiset(SortedByRecency(init + [last])) == multiset(init + [last])
  {
    SortedByRecencySnoc(init, last);
    InsertByRecencyOrdered(SortedByRecency(init), last);
    assert multiset(init + [last]) == multiset(init) + multiset{last};
  }

  lemma {:induction false} AtPositionConcat(a: seq<PatternRecord>, b: seq<PatternRecord>, p: Position)
    ensures AtPosition(a + b, p) == AtPosition(a, p) + AtPosition(b, p)
  {
    if a != [] {
      assert (a + b)[0] == a[0];
      assert (a + b)[1..] == a[1..] + b;
      AtPositionConcat(a[1..], b, p);
    } else {
      assert a + b == b;
    }
  }

  lemma AtPositionSingle(r: PatternRecord, p: Position)
    ensures AtPosition([r], p) == if RecordPosition(r) == p then [r] else []
  {
    assert [r][1..] == [];
  }

  lemma {:induction false} NoneAtNewerPosition(s: seq<PatternRecord>, r: PatternRecord)
    requires forall x :: x in s ==> NewerThan(r, x)
    ensures AtPosition(s, RecordPosition(r)) == []
  {
    if s != [] {
      assert s[0] in s;
      assert forall x :: x in s[1..] ==> x in s;
      NoneAtNewerPosition(s[1..], r);
    }
  }

  lemma {:induction false} InsertByRecencyStable(s: seq<PatternRecord>, r: PatternRecord, p: Position)
    requires ByRecency(s)
    ensures AtPosition(InsertByRecency(s, r), p) == AtPosition(s, p) + (if RecordPosition(r) == p then [r] else [])
  {
    if s != [] {
      ByRecencyTail(s);
      if NewerThan(r, s[0]) {
        assert ([r] + s)[1..] == s;
        if RecordPosition(r) == p {
          forall x | x in s
            ensures NewerThan(r, x)
          {
            if x != s[0] {
              assert x in s[1..];
            }
          }
          NoneAtNewerPosition(s, r);
        }
      } else {
        InsertByRecencyStable(s[1..], r, p);
        assert ([s[0]] + InsertByRecency(s[1..], r))[1..] == InsertByRecency(s[1..], r);
      }
    }
  }

  lemma StableSnoc(init: seq<PatternRecord>, last: PatternRecord, p: Position)
    requires AtPosition(SortedByRecency(init), p) == AtPosition(init, p)
    ensures AtPosition(SortedByRecency(init + [last]), p) == AtPosition(init + [last], p)
  {
    SortedByRecencySnoc(init, last);
    SortedByRecencyOrdered(init);
    InsertByRecencyStable(SortedByRecency(init), last, p);
    AtPositionSnoc(init, last, p);
  }

  lemma AtPositionSnoc(init: seq<PatternRecord>, last: PatternRecord, p: Position)
    ensures AtPosition(init + [last], p) == AtPosition(init, p) + (if RecordPosition(last) == p then [last] else [])
  {
    AtPositionConcat(init, [last], p);
    AtPositionSingle(last, p);
  }

  /**
    The recency sort is stable: the records that share a position keep the order
    they had in the store.
   */
  lemma {:induction false} SortedByRecencyStable(recs: seq<PatternRecord>, p: Position)
    ensures AtPosition(SortedByRecency(recs), p) == AtPosition(recs, p)
  {
    if recs != [] {
      var init, last := recs[..|recs| - 1], recs[|recs| - 1];
      SortedByRecencyStable(init, p);
      StableSnoc(init, last, p);
      assert recs == init + [last];
    }
  }

  /** The tail of a store with unique keys has unique keys, and none of them is the head's. */
  lemma UniqueKeysTail(s: seq<PatternRecord>)
    requires s != [] && UniqueKeys(s)
    ensures UniqueKeys(s[1..])
    ensures forall y :: y in s[1..] ==> !SameKey(s[0], y)
  {
    var t := s[1..];
    forall y | y in t
      ensures !SameKey(s[0], y)
    {
      var k :| 0 <= k < |t| && t[k] == y;
      assert s[k + 1] == y;
    }
    forall i, j | 0 <= i < j < |t|
      ensures !SameKey(t[i], t[j])
    {
      assert t[i] == s[i + 1] && t[j] == s[j + 1];
    }
  }

  /** Putting a record with a new key in front keeps the keys unique. */
  lemma ConsUniqueKeys(x: PatternRecord, u: seq<PatternRecord>)
    requires UniqueKeys(u)
    requires forall y :: y in u ==> !SameKey(x, y)
    ensures UniqueKeys([x] + u)
  {
    var t := [x] + u;
    forall i, j | 0 <= i < j < |t|
      ensures !SameKey(t[i], t[j])
    {
      assert t[j] == u[j - 1] && u[j - 1] in u;
      if i > 0 {
        assert t[i] == u[i - 1];
      }
    }
  }

  lemma {:induction false} InsertByRecencyKeepsUniqueKeys(s: seq<PatternRecord>, r: PatternRecord)
    requires UniqueKeys(s) && !Recorded(s, r)
    ensures UniqueKeys(InsertByRecency(s, r))
    ensures multiset(InsertByRecency(s, r)) == multiset(s) + multiset{r}
  {
    if s != [] {
      UniqueKeysTail(s);
      if NewerThan(r, s[0]) {
        ConsUniqueKeys(r, s);
      } else {
        assert s == [s[0]] + s[1..];
        assert s[0] in s;
        assert forall x :: x in s[1..] ==> x in s;
        InsertByRecencyKeepsUniqueKeys(s[1..], r);
        var u := InsertByRecency(s[1..], r);
        forall y | y in u
          ensures !SameKey(s[0], y)
        {
          InsertByRecencyMembers(s[1..], r, y);
        }
        ConsUniqueKeys(s[0], u);
      }
    }
  }

  /** Sorting never makes two stored records share a key. */
  lemma {:induction false} SortedByRecencyKeepsUniqueKeys(recs: seq<PatternRecord>)
    requires UniqueKeys(recs)
    ensures UniqueKeys(SortedByRecency(recs))
  {
    if recs != [] {
      var init, last := recs[..|recs| - 1], recs[|recs| - 1];
      assert forall i, j :: 0 <= i < j < |init| ==> init[i] == recs[i] && init[j] == recs[j];
      SortedByRecencyKeepsUniqueKeys(init);
      SortedByRecencyOrdered(init);
      forall p | p in SortedByRecency(init)
        ensures !SameKey(p, last)
      {
        assert p in multiset(init);
        var k :| 0 <= k < |init| && init[k] == p;
        assert !SameKey(recs[k], recs[|recs| - 1]);
      }
      InsertByRecencyKeepsUniqueKeys(SortedByRecency(init), last);
    }
  }

  /** Sorting keeps exactly the keys that were stored. */
  lemma SortedByRecencyKeepsRecorded(recs: seq<PatternRecord>, r: PatternRecord)
    ensures Recorded(SortedByRecency(recs), r) <==> Recorded(recs, r)
  {
    SortedByRecencyOrdered(recs);
    if Recorded(recs, r) {
      var p :| p in recs && SameKey(p, r);
      assert p in multiset(SortedByRecency(recs));
    }
    if Recorded(SortedByRecency(recs), r) {
      var p :| p in SortedByRecency(recs) && SameKey(p, r);
      assert p in multiset(recs);
    }
  }
}
