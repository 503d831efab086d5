/**
  The CSV text of the ledger: a fixed header line, then one comma-separated
  line per round in ledger order, each line ended by a newline. A missing
  prediction is written as an em dash, and so is its correctness mark.
 */
module Export {
  import opened Options
  import opened Classifier
  import opened Text
  import opened Ledger

  const Comma: char := ','
  const Newline: char := '\n'

  /** The mark written for a missing prediction (an em dash). */
  const Dash: string := "\U{2014}"
  /** The mark written for a correct prediction (a check mark). */
  const Tick: string := "\U{2705}"
  /** The mark written for a wrong prediction (a cross mark). */
  const Cross: string := "\U{274C}"

  const HeaderFields: seq<string> :=
    ["Roll", "Round", "Target Group (G)", "User Digit", "P Prediction", "P Correct", "E Prediction", "E Correct"]

  function CsvHeader(): string
  {
    Join(HeaderFields, Comma)
  }

  function PredictionText(p: Option<Group>): string
  {
    match p
    case None => Dash
    case Some(g) => [GroupChar(g)]
  }

  /** The correctness mark: a dash when there was no prediction to score. */
  function CorrectMark(p: Option<Group>, correct: bool): string
  {
    if p.None? then Dash else if correct then Tick else Cross
  }

  function Fields(e: Entry): seq<string>
  {
    [IntToString(e.rollNumber), IntToString(e.roundInRoll), [GroupChar(e.targetGroup)], [DigitChar(e.userDigit)],
     PredictionText(e.prediction), CorrectMark(e.prediction, e.isCorrect),
     PredictionText(e.extraPrediction), CorrectMark(e.extraPrediction, e.isExtraCorrect)]
  }

  function CsvRow(e: Entry): string
  {
    Join(Fields(e), Comma)
  }

  /** The row lines, each followed by a newline, in ledger order. */
  function RowsText(h: seq<Entry>): string
  {
    if h == [] then "" else CsvRow(h[0]) + [Newline] + RowsText(h[1..])
  }

  /** The exported text (without the optional start-time line). */
  function GenerateCsv(h: seq<Entry>): string
  {
    CsvHeader() + [Newline] + RowsText(h)
  }

  /** What one CSV row says about a round; a score is None where the row shows a dash. */
  datatype ExportRow = ExportRow(
    roll: int,
    round: int,
    target: Group,
    digit: Digit,
    prediction: Option<Group>,
    correct: Option<bool>,
    extraPrediction: Option<Group>,
    extraCorrect: Option<bool>)

  function Scored(p: Option<Group>, correct: bool): Option<bool>
  {
    if p.None? then None else Some(correct)
  }

  /** The part of an entry that its CSV row shows. */
  function ExportView(e: Entry): ExportRow
  {
    ExportRow(e.rollNumber, e.roundInRoll, e.targetGroup, e.userDigit,
              e.prediction, Scored(e.prediction, e.isCorrect),
              e.extraPrediction, Scored(e.extraPrediction, e.isExtraCorrect))
  }

  function ExportViews(h: seq<Entry>): seq<ExportRow>
  {
    if h == [] then [] else [ExportView(h[0])] + ExportViews(h[1..])
  }

  function ParseGroup(s: string): Option<Group>
  {
    if s == "S" then Some(S) else if s == "B" then Some(B) else None
  }

  function ParseDigitField(s: string): Option<Digit>
  {
    if |s| == 1 && IsDigitChar(s[0]) then Some(s[0] as int - '0' as int) else None
  }

  function ParsePrediction(s: string): Option<Option<Group>>
  {
    if s == Dash then Some(None)
    else match ParseGroup(s)
      case Some(g) => Some(Some(g))
      case None => None
  }

  function ParseMark(s: string): Option<Option<bool>>
  {
    if s == Dash then Some(None)
    else if s == Tick then Some(Some(true))
    else if s == Cross then Some(Some(false))
    else None
  }

  /** Reads the eight fields of a row back; None when one of them has the wrong shape. */
  function DecodeFields(f: seq<string>): Option<ExportRow>
    requires |f| == 8
  {
    match (ParseInt(f[0]), ParseInt(f[1]), ParseGroup(f[2]), ParseDigitField(f[3]))
    case (Some(roll), Some(round), Some(target), Some(digit)) =>
      (match (ParsePrediction(f[4]), ParseMark(f[5]), ParsePrediction(f[6]), ParseMark(f[7]))
       case (Some(p), Some(pc), Some(x), Some(xc)) => Some(ExportRow(roll, round, target, digit, p, pc, x, xc))
       case _ => None)
    case _ => None
  }

  /** Reads one CSV row back; None when it does not have the exported shape. */
  function DecodeRow(line: string): Option<ExportRow>
  {
    var f := Split(line, Comma);
    if |f| != 8 then None else DecodeFields(f)
  }

  function DecodeRows(lines: seq<string>): Option<seq<ExportRow>>
  {
    if lines == [] then Some([])
    else
      match (DecodeRow(lines[0]), DecodeRows(lines[1..]))
      case (Some(r), Some(rs)) => Some([r] + rs)
      case _ => None
  }

  /** Reads an exported text back: the header line, the rows, and a final newline. */
  function ParseCsv(text: string): Option<seq<ExportRow>>
  {
    var lines := Split(text, Newline);
    if |lines| < 2 || lines[0] != CsvHeader() || lines[|lines| - 1] != "" then None
    else DecodeRows(lines[1..|lines| - 1])
  }

  lemma FieldsAvoid(e: Entry, c: char)
    requires c == Comma || c == Newline
    ensures forall k :: 0 <= k < |Fields(e)| ==> c !in Fields(e)[k]
  {
    IntToStringAvoids(e.rollNumber, c);
    IntToStringAvoids(e.roundInRoll, c);
  }

  lemma {:induction false} JoinAvoids(parts: seq<string>, sep: char, c: char)
    requires |parts| >= 1 && c != sep
    requires forall k :: 0 <= k < |parts| ==> c !in parts[k]
    ensures c !in Join(parts, sep)
  {
    if |parts| > 1 {
      JoinAvoids(parts[1..], sep, c);
    }
  }

  lemma RowHasNoNewline(e: Entry)
    ensures Newline !in CsvRow(e)
  {
    FieldsAvoid(e, Newline);
    JoinAvoids(Fields(e), Comma, Newline);
  }

  /** A row splits at its commas into exactly its eight fields. */
  lemma RowFields(e: Entry)
    ensures Split(CsvRow(e), Comma) == Fields(e)
  {
    FieldsAvoid(e, Comma);
    SplitJoin(Fields(e), Comma);
  }

  lemma ParseGroupRoundTrip(g: Group)
    ensures ParseGroup([GroupChar(g)]) == Some(g)
  {
  }

  lemma ParseDigitFieldRoundTrip(d: Digit)
    ensures ParseDigitField([DigitChar(d)]) == Some(d)
  {
  }

  lemma ParsePredictionRoundTrip(p: Option<Group>)
    ensures ParsePrediction(PredictionText(p)) == Some(p)
  {
    if p.Some? {
      assert PredictionText(p) != Dash by {
        assert |PredictionText(p)| == 1 && |Dash| == 1 && PredictionText(p)[0] != Dash[0];
      }
      ParseGroupRoundTrip(p.value);
    }
  }

  lemma ParseMarkRoundTrip(p: Option<Group>, correct: bool)
    ensures ParseMark(CorrectMark(p, correct)) == Some(Scored(p, correct))
  {
    assert Dash[0] != Tick[0] && Dash[0] != Cross[0] && Tick[0] != Cross[0];
  }

  /** The eight fields of every row read back as the part of its entry that they show. */
  lemma DecodeFieldsRoundTrip(e: Entry)
    ensures DecodeFields(Fields(e)) == Some(ExportView(e))
  {
    var f := Fields(e);
    ParseIntRoundTrip(e.rollNumber);
    ParseIntRoundTrip(e.roundInRoll);
    ParseGroupRoundTrip(e.targetGroup);
    ParseDigitFieldRoundTrip(e.userDigit);
    ParsePredictionRoundTrip(e.prediction);
    ParseMarkRoundTrip(e.prediction, e.isCorrect);
    ParsePredictionRoundTrip(e.extraPrediction);
    ParseMarkRoundTrip(e.extraPrediction, e.isExtraCorrect);
  }

  /** Every row reads back as the part of its entry that it shows. */
  lemma DecodeRowRoundTrip(e: Entry)
    ensures DecodeRow(CsvRow(e)) == Some(ExportView(e))
  {
    RowFields(e);
    DecodeFieldsRoundTrip(e);
  }

  /** The row lines split at newlines into one line per round, then an empty remainder. */
  lemma {:induction false} RowsTextLines(h: seq<Entry>)
    ensures Split(RowsText(h), Newline) == RowLines(h) + [""]
  {
    if h != [] {
      RowsTextLines(h[1..]);
      RowHasNoNewline(h[0]);
      SplitFirst(CsvRow(h[0]), Newline, RowsText(h[1..]));
    }
  }

  function RowLines(h: seq<Entry>): seq<string>
  {
    if h == [] then [] else [CsvRow(h[0])] + RowLines(h[1..])
  }

  lemma {:induction false} RowLinesShape(h: seq<Entry>)
    ensures |RowLines(h)| == |h|
    ensures forall i :: 0 <= i < |h| ==> RowLines(h)[i] == CsvRow(h[i])
  {
    if h != [] {
      RowLinesShape(h[1..]);
    }
  }

  lemma HeaderHasNoNewline()
    ensures Newline !in CsvHeader()
  {
    JoinAvoids(HeaderFields, Comma, Newline);
  }

  /** The exported text splits at newlines into the header, the row lines, and an empty remainder. */
  lemma CsvSplit(h: seq<Entry>)
    ensures Split(GenerateCsv(h), Newline) == [CsvHeader()] + RowLines(h) + [""]
  {
    HeaderHasNoNewline();
    HeaderThenRows(CsvHeader(), h);
  }

  /** Any header line without a newline, followed by the rows, splits the same way. */
  lemma HeaderThenRows(header: string, h: seq<Entry>)
    requires Newline !in header
    ensures Split(header + [Newline] + RowsText(h), Newline) == [header] + RowLines(h) + [""]
  {
    SplitFirst(header, Newline, RowsText(h));
    RowsTextLines(h);
  }

  /**
    The exported text has the header line, then exactly one line per round in
    ledger order, and ends with a newline.
   */
  lemma CsvLines(h: seq<Entry>)
    ensures var lines := Split(GenerateCsv(h), Newline);
      && |lines| == |h| + 2
      && lines[0] == CsvHeader()
      && (forall i :: 0 <= i < |h| ==> lines[i + 1] == CsvRow(h[i]))
      && lines[|h| + 1] == ""
  {
    CsvSplit(h);
    RowLinesShape(h);
    FramedLines(CsvHeader(), RowLines(h));
  }

  /** Where each piece of a header, its rows and an empty remainder sits. */
  lemma FramedLines(header: string, rows: seq<string>)
    ensures var lines := [header] + rows + [""];
      && |lines| == |rows| + 2
      && lines[0] == header
      && (forall i :: 0 <= i < |rows| ==> lines[i + 1] == rows[i])
      && lines[|rows| + 1] == ""
      && lines[1..|lines| - 1] == rows
  {
    var lines := [header] + rows + [""];
    assert lines[1..|lines| - 1] == rows;
  }

  lemma {:induction false} DecodeRowsRoundTrip(h: seq<Entry>)
    ensures DecodeRows(RowLines(h)) == Some(ExportViews(h))
  {
    if h != [] {
      DecodeRowsRoundTrip(h[1..]);
      DecodeRowRoundTrip(h[0]);
    }
  }

  /** Reading the exported text back yields what each round's row shows, in ledger order. */
  lemma CsvRoundTrip(h: seq<Entry>)
    ensures ParseCsv(GenerateCsv(h)) == Some(ExportViews(h))
  {
    CsvSplit(h);
    FramedLines(CsvHeader(), RowLines(h));
    DecodeRowsRoundTrip(h);
  }

  lemma {:induction false} ExportViewsShape(h: seq<Entry>)
    ensures |ExportViews(h)| == |h|
    ensures forall i :: 0 <= i < |h| ==> ExportViews(h)[i] == ExportView(h[i])
  {
    if h != [] {
      ExportViewsShape(h[1..]);
    }
  }

  /**
    A round whose prediction was missing shows a dash for both the prediction
    and its mark; otherwise the mark says whether the prediction was right.
   */
  lemma RowMarks(e: Entry)
    ensures e.prediction.None? ==> Fields(e)[4] == Dash && Fields(e)[5] == Dash
    ensures e.prediction.Some? ==>
      Fields(e)[4] == [GroupChar(e.prediction.value)] && Fields(e)[5] == (if e.isCorrect then Tick else Cross)
    ensures e.extraPrediction.None? ==> Fields(e)[6] == Dash && Fields(e)[7] == Dash
    ensures e.extraPrediction.Some? ==>
      Fields(e)[6] == [GroupChar(e.extraPrediction.value)] && Fields(e)[7] == (if e.isExtraCorrect then Tick else Cross)
  {
  }

  /** An empty ledger exports the header line alone. */
  lemma EmptyLedgerCsv()
    ensures GenerateCsv([]) == CsvHeader() + "\n"
  {
  }
}
