# S/B digit game — verified model

`apk.js` runs a small game over a stream of digits 0–9. Each submitted digit gets a
group label: `S` (Small, 0–4) or `B` (Big, 5–9). Before each round the app shows two
predictions for the next label:

- P, from the parity of the pending digit;
- E, from the parity of the sum of the last three digits.

Each submission does the following:

- scores both predictions against the new label;
- appends an entry to the ledger (`history`), stamped with the roll and the round (1–10) it was played in;
- runs the terminated-pattern detector, which may add one record to the store (`recordedPatterns`);
- re-sorts the store by recency;
- advances the round counter;
- makes new predictions.

The detector looks at windows of 8, 7 and 6 labels, longest first. Each window is the labels just before the newest
entry. A window counts when it is a streak, a single-alternating run or a fixed
double-alternating literal, and the newest label terminates it. The detector adds the first such pattern whose
(sequence, roll, round) key is not already stored.

Separately, the live warning scans the last eight labels for an ongoing pattern, in a fixed order of precedence. The
history panel groups the ledger by roll. The CSV export writes one line per entry.

The project is a set of modules, one per file:

| module | file | what it holds |
|---|---|---|
| `Options` | options.dfy | the `Option` datatype |
| `Classifier` | classifier.dfy | `Digit` (0..9), `Group` (`S`/`B`), `GroupOf` |
| `Text` | text.dfy | decimal text of numbers, `Split`/`Join`, with round trips |
| `Ledger` | ledger.dfy | the ledger `Entry`, its labels, (roll, round) positions and how they advance |
| `Prediction` | prediction.dfy | the P and E predictions |
| `Shapes` | shapes.dfy | streaks, single-alternating runs, the double-alternating literals |
| `RecordStore` | record_store.dfy | `PatternRecord`, its key and id text, the stable sort by recency |
| `Termination` | termination.dfy | the window classifier and the detector as functions |
| `Warning` | warning.dfy | the live pattern warning |
| `HistoryView` | history_view.dfy | grouping the ledger by roll |
| `Export` | export.dfy | the CSV text, and a parser that inverts it |
| `Input` | input.dfy | the one-character digit guard |
| `Round` | round.dfy | the whole game state as a value (`State`), one submission (`Step`), start-up (`Boot`), and the states reachable from a fresh game (`ValidGame`) |
| `Game` | game.dfy | the mutable globals as a `GameState` class, whose methods are proved to produce `Step` and `Boot` |

`GameState` mirrors the source's globals. Its methods update them step by step, as the source does:

- `RecordRound` pushes the entry;
- `CheckAndRecordPatterns` scans with a loop (in `FindTerminated`) and pushes at most one record;
- `SortRecords` re-sorts the store;
- `SubmitAnswer` advances the counters and makes new predictions.

Each method's postcondition ties the new fields, read together as `Snapshot()`, to the functions of `Round`. The
properties of the game are lemmas about those functions.

## Model

| member | source | states |
|---|---|---|
| Classifier.GroupPreimages | apk.js:128-131 | the digits labelled S are exactly 0–4 and those labelled B exactly 5–9 |
| Classifier.GroupOfMonotone | apk.js:128-131 | the label is a threshold: a larger digit than a B digit is B, a smaller one than an S digit is S |
| Classifier.GroupCharInjective | apk.js:128-131 | the two labels are written as different characters, so label text determines the labels |
| Ledger.Groups | apk.js:168 | the label sequence of the ledger has one label per entry, the i-th being entry i's target group |
| Ledger.PositionAfterClosedForm | apk.js:298-303 | after n submissions from roll 1, round 1, the position is roll n div 10 + 1, round n mod 10 + 1 |
| Ledger.PositionAfterInRange | apk.js:298-303 | the round of any position reached from the start is in 1..10, and the roll is at least 1 |
| Ledger.PositionsIncrease | apk.js:298-303 | positions reached after more submissions come strictly later in (roll, round) order |
| Prediction.PrimaryPredictionTable | apk.js:133-144 | P is absent exactly when no digit is pending; otherwise S exactly for an even digit and B exactly for an odd one |
| Prediction.SecondaryPredictionByOddDigits | apk.js:146-160 | E is absent exactly when fewer than three rounds are played; otherwise S exactly when an even number of the last three digits are odd |
| Prediction.SecondaryIgnoresOlderRounds | apk.js:146-160 | E depends only on the last three rounds of the ledger |
| Shapes.DoubleAltLiteralsArePairRuns | apk.js:208-217 | the listed double-alternating literals of length 4, 6 and 8 are exactly the sequences of that length made of alternating equal pairs |
| Shapes.ShapesExclusive | apk.js:185-217 | no window of two or more labels is both a streak and single-alternating, and a double-alternating literal is neither |
| RecordStore.IdTextInjective | apk.js:238 | the record id text determines the roll, the round and the sequence it was built from |
| RecordStore.IdTextSplits | apk.js:238 | splitting an id at its dashes gives back the roll text, the round text and the label text |
| RecordStore.SortedByRecencyOrdered | apk.js:348-353 | sorting the store puts it in descending (roll, round) order and is a permutation of the store |
| RecordStore.SortedByRecencyStable | apk.js:348-353 | the sort is stable: records at the same (roll, round) keep their relative order |
| RecordStore.SortedByRecencyKeepsUniqueKeys | apk.js:348-353 | sorting a store whose keys are distinct keeps them distinct |
| RecordStore.SortedByRecencyKeepsRecorded | apk.js:348-353 | a key is in the sorted store exactly when it is in the store |
| Termination.ClassifyCharacterized | apk.js:185-217 | a window is a Streak exactly when all labels are equal and the terminator differs; Single-Alternating exactly when it alternates and the terminator repeats the last label; Double-Alternating exactly when the length is 6 or 8, it is a listed literal and the terminator repeats the last label (Streak and Single-Alternating take precedence) |
| Termination.DetectNeedsSevenRounds | apk.js:163-166 | with fewer than seven rounds the detector finds nothing |
| Termination.DetectedIsFirstNewCandidate | apk.js:173-243 | a detected record has length 8, 7 or 6, is the terminated pattern of that window, has a key not yet stored, and every longer window was either not a pattern or already stored |
| Termination.DetectFindsEveryNewCandidate | apk.js:175-243 | whenever some window length 6–8 holds a terminated pattern not yet stored, the detector adds a record at least that long |
| Termination.CandidateShape | apk.js:178-239 | a window's record carries its length, the L labels before the newest entry as sequence, the newest label as terminator, roll, round and timestamp of the entry before the terminator, the id built from them, and a type that matches its shape |
| Termination.RecordedStreakFallsThrough | apk.js:223-243 | when the 8-long streak that just ended is already stored, the scan goes on and records the 7-long streak inside it |
| Termination.DetectedIsGenuine | apk.js:221-239 | a detected record describes a pattern that really terminated in the ledger |
| Warning.WarningNeedsThreeRounds | apk.js:658-659 | with fewer than three rounds there is no warning |
| Warning.RecentGroups | apk.js:661 | the window scanned holds the last eight labels, or all of them when fewer |
| Warning.RecentGroupsAreNewest | apk.js:661 | the scanned window is the labels of the newest rounds, oldest first |
| Warning.StreakScanFindsLongest | apk.js:672-680 | the streak scan returns the longest streak suffix of length 4 or more, or none when there is none |
| Warning.SingleAltScanFindsLongest | apk.js:698-706 | the single-alternating scan returns the longest alternating suffix of length 3 or more, or none when there is none |
| Warning.WarningIsRecentSuffix | apk.js:661-708 | a warned pattern is a suffix of the last at most eight labels |
| Warning.WarningStreakFirst | apk.js:672-680 | a streak warning is given exactly when a streak suffix of length 4 or more exists, and it is the longest one |
| Warning.WarningDoubleAltSecond | apk.js:682-696 | a double-alternating warning is given exactly when no streak qualifies and the last 8 or last 4 labels are a listed literal, the 8-long one winning |
| Warning.WarningSingleAltLast | apk.js:698-706 | a single-alternating warning is given exactly when neither earlier class qualifies and an alternating suffix of 3 or more exists, and it is the longest one |
| Warning.WarningNoneMeansNoPattern | apk.js:657-708 | there is no warning exactly when fewer than three rounds are played or no class qualifies |
| HistoryView.EntriesOfRollSpec | apk.js:441-447 | a roll's bucket holds exactly the rounds of that roll, and is empty exactly when the roll never occurs |
| HistoryView.RollBucketsAreFilters | apk.js:441-447 | the reduce creates one bucket per roll that occurs, none empty, each being the ledger filtered to that roll in ledger order |
| HistoryView.SortedRollsSpec | apk.js:449 | the bucket keys after the numeric sort are strictly ascending and are exactly the rolls that occur |
| HistoryView.HistoryByRollColumns | apk.js:441-449 | the panel has one column per roll that occurs, rolls ascending, each holding exactly that roll's rounds in ledger order |
| HistoryView.HistoryByRollFlatten | apk.js:441-449 | when rolls never decrease along the ledger, reading the columns one after another gives back the ledger |
| Export.RowFields | apk.js:560-569 | a row splits at its commas into exactly its eight fields, as no field holds a comma |
| Export.RowMarks | apk.js:555-558 | a missing prediction is written as a dash with a dash mark; a present one as its label with a tick or a cross according to its flag |
| Export.DecodeRowRoundTrip | apk.js:560-569 | a row parses back to the entry's exported fields |
| Export.CsvLines | apk.js:550-570 | the CSV is the header line, then exactly one line per entry in ledger order, then a final newline |
| Export.CsvRoundTrip | apk.js:550-570 | parsing the CSV of a ledger gives back every entry's exported fields, in order |
| Export.EmptyLedgerCsv | apk.js:550-551 | an empty ledger exports only the header line |
| Input.ParseDigitTextAccepts | apk.js:798 | the guard admits exactly the one-character inputs 0–9 |
| Input.ParseDigitTextRoundTrip | apk.js:798-799 | each digit's own text is admitted as that digit |
| Input.ParseDigitTextInverse | apk.js:798-799 | an admitted input is exactly its digit's text |
| Round.StepAppendsEntry | apk.js:267-282 | a submission appends exactly one entry and keeps the older ones; the entry has the digit, its label, the timestamp, the roll and round before the call, the pending digit and predictions, and the sum remainder |
| Round.StepScoring | apk.js:252-259 | the first round is never scored; E is never correct without an E prediction; otherwise each flag holds exactly when its prediction equals the new label |
| Round.StepAdvance | apk.js:298-303 | the round moves on by one, and from 10 it wraps to 1 and the roll moves on by one |
| Round.StepPredictions | apk.js:305-306 | after a submission the digit is pending, P is always present (S exactly for an even digit), E is made from the new ledger and absent exactly before the third round; the start time is kept |
| Round.StepRecords | apk.js:162-248 | the store after a submission is the old store plus at most the one detected record, whose key was not stored; nothing is added before the seventh round; the store is sorted by recency |
| Round.StepKeepsUniqueKeys | apk.js:223-239 | stored keys stay distinct |
| Round.StepKeepsGenuine | apk.js:221-239 | every stored record stays a pattern that really terminated in the ledger |
| Round.FreshIsValid | apk.js:729-738 | the fresh game is a reachable game |
| Round.StepPreservesValid | apk.js:250-312 | a submission keeps a game reachable from a fresh start |
| Round.PlayPreservesValid | apk.js:250-312 | any run of submissions keeps a game reachable and appends one entry per digit |
| Round.BootPreservesValid | apk.js:740-743 | loading a reachable saved game and making its predictions again gives a reachable game |
| Round.BootRestores | apk.js:726-743 | start-up without a saved state is the fresh game; with one, every field is restored, both predictions are made again, the store is sorted, and a missing start time keeps the earlier one |
| Round.ValidGameOrdered | apk.js:298-303 | in a reachable game rounds stay in 1..10, rolls start at 1, and the ledger is in strictly increasing (roll, round) order |
| Round.ValidGameHistoryPanel | apk.js:441-449 | the history panel of a reachable game, read column by column, is the ledger |
| Round.StepGroups | apk.js:252-282 | a submission appends the new digit's label to the ledger's labels |
| Round.StepEarlyStoreEmpty | apk.js:163-166 | a submission before the seventh round on an empty store leaves it empty |
| Round.EarlyPlayStoreEmpty | apk.js:163-166 | no run of submissions records anything before the seventh round |
| Round.DetectOnSevenRounds | apk.js:163-178 | on a seven-round ledger and an empty store only the 6-long window can be recorded |
| Round.SixRoundsPosition | apk.js:298-303 | after six rounds of a fresh game, round 7 of roll 1 is next and the sixth round was round 6 |
| Round.SixSmallDigits | apk.js:250-312 | six Small digits from a fresh game give six S labels, no record, and round 7 of roll 1 next |
| Round.StreakScenario | apk.js:162-248 | six Small digits then a Big one record exactly one 6-long S streak at roll 1, round 6, with terminator B |
| Game.ClassifyWindow | apk.js:185-217 | the window classifier, with its alternation loop, returns the classification of the window |
| Game.FindTerminated | apk.js:173-243 | the detector's loop over lengths 8, 7, 6 returns exactly the detector's result |
| Game.GameState.constructor | apk.js:8-15 | the globals start with nothing pending, roll and round 0, empty ledger and store, no start time |
| Game.GameState.SortRecords | apk.js:348-353 | the in-place sort replaces the store by its recency-sorted permutation and changes nothing else |
| Game.GameState.InitGame | apk.js:726-772 | start-up sets the globals to `Boot` of the saved state; a fresh or a reachable saved game leaves them reachable |
| Game.GameState.Reset | apk.js:69-74 | a confirmed reset leaves a fresh, reachable game |
| Game.GameState.CheckAndRecordPatterns | apk.js:162-248 | the detector appends exactly the detected record, if any, and changes nothing else |
| Game.GameState.RecordRound | apk.js:252-284 | the entry push appends the scored entry and makes the digit pending, changing nothing else |
| Game.GameState.SubmitAnswer | apk.js:250-312 | a submission turns the globals into one `Step` of them and returns the detected record |
| Game.GameState.SubmitDigit | apk.js:794-810 | input is submitted exactly when the guard admits it; a rejected input changes nothing; reachable games stay reachable |

## Left out

- DOM rendering and effects are not modelled: history markup, the record list HTML, prediction displays, flash effects, modals. These are view code. Only the data they are built from is modelled.
- `localStorage` and JSON are not modelled. `saveGameState` is left out entirely. For `loadGameState`, the saved game is a parameter `Option<State>` of `InitGame`/`Boot` (`None` when nothing is stored or parsing fails). A stored state is any `State`; a JSON value of the wrong shape is not modelled.
- Clipboard, `Blob` and async in `copyCSVToClipboard`, and the `setTimeout`/`setInterval` timers, are not modelled. They are browser services and timing.
- Date and locale formatting is not modelled. Entry timestamps are opaque strings passed in by the caller. The game start time is an opaque `Instant` passed in as `now`. The start-time line of the CSV and the clock displays are left out.
- Notification texts (`alertUserMessage`) are not modelled. The detector's notification is its returned record. The pattern type labels shown to users are the `PatternKind` enum.
- Number formatting and the trim and regular-expression handling in `handleInput`/`submitDigit` are not modelled. The input guard is modelled as exactly one character `0`–`9`, which is what it admits. Numbers in the CSV and in record ids are written as plain decimal text.
- `updatePatternWarningUI` is not a method of `GameState`. The live warning shown after each round is the pure function `PatternWarning` of the ledger. Its message text and display timing are left out.
- Game.GameState.SubmitAnswer: its contract does not itself state that a reachable game stays reachable. `SubmitDigit` states that, through `Round.StepPreservesValidTo`.
- Game.GameState.CheckAndRecordPatterns: the source pushes the record inside its loop and then breaks. The model's loop, `FindTerminated`, returns the first new record, and the method appends it after the loop. The two give the same store.
- Game.GameState.SortRecords: the sort is specified by the stable insertion sort `SortedByRecency`. The JavaScript engine's sorting algorithm and its steps in place are not modelled. Order, permutation and stability are proved as lemmas about `SortedByRecency`.
