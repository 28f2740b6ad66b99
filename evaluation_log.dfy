/**
 * The desktop front end's per-student history (finalapp.py, `log_prediction`,
 * `view_logs`, `plot_graph`). Each roll number owns an append-only text log,
 * one line per evaluation: "<timestamp> | Marks: <marks> | Result: <label>".
 * The directory of files is modelled as an in-memory store: a map from roll
 * number to the sequence of entries written so far. A roll with no file is a
 * roll absent from the map.
 */
module EvaluationLog {
  import opened Text
  import opened Scoring

  /**
   * One log line as written: the timestamp text, the printed mark list and
   * the outcome. The timestamp and the printed marks are produced outside the
   * model (the clock and Python's list formatting).
   */
  datatype LogEntry = LogEntry(stamp: string, marksText: string, result: Outcome)

  /** The text of an entry's line, newline included. */
  function LineText(e: LogEntry): string {
    e.stamp + " | Marks: " + e.marksText + " | Result: " + OutcomeText(e.result) + "\n"
  }

  /** The line of each entry, in order. */
  function Lines(entries: seq<LogEntry>): (lines: seq<string>)
    ensures |lines| == |entries|
    ensures forall i :: 0 <= i < |entries| ==> lines[i] == LineText(entries[i])
  {
    seq(|entries|, i requires 0 <= i < |entries| => LineText(entries[i]))
  }

  /** The length of the first line of `text`, its newline included when it has one. */
  function FirstLineLength(text: string): (n: nat)
    ensures text != [] ==> 1 <= n <= |text|
    ensures text == [] ==> n == 0
  {
    if text == [] then 0
    else if text[0] == '\n' then 1
    else 1 + FirstLineLength(text[1..])
  }

  /**
   * The lines `for line in f` yields from a file holding `text`: each ends
   * just after a newline, and a last line without one is kept as it is.
   */
  function SplitLines(text: string): (lines: seq<string>)
    ensures text != [] ==> |lines| > 0
    decreases |text|
  {
    if text == [] then []
    else
      var n := FirstLineLength(text);
      [text[..n]] + SplitLines(text[n..])
  }

  /**
   * Neither the timestamp nor the printed marks break a line. Carriage
   * returns are excluded too, since reading in text mode turns them into
   * line ends.
   */
  predicate OneLine(e: LogEntry) {
    '\n' !in e.stamp && '\r' !in e.stamp && '\n' !in e.marksText && '\r' !in e.marksText
  }

  /** The whole file's text, shown by the history window. */
  function HistoryText(entries: seq<LogEntry>): string {
    if entries == [] then "" else LineText(entries[0]) + HistoryText(entries[1..])
  }

  /** A roll's entries; a roll never logged reads as empty. */
  function ReadLog(logs: map<string, seq<LogEntry>>, roll: string): seq<LogEntry> {
    if roll in logs then logs[roll] else []
  }

  /** The store after opening the roll's file in append mode and writing one line. */
  function AppendLog(logs: map<string, seq<LogEntry>>, roll: string, e: LogEntry): (r: map<string, seq<LogEntry>>)
    ensures r.Keys == logs.Keys + {roll}
    ensures ReadLog(r, roll) == ReadLog(logs, roll) + [e]
    ensures forall other :: other != roll ==> ReadLog(r, other) == ReadLog(logs, other)
  {
    logs[roll := ReadLog(logs, roll) + [e]]
  }

  /** The store after appending several entries for one roll, in order. */
  function AppendAll(logs: map<string, seq<LogEntry>>, roll: string, es: seq<LogEntry>): map<string, seq<LogEntry>> {
    if es == [] then logs else AppendLog(AppendAll(logs, roll, es[..|es| - 1]), roll, es[|es| - 1])
  }

  /** Every file that exists holds at least one line: files are only created by an append. */
  ghost predicate NoEmptyLogs(logs: map<string, seq<LogEntry>>) {
    forall roll :: roll in logs ==> logs[roll] != []
  }

  /** The per-roll log files, as a keyed store. */
  class LogStore {
    var logs: map<string, seq<LogEntry>>

    ghost predicate Valid()
      reads this
    {
      NoEmptyLogs(logs)
    }

    constructor ()
      ensures Valid() && logs == map[]
    {
      logs := map[];
    }

    /** `os.path.exists` on the roll's log file. */
    predicate Exists(roll: string)
      reads this
    {
      roll in logs
    }

    function Read(roll: string): seq<LogEntry>
      reads this
    {
      ReadLog(logs, roll)
    }

    /** Append one line to the roll's file, creating the file if needed. */
    method Append(roll: string, e: LogEntry)
      requires Valid()
      modifies this
      ensures Valid()
      ensures logs == AppendLog(old(logs), roll, e)
      ensures Read(roll) == old(Read(roll)) + [e]
      ensures forall other :: other != roll ==> Read(other) == old(Read(other))
    {
      logs := logs[roll := Read(roll) + [e]];
    }
  }

  /** Lines whose text contains "Safe", counted as `plot_graph` counts them. */
  function SafeCount(lines: seq<string>): (n: nat)
    ensures n <= |lines|
  {
    if lines == [] then 0
    else SafeCount(lines[..|lines| - 1]) + (if Contains(lines[|lines| - 1], "Safe") then 1 else 0)
  }

  /** Entries whose recorded outcome is Safe. */
  function SafeResults(entries: seq<LogEntry>): (n: nat)
    ensures n <= |entries|
  {
    if entries == [] then 0
    else SafeResults(entries[..|entries| - 1]) + (if entries[|entries| - 1].result == Safe then 1 else 0)
  }

  /**
   * The loop of `plot_graph`: every line is counted exactly once, as safe
   * when it contains "Safe" and as dropout otherwise.
   */
  method TallyLines(lines: seq<string>) returns (safe: nat, dropout: nat)
    ensures safe == SafeCount(lines)
    ensures safe + dropout == |lines|
  {
    safe, dropout := 0, 0;
    for i := 0 to |lines|
      invariant safe == SafeCount(lines[..i])
      invariant safe + dropout == i
    {
      assert lines[..i + 1][..i] == lines[..i];
      if Contains(lines[i], "Safe") {
        safe := safe + 1;
      } else {
        dropout := dropout + 1;
      }
    }
    assert lines[..|lines|] == lines;
  }

  // ---------------------------------------------------------------------------
  // Properties

  /** The timestamp and mark list carry no capital S: digits, separators and float text. */
  predicate PlainFields(e: LogEntry) {
    'S' !in e.stamp && 'S' !in e.marksText
  }

  /** A line contains "Safe" exactly when its recorded outcome is Safe. */
  lemma LineMentionsSafe(e: LogEntry)
    requires PlainFields(e)
    ensures Contains(LineText(e), "Safe") <==> e.result == Safe
  {
    var head := e.stamp + " | Marks: " + e.marksText + " | Result: ";
    assert 'S' !in " | Marks: " && 'S' !in " | Result: ";
    assert 'S' !in head;
    if e.result == Safe {
      assert Contains("Safe\n", "Safe");
      assert LineText(e) == head + "Safe\n";
      ContainsInSuffix(head, "Safe\n", "Safe");
    } else {
      assert LineText(e) == head + "Likely to Dropout\n";
      assert 'S' !in "Likely to Dropout\n";
      assert 'S' !in LineText(e);
      NotContainsWithoutLead(LineText(e), "Safe");
    }
  }

  /** The pie chart's "Safe" slice counts exactly the Safe evaluations of the log. */
  lemma {:induction false} TallyMatchesOutcomes(entries: seq<LogEntry>)
    requires forall i :: 0 <= i < |entries| ==> PlainFields(entries[i])
    ensures SafeCount(Lines(entries)) == SafeResults(entries)
    ensures |Lines(entries)| - SafeCount(Lines(entries)) == |entries| - SafeResults(entries)
  {
    if entries != [] {
      var init := entries[..|entries| - 1];
      assert Lines(entries)[..|entries| - 1] == Lines(init);
      TallyMatchesOutcomes(init);
      LineMentionsSafe(entries[|entries| - 1]);
    }
  }

  /**
   * Counted over the lines read back from the file, the pie chart's slices
   * are the numbers of Safe and of other evaluations in the log.
   */
  lemma TallyOfLog(entries: seq<LogEntry>)
    requires forall i :: 0 <= i < |entries| ==> OneLine(entries[i]) && PlainFields(entries[i])
    ensures SafeCount(SplitLines(HistoryText(entries))) == SafeResults(entries)
    ensures |SplitLines(HistoryText(entries))| - SafeCount(SplitLines(HistoryText(entries))) == |entries| - SafeResults(entries)
  {
    SplitHistory(entries);
    TallyMatchesOutcomes(entries);
  }

  /** Appending one line adds one to exactly one of the two tallies. */
  lemma SafeCountAppend(lines: seq<string>, line: string)
    ensures SafeCount(lines + [line]) == SafeCount(lines) + (if Contains(line, "Safe") then 1 else 0)
  {
    assert (lines + [line])[..|lines|] == lines;
  }

  /** The first line of a text that starts with a newline-free line is that line. */
  lemma {:induction false} FirstLineOf(body: string, rest: string)
    requires '\n' !in body
    ensures FirstLineLength(body + "\n" + rest) == |body| + 1
    decreases |body|
  {
    if body != [] {
      assert (body + "\n" + rest)[1..] == body[1..] + "\n" + rest;
      assert forall c :: c in body[1..] ==> c in body;
      FirstLineOf(body[1..], rest);
    }
  }

  /** The first line read back from an entry's line followed by more text is that entry's line. */
  lemma SplitFirstLine(e: LogEntry, rest: string)
    requires OneLine(e)
    ensures SplitLines(LineText(e) + rest) == [LineText(e)] + SplitLines(rest)
  {
    var body := e.stamp + " | Marks: " + e.marksText + " | Result: " + OutcomeText(e.result);
    assert '\n' !in " | Marks: " && '\n' !in " | Result: " && '\n' !in OutcomeText(e.result);
    assert '\n' !in body;
    assert LineText(e) + rest == body + "\n" + rest;
    FirstLineOf(body, rest);
    assert (LineText(e) + rest)[..|body| + 1] == LineText(e);
    assert (LineText(e) + rest)[|body| + 1..] == rest;
  }

  /** Reading the log file back line by line yields exactly one line per entry. */
  lemma {:induction false} SplitHistory(entries: seq<LogEntry>)
    requires forall i :: 0 <= i < |entries| ==> OneLine(entries[i])
    ensures SplitLines(HistoryText(entries)) == Lines(entries)
  {
    if entries != [] {
      SplitFirstLine(entries[0], HistoryText(entries[1..]));
      SplitHistory(entries[1..]);
      assert Lines(entries) == [LineText(entries[0])] + Lines(entries[1..]);
    }
  }

  /** The history text only grows: the earlier text is kept and the new line follows it. */
  lemma {:induction false} HistoryAppend(entries: seq<LogEntry>, e: LogEntry)
    ensures HistoryText(entries + [e]) == HistoryText(entries) + LineText(e)
  {
    if entries == [] {
      assert [] + [e] == [e];
      assert [e][1..] == [];
    } else {
      assert (entries + [e])[1..] == entries[1..] + [e];
      HistoryAppend(entries[1..], e);
    }
  }

  /**
   * Appending N entries for one roll and reading back yields the old entries
   * followed by exactly those N, in append order; no other roll changes.
   */
  lemma {:induction false} AppendAllThenRead(logs: map<string, seq<LogEntry>>, roll: string, es: seq<LogEntry>)
    ensures ReadLog(AppendAll(logs, roll, es), roll) == ReadLog(logs, roll) + es
    ensures forall other :: other != roll ==> ReadLog(AppendAll(logs, roll, es), other) == ReadLog(logs, other)
  {
    if es != [] {
      var init := es[..|es| - 1];
      AppendAllThenRead(logs, roll, init);
      assert init + [es[|es| - 1]] == es;
    }
  }

  /** Appending keeps every existing file non-empty and makes the roll's file non-empty. */
  lemma AppendKeepsNoEmptyLogs(logs: map<string, seq<LogEntry>>, roll: string, e: LogEntry)
    requires NoEmptyLogs(logs)
    ensures NoEmptyLogs(AppendLog(logs, roll, e))
    ensures roll in AppendLog(logs, roll, e)
  {
  }
}
