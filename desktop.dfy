/**
 * The desktop front end's evaluation flow (finalapp.py, class DropoutApp):
 * choosing the number of subjects, laying out the mark form, validating,
 * padding and scoring the marks, logging the evaluation under the logged-in
 * roll number, and the two views of that log (history text and label tally).
 * Widgets, dialogs and charts are reduced to the `Screen` a handler leaves.
 */
module Desktop {
  import opened Wrappers
  import opened Text
  import opened Scoring
  import opened EvaluationLog

  /** One mark entry of the form: CIE number `cie` of subject number `subject` (both from 1). */
  datatype Entry = Entry(subject: nat, cie: nat)

  /** The label beside an entry, "Subject <s> - CIE<c>:". */
  function EntryLabel(e: Entry): string {
    "Subject " + NatText(e.subject) + " - CIE" + NatText(e.cie) + ":"
  }

  /** The five entries of the subject with zero-based index i. */
  function SubjectRow(i: nat): seq<Entry> {
    seq(5, j requires 0 <= j < 5 => Entry(i + 1, j + 1))
  }

  /**
   * The form for `count` subjects, subject-major: the entry at grid row k is
   * subject k / 5 + 1, CIE k % 5 + 1.
   */
  function Layout(count: nat): (entries: seq<Entry>)
    ensures |entries| == count * CiePerSubject
    ensures forall k :: 0 <= k < |entries| ==> entries[k] == Entry(k / 5 + 1, k % 5 + 1)
  {
    if count == 0 then [] else Layout(count - 1) + SubjectRow(count - 1)
  }

  /** The subject-count check of `create_subject_inputs`: an integer from 1 to 10. */
  predicate CountAccepted(count: Option<int>) {
    count.Some? && 1 <= count.value <= MaxSubjects
  }

  /** `float(e.get())` succeeded for every entry. */
  predicate AllParsed(values: seq<Option<real>>) {
    forall i :: 0 <= i < |values| ==> values[i].Some?
  }

  function ParsedValues(values: seq<Option<real>>): (marks: seq<real>)
    requires AllParsed(values)
    ensures |marks| == |values|
  {
    seq(|values|, i requires 0 <= i < |values| => values[i].value)
  }

  /** What a handler leaves on screen. */
  datatype Screen =
    | ErrorBox(title: string, message: string)
    | InfoBox(title: string, message: string)
    | MarksForm
    | ResultScreen(outcome: Outcome)
    | HistoryWindow(text: string)
    | PieChart(safe: nat, dropout: nat)

  const InvalidCount := ErrorBox("Error", "Enter valid subject count (1-10).")
  const InvalidMarks := ErrorBox("Error", "Please enter valid marks (0-100).")
  const NoHistory := InfoBox("History", "No predictions yet.")
  const NoGraphData := InfoBox("Graph", "No data available.")

  class DropoutApp {
    /** The per-roll log files. */
    const store: LogStore
    /** The roll number of the logged-in student (`self.current_user`). */
    const currentUser: string
    /** The mark entries of the form (`self.subject_entries`). */
    var subjectEntries: seq<Entry>
    /** The marks of the last submission (`self.user_marks`). */
    var userMarks: seq<real>
    /** The outcome of the last evaluation (`self.result`); None before the first. */
    var result: Option<Outcome>

    ghost predicate Valid()
      reads this, store
    {
      && store.Valid()
      && |subjectEntries| <= MaxSubjects * CiePerSubject
    }

    /** The state right after a successful login as `roll`; login itself is not modelled. */
    constructor (store: LogStore, roll: string)
      requires store.Valid()
      ensures Valid()
      ensures this.store == store && currentUser == roll
      ensures subjectEntries == [] && userMarks == [] && result == None
    {
      this.store := store;
      currentUser := roll;
      subjectEntries := [];
      userMarks := [];
      result := None;
    }

    /**
     * `create_subject_inputs`: `count` is what `int(...)` made of the text
     * typed in (None when it raised). An accepted count replaces the entries
     * with the subject-major layout; otherwise an error box is shown and the
     * entries stay as they were.
     */
    method CreateSubjectInputs(count: Option<int>) returns (screen: Screen)
      requires Valid()
      modifies this`subjectEntries
      ensures Valid()
      ensures CountAccepted(count) ==> subjectEntries == Layout(count.value) && screen == MarksForm
      ensures !CountAccepted(count) ==> subjectEntries == old(subjectEntries) && screen == InvalidCount
    {
      if !CountAccepted(count) {
        return InvalidCount;
      }
      var n := count.value;
      subjectEntries := [];
      for i := 0 to n
        invariant subjectEntries == Layout(i)
      {
        for j := 0 to 5
          invariant subjectEntries == Layout(i) + SubjectRow(i)[..j]
        {
          subjectEntries := subjectEntries + [Entry(i + 1, j + 1)];
        }
        assert SubjectRow(i)[..5] == SubjectRow(i);
      }
      screen := MarksForm;
    }

    /** The padding loop of `predict`: zeros are appended until there are 55 marks. */
    method PadMarks()
      modifies this`userMarks
      ensures userMarks == Padded(old(userMarks), PaddedLength)
    {
      while |userMarks| < PaddedLength
        invariant |old(userMarks)| <= |userMarks|
        invariant |old(userMarks)| < PaddedLength ==> |userMarks| <= PaddedLength
        invariant |old(userMarks)| >= PaddedLength ==> |userMarks| == |old(userMarks)|
        invariant userMarks == old(userMarks) + Zeros(|userMarks| - |old(userMarks)|)
        decreases PaddedLength - |userMarks|
      {
        assert Zeros(|userMarks| + 1 - |old(userMarks)|) == Zeros(|userMarks| - |old(userMarks)|) + [0.0];
        userMarks := userMarks + [0.0];
      }
      if |old(userMarks)| >= PaddedLength {
        assert old(userMarks) + Zeros(0) == old(userMarks);
      }
    }

    /**
     * `log_prediction`: one line for the current roll, stamped `now` and
     * printing the marks as `render` formats them, is appended to its log.
     */
    method LogPrediction(now: string, render: seq<real> -> string)
      requires Valid() && result.Some?
      modifies store
      ensures Valid()
      ensures store.logs == AppendLog(old(store.logs), currentUser, LogEntry(now, render(userMarks), result.value))
    {
      store.Append(currentUser, LogEntry(now, render(userMarks), result.value));
    }

    /**
     * `predict`: `values` are what `float(e.get())` made of each entry (None
     * where it raised). A value that does not parse rejects the submission
     * before `user_marks` is assigned; a mark outside [0, 100] rejects it
     * after (the list is already stored), but before padding, scoring or
     * logging. Otherwise the marks are padded to 55, scored, classified,
     * logged under the current roll and the result screen is shown.
     */
    method Predict(values: seq<Option<real>>, now: string, render: seq<real> -> string) returns (screen: Screen)
      requires Valid()
      requires |values| == |subjectEntries|
      modifies this`userMarks, this`result, store
      ensures Valid()
      ensures !AllParsed(values) ==>
        && screen == InvalidMarks
        && userMarks == old(userMarks) && result == old(result) && store.logs == old(store.logs)
      ensures AllParsed(values) && !AllInRange(ParsedValues(values)) ==>
        && screen == InvalidMarks
        && userMarks == ParsedValues(values) && result == old(result) && store.logs == old(store.logs)
      ensures AllParsed(values) && AllInRange(ParsedValues(values)) ==>
        var marks := ParsedValues(values);
        && userMarks == Padded(marks, PaddedLength)
        && |userMarks| == PaddedLength
        && result == Some(Evaluate(marks))
        && screen == ResultScreen(Evaluate(marks))
        && store.logs == AppendLog(old(store.logs), currentUser, LogEntry(now, render(userMarks), Evaluate(marks)))
    {
      if !AllParsed(values) {
        return InvalidMarks;
      }
      userMarks := ParsedValues(values);
      if !AllInRange(userMarks) {
        return InvalidMarks;
      }
      PadMarks();
      var subjectAverages := SubjectAverages(userMarks);
      var overall := OverallAverage(subjectAverages);
      result := Some(Classify(overall));
      LogPrediction(now, render);
      screen := ResultScreen(result.value);
    }

    /** `view_logs`: the whole log text of the current roll, or a notice when there is none. */
    method ViewLogs() returns (screen: Screen)
      requires Valid()
      ensures !store.Exists(currentUser) ==> screen == NoHistory
      ensures store.Exists(currentUser) ==>
        screen == HistoryWindow(HistoryText(store.Read(currentUser))) && store.Read(currentUser) != []
    {
      if !store.Exists(currentUser) {
        return NoHistory;
      }
      screen := HistoryWindow(HistoryText(store.Read(currentUser)));
    }

    /**
     * `plot_graph`: the two slice sizes, counted over the lines read back
     * from the current roll's log file; a notice when there is no log.
     */
    method PlotGraph() returns (screen: Screen)
      requires Valid()
      ensures !store.Exists(currentUser) ==> screen == NoGraphData
      ensures store.Exists(currentUser) ==>
        var lines := SplitLines(HistoryText(store.Read(currentUser)));
        screen == PieChart(SafeCount(lines), |lines| - SafeCount(lines)) && |lines| > 0
    {
      if !store.Exists(currentUser) {
        return NoGraphData;
      }
      var safe, dropout := TallyLines(SplitLines(HistoryText(store.Read(currentUser))));
      screen := PieChart(safe, dropout);
    }
  }

  // ---------------------------------------------------------------------------
  // Properties

  /** Grid row i * 5 + j holds subject i + 1, CIE j + 1, for every subject and CIE. */
  lemma LayoutAt(count: nat, i: nat, j: nat)
    requires i < count && j < CiePerSubject
    ensures i * 5 + j < |Layout(count)|
    ensures Layout(count)[i * 5 + j] == Entry(i + 1, j + 1)
  {
  }

  /** The label beside grid row i * 5 + j reads "Subject <i+1> - CIE<j+1>:". */
  lemma LabelAt(count: nat, i: nat, j: nat)
    requires i < count && j < CiePerSubject
    ensures i * 5 + j < |Layout(count)|
    ensures EntryLabel(Layout(count)[i * 5 + j]) == "Subject " + NatText(i + 1) + " - CIE" + NatText(j + 1) + ":"
  {
    LayoutAt(count, i, j);
  }

  /**
   * A successful submission's outcome is decided by the sum of the entered
   * marks over 55, and is Safe exactly when that reaches the pass mark.
   */
  lemma EvaluateBySum(marks: seq<real>)
    requires |marks| <= MaxSubjects * CiePerSubject && AllInRange(marks)
    ensures Evaluate(marks) == Safe <==> Sum(marks) / 55.0 >= PassMark
    ensures 0.0 <= PaddedOverall(marks) <= 100.0
  {
    PaddedOverallIsSumOver55(marks);
    PaddedOverallBounds(marks);
  }
}
