/**
 * The web front end's evaluation flow (student_dropout/app.py, `predict_step1`
 * and `predict_step2`). Step one validates the number of subjects and keeps it
 * in the session; step two reads five CIE marks per subject from the form,
 * checks the feature count against the trained network's input width, scores
 * the marks with the network and records the truncated score and its status
 * in the session. The network is a foreign call: a handle giving an input
 * width and a scoring function, present or absent from start-up.
 */
module Web {
  import opened Wrappers
  import opened Text
  import Scoring

  /** The web form accepts from 1 to 12 subjects. */
  const MaxSubjects: int := 12

  /** Five CIE marks per subject, as on the desktop form. */
  const CiePerSubject: int := Scoring.CiePerSubject

  /** A predicted score of this or more means "Graduate". */
  const PassScore: real := 40.0

  /** The loaded network: its declared input width and its scoring function. */
  datatype Network = Network(inputWidth: int, score: seq<real> -> real)

  datatype Status = Graduate | DropOut

  function StatusText(s: Status): string {
    match s
    case Graduate => "Graduate"
    case DropOut => "Drop Out"
  }

  /** The result kept in the session: the truncated score and the status. */
  datatype Prediction = Prediction(score: int, status: Status)

  // ---------------------------------------------------------------------------
  // Step one: the number of subjects

  datatype Step1Error = NotANumber | OutOfRange

  function Step1Message(e: Step1Error): string {
    match e
    case NotANumber => "Error: Total subjects must be a number"
    case OutOfRange => "Error: Total subjects must be between 1 and 12"
  }

  /** The reply of `predict_step1` to a POST. */
  datatype Step1Reply = RedirectToStep2 | PlainError(code: int, message: string)

  /**
   * The check of `predict_step1` on the `total_subjects` field (None when the
   * form lacks it): present, non-empty, all digits, and from 1 to 12.
   */
  function CheckSubjectCount(field: Option<string>): (r: Result<int, Step1Error>)
    ensures r.Ok? ==> 1 <= r.value <= MaxSubjects
    ensures r.Ok? ==> field.Some? && AllDigits(field.value) && r.value == DigitsValue(field.value)
    ensures field.Some? && field.value != "" && AllDigits(field.value) && 1 <= DigitsValue(field.value) <= MaxSubjects
      ==> r == Ok(DigitsValue(field.value))
    ensures r == Err(NotANumber) <==> field.None? || field.value == "" || !AllDigits(field.value)
    ensures r == Err(OutOfRange) <==>
      && field.Some? && field.value != "" && AllDigits(field.value)
      && !(1 <= DigitsValue(field.value) <= MaxSubjects)
  {
    if field.None? || field.value == "" || !AllDigits(field.value) then Err(NotANumber)
    else
      var n := DigitsValue(field.value);
      if 1 <= n <= MaxSubjects then Ok(n) else Err(OutOfRange)
  }

  // ---------------------------------------------------------------------------
  // Step two: collecting the features

  /** A posted form field: its text and what `float(text)` gives (None where it raises). */
  datatype Field = Field(text: string, number: Option<real>)

  /**
   * The posted form. The field named "cie<i>_<j>" (subject i, CIE j) is kept
   * under the key (i, j); no other field is ever read.
   */
  type Form = map<(int, int), Field>

  /** Whitespace that `str.strip` removes, restricted to ASCII. */
  predicate IsSpace(c: char) {
    c == ' ' || ('\t' <= c <= '\r') || ('\U{1c}' <= c <= '\U{1f}')
  }

  /** `text.strip() == ""`. */
  predicate IsBlank(text: string) {
    forall i :: 0 <= i < |text| ==> IsSpace(text[i])
  }

  /** The subject of the k-th field read (from 1): fields are read subject by subject. */
  function SubjectOf(k: nat): int {
    k / 5 + 1
  }

  /** The CIE number of the k-th field read (from 1). */
  function CieOf(k: nat): int {
    k % 5 + 1
  }

  function KeyOf(k: nat): (int, int) {
    (SubjectOf(k), CieOf(k))
  }

  /** The k-th field is absent or whitespace only. */
  predicate MissingAt(form: Form, k: nat) {
    KeyOf(k) !in form || IsBlank(form[KeyOf(k)].text)
  }

  /** The k-th field is present, not blank, and parses as a number. */
  predicate UsableAt(form: Form, k: nat) {
    !MissingAt(form, k) && form[KeyOf(k)].number.Some?
  }

  function ValueAt(form: Form, k: nat): real
    requires UsableAt(form, k)
  {
    form[KeyOf(k)].number.value
  }

  /** The k-th field is the first one that stops collection. */
  predicate FirstUnusable(form: Form, k: nat) {
    !UsableAt(form, k) && forall k' :: 0 <= k' < k ==> UsableAt(form, k')
  }

  datatype Step2Error =
    | ModelNotLoaded
    | MissingMark(subject: int, cie: int)
    | BadFloat(text: string)
    | FeatureCountMismatch(expected: int, got: int)
    | InputWidthMismatch(expected: int, got: int)

  /** The error that the k-th field raises when it is not usable. */
  function FieldError(form: Form, k: nat): Step2Error
    requires !UsableAt(form, k)
  {
    if MissingAt(form, k) then MissingMark(SubjectOf(k), CieOf(k)) else BadFloat(form[KeyOf(k)].text)
  }

  /**
   * Reading the first `count` fields in order, stopping at the first one that
   * is absent, blank or not a number.
   */
  function Collect(form: Form, count: nat): (r: Result<seq<real>, Step2Error>)
    ensures r.Ok? ==> |r.value| == count
    ensures r.Err? ==> r.error.MissingMark? || r.error.BadFloat?
  {
    if count == 0 then Ok([])
    else
      match Collect(form, count - 1)
      case Err(e) => Err(e)
      case Ok(features) =>
        if UsableAt(form, count - 1) then Ok(features + [ValueAt(form, count - 1)])
        else Err(FieldError(form, count - 1))
  }

  /**
   * Collection succeeds exactly when every field read is usable, and then
   * the k-th feature is the k-th field's number.
   */
  lemma {:induction false} CollectSucceedsIff(form: Form, count: nat)
    ensures Collect(form, count).Ok? <==> forall k :: 0 <= k < count ==> UsableAt(form, k)
    ensures Collect(form, count).Ok? ==>
      forall k :: 0 <= k < count ==> Collect(form, count).value[k] == ValueAt(form, k)
  {
    if count > 0 {
      CollectSucceedsIff(form, count - 1);
    }
  }

  /** A failed collection reports the first field, in reading order, that is not usable. */
  lemma {:induction false} CollectFailsAtFirst(form: Form, count: nat)
    requires Collect(form, count).Err?
    ensures exists k :: 0 <= k < count && FirstUnusable(form, k) && Collect(form, count).error == FieldError(form, k)
  {
    if Collect(form, count - 1).Err? {
      CollectFailsAtFirst(form, count - 1);
    } else {
      CollectSucceedsIff(form, count - 1);
      assert FirstUnusable(form, count - 1);
    }
  }

  /** Once collection has stopped, reading further fields does not change the error. */
  lemma {:induction false} CollectErrorPersists(form: Form, count: nat, more: nat)
    requires count <= more && Collect(form, count).Err?
    ensures Collect(form, more) == Collect(form, count)
    decreases more - count
  {
    if count < more {
      CollectErrorPersists(form, count, more - 1);
    }
  }

  /**
   * The nested loops of `predict_step2`: for subject i from 1 to `total` and
   * CIE j from 1 to 5, read field "cie<i>_<j>"; return at the first field that
   * is missing or blank (naming it) or does not parse.
   */
  method CollectFeatures(form: Form, total: int) returns (r: Result<seq<real>, Step2Error>)
    ensures r == Collect(form, FieldCount(total))
  {
    var features: seq<real> := [];
    var i := 1;
    while i <= total
      invariant 1 <= i <= if total >= 1 then total + 1 else 1
      invariant Collect(form, (i - 1) * 5) == Ok(features)
    {
      var j := 1;
      while j <= 5
        invariant 1 <= j <= 6
        invariant Collect(form, (i - 1) * 5 + (j - 1)) == Ok(features)
      {
        FieldOrder(i, j);
        var name := (i, j);
        var fieldMissing := name !in form || IsBlank(form[name].text);
        if fieldMissing || form[name].number.None? {
          r := if fieldMissing then Err(MissingMark(i, j)) else Err(BadFloat(form[name].text));
          assert (i - 1) * 5 + j <= FieldCount(total);
          CollectErrorPersists(form, (i - 1) * 5 + j, FieldCount(total));
          return;
        }
        features := features + [form[name].number.value];
        j := j + 1;
      }
      assert (i - 1) * 5 + 5 == i * 5;
      i := i + 1;
    }
    assert FieldCount(total) == (i - 1) * 5;
    r := Ok(features);
  }

  /** Field "cie<i>_<j>" is the ((i - 1) * 5 + j)-th field read. */
  lemma FieldOrder(i: int, j: int)
    requires 1 <= i && 1 <= j <= 5
    ensures KeyOf((i - 1) * 5 + (j - 1)) == (i, j)
    ensures SubjectOf((i - 1) * 5 + (j - 1)) == i && CieOf((i - 1) * 5 + (j - 1)) == j
  {
  }

  /** How many fields `range(1, total + 1)` times five CIE marks reads. */
  function FieldCount(total: int): nat {
    if total < 1 then 0 else total * CiePerSubject
  }

  // ---------------------------------------------------------------------------
  // Step two: scoring and the reply

  /** The threshold of `predict_step2`: 40 or more is "Graduate". */
  function StatusOf(score: real): Status {
    if score >= PassScore then Graduate else DropOut
  }

  /** Python's `int(x)` on a float: truncation toward zero. */
  function Trunc(x: real): (t: int)
    ensures 0.0 <= x ==> t as real <= x < t as real + 1.0
    ensures x < 0.0 ==> t as real - 1.0 < x <= t as real
  {
    if x >= 0.0 then x.Floor else -((-x).Floor)
  }

  /**
   * What `predict_step2` decides for a POST, given the loaded network (if
   * any), the session's subject count (1 when absent) and the form.
   */
  function Step2(net: Option<Network>, total: int, form: Form): Result<Prediction, Step2Error> {
    if net.None? then Err(ModelNotLoaded)
    else
      match Collect(form, FieldCount(total))
      case Err(e) => Err(e)
      case Ok(features) =>
        if |features| != total * CiePerSubject then Err(FeatureCountMismatch(total * CiePerSubject, |features|))
        else if |features| != net.value.inputWidth then Err(InputWidthMismatch(net.value.inputWidth, |features|))
        else
          var score := net.value.score(features);
          Ok(Prediction(Trunc(score), StatusOf(score)))
  }

  /** The JSON body of a reply. */
  datatype Body =
    | Scored(predictedFinalExamScore: int, status: string)
    | Failure(error: string)

  datatype Reply = Reply(code: int, body: Body)

  function HttpCode(e: Step2Error): int {
    match e
    case ModelNotLoaded => 500
    case MissingMark(_, _) => 400
    case BadFloat(_) => 500
    case FeatureCountMismatch(_, _) => 400
    case InputWidthMismatch(_, _) => 400
  }

  function ErrorText(e: Step2Error): string {
    match e
    case ModelNotLoaded => "Model not loaded"
    case MissingMark(i, j) => "Missing CIE mark for Subject " + IntText(i) + ", CIE " + IntText(j)
    case BadFloat(text) => "could not convert string to float: '" + text + "'"
    case FeatureCountMismatch(expected, got) =>
      "Invalid number of input features! Expected " + IntText(expected) + ", got " + IntText(got)
    case InputWidthMismatch(expected, got) =>
      "Model expects " + IntText(expected) + " features, but received " + IntText(got)
  }

  function ReplyFor(r: Result<Prediction, Step2Error>): Reply {
    match r
    case Ok(p) => Reply(200, Scored(p.score, StatusText(p.status)))
    case Err(e) => Reply(HttpCode(e), Failure(ErrorText(e)))
  }

  /** One user's session with the web application. */
  class WebApp {
    /** The network loaded at start-up, or None when loading failed. */
    const model: Option<Network>
    /** `session['total_subjects']`. */
    var totalSubjects: Option<int>
    /** `session['prediction']`. */
    var prediction: Option<Prediction>

    /** Only step one writes the subject count, and only a validated one. */
    ghost predicate Valid()
      reads this
    {
      totalSubjects.Some? ==> 1 <= totalSubjects.value <= MaxSubjects
    }

    constructor (model: Option<Network>)
      ensures Valid()
      ensures this.model == model && totalSubjects == None && prediction == None
    {
      this.model := model;
      totalSubjects := None;
      prediction := None;
    }

    /** `session.get('total_subjects', 1)`. */
    function SessionSubjects(): int
      reads this
    {
      totalSubjects.GetOr(1)
    }

    /**
     * `predict_step1` on POST: a valid count is stored in the session and the
     * user is sent to step two; otherwise a 400 error and the session is untouched.
     */
    method PredictStep1(field: Option<string>) returns (reply: Step1Reply)
      requires Valid()
      modifies this`totalSubjects
      ensures Valid()
      ensures CheckSubjectCount(field).Ok? ==>
        totalSubjects == Some(CheckSubjectCount(field).value) && reply == RedirectToStep2
      ensures CheckSubjectCount(field).Err? ==>
        totalSubjects == old(totalSubjects) && reply == PlainError(400, Step1Message(CheckSubjectCount(field).error))
    {
      if field.None? || field.value == "" || !AllDigits(field.value) {
        return PlainError(400, Step1Message(NotANumber));
      }
      var n := DigitsValue(field.value);
      if !(1 <= n <= MaxSubjects) {
        return PlainError(400, Step1Message(OutOfRange));
      }
      totalSubjects := Some(n);
      reply := RedirectToStep2;
    }

    /**
     * `predict_step2` on POST: the reply follows Step2, and the session's
     * prediction is replaced only when a score was produced, by the same score
     * and status the reply carries.
     */
    method PredictStep2(form: Form) returns (reply: Reply)
      requires Valid()
      modifies this`prediction
      ensures Valid()
      ensures reply == ReplyFor(Step2(model, old(SessionSubjects()), form))
      ensures Step2(model, old(SessionSubjects()), form).Ok? ==>
        && prediction == Some(Step2(model, old(SessionSubjects()), form).value)
        && reply == Reply(200, Scored(prediction.value.score, StatusText(prediction.value.status)))
      ensures Step2(model, old(SessionSubjects()), form).Err? ==> prediction == old(prediction)
      ensures !(Step2(model, old(SessionSubjects()), form).Err? && Step2(model, old(SessionSubjects()), form).error.FeatureCountMismatch?)
    {
      FeatureCountNeverMismatches(model, SessionSubjects(), form);
      if model.None? {
        return ReplyFor(Err(ModelNotLoaded));
      }
      var total := SessionSubjects();
      var collected := CollectFeatures(form, total);
      if collected.Err? {
        return ReplyFor(Err(collected.error));
      }
      var features := collected.value;
      var expected := total * CiePerSubject;
      if |features| != expected {
        return ReplyFor(Err(FeatureCountMismatch(expected, |features|)));
      }
      if |features| != model.value.inputWidth {
        return ReplyFor(Err(InputWidthMismatch(model.value.inputWidth, |features|)));
      }
      var score := model.value.score(features);
      var status := StatusOf(score);
      prediction := Some(Prediction(Trunc(score), status));
      reply := ReplyFor(Ok(Prediction(Trunc(score), status)));
    }
  }

  // ---------------------------------------------------------------------------
  // Properties

  /** Exactly 40 is "Graduate"; anything below is "Drop Out". */
  lemma StatusThreshold(score: real)
    ensures StatusOf(score) == Graduate <==> score >= PassScore
    ensures StatusOf(40.0) == Graduate && StatusOf(39.999) == DropOut
  {
  }

  /** Every count from 1 to 12, written in decimal (with or without a leading zero), is accepted as itself. */
  lemma AcceptsDecimalCounts(n: nat)
    requires 1 <= n <= MaxSubjects
    ensures CheckSubjectCount(Some(NatText(n))) == Ok(n)
    ensures CheckSubjectCount(Some("0" + NatText(n))) == Ok(n)
  {
    DigitsValueOfNatText(n);
    DigitsValueLeadingZero(NatText(n));
  }

  /** Zero and counts above 12, written in decimal, are rejected as out of range. */
  lemma RejectsOutOfRangeCounts(n: nat)
    requires n == 0 || n > MaxSubjects
    ensures CheckSubjectCount(Some(NatText(n))) == Err(OutOfRange)
  {
    DigitsValueOfNatText(n);
  }

  /** An absent or empty field, or one with a non-digit character, is "not a number". */
  lemma RejectsNonDigits(field: Option<string>, i: nat)
    requires field.None? || field.value == "" || (i < |field.value| && !IsDigit(field.value[i]))
    ensures CheckSubjectCount(field) == Err(NotANumber)
  {
  }

  /** Without a network the reply is the 500 "Model not loaded", whatever the form holds. */
  lemma NoModelFirst(total: int, form: Form)
    ensures Step2(None, total, form) == Err(ModelNotLoaded)
    ensures ReplyFor(Step2(None, total, form)).code == 500
  {
  }

  /**
   * For any subject count a session can hold, a completed collection always
   * has exactly total * 5 features, so the feature-count error never happens.
   */
  lemma FeatureCountNeverMismatches(net: Option<Network>, total: int, form: Form)
    requires total >= 0
    ensures !(Step2(net, total, form).Err? && Step2(net, total, form).error.FeatureCountMismatch?)
  {
    assert FieldCount(total) == total * CiePerSubject;
  }

  /**
   * A missing-mark error names the first field, in subject-then-CIE order,
   * that is absent or blank; every field before it was read successfully.
   */
  lemma MissingMarkNamesFirstGap(net: Network, total: int, form: Form)
    requires Step2(Some(net), total, form).Err? && Step2(Some(net), total, form).error.MissingMark?
    ensures var e := Step2(Some(net), total, form).error;
      && 1 <= e.subject <= total && 1 <= e.cie <= CiePerSubject
      && ((e.subject, e.cie) !in form || IsBlank(form[(e.subject, e.cie)].text))
    ensures var e := Step2(Some(net), total, form).error;
      forall k :: 0 <= k < (e.subject - 1) * 5 + (e.cie - 1) ==> UsableAt(form, k)
  {
    var collected := Collect(form, FieldCount(total));
    CollectFailsAtFirst(form, FieldCount(total));
    var k :| 0 <= k < FieldCount(total) && FirstUnusable(form, k) && collected.error == FieldError(form, k);
    assert (SubjectOf(k) - 1) * 5 + (CieOf(k) - 1) == k;
  }

  /**
   * A prediction is made exactly when every field of every subject is
   * present and numeric and the network takes total * 5 inputs.
   */
  lemma PredictsIff(net: Network, total: int, form: Form)
    requires total >= 0
    ensures Step2(Some(net), total, form).Ok? <==>
      (forall k :: 0 <= k < total * CiePerSubject ==> UsableAt(form, k)) && net.inputWidth == total * CiePerSubject
  {
    CollectSucceedsIff(form, FieldCount(total));
    assert FieldCount(total) == total * CiePerSubject;
  }

  /**
   * The recorded integer score agrees with the status: truncation never moves
   * a score across the threshold of 40.
   */
  lemma RecordedScoreAgreesWithStatus(net: Option<Network>, total: int, form: Form)
    requires Step2(net, total, form).Ok?
    ensures var p := Step2(net, total, form).value; p.status == Graduate <==> p.score >= 40
  {
    var features := Collect(form, FieldCount(total)).value;
    TruncPreservesThreshold(net.value.score(features));
  }

  lemma TruncPreservesThreshold(x: real)
    ensures x >= 40.0 <==> Trunc(x) >= 40
  {
  }

  /**
   * A score is the only 200 reply; a missing network and a mark `float`
   * rejects reach the generic handler's 500, and the other checks answer 400.
   * Every error reply carries the error's message.
   */
  lemma ReplyCodes(r: Result<Prediction, Step2Error>)
    ensures ReplyFor(r).code == 200 <==> r.Ok?
    ensures ReplyFor(r).code == 500 <==> r.Err? && (r.error.ModelNotLoaded? || r.error.BadFloat?)
    ensures ReplyFor(r).code == 400 <==>
      r.Err? && (r.error.MissingMark? || r.error.FeatureCountMismatch? || r.error.InputWidthMismatch?)
    ensures r.Err? ==> ReplyFor(r).body == Failure(ErrorText(r.error))
  {
  }

  /** The missing-mark message names the field's subject and CIE in plain decimal. */
  lemma MissingMarkText(i: nat, j: nat)
    ensures ErrorText(MissingMark(i, j)) == "Missing CIE mark for Subject " + NatText(i) + ", CIE " + NatText(j)
  {
  }
}
