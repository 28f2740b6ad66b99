/**
 * The arithmetic of the desktop evaluation (finalapp.py, `predict`): zero-padding
 * of the mark list, the per-subject averages over consecutive groups of five
 * CIE marks, the overall average of those, and the 40-mark threshold.
 * Marks are exact reals; Python's binary floating point is not modelled.
 */
module Scoring {

  /** Five continuous-internal-evaluation (CIE) marks per subject. */
  const CiePerSubject: nat := 5

  /** The desktop form accepts from 1 to 10 subjects. */
  const MaxSubjects: nat := 10

  /** `predict` pads the mark list to 55 entries: eleven subjects' worth. */
  const PaddedLength: nat := 55

  /** An overall average below this is "Likely to Dropout". */
  const PassMark: real := 40.0

  datatype Outcome = Safe | LikelyToDropout

  /** The label the desktop window shows and the log line records. */
  function OutcomeText(o: Outcome): string {
    match o
    case Safe => "Safe"
    case LikelyToDropout => "Likely to Dropout"
  }

  function Sum(s: seq<real>): real {
    if s == [] then 0.0 else s[0] + Sum(s[1..])
  }

  predicate InRange(mark: real) {
    0.0 <= mark <= 100.0
  }

  /** The validation of `predict`: every mark lies in [0, 100]. */
  predicate AllInRange(marks: seq<real>) {
    forall i :: 0 <= i < |marks| ==> InRange(marks[i])
  }

  function Zeros(n: nat): seq<real> {
    seq(n, _ => 0.0)
  }

  /** The mark list after `while len(marks) < width: marks.append(0.0)`. */
  function Padded(marks: seq<real>, width: nat): (r: seq<real>)
    ensures |r| == if |marks| < width then width else |marks|
    ensures r[..|marks|] == marks
    ensures forall i :: |marks| <= i < |r| ==> r[i] == 0.0
  {
    if |marks| < width then marks + Zeros(width - |marks|) else marks
  }

  /**
   * One average per complete group of five marks, in order: average k is the
   * mean of marks[5k .. 5k+5]. A trailing incomplete group is ignored, as
   * `len(marks) // 5` does.
   */
  function SubjectAverages(marks: seq<real>): (avgs: seq<real>)
    ensures |avgs| == |marks| / 5
    ensures forall k :: 0 <= k < |avgs| ==> avgs[k] == Sum(marks[5 * k .. 5 * k + 5]) / 5.0
    decreases |marks|
  {
    if |marks| < 5 then []
    else
      var rest := SubjectAverages(marks[5..]);
      assert forall k :: 1 <= k < |rest| + 1 ==> marks[5..][5 * (k - 1) .. 5 * (k - 1) + 5] == marks[5 * k .. 5 * k + 5] by {
        forall k | 1 <= k < |rest| + 1
          ensures marks[5..][5 * (k - 1) .. 5 * (k - 1) + 5] == marks[5 * k .. 5 * k + 5]
        {
          assert 5 * (k - 1) + 5 == 5 * k;
          assert 5 * k + 5 <= |marks|;
        }
      }
      [Sum(marks[..5]) / 5.0] + rest
  }

  /** The unweighted mean of the subject averages. */
  function OverallAverage(avgs: seq<real>): real
    requires |avgs| > 0
  {
    Sum(avgs) / |avgs| as real
  }

  /** The threshold of `predict`: below the pass mark is "Likely to Dropout". */
  function Classify(overall: real): Outcome {
    if overall < PassMark then LikelyToDropout else Safe
  }

  /** The overall average `predict` computes from the entered marks. */
  function PaddedOverall(marks: seq<real>): real {
    OverallAverage(SubjectAverages(Padded(marks, PaddedLength)))
  }

  /** The outcome `predict` assigns to the entered marks. */
  function Evaluate(marks: seq<real>): Outcome {
    Classify(PaddedOverall(marks))
  }

  // ---------------------------------------------------------------------------
  // Properties

  /** Exactly the pass mark is Safe; anything below it is not. */
  lemma ClassifyThreshold(overall: real)
    ensures Classify(overall) == Safe <==> overall >= PassMark
    ensures Classify(40.0) == Safe && Classify(39.999) == LikelyToDropout
  {
  }

  lemma {:induction false} SumAppend(a: seq<real>, b: seq<real>)
    ensures Sum(a + b) == Sum(a) + Sum(b)
  {
    if a == [] {
      assert a + b == b;
    } else {
      assert (a + b)[1..] == a[1..] + b;
      SumAppend(a[1..], b);
    }
  }

  lemma {:induction false} SumZeros(n: nat)
    ensures Sum(Zeros(n)) == 0.0
  {
    if n > 0 {
      assert Zeros(n)[1..] == Zeros(n - 1);
      SumZeros(n - 1);
    }
  }

  /** Marks in [0, 100] sum to between 0 and 100 per mark. */
  lemma {:induction false} SumBounds(marks: seq<real>)
    requires AllInRange(marks)
    ensures 0.0 <= Sum(marks) <= 100.0 * |marks| as real
  {
    if marks != [] {
      assert InRange(marks[0]);
      SumBounds(marks[1..]);
    }
  }

  /** Zero-padding does not change the total of the marks. */
  lemma {:induction false} PaddedSum(marks: seq<real>, width: nat)
    ensures Sum(Padded(marks, width)) == Sum(marks)
  {
    if |marks| < width {
      SumAppend(marks, Zeros(width - |marks|));
      SumZeros(width - |marks|);
    }
  }

  /** The subject averages add up to a fifth of the marks they cover. */
  lemma {:induction false} SumOfSubjectAverages(marks: seq<real>)
    ensures Sum(SubjectAverages(marks)) == Sum(marks[..|marks| / 5 * 5]) / 5.0
    decreases |marks|
  {
    if |marks| >= 5 {
      var q := |marks| / 5;
      SumOfSubjectAverages(marks[5..]);
      assert |marks[5..]| / 5 * 5 == q * 5 - 5;
      assert marks[..q * 5] == marks[..5] + marks[5..][..q * 5 - 5];
      SumAppend(marks[..5], marks[5..][..q * 5 - 5]);
    } else {
      assert marks[..|marks| / 5 * 5] == [];
    }
  }

  /**
   * When every group is complete, the mean of the subject averages is the
   * plain mean of all marks: subject order and mark order do not matter.
   */
  lemma {:induction false} OverallIsMeanOfMarks(marks: seq<real>)
    requires |marks| >= 5 && |marks| % 5 == 0
    ensures OverallAverage(SubjectAverages(marks)) == Sum(marks) / |marks| as real
  {
    var avgs := SubjectAverages(marks);
    SumOfSubjectAverages(marks);
    assert marks[..|marks| / 5 * 5] == marks;
    assert |marks| == 5 * |avgs|;
    MeanOfFifths(Sum(marks), |avgs| as real);
  }

  lemma MeanOfFifths(total: real, groups: real)
    requires groups > 0.0
    ensures (total / 5.0) / groups == total / (5.0 * groups)
  {
  }

  /**
   * Because of the padding to 55, the overall average is the sum of the
   * entered marks divided by 55, whatever the number of subjects.
   */
  lemma {:induction false} PaddedOverallIsSumOver55(marks: seq<real>)
    requires |marks| <= PaddedLength
    ensures PaddedOverall(marks) == Sum(marks) / 55.0
  {
    var padded := Padded(marks, PaddedLength);
    assert |padded| == 55;
    OverallIsMeanOfMarks(padded);
    PaddedSum(marks, PaddedLength);
  }

  /** With every mark in [0, 100] the overall average lies in [0, 100 * n / 55]. */
  lemma {:induction false} PaddedOverallBounds(marks: seq<real>)
    requires |marks| <= PaddedLength && AllInRange(marks)
    ensures 0.0 <= PaddedOverall(marks) <= 100.0 * |marks| as real / 55.0
    ensures PaddedOverall(marks) <= 100.0
  {
    PaddedOverallIsSumOver55(marks);
    SumBounds(marks);
  }

  /**
   * A student with four subjects or fewer (at most 20 marks) is always
   * "Likely to Dropout": even full marks average at most 2000 / 55 < 40.
   */
  lemma {:induction false} FewSubjectsAlwaysAtRisk(marks: seq<real>)
    requires |marks| <= 4 * CiePerSubject && AllInRange(marks)
    ensures Evaluate(marks) == LikelyToDropout
  {
    PaddedOverallBounds(marks);
  }

  /** An empty or all-zero submission averages 0 and is "Likely to Dropout". */
  lemma {:induction false} AllZeroAtRisk(n: nat)
    requires n <= PaddedLength
    ensures PaddedOverall(Zeros(n)) == 0.0
    ensures Evaluate(Zeros(n)) == LikelyToDropout
  {
    PaddedOverallIsSumOver55(Zeros(n));
    SumZeros(n);
  }

  /** From five subjects on, full marks are enough to be Safe. */
  lemma {:induction false} FullMarksSafeFromFiveSubjects(n: nat)
    requires 5 * CiePerSubject <= n <= PaddedLength
    ensures Evaluate(seq(n, _ => 100.0)) == Safe
  {
    var marks := seq(n, _ => 100.0);
    PaddedOverallIsSumOver55(marks);
    SumOfConstant(n, 100.0);
  }

  lemma {:induction false} SumOfConstant(n: nat, c: real)
    ensures Sum(seq(n, _ => c)) == n as real * c
  {
    if n > 0 {
      var s := seq(n, _ => c);
      var t := seq(n - 1, _ => c);
      assert s[1..] == t;
      SumOfConstant(n - 1, c);
      assert Sum(s) == s[0] + Sum(s[1..]);
      assert Sum(s) == c + Sum(t);
      assert c + (n - 1) as real * c == n as real * c;
    }
  }
}
