/**
 * What the two front ends agree on: the order in which marks are entered or
 * read, and the threshold policy with its tie-break.
 */
module Parity {
  import Scoring
  import Desktop
  import Web

  /** The same score is on the safe side in both front ends; 40 itself is safe in both. */
  lemma SameThreshold(score: real)
    ensures Scoring.Classify(score) == Scoring.Safe <==> Web.StatusOf(score) == Web.Graduate
  {
  }

  /** The desktop form's k-th entry and the web form's k-th field read are the same subject and CIE. */
  lemma SameMarkOrder(count: nat, k: nat)
    requires k < count * Scoring.CiePerSubject
    ensures Desktop.Layout(count)[k].subject == Web.SubjectOf(k)
    ensures Desktop.Layout(count)[k].cie == Web.CieOf(k)
  {
  }
}
