/** The two quiz levels (PhishingDetective, SocialEngineering) walk through a
    fixed list of yes/no questions and count the right answers. */
module Quiz {

  /** The answer expected at position `i` of the answers given so far: the
      question the player was on. Once on the last question the player stays
      there, so later answers are judged against it. */
  function ExpectedAt(truth: seq<bool>, i: nat): bool
    requires |truth| >= 1
  {
    truth[if i < |truth| then i else |truth| - 1]
  }

  /** The number of right answers among `answers`. */
  function CountCorrect(truth: seq<bool>, answers: seq<bool>): (n: nat)
    requires |truth| >= 1
    ensures n <= |answers|
  {
    if answers == [] then 0
    else
      var last := |answers| - 1;
      CountCorrect(truth, answers[..last]) + (if answers[last] == ExpectedAt(truth, last) then 1 else 0)
  }

  /** One more answer adds one exactly when it is right. */
  lemma CountCorrectSnoc(truth: seq<bool>, answers: seq<bool>, a: bool)
    requires |truth| >= 1
    ensures CountCorrect(truth, answers + [a]) ==
      CountCorrect(truth, answers) + (if a == ExpectedAt(truth, |answers|) then 1 else 0)
  {
    assert (answers + [a])[..|answers|] == answers;
  }

  /** All answers are right exactly when the count is the number of
      answers, and all are wrong exactly when it is zero. */
  lemma {:induction false} CountCorrectExtremes(truth: seq<bool>, answers: seq<bool>)
    requires |truth| >= 1
    ensures CountCorrect(truth, answers) == |answers| <==>
      forall i :: 0 <= i < |answers| ==> answers[i] == ExpectedAt(truth, i)
    ensures CountCorrect(truth, answers) == 0 <==>
      forall i :: 0 <= i < |answers| ==> answers[i] != ExpectedAt(truth, i)
  {
    if answers != [] {
      var last := |answers| - 1;
      CountCorrectExtremes(truth, answers[..last]);
      assert forall i :: 0 <= i < last ==> answers[..last][i] == answers[i];
    }
  }
}
