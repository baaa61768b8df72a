/** Level 9, Ransomware Rescue: four steps of responding to a ransomware
    attack, each answered by picking one of four options. Only the start
    of the option handler is part of this model: it validates and records
    the pick, then branches on whether the pick is correct. */
module RansomwareRescue {
  import opened Wrappers
  import opened DecisionTree

  const Steps: seq<Step> := [
    Step(1, "Initial Response",
      [
        Choice("1a", false),
        Choice("1b", true),
        Choice("1c", false),
        Choice("1d", false)
      ], false),
    Step(2, "System Analysis",
      [
        Choice("2a", false),
        Choice("2b", false),
        Choice("2c", true),
        Choice("2d", false)
      ], false),
    Step(3, "Data Recovery",
      [
        Choice("3a", true),
        Choice("3b", false),
        Choice("3c", false),
        Choice("3d", false)
      ], false),
    Step(4, "Prevention",
      [
        Choice("4a", false),
        Choice("4b", false),
        Choice("4c", true),
        Choice("4d", false)
      ], false)
  ]

  /** The correct option of each step, by position among its options:
      1b, 2c, 3a and 4c. */
  lemma EachStepOneCorrect()
    ensures |Steps| == 4
    ensures forall i :: 0 <= i < |Steps| ==> ExactlyOneCorrect(Steps[i].options)
  {
    forall i | 0 <= i < |Steps|
      ensures ExactlyOneCorrect(Steps[i].options)
    {
      var o := Steps[i].options;
      var k := if i == 0 then 1 else if i == 2 then 0 else 2;
      assert o[k].correct && forall j :: 0 <= j < |o| && j != k ==> !o[j].correct;
    }
  }

  /** The page's state. `completed` and `score` are only written after the
      branch, which is not part of this model. */
  class Session {
    var currentStep: nat
    var selectedOptions: seq<Option<string>>
    var completed: bool
    var score: int

    ghost predicate Valid()
      reads this
    {
      currentStep < |Steps|
    }

    constructor ()
      ensures Valid()
      ensures currentStep == 0 && selectedOptions == [] && !completed && score == 0
    {
      currentStep, selectedOptions, completed, score := 0, [], false, 0;
    }

    /** The start of `handleOptionSelect`: an id that is not an option of
        the current step is ignored (`None`). Otherwise the pick is recorded
        at the current step, and the result is the `correct` flag of the
        picked option, the only thing the rest of the handler branches
        on. */
    method SelectOption(value: string) returns (branch: Option<bool>)
      requires Valid()
      modifies this
      ensures Valid()
      ensures currentStep == old(currentStep) && completed == old(completed) && score == old(score)
      ensures FindOption(Steps[currentStep].options, value).None? ==>
        branch == None && selectedOptions == old(selectedOptions)
      ensures FindOption(Steps[currentStep].options, value).Some? ==>
        && branch == Some(FindOption(Steps[currentStep].options, value).value.correct)
        && selectedOptions == Record(old(selectedOptions), currentStep, value)
      ensures branch == Some(true) <==> IsCorrectPick(Steps[currentStep], Some(value))
    {
      var step := Steps[currentStep];
      var selectedOption := FindOption(step.options, value);
      if selectedOption.None? {
        return None;
      }
      selectedOptions := Record(selectedOptions, currentStep, value);
      branch := Some(selectedOption.value.correct);
    }
  }
}
