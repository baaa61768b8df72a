/** Level 10, Incident Response Simulator: five steps of handling a data
    breach, each answered by picking one of four options. A wrong pick is
    recorded but keeps the player on the step; the right pick on the last
    step scores the level. */
module IncidentResponse {
  import opened Wrappers
  import opened Scoring
  import opened Progress
  import opened DecisionTree

  const LevelId: int := 10

  const Steps: seq<Step> := [
    Step(1, "Identification",
      [
        Choice("1a", false),
        Choice("1b", true),
        Choice("1c", false),
        Choice("1d", false)
      ], false),
    Step(2, "Containment",
      [
        Choice("2a", false),
        Choice("2b", true),
        Choice("2c", false),
        Choice("2d", false)
      ], false),
    Step(3, "Eradication",
      [
        Choice("3a", false),
        Choice("3b", false),
        Choice("3c", true),
        Choice("3d", false)
      ], false),
    Step(4, "Recovery",
      [
        Choice("4a", false),
        Choice("4b", true),
        Choice("4c", false),
        Choice("4d", false)
      ], false),
    Step(5, "Lessons Learned",
      [
        Choice("5a", false),
        Choice("5b", false),
        Choice("5c", true),
        Choice("5d", false)
      ], false)
  ]

  /** The correct option of each step, by position among its options:
      1b, 2b, 3c, 4b and 5c. */
  lemma EachStepOneCorrect()
    ensures |Steps| == 5
    ensures forall i :: 0 <= i < |Steps| ==> ExactlyOneCorrect(Steps[i].options)
  {
    forall i | 0 <= i < |Steps|
      ensures ExactlyOneCorrect(Steps[i].options)
    {
      var o := Steps[i].options;
      var k := if i == 2 || i == 4 then 2 else 1;
      assert o[k].correct && forall j :: 0 <= j < |o| && j != k ==> !o[j].correct;
    }
  }

  /** The page's state and its one handler. The player is never past a
      step answered wrongly: every pick before the current step is that
      step's correct option. */
  class Session {
    var currentStep: nat
    var selectedOptions: seq<Option<string>>
    var completed: bool
    var score: int

    ghost predicate Valid()
      reads this
    {
      && currentStep < |Steps|
      && currentStep <= |selectedOptions| <= currentStep + 1
      && (forall i :: 0 <= i < currentStep ==> IsCorrectPick(Steps[i], selectedOptions[i]))
      && (score == 0 || score == 10)
      && (completed ==> currentStep == |Steps| - 1 && score == 10)
    }

    constructor ()
      ensures Valid()
      ensures currentStep == 0 && selectedOptions == [] && !completed && score == 0
    {
      currentStep, selectedOptions, completed, score := 0, [], false, 0;
    }

    /** `handleOptionSelect`: an id that is not an option of the current
        step is ignored. Otherwise the pick is recorded at the current step;
        a wrong pick goes no further, a right one advances, and on the last
        step scores `floor(correct * 10 / 5)` and saves it. The level
        completes only once the row is saved. */
    method SelectOption(value: string, save: SaveOutcome) returns (written: Option<Upsert>)
      requires Valid()
      modifies this
      ensures Valid()
      ensures currentStep >= old(currentStep)
      ensures FindOption(Steps[old(currentStep)].options, value).None? ==>
        && currentStep == old(currentStep) && selectedOptions == old(selectedOptions)
        && completed == old(completed) && score == old(score) && written == None
      ensures FindOption(Steps[old(currentStep)].options, value).Some? ==>
        selectedOptions == Record(old(selectedOptions), old(currentStep), value)
      ensures (FindOption(Steps[old(currentStep)].options, value).Some? &&
        !FindOption(Steps[old(currentStep)].options, value).value.correct) ==>
        && currentStep == old(currentStep) && completed == old(completed)
        && score == old(score) && written == None
      ensures (FindOption(Steps[old(currentStep)].options, value).Some? &&
        FindOption(Steps[old(currentStep)].options, value).value.correct &&
        old(currentStep) < |Steps| - 1) ==>
        && currentStep == old(currentStep) + 1 && completed == old(completed)
        && score == old(score) && written == None
      ensures (FindOption(Steps[old(currentStep)].options, value).Some? &&
        FindOption(Steps[old(currentStep)].options, value).value.correct &&
        old(currentStep) == |Steps| - 1) ==>
        && currentStep == old(currentStep)
        && score == FractionScore(CorrectAnswers(Steps, selectedOptions), |Steps|)
        && score == 10
        && written == Sent(save, Upsert(LevelId, 10, true, None))
        && completed == (old(completed) || save == Saved)
    {
      written := None;
      var selected := FindOption(Steps[currentStep].options, value);
      if selected.None? {
        return;
      }
      var newSelected := Record(selectedOptions, currentStep, value);
      RecordKeepsCorrectPrefix(Steps, selectedOptions, currentStep, value);
      selectedOptions := newSelected;
      if selected.value.correct {
        if currentStep == |Steps| - 1 {
          written := Finish(save);
        } else {
          currentStep := currentStep + 1;
        }
      }
    }

    /** The last step answered right: every pick is correct, so the score
        `floor(correct * 10 / 5)` is 10; it is saved, and the level completes
        only once the row is saved. */
    method Finish(save: SaveOutcome) returns (written: Option<Upsert>)
      requires currentStep == |Steps| - 1 && |selectedOptions| == |Steps|
      requires forall i :: 0 <= i < |Steps| ==> IsCorrectPick(Steps[i], selectedOptions[i])
      modifies this
      ensures currentStep == old(currentStep) && selectedOptions == old(selectedOptions)
      ensures score == FractionScore(CorrectAnswers(Steps, selectedOptions), |Steps|) && score == 10
      ensures written == Sent(save, Upsert(LevelId, 10, true, None))
      ensures completed == (old(completed) || save == Saved)
    {
      written := None;
      AllCorrectCounted(Steps, selectedOptions);
      var correctAnswers := CorrectAnswers(Steps, selectedOptions);
      var finalScore := FractionScore(correctAnswers, |Steps|);
      score := finalScore;
      if save == NoSession {
        return;
      }
      written := Some(Upsert(LevelId, finalScore, true, None));
      if save == Failed {
        return;
      }
      completed := true;
    }
  }
}
