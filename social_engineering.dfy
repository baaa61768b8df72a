/** Level 5, Social Engineering Defense: the player decides for each of
    five requests whether to share the information. Every answer but the
    last moves on; a right one scores a point. The level completes only
    once the final score is saved; until then the player stays on the last
    scenario and may answer it again. */
module SocialEngineering {
  import opened Wrappers
  import opened Progress
  import opened Quiz

  const LevelId: int := 5

  /** A scenario. Its question and the explanation shown after an answer
      are display text and not modelled. */
  datatype Scenario = Scenario(id: int, correctAnswer: bool)

  const Scenarios: seq<Scenario> := [
    Scenario(1, false),
    Scenario(2, true),
    Scenario(3, false),
    Scenario(4, true),
    Scenario(5, false)
  ]

  /** The right answers, scenario by scenario. */
  function Verdicts(): seq<bool>
  {
    seq(|Scenarios|, i requires 0 <= i < |Scenarios| => Scenarios[i].correctAnswer)
  }

  /** Sharing is right only in scenarios 2 and 4. */
  lemma VerdictsTable()
    ensures Verdicts() == [false, true, false, true, false]
  {
  }

  /** The page's state and its handler. `answers` is the history of the
      player's answers, which the page does not keep: the score is the
      number of right ones among them, each judged against the scenario
      shown when it was given. */
  class Session {
    var currentScenario: nat
    var score: int
    var completed: bool
    ghost var answers: seq<bool>

    ghost predicate Valid()
      reads this
    {
      && currentScenario < |Scenarios|
      && (if currentScenario < |Scenarios| - 1 then |answers| == currentScenario else |answers| >= currentScenario)
      && (completed ==> currentScenario == |Scenarios| - 1 && |answers| > currentScenario)
      && score == CountCorrect(Verdicts(), answers)
    }

    constructor ()
      ensures Valid()
      ensures currentScenario == 0 && score == 0 && !completed && answers == []
    {
      currentScenario, score, completed := 0, 0, false;
      answers := [];
    }

    /** `handleAnswer`, offered only while the level is not complete: a
        right answer (equal to the scenario's `correctAnswer`) scores a
        point; every answer but the last moves on. The last one sends
        `score + (isCorrect ? 1 : 0)` and completes the level only when the
        row is saved. The score is raised before the save, so after a
        failed save a second answer to the last scenario counts again. */
    method Answer(answer: bool, save: SaveOutcome) returns (written: Option<Upsert>)
      requires Valid() && !completed
      modifies this
      ensures Valid()
      ensures answers == old(answers) + [answer]
      ensures score == old(score) + (if answer == Scenarios[old(currentScenario)].correctAnswer then 1 else 0)
      ensures old(currentScenario) < |Scenarios| - 1 ==>
        currentScenario == old(currentScenario) + 1 && !completed && written == None
      ensures old(currentScenario) == |Scenarios| - 1 ==>
        && currentScenario == old(currentScenario)
        && written == Sent(save, Upsert(LevelId, score, true, None))
        && completed == (save == Saved)
        && 0 <= score <= |answers|
      ensures |old(answers)| < |Scenarios| ==> score <= |Scenarios|
    {
      written := None;
      var current := Scenarios[currentScenario];
      var isCorrect := answer == current.correctAnswer;
      CountCorrectSnoc(Verdicts(), answers, answer);
      answers := answers + [answer];
      var oldScore := score;
      if isCorrect {
        score := score + 1;
      }
      if currentScenario == |Scenarios| - 1 {
        var finalScore := oldScore + (if isCorrect then 1 else 0);
        if save == NoSession {
          return;
        }
        written := Some(Upsert(LevelId, finalScore, true, None));
        if save == Failed {
          return;
        }
        completed := true;
      } else {
        currentScenario := currentScenario + 1;
      }
    }
  }

  /** Five right answers whose save fails, then the last one answered
      right again and saved: the level records 6 points out of 5. */
  method RetryAfterFailedSave() returns (written: Option<Upsert>)
    ensures written == Some(Upsert(LevelId, 6, true, None))
  {
    var s := new Session();
    var _ := s.Answer(false, Saved);
    var _ := s.Answer(true, Saved);
    var _ := s.Answer(false, Saved);
    var _ := s.Answer(true, Saved);
    var first := s.Answer(false, Failed);
    assert first == Some(Upsert(LevelId, 5, true, None)) && !s.completed;
    written := s.Answer(false, Saved);
  }
}
