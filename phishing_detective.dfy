/** Level 2, Phishing Detective: the player marks each of five emails as
    phishing or safe. Every answer moves on to the next email; a right one
    scores a point. */
module PhishingDetective {
  import opened Wrappers
  import opened Progress
  import opened Quiz

  const LevelId: int := 2

  datatype Email = Email(id: int, subject: string, from: string, content: string, isPhishing: bool)

  const Emails: seq<Email> := [
    Email(1, "Account Security Alert", "security@bank-secure-alert.com",
      "Dear customer, your account has been locked. Click here to verify your identity.", true),
    Email(2, "Your Amazon Order", "orders@amazon.com",
      "Your order #123456 has been shipped. Track your package here.", false),
    Email(3, "Urgent: Password Reset Required", "microsoft.support@hotmail.com",
      "Your Microsoft account requires immediate attention. Reset your password now.", true),
    Email(4, "Netflix Subscription Update", "netflix@emails.com",
      "Your payment method has expired. Update your billing information now to continue streaming.", true),
    Email(5, "Team Meeting Schedule", "hr@company.com",
      "The weekly team meeting has been rescheduled to 3 PM tomorrow.", false)
  ]

  /** The right answers, email by email. */
  function Verdicts(): seq<bool>
  {
    seq(|Emails|, i requires 0 <= i < |Emails| => Emails[i].isPhishing)
  }

  /** Emails 1, 3 and 4 are phishing; 2 and 5 are safe. */
  lemma VerdictsTable()
    ensures Verdicts() == [true, false, true, true, false]
  {
  }

  /** The page's state and its handler. `answers` is the history of the
      player's answers, which the page does not keep: the score is the
      number of right ones among them. */
  class Session {
    var currentEmailIndex: nat
    var score: int
    var completed: bool
    ghost var answers: seq<bool>

    ghost predicate Valid()
      reads this
    {
      && currentEmailIndex < |Emails|
      && |answers| == (if completed then |Emails| else currentEmailIndex)
      && (completed ==> currentEmailIndex == |Emails| - 1)
      && score == CountCorrect(Verdicts(), answers)
    }

    constructor ()
      ensures Valid()
      ensures currentEmailIndex == 0 && score == 0 && !completed && answers == []
    {
      currentEmailIndex, score, completed := 0, 0, false;
      answers := [];
    }

    /** `handleAnswer`, offered only while the level is not complete: a
        right answer (equal to the email's `isPhishing`) scores a point;
        every answer but the last moves to the next email. The last one
        saves `score + (correct ? 1 : 0)`, the number of right answers,
        and completes the level whatever the save answers. */
    method Answer(isPhishing: bool, save: SaveOutcome) returns (written: Option<Upsert>)
      requires Valid() && !completed
      modifies this
      ensures Valid()
      ensures answers == old(answers) + [isPhishing]
      ensures score == old(score) + (if isPhishing == Emails[old(currentEmailIndex)].isPhishing then 1 else 0)
      ensures old(currentEmailIndex) < |Emails| - 1 ==>
        currentEmailIndex == old(currentEmailIndex) + 1 && !completed && written == None
      ensures old(currentEmailIndex) == |Emails| - 1 ==>
        && currentEmailIndex == old(currentEmailIndex) && completed
        && 0 <= score <= |Emails|
        && written == Sent(save, Upsert(LevelId, score, true, None))
    {
      written := None;
      var currentEmail := Emails[currentEmailIndex];
      var correct := isPhishing == currentEmail.isPhishing;
      CountCorrectSnoc(Verdicts(), answers, isPhishing);
      answers := answers + [isPhishing];
      var oldScore := score;
      if correct {
        score := score + 1;
      }
      if currentEmailIndex == |Emails| - 1 {
        var finalScore := if correct then oldScore + 1 else oldScore;
        written := UpdateProgress(finalScore, save);
        completed := true;
      } else {
        currentEmailIndex := currentEmailIndex + 1;
      }
    }

    /** `updateProgress`: without a session nothing is sent; a failed save
        is only logged. */
    method UpdateProgress(finalScore: int, save: SaveOutcome) returns (written: Option<Upsert>)
      ensures written == Sent(save, Upsert(LevelId, finalScore, true, None))
    {
      if save == NoSession {
        return None;
      }
      written := Some(Upsert(LevelId, finalScore, true, None));
    }
  }
}
