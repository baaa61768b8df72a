/** The dashboard: the total score over the player's progress rows, and for
    each level a card showing the level's score and a Start or Retry
    button. Both lists come from the store; here they are inputs. */
module Dashboard {
  import opened Wrappers

  /** A row of the `levels` table. */
  datatype Level = Level(id: int, name: string, description: string, maxPoints: int)

  /** A row of the `user_progress` table, as the dashboard reads it. */
  datatype UserProgress = UserProgress(levelId: int, score: int, completed: bool)

  /** `progress.reduce((total, p) => total + p.score, 0)`: a left fold. */
  function TotalScore(progress: seq<UserProgress>): int
  {
    FoldScores(0, progress)
  }

  function FoldScores(acc: int, rows: seq<UserProgress>): int
    decreases rows
  {
    if rows == [] then acc else FoldScores(acc + rows[0].score, rows[1..])
  }

  /** The sum of the scores, written as a plain recursion over the rows. */
  function SumScores(rows: seq<UserProgress>): int
  {
    if rows == [] then 0 else SumScores(rows[..|rows| - 1]) + rows[|rows| - 1].score
  }

  lemma {:induction false} SumScoresCons(row: UserProgress, rows: seq<UserProgress>)
    ensures SumScores([row] + rows) == row.score + SumScores(rows)
  {
    if rows != [] {
      var all := [row] + rows;
      assert all[..|all| - 1] == [row] + rows[..|rows| - 1];
      SumScoresCons(row, rows[..|rows| - 1]);
    }
  }

  /** The fold adds the scores to what it starts from. */
  lemma {:induction false} FoldIsSum(acc: int, rows: seq<UserProgress>)
    ensures FoldScores(acc, rows) == acc + SumScores(rows)
    decreases rows
  {
    if rows != [] {
      FoldIsSum(acc + rows[0].score, rows[1..]);
      assert rows == [rows[0]] + rows[1..];
      SumScoresCons(rows[0], rows[1..]);
    }
  }

  /** The total is the sum of every row's score: 0 without rows, and
      every row counts, duplicates for one level included. */
  lemma TotalIsSum(progress: seq<UserProgress>)
    ensures TotalScore(progress) == SumScores(progress)
    ensures progress == [] ==> TotalScore(progress) == 0
  {
    FoldIsSum(0, progress);
  }

  /** The total of two lists of rows is the sum of their totals. */
  lemma {:induction false} TotalOfAppend(a: seq<UserProgress>, b: seq<UserProgress>)
    ensures TotalScore(a + b) == TotalScore(a) + TotalScore(b)
  {
    TotalIsSum(a);
    TotalIsSum(b);
    TotalIsSum(a + b);
    SumOfAppend(a, b);
  }

  lemma {:induction false} SumOfAppend(a: seq<UserProgress>, b: seq<UserProgress>)
    ensures SumScores(a + b) == SumScores(a) + SumScores(b)
  {
    if b != [] {
      assert (a + b)[..|a + b| - 1] == a + b[..|b| - 1];
      SumOfAppend(a, b[..|b| - 1]);
    } else {
      assert a + b == a;
    }
  }

  /** With no negative score the total is not negative. */
  lemma {:induction false} TotalNonNegative(progress: seq<UserProgress>)
    requires forall i :: 0 <= i < |progress| ==> progress[i].score >= 0
    ensures TotalScore(progress) >= 0
  {
    TotalIsSum(progress);
    SumNonNegative(progress);
  }

  lemma {:induction false} SumNonNegative(rows: seq<UserProgress>)
    requires forall i :: 0 <= i < |rows| ==> rows[i].score >= 0
    ensures SumScores(rows) >= 0
  {
    if rows != [] {
      SumNonNegative(rows[..|rows| - 1]);
    }
  }

  /** `progress.find(p => p.level_id === levelId)`: the first row of the
      level, if any. */
  function FindProgress(progress: seq<UserProgress>, levelId: int): (r: Option<UserProgress>)
    ensures r.None? <==> forall i :: 0 <= i < |progress| ==> progress[i].levelId != levelId
    ensures r.Some? ==> r.value.levelId == levelId && r.value in progress
  {
    if progress == [] then None
    else if progress[0].levelId == levelId then Some(progress[0])
    else FindProgress(progress[1..], levelId)
  }

  /** The row found for a level is its first row. */
  lemma {:induction false} FindProgressIsFirst(progress: seq<UserProgress>, levelId: int, k: nat)
    requires k < |progress| && progress[k].levelId == levelId
    requires forall j :: 0 <= j < k ==> progress[j].levelId != levelId
    ensures FindProgress(progress, levelId) == Some(progress[k])
  {
    if k > 0 {
      FindProgressIsFirst(progress[1..], levelId, k - 1);
    }
  }

  /** `levelProgress?.score || 0`: the first row's score, 0 without one. */
  function DisplayedScore(progress: seq<UserProgress>, levelId: int): (r: int)
    ensures FindProgress(progress, levelId).None? ==> r == 0
    ensures FindProgress(progress, levelId).Some? ==> r == FindProgress(progress, levelId).value.score
  {
    match FindProgress(progress, levelId)
    case None => 0
    case Some(p) => if p.score != 0 then p.score else 0
  }

  /** `levelProgress?.completed ? "Retry Level" : "Start Level"`. */
  function ButtonLabel(progress: seq<UserProgress>, levelId: int): (r: string)
    ensures r == "Retry Level" || r == "Start Level"
    ensures r == "Retry Level" <==>
      FindProgress(progress, levelId).Some? && FindProgress(progress, levelId).value.completed
  {
    match FindProgress(progress, levelId)
    case Some(p) => if p.completed then "Retry Level" else "Start Level"
    case None => "Start Level"
  }

  /** What a level's card shows: its name, description, score out of its
      maximum, and the button. */
  datatype LevelCard = LevelCard(levelId: int, name: string, description: string, score: int, maxPoints: int, buttonLabel: string)

  /** `levels.map(level => ...)`: one card per level, in order. */
  function Cards(levels: seq<Level>, progress: seq<UserProgress>): (r: seq<LevelCard>)
    ensures |r| == |levels|
    ensures forall i :: 0 <= i < |levels| ==>
      && r[i].levelId == levels[i].id && r[i].name == levels[i].name
      && r[i].description == levels[i].description && r[i].maxPoints == levels[i].maxPoints
    ensures forall i :: 0 <= i < |levels| ==>
      (FindProgress(progress, levels[i].id).None? ==> r[i].score == 0 && r[i].buttonLabel == "Start Level")
    ensures forall i :: 0 <= i < |levels| ==>
      (FindProgress(progress, levels[i].id).Some? ==>
        && r[i].score == FindProgress(progress, levels[i].id).value.score
        && (r[i].buttonLabel == "Retry Level" <==> FindProgress(progress, levels[i].id).value.completed))
  {
    seq(|levels|, i requires 0 <= i < |levels| =>
      LevelCard(levels[i].id, levels[i].name, levels[i].description,
        DisplayedScore(progress, levels[i].id), levels[i].maxPoints, ButtonLabel(progress, levels[i].id)))
  }

  /** A second row for a level adds to the total but the card shows only
      the first. */
  lemma DuplicateRow(first: UserProgress, progress: seq<UserProgress>, second: UserProgress)
    requires second.levelId == first.levelId
    ensures TotalScore([first] + progress + [second]) == first.score + TotalScore(progress) + second.score
    ensures DisplayedScore([first] + progress + [second], first.levelId) == first.score
  {
    TotalOfAppend([first] + progress, [second]);
    TotalOfAppend([first], progress);
    assert [first][1..] == [] && [second][1..] == [];
    assert FoldScores(0, [first]) == FoldScores(first.score, []);
    assert FoldScores(0, [second]) == FoldScores(second.score, []);
    FindProgressIsFirst([first] + progress + [second], first.levelId, 0);
  }
}
