/** The score formulas of the levels. Each is a penalty clamped at a floor
    (`Math.max(floor, 10 - perMiss * misses)`) or a fraction of ten. */
module Scoring {

  /** `Math.max(floor, base - perMiss * misses)`. */
  function Penalised(base: int, perMiss: nat, floor: int, misses: nat): (r: int)
    ensures r >= floor
    ensures r >= base - perMiss * misses
    ensures r <= if base >= floor then base else floor
    ensures r == floor || r == base - perMiss * misses
    ensures r > floor ==> r == base - perMiss * misses
  {
    if base - perMiss * misses > floor then base - perMiss * misses else floor
  }

  /** More misses never raise a clamped score. */
  lemma {:induction false} PenalisedAntitone(base: int, perMiss: nat, floor: int, m1: nat, m2: nat)
    requires m1 <= m2
    ensures Penalised(base, perMiss, floor, m2) <= Penalised(base, perMiss, floor, m1)
  {
    MulMonotone(perMiss, m1, m2);
  }

  lemma {:induction false} MulMonotone(k: nat, a: nat, b: nat)
    requires a <= b
    ensures k * a <= k * b
  {
    if a < b {
      MulMonotone(k, a, b - 1);
      assert k * b == k * (b - 1) + k;
    }
  }

  /** DataEncryption (DataEncryption.tsx, line 74):
      `Math.max(0, 10 - attempts * 2)`. Each wrong attempt costs two points
      until the score reaches 0, after five wrong attempts. */
  function DoublePenaltyScore(attempts: nat): (r: int)
    ensures 0 <= r <= 10
    ensures r == 10 <==> attempts == 0
    ensures r == 0 <==> attempts >= 5
    ensures attempts <= 5 ==> r == 10 - 2 * attempts
    ensures r % 2 == 0
  {
    Penalised(10, 2, 0, attempts)
  }

  /** PasswordMaster and MorseCodeMaster: `Math.max(10 - attempts, 1)`.
      Never below one point, whatever the number of failed attempts. */
  function AttemptScore(attempts: nat): (r: int)
    ensures 1 <= r <= 10
    ensures r == 10 <==> attempts == 0
    ensures r == 1 <==> attempts >= 9
    ensures attempts <= 9 ==> r == 10 - attempts
  {
    Penalised(10, 1, 1, attempts)
  }

  /** FirewallFortress and SocialMediaSleuth: `Math.max(0, 10 - mistakes)`. */
  function MistakeScore(mistakes: nat): (r: int)
    ensures 0 <= r <= 10
    ensures r == 10 <==> mistakes == 0
    ensures mistakes <= 10 ==> r == 10 - mistakes
  {
    Penalised(10, 1, 0, mistakes)
  }

  /** One more wrong attempt costs exactly one point until the floor. */
  lemma AttemptScoreStep(attempts: nat)
    ensures AttemptScore(attempts + 1) == if attempts < 9 then AttemptScore(attempts) - 1 else 1
  {
  }

  /** IncidentResponse: `Math.floor((correct / total) * 10)`, exact in
      integers as `(correct * 10) / total`. */
  function FractionScore(correct: nat, total: nat): (r: nat)
    requires 0 < total && correct <= total
    ensures r <= 10
    ensures r == 10 <==> correct == total
    ensures r * total <= correct * 10 < (r + 1) * total
  {
    FractionBounds(correct, total);
    (correct * 10) / total
  }

  lemma FractionBounds(correct: nat, total: nat)
    requires 0 < total && correct <= total
    ensures (correct * 10) / total <= 10
    ensures (correct * 10) / total == 10 <==> correct == total
    ensures ((correct * 10) / total) * total <= correct * 10 < ((correct * 10) / total + 1) * total
  {
    var q := (correct * 10) / total;
    var m := (correct * 10) % total;
    assert correct * 10 == q * total + m && 0 <= m < total;
    MulMonotone(10, correct, total);
    if q > 10 {
      MulMonotone(total, 11, q);
      assert false;
    }
    if correct < total {
      MulMonotone(10, correct, total - 1);
      if q == 10 {
        assert false;
      }
    }
  }
}
