/** Level 1, Password Master: the player types a password whose strength
    (0..3) is shown as it is typed; submitting a password below strength 3
    counts an attempt, a strong one ends the level. */
module PasswordMaster {
  import opened Wrappers
  import opened Text
  import opened Scoring
  import opened Progress

  const LevelId: int := 1

  /** `/[!@#$%^&*(),.?":{}|<>]/` */
  predicate IsSpecial(c: char)
  {
    c in "!@#$%^&*(),.?\":{}|<>"
  }

  predicate HasDigit(s: string) { exists i :: 0 <= i < |s| && IsDigit(s[i]) }
  predicate HasUpper(s: string) { exists i :: 0 <= i < |s| && IsUpper(s[i]) }
  predicate HasLower(s: string) { exists i :: 0 <= i < |s| && IsLower(s[i]) }
  predicate HasSpecial(s: string) { exists i :: 0 <= i < |s| && IsSpecial(s[i]) }

  /** The five checks, in the order of the `checks` object. */
  function Checks(pass: string): seq<bool>
  {
    [|pass| >= 8, HasDigit(pass), HasUpper(pass), HasLower(pass), HasSpecial(pass)]
  }

  /** `Object.values(checks).filter(Boolean).length` */
  function CountTrue(bs: seq<bool>): (n: nat)
    ensures n <= |bs|
    ensures n == |bs| <==> forall i :: 0 <= i < |bs| ==> bs[i]
    ensures n == 0 <==> forall i :: 0 <= i < |bs| ==> !bs[i]
  {
    if bs == [] then 0 else (if bs[0] then 1 else 0) + CountTrue(bs[1..])
  }

  /** The rating of a number of passed checks: 3 when all five pass, half
      the count rounded down otherwise. */
  function Rating(passed: nat): (r: nat)
    requires passed <= 5
    ensures r <= 3
    ensures r == 3 <==> passed == 5
    ensures passed < 5 ==> r * 2 <= passed < r * 2 + 2
  {
    if passed == 5 then 3 else passed / 2
  }

  /** `checkPasswordStrength`. */
  function CheckPasswordStrength(pass: string): (r: nat)
    ensures r <= 3
    ensures r == 3 <==> |pass| >= 8 && HasDigit(pass) && HasUpper(pass) && HasLower(pass) && HasSpecial(pass)
  {
    CountChecks(pass);
    Rating(CountTrue(Checks(pass)))
  }

  /** The filter counts the checks one by one. */
  lemma CountChecks(pass: string)
    ensures CountTrue(Checks(pass)) == Passed(pass)
  {
    var a, b, c, d, e := |pass| >= 8, HasDigit(pass), HasUpper(pass), HasLower(pass), HasSpecial(pass);
    assert [a, b, c, d, e][1..] == [b, c, d, e];
    assert [b, c, d, e][1..] == [c, d, e];
    assert [c, d, e][1..] == [d, e];
    assert [d, e][1..] == [e];
    assert CountTrue([e]) == if e then 1 else 0;
    assert CountTrue([d, e]) == (if d then 1 else 0) + CountTrue([e]);
    assert CountTrue([c, d, e]) == (if c then 1 else 0) + CountTrue([d, e]);
    assert CountTrue([b, c, d, e]) == (if b then 1 else 0) + CountTrue([c, d, e]);
    assert CountTrue([a, b, c, d, e]) == (if a then 1 else 0) + CountTrue([b, c, d, e]);
  }

  /** The rating never drops as more checks pass. */
  lemma RatingMonotone(p: nat, q: nat)
    requires p <= q <= 5
    ensures Rating(p) <= Rating(q)
  {
  }

  /** The number of passed checks, counted as one would by hand. */
  function Passed(pass: string): nat
  {
    (if |pass| >= 8 then 1 else 0) + (if HasDigit(pass) then 1 else 0) +
    (if HasUpper(pass) then 1 else 0) + (if HasLower(pass) then 1 else 0) +
    (if HasSpecial(pass) then 1 else 0)
  }

  /** The strength depends only on how many checks pass: 4 give 2, 2 or 3
      give 1, 0 or 1 give 0. */
  lemma StrengthByPassedChecks(pass: string)
    ensures CheckPasswordStrength(pass) ==
      match Passed(pass)
      case 5 => 3
      case 4 => 2
      case 3 => 1
      case 2 => 1
      case _ => 0
  {
    CountChecks(pass);
  }

  /** Every check that `weak` passes, `strong` passes too: then `strong`
      is rated at least as high. */
  lemma StrengthMonotone(weak: string, strong: string)
    requires |weak| >= 8 ==> |strong| >= 8
    requires HasDigit(weak) ==> HasDigit(strong)
    requires HasUpper(weak) ==> HasUpper(strong)
    requires HasLower(weak) ==> HasLower(strong)
    requires HasSpecial(weak) ==> HasSpecial(strong)
    ensures CheckPasswordStrength(weak) <= CheckPasswordStrength(strong)
  {
    StrengthByPassedChecks(weak);
    StrengthByPassedChecks(strong);
  }

  /** "Secur3!" has every class of character but only seven characters:
      four checks, strength 2. "Secur3!x" passes all five: strength 3. */
  lemma SevenCharacterExample()
    ensures CheckPasswordStrength("Secur3!") == 2
    ensures CheckPasswordStrength("Secur3!x") == 3
  {
    var p := "Secur3!";
    assert IsUpper(p[0]) && IsLower(p[1]) && IsDigit(p[5]) && IsSpecial(p[6]);
    StrengthByPassedChecks(p);
    var q := "Secur3!x";
    assert IsUpper(q[0]) && IsLower(q[1]) && IsDigit(q[5]) && IsSpecial(q[6]);
  }

  /** The page's state and its two handlers. `strength` is always the
      rating of `password`. */
  class Session {
    var password: string
    var attempts: nat
    var strength: nat
    var completed: bool

    ghost predicate Valid()
      reads this
    {
      strength == CheckPasswordStrength(password)
    }

    constructor ()
      ensures Valid()
      ensures password == "" && attempts == 0 && strength == 0 && !completed
    {
      password, attempts, strength, completed := "", 0, 0, false;
    }

    /** `handlePasswordChange`: stores the password and its rating. */
    method ChangePassword(newPassword: string)
      requires Valid()
      modifies this
      ensures Valid()
      ensures password == newPassword && strength == CheckPasswordStrength(newPassword)
      ensures attempts == old(attempts) && completed == old(completed)
    {
      password := newPassword;
      strength := CheckPasswordStrength(newPassword);
    }

    /** `handleSubmit` with `updateProgress`: a password below strength 3 is
        refused and counts an attempt; a strong one earns
        `max(10 - attempts, 1)`, sends `attempts + 1` as the attempt count,
        and completes the level whatever the save answers. */
    method Submit(save: SaveOutcome) returns (written: Option<Upsert>)
      requires Valid()
      modifies this
      ensures Valid()
      ensures password == old(password) && strength == old(strength)
      ensures strength < 3 ==>
        attempts == old(attempts) + 1 && completed == old(completed) && written == None
      ensures strength == 3 ==>
        && attempts == old(attempts) && completed
        && written == Sent(save, Upsert(LevelId, AttemptScore(old(attempts)), true, Some(old(attempts) + 1)))
    {
      written := None;
      if strength < 3 {
        attempts := attempts + 1;
        return;
      }
      var score := AttemptScore(attempts);
      written := UpdateProgress(score, save);
      completed := true;
    }

    /** `updateProgress`: sends the score with `attempts + 1`; a failed save
        is only reported. */
    method UpdateProgress(score: int, save: SaveOutcome) returns (written: Option<Upsert>)
      ensures written == Sent(save, Upsert(LevelId, score, true, Some(attempts + 1)))
    {
      if save == NoSession {
        return None;
      }
      written := Some(Upsert(LevelId, score, true, Some(attempts + 1)));
    }
  }
}
