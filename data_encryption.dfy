/** Level 7, Data Encryption: the player encrypts each of three messages
    with a Caesar cipher and must type the plain text back. A wrong answer
    costs two points; the third correct answer ends the level. */
module DataEncryption {
  import opened Wrappers
  import opened Text
  import opened Scoring
  import opened Progress

  const LevelId: int := 7

  datatype Message = Message(plain: string, key: int)

  const Messages: seq<Message> := [
    Message("Transfer $500 to Account 12345", 3),
    Message("Meeting at 3 PM tomorrow", 5),
    Message("Password is SecurePass123", 2)
  ]

  /** JavaScript's `%`: the remainder of a division truncated toward zero,
      so it takes the sign of the dividend. */
  function JsRem(a: int, b: int): (r: int)
    requires b > 0
    ensures -b < r < b
    ensures a >= 0 ==> r == a % b
    ensures a <= 0 ==> r <= 0
  {
    if a >= 0 then a % b else -((-a) % b)
  }

  /** For a negative dividend JavaScript's `%` differs from the Euclidean
      remainder by `b` unless the division is exact. */
  lemma JsRemNegative(a: int, b: int)
    requires b > 0 && a < 0
    ensures JsRem(a, b) == if a % b == 0 then 0 else a % b - b
  {
    var q, m := (-a) / b, (-a) % b;
    assert -a == q * b + m && 0 <= m < b;
    if m == 0 {
      assert a == (-q) * b;
      EuclidUnique(a, b, -q, 0);
    } else {
      assert a == (-q - 1) * b + (b - m);
      EuclidUnique(a, b, -q - 1, b - m);
    }
  }

  /** The Euclidean remainder is the only one in `0..b - 1`. */
  lemma EuclidUnique(a: int, b: int, k: int, r: int)
    requires b > 0 && a == k * b + r && 0 <= r < b
    ensures a % b == r
  {
    var q, m := a / b, a % b;
    assert a == q * b + m && 0 <= m < b;
    if q > k {
      MulMonotone(b, 1, q - k);
      assert false;
    } else if q < k {
      MulMonotone(b, 1, k - q);
      assert false;
    }
  }

  /** The code of `c` shifted by `k` within its alphabet, before the
      remainder is taken: the argument of `% 26` in the cipher. */
  function Offset(c: char, k: int): int
  {
    c as int - (if IsUpper(c) then 65 else 97) + k
  }

  /** One character of the cipher: a letter moves `k` places along its own
      alphabet (upper- or lower-case); any other character is kept. */
  function ShiftChar(c: char, k: int): (r: char)
    ensures !IsLetter(c) ==> r == c
    ensures k >= 0 && IsUpper(c) ==> IsUpper(r) && r as int - 65 == Offset(c, k) % 26
    ensures k >= 0 && IsLower(c) ==> IsLower(r) && r as int - 97 == Offset(c, k) % 26
  {
    if IsLetter(c) then
      var base := if IsUpper(c) then 65 else 97;
      (JsRem(c as int - base + k, 26) + base) as char
    else
      c
  }

  /** `caesarCipher(text, shift, decrypt)`: decryption shifts by
      `26 - shift`. */
  function CaesarCipher(text: string, shift: int, decrypt: bool): (r: string)
    ensures |r| == |text|
    ensures forall i :: 0 <= i < |text| && !IsLetter(text[i]) ==> r[i] == text[i]
    ensures forall i :: 0 <= i < |text| && IsLetter(text[i]) ==> IsLetter(r[i]) || (if decrypt then 26 - shift else shift) < 0
  {
    var k := if decrypt then 26 - shift else shift;
    seq(|text|, i requires 0 <= i < |text| => ShiftChar(text[i], k))
  }

  /** Shifting forward by `k` and then by `26 - k` returns every letter. */
  lemma ShiftCharRoundTrip(c: char, k: int)
    requires 0 <= k <= 26
    ensures ShiftChar(ShiftChar(c, k), 26 - k) == c
  {
    if IsLetter(c) {
      var base := if IsUpper(c) then 65 else 97;
      var x := c as int - base;
      var d := ShiftChar(c, k);
      if x + k < 26 {
        assert d as int - base == x + k;
      } else {
        assert d as int - base == x + k - 26;
      }
      assert IsUpper(d) == IsUpper(c);
      assert (d as int - base + 26 - k) % 26 == x;
    }
  }

  /** Decryption inverts encryption for every key in 0..26. */
  lemma {:induction false} DecryptInvertsEncrypt(text: string, shift: int)
    requires 0 <= shift <= 26
    ensures CaesarCipher(CaesarCipher(text, shift, false), shift, true) == text
  {
    var e := CaesarCipher(text, shift, false);
    var d := CaesarCipher(e, shift, true);
    forall i | 0 <= i < |text|
      ensures d[i] == text[i]
    {
      ShiftCharRoundTrip(text[i], shift);
    }
  }

  /** ... and encryption inverts decryption. */
  lemma {:induction false} EncryptInvertsDecrypt(text: string, shift: int)
    requires 0 <= shift <= 26
    ensures CaesarCipher(CaesarCipher(text, shift, true), shift, false) == text
  {
    var d := CaesarCipher(text, shift, true);
    var e := CaesarCipher(d, shift, false);
    forall i | 0 <= i < |text|
      ensures e[i] == text[i]
    {
      ShiftCharRoundTrip(text[i], 26 - shift);
    }
  }

  /** With key 3, "ABC" becomes "DEF" and "X" wraps round to "A". */
  lemma KeyThreeExamples()
    ensures CaesarCipher("ABC", 3, false) == "DEF"
    ensures CaesarCipher("X", 3, false) == "A"
    ensures CaesarCipher("DEF", 3, true) == "ABC"
  {
  }

  /** The remainder is JavaScript's: a negative key can move a letter out
      of the alphabet ('A' shifted by -1 is '@'). */
  lemma NegativeKeyLeavesAlphabet()
    ensures CaesarCipher("A", -1, false) == "@"
  {
  }

  /** The page's state (`useState` hooks) and its two handlers. */
  class Session {
    var currentIndex: nat
    var encrypted: string
    var decrypted: string
    var score: int
    var completed: bool
    var attempts: nat

    ghost predicate Valid()
      reads this
    {
      currentIndex < |Messages| && 0 <= score <= 10
    }

    constructor ()
      ensures Valid()
      ensures currentIndex == 0 && encrypted == "" && decrypted == ""
      ensures score == 0 && !completed && attempts == 0
    {
      currentIndex, encrypted, decrypted := 0, "", "";
      score, completed, attempts := 0, false, 0;
    }

    /** `handleEncrypt`: shows the current message encrypted with its key. */
    method Encrypt()
      requires Valid()
      modifies this
      ensures Valid()
      ensures encrypted == CaesarCipher(Messages[currentIndex].plain, Messages[currentIndex].key, false)
      ensures currentIndex == old(currentIndex) && decrypted == old(decrypted)
      ensures score == old(score) && completed == old(completed) && attempts == old(attempts)
    {
      var message := Messages[currentIndex];
      encrypted := CaesarCipher(message.plain, message.key, false);
    }

    /** The input field's `onChange`. */
    method Type(text: string)
      requires Valid()
      modifies this
      ensures Valid() && decrypted == text
      ensures currentIndex == old(currentIndex) && encrypted == old(encrypted)
      ensures score == old(score) && completed == old(completed) && attempts == old(attempts)
    {
      decrypted := text;
    }

    /** `handleDecrypt`: a correct answer (the trimmed input equals the plain
        text) advances to the next message, or on the last one scores the
        level and saves it; a wrong answer counts an attempt. The result is
        the row sent to the store, if any. */
    method Decrypt(save: SaveOutcome) returns (written: Option<Upsert>)
      requires Valid()
      modifies this
      ensures Valid()
      ensures currentIndex >= old(currentIndex)
      ensures Trim(old(decrypted)) != Messages[old(currentIndex)].plain ==>
        && attempts == old(attempts) + 1
        && currentIndex == old(currentIndex) && completed == old(completed)
        && encrypted == old(encrypted) && decrypted == old(decrypted)
        && score == old(score) && written == None
      ensures Trim(old(decrypted)) == Messages[old(currentIndex)].plain && old(currentIndex) < |Messages| - 1 ==>
        && currentIndex == old(currentIndex) + 1
        && encrypted == "" && decrypted == ""
        && attempts == old(attempts) && completed == old(completed)
        && score == old(score) && written == None
      ensures Trim(old(decrypted)) == Messages[old(currentIndex)].plain && old(currentIndex) == |Messages| - 1 ==>
        && score == DoublePenaltyScore(old(attempts))
        && written == Sent(save, Upsert(LevelId, score, true, None))
        && completed == (old(completed) || save == Saved)
        && currentIndex == old(currentIndex) && attempts == old(attempts)
        && encrypted == old(encrypted) && decrypted == old(decrypted)
    {
      written := None;
      var message := Messages[currentIndex];
      if Trim(decrypted) == message.plain {
        if currentIndex == |Messages| - 1 {
          var finalScore := DoublePenaltyScore(attempts);
          score := finalScore;
          if save == NoSession {
            return;
          }
          written := Some(Upsert(LevelId, finalScore, true, None));
          if save == Failed {
            return;
          }
          completed := true;
        } else {
          currentIndex := currentIndex + 1;
          encrypted := "";
          decrypted := "";
        }
      } else {
        attempts := attempts + 1;
      }
    }
  }
}
