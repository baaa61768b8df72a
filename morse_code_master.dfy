/** Level 4, Morse Code Master: the player converts "HOW ARE YOU" to Morse
    code. A wrong answer counts an attempt; the right one ends the level. */
module MorseCodeMaster {
  import opened Wrappers
  import opened Text
  import opened Scoring
  import opened Progress

  const LevelId: int := 4

  /** The message the player converts. */
  const Message: string := "HOW ARE YOU"

  /** The `morseCode` object: the letter table of International Morse code
      (Recommendation ITU-R M.1677-1, section 1.1.1) and a space for a
      space. A key the object lacks reads as `None` (`undefined`). */
  function MorseCode(c: char): (r: Option<string>)
    ensures r.Some? <==> IsUpper(c) || c == ' '
  {
    match c
    case 'A' => Some(".-")
    case 'B' => Some("-...")
    case 'C' => Some("-.-.")
    case 'D' => Some("-..")
    case 'E' => Some(".")
    case 'F' => Some("..-.")
    case 'G' => Some("--.")
    case 'H' => Some("....")
    case 'I' => Some("..")
    case 'J' => Some(".---")
    case 'K' => Some("-.-")
    case 'L' => Some(".-..")
    case 'M' => Some("--")
    case 'N' => Some("-.")
    case 'O' => Some("---")
    case 'P' => Some(".--.")
    case 'Q' => Some("--.-")
    case 'R' => Some(".-.")
    case 'S' => Some("...")
    case 'T' => Some("-")
    case 'U' => Some("..-")
    case 'V' => Some("...-")
    case 'W' => Some(".--")
    case 'X' => Some("-..-")
    case 'Y' => Some("-.--")
    case 'Z' => Some("--..")
    case ' ' => Some(" ")
    case _ => None
  }

  /** `morseCode[char] || char`: the table's code, or the character itself
      when the table has none. */
  function MorseOf(c: char): (r: string)
    ensures MorseCode(c).Some? ==> r == MorseCode(c).value
    ensures MorseCode(c).None? ==> r == [c]
  {
    match MorseCode(c)
    case Some(code) => if code != "" then code else [c]
    case None => [c]
  }

  /** The code of each character, in order. */
  function CodesOf(text: string): seq<string>
  {
    seq(|text|, i requires 0 <= i < |text| => MorseOf(text[i]))
  }

  function SumLengths(parts: seq<string>): nat
  {
    if parts == [] then 0 else |parts[0]| + SumLengths(parts[1..])
  }

  /** `parts.join(' ')`: the parts with one space between neighbours, so
      `n` parts give `n - 1` separators. */
  function JoinSpaced(parts: seq<string>): (r: string)
    ensures parts == [] ==> r == ""
    ensures |parts| >= 1 ==> |r| == SumLengths(parts) + |parts| - 1
    ensures |parts| >= 1 ==> r[..|parts[0]|] == parts[0]
  {
    if parts == [] then ""
    else if |parts| == 1 then parts[0]
    else parts[0] + " " + JoinSpaced(parts[1..])
  }

  /** `convertToMorse`: upper-cases the text, then joins the code of each
      character with single spaces. */
  function ConvertToMorse(text: string): string
  {
    JoinSpaced(CodesOf(ToUpper(text)))
  }

  /** `s.split(' ')`: the pieces between the spaces, from first to last. */
  function Split(s: string): (r: seq<string>)
    ensures |r| >= 1
    ensures forall i :: 0 <= i < |r| ==> ' ' !in r[i]
  {
    if s == [] then [""]
    else if s[0] == ' ' then [""] + Split(s[1..])
    else
      var rest := Split(s[1..]);
      [[s[0]] + rest[0]] + rest[1..]
  }

  /** A string of dots and dashes only. */
  predicate IsSignal(code: string)
  {
    forall i :: 0 <= i < |code| ==> code[i] == '.' || code[i] == '-'
  }

  /** One edge of the binary tree of Morse code: from node `n` a dot leads
      to `2n`, a dash to `2n + 1`; any other character leads out of the
      tree, to 0. */
  function Step(n: nat, ch: char): nat
  {
    if n == 0 then 0 else if ch == '.' then 2 * n else if ch == '-' then 2 * n + 1 else 0
  }

  /** The node a code reaches from the root, 1. No letter lies deeper than
      four signals. */
  function Node(code: string): nat
  {
    match |code|
    case 0 => 1
    case 1 => Step(1, code[0])
    case 2 => Step(Step(1, code[0]), code[1])
    case 3 => Step(Step(Step(1, code[0]), code[1]), code[2])
    case 4 => Step(Step(Step(Step(1, code[0]), code[1]), code[2]), code[3])
    case _ => 0
  }

  /** The letters of the tree, level by level: E T; I A N M; S U R W D K G
      O; H V F _ L _ P J B X C Y Z Q _ _. */
  function LetterAt(node: nat): (r: Option<char>)
    ensures r.Some? ==> IsUpper(r.value) && 2 <= node < 32
  {
    match node
    case 2 => Some('E')
    case 3 => Some('T')
    case 4 => Some('I')
    case 5 => Some('A')
    case 6 => Some('N')
    case 7 => Some('M')
    case 8 => Some('S')
    case 9 => Some('U')
    case 10 => Some('R')
    case 11 => Some('W')
    case 12 => Some('D')
    case 13 => Some('K')
    case 14 => Some('G')
    case 15 => Some('O')
    case 16 => Some('H')
    case 17 => Some('V')
    case 18 => Some('F')
    case 20 => Some('L')
    case 22 => Some('P')
    case 23 => Some('J')
    case 24 => Some('B')
    case 25 => Some('X')
    case 26 => Some('C')
    case 27 => Some('Y')
    case 28 => Some('Z')
    case 29 => Some('Q')
    case _ => None
  }

  /** Reads one Morse letter by walking the tree: a decoding of the letter
      table that does not use the table. */
  function DecodeCode(code: string): (r: Option<char>)
    ensures r.Some? ==> IsUpper(r.value) && IsSignal(code) && 1 <= |code| <= 4
  {
    LetterAt(Node(code))
  }

  /** Reads space-separated Morse letters back into text. */
  function Decode(morse: string): Option<string>
  {
    DecodeTokens(Split(morse))
  }

  function DecodeTokens(tokens: seq<string>): (r: Option<string>)
    ensures r.Some? ==> |r.value| == |tokens|
  {
    if tokens == [] then Some("")
    else match (DecodeCode(tokens[0]), DecodeTokens(tokens[1..]))
      case (Some(c), Some(rest)) => Some([c] + rest)
      case _ => None
  }

  lemma DecodesAToE()
    ensures DecodeCode(".-") == Some('A')
    ensures DecodeCode("-...") == Some('B')
    ensures DecodeCode("-.-.") == Some('C')
    ensures DecodeCode("-..") == Some('D')
    ensures DecodeCode(".") == Some('E')
  {
  }

  lemma DecodesFToJ()
    ensures DecodeCode("..-.") == Some('F')
    ensures DecodeCode("--.") == Some('G')
    ensures DecodeCode("....") == Some('H')
    ensures DecodeCode("..") == Some('I')
    ensures DecodeCode(".---") == Some('J')
  {
  }

  lemma DecodesKToO()
    ensures DecodeCode("-.-") == Some('K')
    ensures DecodeCode(".-..") == Some('L')
    ensures DecodeCode("--") == Some('M')
    ensures DecodeCode("-.") == Some('N')
    ensures DecodeCode("---") == Some('O')
  {
  }

  lemma DecodesPToT()
    ensures DecodeCode(".--.") == Some('P')
    ensures DecodeCode("--.-") == Some('Q')
    ensures DecodeCode(".-.") == Some('R')
    ensures DecodeCode("...") == Some('S')
    ensures DecodeCode("-") == Some('T')
  {
  }

  lemma DecodesUToZ()
    ensures DecodeCode("..-") == Some('U')
    ensures DecodeCode("...-") == Some('V')
    ensures DecodeCode(".--") == Some('W')
    ensures DecodeCode("-..-") == Some('X')
    ensures DecodeCode("-.--") == Some('Y')
    ensures DecodeCode("--..") == Some('Z')
  {
  }

  lemma UpperIsListed(c: char)
    requires IsUpper(c)
    ensures c == 'A' || c == 'B' || c == 'C' || c == 'D' || c == 'E' || c == 'F' || c == 'G' || c == 'H' || c == 'I' || c == 'J' || c == 'K' || c == 'L' || c == 'M' || c == 'N' || c == 'O' || c == 'P' || c == 'Q' || c == 'R' || c == 'S' || c == 'T' || c == 'U' || c == 'V' || c == 'W' || c == 'X' || c == 'Y' || c == 'Z'
  {
  }

  /** The tree reads every letter's code back as that letter. */
  lemma {:induction false} LetterCodesDecode(c: char)
    requires IsUpper(c)
    ensures MorseCode(c).Some? && DecodeCode(MorseCode(c).value) == Some(c)
  {
    DecodesAToE();
    DecodesFToJ();
    DecodesKToO();
    DecodesPToT();
    DecodesUToZ();
    UpperIsListed(c);
  }

  /** The table holds every letter; each letter's code is one to four dots
      and dashes, and no two letters share a code. */
  lemma {:induction false} LetterTable(c: char, d: char)
    requires IsUpper(c) && IsUpper(d)
    ensures MorseCode(c).Some? && 1 <= |MorseCode(c).value| <= 4 && IsSignal(MorseCode(c).value)
    ensures c != d ==> MorseCode(c) != MorseCode(d)
  {
    LetterCodesDecode(c);
    LetterCodesDecode(d);
  }

  /** A word without spaces followed by a space splits off as one piece. */
  lemma {:induction false} SplitWord(w: string, rest: string)
    requires ' ' !in w
    ensures Split(w + " " + rest) == [w] + Split(rest)
  {
    var s := w + " " + rest;
    if w == [] {
      assert s[0] == ' ' && s[1..] == rest;
    } else {
      assert s[0] == w[0] && s[1..] == w[1..] + " " + rest;
      SplitWord(w[1..], rest);
      assert [w[0]] + w[1..] == w;
    }
  }

  /** A word without spaces is a single piece. */
  lemma {:induction false} SplitNoSpace(w: string)
    requires ' ' !in w
    ensures Split(w) == [w]
  {
    if w != [] {
      SplitNoSpace(w[1..]);
      assert [w[0]] + w[1..] == w;
    }
  }

  /** Splitting on spaces inverts joining with spaces, for pieces without
      spaces. */
  lemma {:induction false} SplitJoin(parts: seq<string>)
    requires |parts| >= 1
    requires forall i :: 0 <= i < |parts| ==> ' ' !in parts[i]
    ensures Split(JoinSpaced(parts)) == parts
  {
    if |parts| == 1 {
      SplitNoSpace(parts[0]);
    } else {
      SplitWord(parts[0], JoinSpaced(parts[1..]));
      SplitJoin(parts[1..]);
      assert [parts[0]] + parts[1..] == parts;
    }
  }

  /** Every code of an upper-case text reads back as that text. */
  lemma {:induction false} DecodeCodes(upper: string)
    requires forall i :: 0 <= i < |upper| ==> IsUpper(upper[i])
    ensures DecodeTokens(CodesOf(upper)) == Some(upper)
  {
    if upper != [] {
      LetterCodesDecode(upper[0]);
      assert CodesOf(upper)[1..] == CodesOf(upper[1..]);
      DecodeCodes(upper[1..]);
      assert [upper[0]] + upper[1..] == upper;
    }
  }

  /** The encoding of a non-empty text of letters decodes to the text in
      upper case: no two letter texts share an encoding up to case. */
  lemma {:induction false} MorseRoundTrip(text: string)
    requires |text| >= 1
    requires forall i :: 0 <= i < |text| ==> IsLetter(text[i])
    ensures Decode(ConvertToMorse(text)) == Some(ToUpper(text))
  {
    var upper := ToUpper(text);
    var codes := CodesOf(upper);
    forall i | 0 <= i < |codes|
      ensures ' ' !in codes[i]
    {
      LetterTable(upper[i], upper[i]);
    }
    SplitJoin(codes);
    DecodeCodes(upper);
  }

  /** Upper-casing twice is upper-casing once. */
  lemma ToUpperIdempotent(text: string)
    ensures ToUpper(ToUpper(text)) == ToUpper(text)
  {
  }

  /** The encoding ignores case: the player may type either. */
  lemma {:induction false} ConvertIgnoresCase(text: string)
    ensures ConvertToMorse(text) == ConvertToMorse(ToUpper(text))
  {
    ToUpperIdempotent(text);
  }

  /** A character outside the table (a digit, punctuation) is copied into
      the encoding as it is. */
  lemma UnknownCharacterKept(c: char)
    requires !IsLetter(c) && c != ' '
    ensures ConvertToMorse([c]) == [c]
  {
  }

  /** The codes of the message's characters, the spaces kept as spaces. */
  lemma MessageCodes()
    ensures CodesOf(ToUpper(Message)) == ["....", "---", ".--", " ", ".-", ".-.", ".", " ", "-.--", "---", "..-"]
  {
    assert ToUpper(Message) == Message;
  }

  /** Joining two non-empty lists puts one space between their joins. */
  lemma {:induction false} JoinSpacedAppend(xs: seq<string>, ys: seq<string>)
    requires |xs| >= 1 && |ys| >= 1
    ensures JoinSpaced(xs + ys) == JoinSpaced(xs) + " " + JoinSpaced(ys)
  {
    assert (xs + ys)[0] == xs[0];
    if |xs| == 1 {
      assert (xs + ys)[1..] == ys;
    } else {
      assert (xs + ys)[1..] == xs[1..] + ys;
      JoinSpacedAppend(xs[1..], ys);
    }
  }

  /** The expected answer: the three words' letters one space apart, the
      words three spaces apart (the separator, the space's own code, the
      separator). */
  lemma ExpectedAnswer()
    ensures ConvertToMorse(Message) == ".... --- .--   .- .-. .   -.-- --- ..-"
  {
    var how, are, you := ["....", "---", ".--"], [".-", ".-.", "."], ["-.--", "---", "..-"];
    MessageWords();
    JoinSpacedAppend(how + [" "] + are + [" "], you);
    JoinSpacedAppend(how + [" "] + are, [" "]);
    JoinSpacedAppend(how + [" "], are);
    JoinSpacedAppend(how, [" "]);
    WordJoins();
    GapConcat(".... --- .--", ".- .-. .", "-.-- --- ..-");
  }

  /** The message's codes, word by word. */
  lemma MessageWords()
    ensures CodesOf(ToUpper(Message)) ==
      ["....", "---", ".--"] + [" "] + [".-", ".-.", "."] + [" "] + ["-.--", "---", "..-"]
  {
    MessageCodes();
  }

  /** The three words' joins, put together with their gaps. */
  lemma GapConcat(a: string, b: string, c: string)
    requires a == ".... --- .--" && b == ".- .-. ." && c == "-.-- --- ..-"
    ensures a + " " + " " + " " + b + " " + " " + " " + c == ".... --- .--   .- .-. .   -.-- --- ..-"
  {
  }

  /** A three-letter word's codes, one space apart. */
  lemma JoinThree(a: string, b: string, c: string)
    ensures JoinSpaced([a, b, c]) == a + " " + b + " " + c
  {
    assert [a, b, c][1..] == [b, c];
    assert [b, c][1..] == [c];
    assert JoinSpaced([b, c]) == b + " " + c;
    assert (a + " ") + (b + " " + c) == a + " " + b + " " + c;
  }

  /** Each word's letters, one space apart. */
  lemma WordJoins()
    ensures JoinSpaced(["....", "---", ".--"]) == ".... --- .--"
    ensures JoinSpaced([".-", ".-.", "."]) == ".- .-. ."
    ensures JoinSpaced(["-.--", "---", "..-"]) == "-.-- --- ..-"
  {
    JoinThree("....", "---", ".--");
    JoinThree(".-", ".-.", ".");
    JoinThree("-.--", "---", "..-");
  }

  /** The answer key: the encoding of the message, which `trim` leaves
      as it is. */
  const Answer: string := ".... --- .--   .- .-. .   -.-- --- ..-"

  lemma AnswerIsTrimmedEncoding()
    ensures Trim(ConvertToMorse(Message)) == Answer
  {
    ExpectedAnswer();
    TrimOfTrimmed(Answer);
  }

  /** `convertToMorse(message)` as the submit handler computes it: the
      answer key, which `trim` leaves as it is. */
  method EncodeMessage() returns (correctMorse: string)
    ensures correctMorse == Answer && Trim(correctMorse) == Answer
  {
    correctMorse := ConvertToMorse(Message);
    AnswerIsTrimmedEncoding();
    ExpectedAnswer();
  }

  /** The page's state and its submit handler. */
  class Session {
    var input: string
    var attempts: nat
    var completed: bool

    constructor ()
      ensures input == "" && attempts == 0 && !completed
    {
      input, attempts, completed := "", 0, false;
    }

    /** The input field's `onChange`. */
    method Type(text: string)
      modifies this
      ensures input == text && attempts == old(attempts) && completed == old(completed)
    {
      input := text;
    }

    /** `handleSubmit`: the trimmed input must equal the trimmed encoding of
        the message. A right answer earns `max(10 - attempts, 1)` and sends
        the attempt count as it stands; the level completes only once the
        row is saved. A wrong answer counts an attempt. */
    method Submit(save: SaveOutcome) returns (written: Option<Upsert>)
      modifies this
      ensures input == old(input)
      ensures Trim(old(input)) != Answer ==>
        attempts == old(attempts) + 1 && completed == old(completed) && written == None
      ensures Trim(old(input)) == Answer ==>
        && attempts == old(attempts)
        && written == Sent(save, Upsert(LevelId, AttemptScore(old(attempts)), true, Some(old(attempts))))
        && completed == (old(completed) || save == Saved)
    {
      written := None;
      var correctMorse := EncodeMessage();
      if Trim(input) == Trim(correctMorse) {
        var score := AttemptScore(attempts);
        if save == NoSession {
          return;
        }
        written := Some(Upsert(LevelId, score, true, Some(attempts)));
        if save == Failed {
          return;
        }
        completed := true;
      } else {
        attempts := attempts + 1;
      }
    }
  }

  /** Typing the expected answer completes a fresh level with the full ten
      points. */
  method FirstTryWins() returns (written: Option<Upsert>)
    ensures written == Some(Upsert(LevelId, 10, true, Some(0)))
  {
    var s := new Session();
    TrimOfTrimmed(Answer);
    s.Type(".... --- .--   .- .-. .   -.-- --- ..-");
    written := s.Submit(Saved);
    assert s.completed;
  }
}
