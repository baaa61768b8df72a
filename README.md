# Cybersecurity training levels: game rules in Dafny

This project models the game rules of a browser-based cybersecurity training
game. A signed-in player works through levels, and each level scores the
player's answers and stores one `user_progress` row (level id, score,
completed flag, sometimes an attempt count). A dashboard sums the stored
scores and shows a card per level.

The model covers these parts:

- **Pure transforms:**
  - the Caesar cipher of Data Encryption;
  - the Morse encoder of Morse Code Master and its letter table;
  - the password rater of Password Master.
- **Scoring formulas:**
  - `max(0, 10 - 2·attempts)`;
  - `max(10 - attempts, 1)`;
  - `max(0, 10 - mistakes)`;
  - `floor(correct·10/steps)`;
  - the right-answer counters of the two quiz levels.
- **Level sessions:** one class per level page. The class's fields are the page's state hooks and its methods are the page's handlers. Each handler is one atomic step over the state it was invoked on. The remote calls at the end of a level are reduced to their answer, a `SaveOutcome`:
  - `NoSession`: no session, so no row is sent;
  - `Failed`: the upsert reports an error;
  - `Saved`: the row is stored.

  The submitting method takes that answer as a parameter and returns the row it sends, if any.
- **Dashboard folds:** the total score, the per-level lookup and the Start/Retry label.

Modules:

| module | file | what it holds |
|---|---|---|
| `Wrappers` | wrappers.dfy | `Option` |
| `Text` | text.dfy | ASCII character classes, JavaScript `trim`, ASCII `toUpperCase` |
| `Scoring` | scoring.dfy | the clamped-penalty and fraction score formulas |
| `Progress` | progress.dfy | `SaveOutcome`, the `Upsert` row, `Sent` |
| `Triage` | triage.dfy | the toggle list and mistake count shared by Firewall Fortress and Social Media Sleuth |
| `DecisionTree` | decision_tree.dfy | steps, options, `find`, the array write and the correct-pick count shared by Incident Response and Ransomware Rescue |
| `Quiz` | quiz.dfy | the right-answer count shared by Phishing Detective and Social Engineering |
| one module per level | data_encryption.dfy, password_master.dfy, morse_code_master.dfy, firewall_fortress.dfy, social_media_sleuth.dfy, incident_response.dfy, ransomware_rescue.dfy, phishing_detective.dfy, social_engineering.dfy | the level's table, its rules and its `Session` class |
| `Dashboard` | dashboard.dfy | the total score and the level cards |

The Morse decoder (`MorseCodeMaster.Decode`, a walk down the binary Morse
tree) is not part of the game. It is an independent reading of the letter
table. The encoder is proved against it: letter texts encode one-to-one, up
to case.

Firewall Fortress has three rules to block (ids 2, 3 and 4).

## Model

| member | source | states |
|---|---|---|
| Text.ToUpper | src/pages/levels/MorseCodeMaster.tsx:37 | `toUpperCase` keeps the length, upper-cases each ASCII lower-case letter, keeps every other character, and leaves no lower-case letter |
| Text.TrimShape | src/pages/levels/DataEncryption.tsx:72 | `trim` yields a contiguous slice of the input with no whitespace at either end, and everything it cuts off is whitespace |
| Text.TrimOfTrimmed | src/pages/levels/MorseCodeMaster.tsx:45 | a string with no whitespace at either end is its own trim |
| Text.TrimIdempotent | src/pages/levels/MorseCodeMaster.tsx:45 | trimming twice is trimming once, so trimming the answer key as well as the input changes nothing |
| Scoring.Penalised | src/pages/levels/FirewallFortress.tsx:101 | `Math.max(floor, base - perMiss·misses)` is at least the floor and at least the unclamped penalty, at most the larger of base and floor, and equals the unclamped penalty whenever it is above the floor |
| Scoring.PenalisedAntitone | src/pages/levels/DataEncryption.tsx:74 | more misses never raise a clamped score |
| Scoring.DoublePenaltyScore | src/pages/levels/DataEncryption.tsx:74 | the Data Encryption score is even, in 0..10; it is `10 - 2·attempts` up to five wrong attempts, 10 exactly when no attempt was wrong, and 0 exactly from five wrong attempts on |
| Scoring.AttemptScore | src/pages/levels/PasswordMaster.tsx:84 | `max(10 - attempts, 1)` lies in 1..10; it is `10 - attempts` up to nine attempts, 10 exactly at zero attempts and 1 exactly from nine attempts on |
| Scoring.AttemptScoreStep | src/pages/levels/MorseCodeMaster.tsx:46 | each failed attempt costs exactly one point until the floor of 1 |
| Scoring.MistakeScore | src/pages/levels/FirewallFortress.tsx:100-101 | `max(0, 10 - mistakes)` lies in 0..10, is 10 exactly without mistakes, and is `10 - mistakes` up to ten mistakes |
| Scoring.FractionScore | src/pages/levels/IncidentResponse.tsx:125 | `floor(correct/total·10)` is at most 10, is 10 exactly when every answer is correct, and is the floor of `correct·10/total` |
| Scoring.FractionBounds | src/pages/levels/IncidentResponse.tsx:125 | the integer quotient `correct·10 div total` lies between the bounds of a floor and reaches 10 only when `correct == total` |
| Progress.Sent | src/pages/levels/DataEncryption.tsx:77-89 | no row reaches the store without a session; with one, exactly the level's row is sent |
| DataEncryption.JsRem | src/pages/levels/DataEncryption.tsx:34 | JavaScript's `%` lies strictly between `-b` and `b`, agrees with the mathematical remainder for a non-negative dividend, and is not positive for a non-positive one |
| DataEncryption.JsRemNegative | src/pages/levels/DataEncryption.tsx:34 | for a negative dividend JavaScript's `%` is 0 when the division is exact and otherwise the Euclidean remainder minus the divisor |
| DataEncryption.ShiftChar | src/pages/levels/DataEncryption.tsx:28-37 | a non-letter is kept; with a non-negative key an upper-case letter stays upper-case and a lower-case one lower-case, moved by the key modulo 26 |
| DataEncryption.CaesarCipher | src/pages/levels/DataEncryption.tsx:26-39 | the cipher keeps the length and every non-letter, and turns letters into letters whenever the applied shift is not negative |
| DataEncryption.ShiftCharRoundTrip | src/pages/levels/DataEncryption.tsx:27-35 | shifting by `k` and then by `26 - k` restores every character, for `0 <= k <= 26` |
| DataEncryption.DecryptInvertsEncrypt | src/pages/levels/DataEncryption.tsx:26-39 | for every key in 0..26, `caesarCipher(caesarCipher(t, k), k, true) == t` |
| DataEncryption.EncryptInvertsDecrypt | src/pages/levels/DataEncryption.tsx:26-39 | for every key in 0..26, encrypting a decryption gives back the text |
| DataEncryption.KeyThreeExamples | src/pages/levels/DataEncryption.tsx:31-35 | with key 3, "ABC" becomes "DEF", "X" wraps to "A", and "DEF" decrypts to "ABC" |
| DataEncryption.NegativeKeyLeavesAlphabet | src/pages/levels/DataEncryption.tsx:34 | the truncating remainder lets a negative key move 'A' out of the alphabet, to '@' |
| DataEncryption.Session.constructor | src/pages/levels/DataEncryption.tsx:42-47 | the page starts on message 0 with empty texts, score 0, not completed and no attempts |
| DataEncryption.Session.Encrypt | src/pages/levels/DataEncryption.tsx:62-66 | `handleEncrypt` shows the current message encrypted with its key and changes nothing else |
| DataEncryption.Session.Type | src/pages/levels/DataEncryption.tsx:185 | the input field stores the typed text and changes nothing else |
| DataEncryption.Session.Decrypt | src/pages/levels/DataEncryption.tsx:68-118 | three cases. A wrong answer counts one attempt and changes nothing else. A right answer before the last message advances the index by one, clears both texts and keeps the attempts. A right answer on the last message scores `max(0, 10 - 2·attempts)` and sends it; the level completes only when the row is saved. The index never decreases. |
| PasswordMaster.CountTrue | src/pages/levels/PasswordMaster.tsx:38 | the count of passed checks is at most their number; it equals it exactly when all pass and is 0 exactly when none does |
| PasswordMaster.Rating | src/pages/levels/PasswordMaster.tsx:39 | the rating is at most 3; it is 3 exactly when all five checks pass, and otherwise half the passed checks, rounded down |
| PasswordMaster.CheckPasswordStrength | src/pages/levels/PasswordMaster.tsx:29-40 | the strength lies in 0..3 and is 3 exactly when the password has at least 8 characters, a digit, an upper-case letter, a lower-case letter and one of `!@#$%^&*(),.?":{}\|<>` |
| PasswordMaster.CountChecks | src/pages/levels/PasswordMaster.tsx:30-38 | filtering the checks record counts each passed check once |
| PasswordMaster.RatingMonotone | src/pages/levels/PasswordMaster.tsx:38-39 | the rating never drops as more checks pass |
| PasswordMaster.StrengthByPassedChecks | src/pages/levels/PasswordMaster.tsx:29-40 | strength is 3 for five passed checks, 2 for four, 1 for two or three, and 0 for none or one |
| PasswordMaster.StrengthMonotone | src/pages/levels/PasswordMaster.tsx:29-40 | a password passing every check another one passes is rated at least as high |
| PasswordMaster.SevenCharacterExample | src/pages/levels/PasswordMaster.tsx:29-40 | "Secur3!" has every character class but only 7 characters and rates 2; "Secur3!x" rates 3 |
| PasswordMaster.Session.constructor | src/pages/levels/PasswordMaster.tsx:11-14 | the page starts with an empty password rated 0, no attempts and not completed |
| PasswordMaster.Session.ChangePassword | src/pages/levels/PasswordMaster.tsx:66-70 | `handlePasswordChange` stores the password and its rating and keeps the rating equal to the password's strength |
| PasswordMaster.Session.Submit | src/pages/levels/PasswordMaster.tsx:72-92 | a password below strength 3 counts one attempt and does not complete. A strong one sends score `max(10 - attempts, 1)` with attempt count `attempts + 1`, and completes the level whatever the save answers. |
| PasswordMaster.Session.UpdateProgress | src/pages/levels/PasswordMaster.tsx:42-64 | `updateProgress` sends level 1's row with `attempts + 1` when there is a session; an error is only reported |
| MorseCodeMaster.MorseCode | src/pages/levels/MorseCodeMaster.tsx:10-16 | the table has an entry exactly for the 26 upper-case letters and the space |
| MorseCodeMaster.LetterCodesDecode | src/pages/levels/MorseCodeMaster.tsx:10-16 | the code of every letter, read down the binary Morse tree, gives back that letter: the table agrees with International Morse code (Recommendation ITU-R M.1677-1, section 1.1.1) |
| MorseCodeMaster.LetterTable | src/pages/levels/MorseCodeMaster.tsx:10-16 | every letter's code is one to four dots and dashes, and no two letters share a code |
| MorseCodeMaster.DecodeCode | src/pages/levels/MorseCodeMaster.tsx:10-16 | the tree decoder reads only codes of one to four dots and dashes, and only into upper-case letters |
| MorseCodeMaster.MorseOf | src/pages/levels/MorseCodeMaster.tsx:37 | `morseCode[char] \|\| char`: the table's code, or the character itself when the table has no entry |
| MorseCodeMaster.JoinSpaced | src/pages/levels/MorseCodeMaster.tsx:37 | `join(' ')`: no parts give the empty string; `n` parts give their characters plus `n - 1` separators, starting with the first part |
| MorseCodeMaster.JoinSpacedAppend | src/pages/levels/MorseCodeMaster.tsx:37 | joining two non-empty lists puts one space between their joins |
| MorseCodeMaster.SplitJoin | src/pages/levels/MorseCodeMaster.tsx:37 | splitting on spaces inverts the join for parts without spaces |
| MorseCodeMaster.MorseRoundTrip | src/pages/levels/MorseCodeMaster.tsx:36-38 | the encoding of a non-empty text of letters decodes to the text in upper case, so two letter texts share an encoding only when they are equal up to case |
| MorseCodeMaster.ConvertIgnoresCase | src/pages/levels/MorseCodeMaster.tsx:37 | the encoding of a text equals that of its upper-case form |
| MorseCodeMaster.UnknownCharacterKept | src/pages/levels/MorseCodeMaster.tsx:37 | a character without a table entry (neither letter nor space) is copied into the encoding as it is |
| MorseCodeMaster.MessageCodes | src/pages/levels/MorseCodeMaster.tsx:42-43 | the codes of "HOW ARE YOU", character by character, the spaces kept as spaces |
| MorseCodeMaster.ExpectedAnswer | src/pages/levels/MorseCodeMaster.tsx:42-43 | "HOW ARE YOU" encodes to `.... --- .--   .- .-. .   -.-- --- ..-`: letters one space apart, words three apart |
| MorseCodeMaster.AnswerIsTrimmedEncoding | src/pages/levels/MorseCodeMaster.tsx:43-45 | the trimmed encoding of the message is that answer key |
| MorseCodeMaster.EncodeMessage | src/pages/levels/MorseCodeMaster.tsx:42-43 | computing `convertToMorse(message)` yields the answer key, which its trim leaves as it is |
| MorseCodeMaster.Session.constructor | src/pages/levels/MorseCodeMaster.tsx:19-21 | the page starts with empty input, no attempts and not completed |
| MorseCodeMaster.Session.Type | src/pages/levels/MorseCodeMaster.tsx:118 | the input field stores the typed text and changes nothing else |
| MorseCodeMaster.Session.Submit | src/pages/levels/MorseCodeMaster.tsx:40-79 | a trimmed input other than the answer key counts one attempt and does not complete. The right one keeps the attempts and sends score `max(10 - attempts, 1)` with the attempt count as it stands; the level completes only when the row is saved. |
| MorseCodeMaster.FirstTryWins | src/pages/levels/MorseCodeMaster.tsx:40-66 | typing the answer key on a fresh page sends 10 points with 0 attempts |
| Triage.Remove | src/pages/levels/FirewallFortress.tsx:89 | `filter(x => x !== id)` removes every occurrence of the id, keeps every other id, and returns the list itself when the id is absent |
| Triage.Toggle | src/pages/levels/FirewallFortress.tsx:86-92 | the toggled id is in the result exactly when it was not in the list, and every other id keeps its membership |
| Triage.RemoveKeepsNoDuplicates | src/pages/levels/FirewallFortress.tsx:89 | removing keeps a duplicate-free list duplicate-free |
| Triage.ToggleKeepsNoDuplicates | src/pages/levels/FirewallFortress.tsx:88-90 | toggling never creates a duplicate id |
| Triage.ToggleTwice | src/pages/levels/FirewallFortress.tsx:86-92 | toggling an id twice restores the set of ids, and the list itself when the id was absent |
| Triage.RemoveAppended | src/pages/levels/FirewallFortress.tsx:88-90 | appending an absent id and filtering it out gives back the list |
| Triage.Mistakes | src/pages/levels/FirewallFortress.tsx:96-99 | there are no more mistakes than items |
| Triage.MistakesSplit | src/pages/levels/FirewallFortress.tsx:96-99 | the mistakes are the missed items plus the wrongly marked ones: each costs exactly one |
| Triage.NoMistakesIffAllRight | src/pages/levels/FirewallFortress.tsx:96-99 | there are no mistakes exactly when every item is marked as it should be |
| Triage.MistakesByMembership | src/pages/levels/SocialMediaSleuth.tsx:115-118 | only which items' ids are marked matters, not order, duplicates or foreign ids |
| Triage.ForeignIdIgnored | src/pages/levels/FirewallFortress.tsx:86-99 | toggling an id that no item has leaves the mistake count unchanged |
| FirewallFortress.TableTruths | src/pages/levels/FirewallFortress.tsx:20-66 | rules 2, 3 and 4 are to be blocked, rules 1 and 5 not |
| FirewallFortress.Points | src/pages/levels/FirewallFortress.tsx:95-101 | with the five rules the score always lies in 5..10 |
| FirewallFortress.MistakesByRule | src/pages/levels/FirewallFortress.tsx:96-99 | the mistakes are blocking 1 or 5 plus leaving 2, 3 or 4 open, one each |
| FirewallFortress.PerfectIffBlocksTwoThreeFour | src/pages/levels/FirewallFortress.tsx:94-102 | the score is 10 exactly when 2, 3 and 4 are blocked and 1 and 5 are not |
| FirewallFortress.OneFalseBlock | src/pages/levels/FirewallFortress.tsx:94-102 | blocking the harmless rule 1 besides 2, 3 and 4 scores 9 |
| FirewallFortress.Session.constructor | src/pages/levels/FirewallFortress.tsx:69-71 | the page starts with nothing blocked, score 0 and not completed |
| FirewallFortress.Session.ToggleBlock | src/pages/levels/FirewallFortress.tsx:86-92 | `toggleTrafficBlock` toggles the id and keeps the blocked list free of duplicates |
| FirewallFortress.Session.Submit | src/pages/levels/FirewallFortress.tsx:94-133 | the score (in 5..10) is set from the blocked list before the session is read, and then sent; the level completes only when the row is saved, and the blocked list is kept |
| SocialMediaSleuth.TableTruths | src/pages/levels/SocialMediaSleuth.tsx:20-85 | items 1, 2, 3, 5 and 8 should be private, items 4, 6 and 7 not |
| SocialMediaSleuth.Points | src/pages/levels/SocialMediaSleuth.tsx:113-121 | with the eight items the score always lies in 2..10 |
| SocialMediaSleuth.MistakesByItem | src/pages/levels/SocialMediaSleuth.tsx:115-118 | the mistakes are 1, 2, 3, 5 or 8 left public plus 4, 6 or 7 marked private, one each |
| SocialMediaSleuth.PerfectIffPrivateOneTwoThreeFiveEight | src/pages/levels/SocialMediaSleuth.tsx:113-121 | the score is 10 exactly when 1, 2, 3, 5 and 8 are marked and 4, 6 and 7 are not |
| SocialMediaSleuth.IsPrivateIgnored | src/pages/levels/SocialMediaSleuth.tsx:115-118 | items that differ only in `isPrivate` give every marking the same mistakes |
| SocialMediaSleuth.Session.constructor | src/pages/levels/SocialMediaSleuth.tsx:88-90 | the page starts with nothing private, score 0 and not completed |
| SocialMediaSleuth.Session.TogglePrivacy | src/pages/levels/SocialMediaSleuth.tsx:105-111 | `togglePrivacy` toggles the id and keeps the list free of duplicates |
| SocialMediaSleuth.Session.Submit | src/pages/levels/SocialMediaSleuth.tsx:113-152 | the score (in 2..10) is set from the marked list and then sent; the level completes only when the row is saved |
| DecisionTree.FindOption | src/pages/levels/IncidentResponse.tsx:108 | `find` answers nothing exactly when no option has the id; otherwise an option of the step with that id |
| DecisionTree.FindOptionIsFirst | src/pages/levels/IncidentResponse.tsx:108 | the option found is the first one with the id |
| DecisionTree.Record | src/pages/levels/IncidentResponse.tsx:112-113 | writing `copy[at] = value` sets that entry, keeps every other entry, and past the end leaves holes up to it |
| DecisionTree.CorrectAnswers | src/pages/levels/IncidentResponse.tsx:119-123 | at most one correct pick per pick; all picks are counted exactly when each names its step's correct option |
| DecisionTree.RecordKeepsCorrectPrefix | src/pages/levels/IncidentResponse.tsx:112-116 | a write at the current step keeps every earlier correct pick, and a correct write extends them by one |
| IncidentResponse.EachStepOneCorrect | src/pages/levels/IncidentResponse.tsx:24-85 | five steps, each with exactly one correct option |
| IncidentResponse.Session.constructor | src/pages/levels/IncidentResponse.tsx:88-91 | the page starts at step 0 with no picks, score 0 and not completed |
| IncidentResponse.Session.SelectOption | src/pages/levels/IncidentResponse.tsx:106-171 | an id the step does not offer changes nothing. Otherwise the pick is written at the current step; a wrong pick stays on the step, and a right one advances. The right last pick scores `floor(correct·10/5)`, which is 10, sends it, and completes only when saved. Every pick before the current step stays correct and the step never decreases. |
| IncidentResponse.Session.Finish | src/pages/levels/IncidentResponse.tsx:117-155 | on the last step, with every pick correct, the score is the fraction score, 10; it is sent, and the level completes only when saved |
| RansomwareRescue.EachStepOneCorrect | src/pages/levels/RansomwareRescue.tsx:24-73 | four steps, each with exactly one correct option |
| RansomwareRescue.Session.constructor | src/pages/levels/RansomwareRescue.tsx:76-79 | the page starts at step 0 with no picks, score 0 and not completed |
| RansomwareRescue.Session.SelectOption | src/pages/levels/RansomwareRescue.tsx:94-104 | an id the step does not offer changes nothing. Otherwise the pick is written at the current step, and what follows depends only on the picked option's `correct` flag, which is true exactly for a correct pick. |
| Quiz.CountCorrect | src/pages/levels/PhishingDetective.tsx:69-70 | no more right answers than answers |
| Quiz.CountCorrectSnoc | src/pages/levels/PhishingDetective.tsx:69-70 | one more answer adds one exactly when it is right |
| Quiz.CountCorrectExtremes | src/pages/levels/PhishingDetective.tsx:67-70 | the count equals the number of answers exactly when all are right, and is 0 exactly when all are wrong |
| PhishingDetective.VerdictsTable | src/pages/levels/PhishingDetective.tsx:9-45 | the right answers, email by email: phishing, safe, phishing, phishing, safe |
| PhishingDetective.Session.constructor | src/pages/levels/PhishingDetective.tsx:48-50 | the page starts at email 0 with score 0, not completed |
| PhishingDetective.Session.Answer | src/pages/levels/PhishingDetective.tsx:65-90 | a right answer scores a point and a wrong one none, and every answer but the last advances. The last sends the number of right answers, in 0..5, and completes the level whatever the save answers. The index never passes the last email. |
| PhishingDetective.Session.UpdateProgress | src/pages/levels/PhishingDetective.tsx:92-110 | `updateProgress` sends level 2's row when there is a session; an error is only logged |
| SocialEngineering.VerdictsTable | src/pages/levels/SocialEngineering.tsx:9-40 | the right answers, scenario by scenario: share only in scenarios 2 and 4 |
| SocialEngineering.Session.constructor | src/pages/levels/SocialEngineering.tsx:43-45 | the page starts at scenario 0 with score 0, not completed |
| SocialEngineering.Session.Answer | src/pages/levels/SocialEngineering.tsx:60-105 | a right answer scores a point, and every answer but the last advances. The last sends the right answers counted so far and completes only when the row is saved. The score stays within 0..5 as long as the last scenario is answered only once. |
| SocialEngineering.RetryAfterFailedSave | src/pages/levels/SocialEngineering.tsx:60-105 | five right answers whose save fails, then the last scenario answered right again and saved: the stored score is 6 of 5 |
| Dashboard.TotalIsSum | src/pages/Dashboard.tsx:75-77 | the `reduce` total is the sum of every row's score, and 0 for no rows |
| Dashboard.FoldIsSum | src/pages/Dashboard.tsx:76 | the left fold adds the rows' scores to its starting value |
| Dashboard.TotalOfAppend | src/pages/Dashboard.tsx:75-77 | the total of two lists of rows is the sum of their totals |
| Dashboard.TotalNonNegative | src/pages/Dashboard.tsx:76 | with no negative score, the total is not negative |
| Dashboard.FindProgress | src/pages/Dashboard.tsx:100 | the lookup answers nothing exactly when no row has the level id; otherwise a row of that level |
| Dashboard.FindProgressIsFirst | src/pages/Dashboard.tsx:100 | the row found is the first row of the level |
| Dashboard.DisplayedScore | src/pages/Dashboard.tsx:109 | `levelProgress?.score \|\| 0`: the found row's score, and 0 without a row |
| Dashboard.ButtonLabel | src/pages/Dashboard.tsx:115 | the button reads "Retry Level" exactly when the found row is completed, and "Start Level" otherwise |
| Dashboard.Cards | src/pages/Dashboard.tsx:99-120 | one card per level, in order, with the level's id, name, description and maximum; a level without a progress row shows 0 and "Start Level", one with a row shows the first row's score and reads "Retry Level" exactly when that row is completed |
| Dashboard.DuplicateRow | src/pages/Dashboard.tsx:75-115 | a second row for a level adds to the total, but the card shows only the first row's score |

## Left out

- Remote calls (`supabase.auth.getSession`, the `user_progress` upserts, the dashboard's `select`s, sign-in, sign-up and sign-out) are outside the model. Each level receives the outcome of the session check and the save as a `SaveOutcome` parameter. The dashboard receives the fetched rows as arguments.
- The user id in each row comes from the session and is not modelled.
- Row uniqueness is kept by the store. The upserts of src/pages/levels/PasswordMaster.tsx:46-54 and src/pages/levels/MorseCodeMaster.tsx:51-59 pass no `onConflict` target, unlike the other levels. That difference is not modelled.
- Navigation is not modelled: `checkUser`'s redirect, `navigate`, the dashboard's `startLevel` and logout.
- Rendering is not modelled:
  - the toasts and all JSX;
  - `getRiskColor` and `getCategoryIcon`;
  - src/components/PasswordStrengthBar.tsx;
  - src/pages/Index.tsx, src/pages/Auth.tsx and the routes of src/App.tsx.
- Async interleavings are not modelled: double clicks before a state update lands, and stale closures. Each handler is one atomic step over the state it was invoked on.
- Display text is left out: the prose of the Incident Response and Ransomware Rescue steps (descriptions, option texts) and the questions and explanations of the Social Engineering scenarios. Only ids, titles and correct flags are kept. The emails, traffic rules and privacy items are kept whole.
- `Step.completed` is in the table. IncidentResponse never reads or writes it, and neither does the visible part of RansomwareRescue.tsx (lines 1-104).
- The rest of src/pages/levels/RansomwareRescue.tsx after line 104 is not part of this model. Its scoring, saving and level id are therefore unknown, and `RansomwareRescue.Session.SelectOption` stops at the branch on the picked option's `correct` flag.
- MalwareHunter, which src/App.tsx imports, is not part of this model.
- Characters are ASCII as far as the rules go. The letter classes and `toUpperCase` cover ASCII letters only, and `trim` strips the ECMAScript whitespace set.
- The float division of the Incident Response score is modelled as the integer `(correct·10) div total`, which is exact for its floor.
- The Decrypt button of src/pages/levels/DataEncryption.tsx:194 is disabled while either text is empty. `DataEncryption.Session.Decrypt` has no such precondition: it also counts an attempt for an empty answer or one given before encrypting.
- The controls that a page renders only before completion are modelled as `requires !completed` on the quiz handlers. The other handlers are modelled without that guard.
- `MorseCodeMaster.MorseRoundTrip`: proved for texts of letters only. Spaces in the text encode as a three-space gap, which the decoder does not read back.
- `DataEncryption.CaesarCipher`: letters stay letters only for a non-negative applied shift. The table's keys are 2, 3 and 5, so neither direction produces a negative shift. `NegativeKeyLeavesAlphabet` exhibits the other case.
- `Quiz.CountCorrect`: its contract states only the bound. The all-right and all-wrong cases are proved separately, in `Quiz.CountCorrectExtremes`.
