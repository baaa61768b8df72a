/** Level 8, Social Media Sleuth: the player marks which of eight pieces of
    a profile should be private and submits once; every piece marked or
    left public wrongly costs a point. */
module SocialMediaSleuth {
  import opened Wrappers
  import opened Scoring
  import opened Progress
  import opened Triage

  const LevelId: int := 8

  datatype Category = Personal | Location | Financial | Plans

  datatype PrivacyItem = PrivacyItem(
    id: int, itemType: string, content: string,
    isPrivate: bool, shouldBePrivate: bool, category: Category)

  const PrivacyItems: seq<PrivacyItem> := [
    PrivacyItem(1, "Phone Number", "+1 (555) 123-4567", false, true, Personal),
    PrivacyItem(2, "Home Address", "123 Main St, Anytown, USA", false, true, Location),
    PrivacyItem(3, "Vacation Plans", "Going to Hawaii next week! House will be empty!", false, true, Plans),
    PrivacyItem(4, "Work Info", "Software Engineer at Tech Corp", false, false, Personal),
    PrivacyItem(5, "Bank Details", "Account #1234 at City Bank", false, true, Financial),
    PrivacyItem(6, "Education", "Graduated from State University", false, false, Personal),
    PrivacyItem(7, "Birthday Plans", "Party at Joe's Bar this Saturday!", false, false, Plans),
    PrivacyItem(8, "Credit Card", "Just got my new Visa card!", false, true, Financial)
  ]

  /** What the mistake count reads of each item: its id and
      `shouldBePrivate`. */
  function Truths(items: seq<PrivacyItem>): seq<Truth>
  {
    seq(|items|, i requires 0 <= i < |items| => Truth(items[i].id, items[i].shouldBePrivate))
  }

  /** The ids and verdicts of the table: 1, 2, 3, 5 and 8 should be
      private. */
  lemma TableTruths()
    ensures Truths(PrivacyItems) == [Truth(1, true), Truth(2, true), Truth(3, true), Truth(4, false), Truth(5, true), Truth(6, false), Truth(7, false), Truth(8, true)]
  {
  }

  /** The points of a marking: `max(0, 10 - mistakes)`. */
  function Points(marked: seq<int>): (r: int)
    ensures 2 <= r <= 10
  {
    MistakeScore(Mistakes(Truths(PrivacyItems), marked))
  }

  /** The mistakes of a marking, item by item: leaving 1, 2, 3, 5 or 8
      public costs one each, marking 4, 6 or 7 private costs one each. */
  lemma MistakesByItem(marked: seq<int>)
    ensures Mistakes(Truths(PrivacyItems), marked) ==
      (if 1 !in marked then 1 else 0) + (if 2 !in marked then 1 else 0) +
      (if 3 !in marked then 1 else 0) + (if 4 in marked then 1 else 0) +
      (if 5 !in marked then 1 else 0) + (if 6 in marked then 1 else 0) +
      (if 7 in marked then 1 else 0) + (if 8 !in marked then 1 else 0)
  {
    TableTruths();
    var t := Truths(PrivacyItems);
    assert t[1..] == [Truth(2, true), Truth(3, true), Truth(4, false), Truth(5, true), Truth(6, false), Truth(7, false), Truth(8, true)];
    assert t[2..] == [Truth(3, true), Truth(4, false), Truth(5, true), Truth(6, false), Truth(7, false), Truth(8, true)];
    assert t[3..] == [Truth(4, false), Truth(5, true), Truth(6, false), Truth(7, false), Truth(8, true)];
    assert t[4..] == [Truth(5, true), Truth(6, false), Truth(7, false), Truth(8, true)];
    assert t[5..] == [Truth(6, false), Truth(7, false), Truth(8, true)];
    assert t[6..] == [Truth(7, false), Truth(8, true)];
    assert t[7..] == [Truth(8, true)];
    assert Mistakes(t[7..], marked) == (if 8 !in marked then 1 else 0);
    assert Mistakes(t[6..], marked) == (if 7 in marked then 1 else 0) + Mistakes(t[7..], marked);
    assert Mistakes(t[5..], marked) == (if 6 in marked then 1 else 0) + Mistakes(t[6..], marked);
    assert Mistakes(t[4..], marked) == (if 5 !in marked then 1 else 0) + Mistakes(t[5..], marked);
    assert Mistakes(t[3..], marked) == (if 4 in marked then 1 else 0) + Mistakes(t[4..], marked);
    assert Mistakes(t[2..], marked) == (if 3 !in marked then 1 else 0) + Mistakes(t[3..], marked);
    assert Mistakes(t[1..], marked) == (if 2 !in marked then 1 else 0) + Mistakes(t[2..], marked);
  }

  /** Ten points exactly when the private ids among the items' are 1, 2,
      3, 5 and 8. */
  lemma PerfectIffPrivateOneTwoThreeFiveEight(marked: seq<int>)
    ensures Points(marked) == 10 <==>
      (1 in marked && 2 in marked && 3 in marked && 5 in marked && 8 in marked &&
       4 !in marked && 6 !in marked && 7 !in marked)
  {
    MistakesByItem(marked);
  }

  /** The `isPrivate` field plays no part: items that differ only there
      score every marking alike. */
  lemma IsPrivateIgnored(items: seq<PrivacyItem>, others: seq<PrivacyItem>, marked: seq<int>)
    requires |items| == |others|
    requires forall i :: 0 <= i < |items| ==>
      others[i] == items[i].(isPrivate := others[i].isPrivate)
    ensures Mistakes(Truths(others), marked) == Mistakes(Truths(items), marked)
  {
    assert Truths(others) == Truths(items);
  }

  /** The page's state and its two handlers. The list of private ids never
      holds an id twice. */
  class Session {
    var privateItems: seq<int>
    var completed: bool
    var score: int

    ghost predicate Valid()
      reads this
    {
      NoDuplicates(privateItems) && 0 <= score <= 10
    }

    constructor ()
      ensures Valid()
      ensures privateItems == [] && !completed && score == 0
    {
      privateItems, completed, score := [], false, 0;
    }

    /** `togglePrivacy`. */
    method TogglePrivacy(id: int)
      requires Valid()
      modifies this
      ensures Valid()
      ensures privateItems == Toggle(old(privateItems), id)
      ensures completed == old(completed) && score == old(score)
    {
      ToggleKeepsNoDuplicates(privateItems, id);
      privateItems := Toggle(privateItems, id);
    }

    /** `handleSubmit`: the score is set before the session is read; the
        level completes only once the row is saved. */
    method Submit(save: SaveOutcome) returns (written: Option<Upsert>)
      requires Valid()
      modifies this
      ensures Valid()
      ensures score == Points(old(privateItems)) && 2 <= score
      ensures written == Sent(save, Upsert(LevelId, score, true, None))
      ensures completed == (old(completed) || save == Saved)
      ensures privateItems == old(privateItems)
    {
      var mistakes := Mistakes(Truths(PrivacyItems), privateItems);
      var points := MistakeScore(mistakes);
      score := points;
      if save == NoSession {
        return None;
      }
      written := Some(Upsert(LevelId, points, true, None));
      if save == Failed {
        return;
      }
      completed := true;
    }
  }
}
