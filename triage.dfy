/** The two "mark the bad ones" levels (FirewallFortress, SocialMediaSleuth)
    share their rules: the player toggles ids in and out of a list, and on
    submit every item whose marking differs from the expected one is a
    mistake. */
module Triage {

  /** An item as the mistake count sees it: its id and whether it should
      be marked. */
  datatype Truth = Truth(id: int, shouldMark: bool)

  /** `list.filter(x => x !== id)`: every occurrence of `id` dropped, the
      rest kept in order. */
  function Remove(list: seq<int>, id: int): (r: seq<int>)
    ensures id !in r
    ensures forall x :: x != id ==> (x in r <==> x in list)
    ensures |r| <= |list|
    ensures id !in list ==> r == list
  {
    if list == [] then []
    else if list[0] == id then Remove(list[1..], id)
    else
      assert list == [list[0]] + list[1..];
      [list[0]] + Remove(list[1..], id)
  }

  /** `list.includes(id) ? list.filter(x => x !== id) : [...list, id]`:
      the toggled id changes membership, no other id does. */
  function Toggle(list: seq<int>, id: int): (r: seq<int>)
    ensures id in r <==> id !in list
    ensures forall x :: x != id ==> (x in r <==> x in list)
  {
    if id in list then Remove(list, id) else list + [id]
  }

  predicate NoDuplicates(list: seq<int>)
  {
    forall i, j :: 0 <= i < j < |list| ==> list[i] != list[j]
  }

  /** Removing keeps a list free of duplicates. */
  lemma {:induction false} RemoveKeepsNoDuplicates(list: seq<int>, id: int)
    requires NoDuplicates(list)
    ensures NoDuplicates(Remove(list, id))
  {
    if list != [] {
      RemoveKeepsNoDuplicates(list[1..], id);
      if list[0] != id {
        var rest := Remove(list[1..], id);
        assert list[0] !in list[1..];
        assert list[0] !in rest;
        var r := [list[0]] + rest;
        forall i, j | 0 <= i < j < |r|
          ensures r[i] != r[j]
        {
          if i == 0 {
            assert r[j] == rest[j - 1];
          } else {
            assert r[i] == rest[i - 1] && r[j] == rest[j - 1];
          }
        }
      }
    }
  }

  /** Toggling never creates a duplicate id. */
  lemma ToggleKeepsNoDuplicates(list: seq<int>, id: int)
    requires NoDuplicates(list)
    ensures NoDuplicates(Toggle(list, id))
  {
    if id in list {
      RemoveKeepsNoDuplicates(list, id);
    }
  }

  /** Toggling an id twice restores the set of marked ids; when the id was
      not marked, it restores the list itself. */
  lemma ToggleTwice(list: seq<int>, id: int)
    ensures forall x :: x in Toggle(Toggle(list, id), id) <==> x in list
    ensures id !in list ==> Toggle(Toggle(list, id), id) == list
  {
    if id !in list {
      var once := list + [id];
      assert once[..|list|] == list;
      RemoveAppended(list, id);
    }
  }

  lemma {:induction false} RemoveAppended(list: seq<int>, id: int)
    requires id !in list
    ensures Remove(list + [id], id) == list
  {
    if list == [] {
      assert [] + [id] == [id];
    } else {
      assert (list + [id])[1..] == list[1..] + [id];
      RemoveAppended(list[1..], id);
    }
  }

  /** Whether an item is judged wrongly: it should be marked and is not,
      or is marked and should not be. */
  predicate Misjudged(t: Truth, marked: seq<int>)
  {
    (t.shouldMark && t.id !in marked) || (!t.shouldMark && t.id in marked)
  }

  /** `items.filter(misjudged).length`. */
  function Mistakes(items: seq<Truth>, marked: seq<int>): (n: nat)
    ensures n <= |items|
  {
    if items == [] then 0
    else (if Misjudged(items[0], marked) then 1 else 0) + Mistakes(items[1..], marked)
  }

  /** Items that should be marked and are not. */
  function Missed(items: seq<Truth>, marked: seq<int>): nat
  {
    if items == [] then 0
    else (if items[0].shouldMark && items[0].id !in marked then 1 else 0) + Missed(items[1..], marked)
  }

  /** Items that are marked and should not be. */
  function FalseMarks(items: seq<Truth>, marked: seq<int>): nat
  {
    if items == [] then 0
    else (if !items[0].shouldMark && items[0].id in marked then 1 else 0) + FalseMarks(items[1..], marked)
  }

  /** A missed item and a wrongly marked item each cost exactly one. */
  lemma {:induction false} MistakesSplit(items: seq<Truth>, marked: seq<int>)
    ensures Mistakes(items, marked) == Missed(items, marked) + FalseMarks(items, marked)
  {
    if items != [] {
      MistakesSplit(items[1..], marked);
    }
  }

  /** No mistake exactly when every item is marked as it should be. */
  lemma {:induction false} NoMistakesIffAllRight(items: seq<Truth>, marked: seq<int>)
    ensures Mistakes(items, marked) == 0 <==>
      forall i :: 0 <= i < |items| ==> (items[i].id in marked <==> items[i].shouldMark)
  {
    if items != [] {
      NoMistakesIffAllRight(items[1..], marked);
      assert forall i :: 1 <= i < |items| ==> items[i] == items[1..][i - 1];
    }
  }

  /** Only which items' ids are marked matters: not their order, nor
      duplicates, nor ids that no item has. */
  lemma {:induction false} MistakesByMembership(items: seq<Truth>, m1: seq<int>, m2: seq<int>)
    requires forall i :: 0 <= i < |items| ==> (items[i].id in m1 <==> items[i].id in m2)
    ensures Mistakes(items, m1) == Mistakes(items, m2)
  {
    if items != [] {
      assert forall i :: 1 <= i < |items| ==> items[1..][i - 1] == items[i];
      MistakesByMembership(items[1..], m1, m2);
    }
  }

  /** Marking an id that no item has changes nothing. */
  lemma ForeignIdIgnored(items: seq<Truth>, marked: seq<int>, id: int)
    requires forall i :: 0 <= i < |items| ==> items[i].id != id
    ensures Mistakes(items, Toggle(marked, id)) == Mistakes(items, marked)
  {
    MistakesByMembership(items, Toggle(marked, id), marked);
  }
}
