/**
  The TODO list of the front end (frontend/src/from-spring/Apps/ToDoApp/ToDoApp.tsx).
  Its state is a list of items and `itemKey`, the first key not yet handed out.
  Adding an item with a non-empty title appends it under `itemKey` and moves
  `itemKey` on by one; deleting a key filters out every item carrying it. From
  the empty start state the keys in the list stay distinct and below `itemKey`,
  so a key, once deleted, is never handed out again.
 */
module ToDo {

  /** A list entry. Its `key` is what the list display keys its rows by. */
  datatype ToDoItem = ToDoItem(title: string, priority: string, key: int)

  /** `list.filter(item => item.key != target)`. */
  function WithoutKey(list: seq<ToDoItem>, target: int): (r: seq<ToDoItem>)
    ensures |r| <= |list|
    ensures forall i :: 0 <= i < |r| ==> r[i].key != target && r[i] in list
    decreases |list|
  {
    if list == [] then []
    else if list[0].key != target then [list[0]] + WithoutKey(list[1..], target)
    else WithoutKey(list[1..], target)
  }

  /** Whether some item of the list carries key k. */
  predicate HasKey(list: seq<ToDoItem>, k: int) {
    exists i :: 0 <= i < |list| && list[i].key == k
  }

  /** Every key lies in [0, bound). */
  predicate KeysBelow(list: seq<ToDoItem>, bound: int) {
    forall i :: 0 <= i < |list| ==> 0 <= list[i].key < bound
  }

  /** No two items share a key. */
  predicate DistinctKeys(list: seq<ToDoItem>) {
    forall i, j :: 0 <= i < j < |list| ==> list[i].key != list[j].key
  }

  // ---------------------------------------------------------------------------
  // Properties of the filter

  /** An item survives the filter exactly when it was in the list and does not
      carry the deleted key. */
  lemma {:induction false} WithoutKeyMembership(list: seq<ToDoItem>, target: int, item: ToDoItem)
    ensures item in WithoutKey(list, target) <==> item in list && item.key != target
    decreases |list|
  {
    if list != [] {
      WithoutKeyMembership(list[1..], target, item);
      assert list == [list[0]] + list[1..];
      assert item in list <==> item == list[0] || item in list[1..];
    }
  }

  /** The filter works item by item: filtering a concatenation filters each
      part, so the surviving items keep their relative order. */
  lemma {:induction false} WithoutKeyAppend(a: seq<ToDoItem>, b: seq<ToDoItem>, target: int)
    ensures WithoutKey(a + b, target) == WithoutKey(a, target) + WithoutKey(b, target)
    decreases |a|
  {
    if a == [] {
      assert a + b == b;
    } else {
      assert (a + b)[0] == a[0];
      assert (a + b)[1..] == a[1..] + b;
      WithoutKeyAppend(a[1..], b, target);
    }
  }

  /** Deleting a key changes the list precisely when some item carries it. */
  lemma {:induction false} WithoutKeyUnchangedIff(list: seq<ToDoItem>, target: int)
    ensures WithoutKey(list, target) == list <==> !HasKey(list, target)
    decreases |list|
  {
    if list != [] {
      WithoutKeyUnchangedIff(list[1..], target);
      if list[0].key == target {
        assert |WithoutKey(list, target)| < |list| by {
          assert WithoutKey(list, target) == WithoutKey(list[1..], target);
        }
      } else {
        assert HasKey(list, target) <==> HasKey(list[1..], target) by {
          if HasKey(list, target) {
            var i :| 0 <= i < |list| && list[i].key == target;
            assert list[1..][i - 1].key == target;
          }
          if HasKey(list[1..], target) {
            var i :| 0 <= i < |list[1..]| && list[1..][i].key == target;
            assert list[i + 1].key == target;
          }
        }
        assert list == [list[0]] + list[1..];
      }
    }
  }

  /** With distinct keys, deleting the key of item i removes that item and
      nothing else. */
  lemma {:induction false} WithoutUniqueKey(list: seq<ToDoItem>, i: int)
    requires DistinctKeys(list)
    requires 0 <= i < |list|
    ensures WithoutKey(list, list[i].key) == list[..i] + list[i + 1..]
  {
    var k := list[i].key;
    assert list == list[..i] + ([list[i]] + list[i + 1..]);
    WithoutKeyAppend(list[..i], [list[i]] + list[i + 1..], k);
    WithoutKeyAppend([list[i]], list[i + 1..], k);
    assert [list[i]][1..] == [];
    assert WithoutKey([list[i]], k) == [];
    assert !HasKey(list[..i], k) by {
      forall j | 0 <= j < i ensures list[..i][j].key != k { assert list[..i][j] == list[j]; }
    }
    var suffix := list[i + 1..];
    assert !HasKey(suffix, k) by {
      forall j | 0 <= j < |suffix| ensures suffix[j].key != k {
        assert suffix[j] == list[i + 1 + j];
      }
    }
    WithoutKeyUnchangedIff(list[..i], k);
    WithoutKeyUnchangedIff(list[i + 1..], k);
  }

  /** Deleting the same key twice is deleting it once. */
  lemma {:induction false} WithoutKeyIdempotent(list: seq<ToDoItem>, target: int)
    ensures WithoutKey(WithoutKey(list, target), target) == WithoutKey(list, target)
  {
    WithoutKeyUnchangedIff(WithoutKey(list, target), target);
  }

  /** Deletions of two keys may happen in either order. */
  lemma {:induction false} WithoutKeyCommutes(list: seq<ToDoItem>, k1: int, k2: int)
    ensures WithoutKey(WithoutKey(list, k1), k2) == WithoutKey(WithoutKey(list, k2), k1)
    decreases |list|
  {
    if list != [] {
      WithoutKeyCommutes(list[1..], k1, k2);
      var head := [list[0]];
      assert list == head + list[1..];
      WithoutKeyAppend(head, list[1..], k1);
      WithoutKeyAppend(head, list[1..], k2);
      WithoutKeyAppend(WithoutKey(head, k1), WithoutKey(list[1..], k1), k2);
      WithoutKeyAppend(WithoutKey(head, k2), WithoutKey(list[1..], k2), k1);
      assert head[1..] == [];
    }
  }

  // ---------------------------------------------------------------------------
  // The key invariant

  /** With distinct keys, no later item shares the first item's key. */
  lemma HeadKeyUnique(list: seq<ToDoItem>, item: ToDoItem)
    requires DistinctKeys(list) && |list| > 0
    requires item in list[1..]
    ensures item.key != list[0].key
  {
    var m :| 0 <= m < |list[1..]| && list[1..][m] == item;
    assert list[m + 1] == item;
  }

  /** Deleting keeps the keys distinct and below the same bound. */
  lemma {:induction false} WithoutKeyKeepsKeys(list: seq<ToDoItem>, target: int, bound: int)
    requires KeysBelow(list, bound) && DistinctKeys(list)
    ensures KeysBelow(WithoutKey(list, target), bound) && DistinctKeys(WithoutKey(list, target))
    decreases |list|
  {
    if list != [] {
      var tail := list[1..];
      assert KeysBelow(tail, bound) && DistinctKeys(tail) by {
        forall a | 0 <= a < |tail| ensures tail[a] == list[a + 1] { }
      }
      WithoutKeyKeepsKeys(tail, target, bound);
      var rest := WithoutKey(tail, target);
      if list[0].key != target {
        var r := [list[0]] + rest;
        assert r == WithoutKey(list, target);
        forall a, b | 0 <= a < b < |r| ensures r[a].key != r[b].key {
          assert r[b] == rest[b - 1];
          if a == 0 {
            HeadKeyUnique(list, rest[b - 1]);
          } else {
            assert r[a] == rest[a - 1];
          }
        }
      } else {
        assert WithoutKey(list, target) == rest;
      }
    }
  }

  /** Appending an item under the first unused key keeps the keys distinct and
      below the next bound. */
  lemma AppendKeepsKeys(list: seq<ToDoItem>, bound: int, title: string, priority: string)
    requires 0 <= bound
    requires KeysBelow(list, bound) && DistinctKeys(list)
    ensures KeysBelow(list + [ToDoItem(title, priority, bound)], bound + 1)
    ensures DistinctKeys(list + [ToDoItem(title, priority, bound)])
  {
    var r := list + [ToDoItem(title, priority, bound)];
    forall a, b | 0 <= a < b < |r| ensures r[a].key != r[b].key {
      assert r[a] == list[a];
      if b < |list| {
        assert r[b] == list[b];
      }
    }
  }

  /** Deleting the key just handed out undoes the add. */
  lemma AddThenDelete(list: seq<ToDoItem>, bound: int, title: string, priority: string)
    requires KeysBelow(list, bound)
    ensures WithoutKey(list + [ToDoItem(title, priority, bound)], bound) == list
  {
    var item := ToDoItem(title, priority, bound);
    WithoutKeyAppend(list, [item], bound);
    WithoutKeyUnchangedIff(list, bound);
    assert [item][1..] == [];
  }

  // ---------------------------------------------------------------------------
  // The component's state

  /**
    The two state variables of the component. `issued` is the set of keys handed
    out so far; it exists only for the contracts, to say that a key is never
    handed out twice.
   */
  class ToDoApp {
    var todoList: seq<ToDoItem>
    var itemKey: int
    ghost var issued: set<int>

    /** Keys are distinct, every key in the list has been issued, and the issued
        keys are exactly 0 .. itemKey - 1. */
    ghost predicate Valid()
      reads this
    {
      0 <= itemKey &&
      KeysBelow(todoList, itemKey) && DistinctKeys(todoList) &&
      (forall k :: k in issued <==> 0 <= k < itemKey)
    }

    /** `useState([])` and `useState(0)`. */
    constructor ()
      ensures Valid()
      ensures todoList == [] && itemKey == 0 && issued == {}
    {
      todoList := [];
      itemKey := 0;
      issued := {};
    }

    /** handleAdd: a blank title changes nothing; otherwise the item is appended
        under the first unused key, which is then used up. */
    method HandleAdd(title: string, priority: string)
      requires Valid()
      modifies this
      ensures Valid()
      ensures title == "" ==>
              todoList == old(todoList) && itemKey == old(itemKey) && issued == old(issued)
      ensures title != "" ==>
              todoList == old(todoList) + [ToDoItem(title, priority, old(itemKey))] &&
              itemKey == old(itemKey) + 1 &&
              old(itemKey) !in old(issued) && issued == old(issued) + {old(itemKey)}
    {
      if title == "" {
        return;
      }
      AppendKeepsKeys(todoList, itemKey, title, priority);
      todoList := todoList + [ToDoItem(title, priority, itemKey)];
      issued := issued + {itemKey};
      itemKey := itemKey + 1;
    }

    /** handleDelete: every item carrying the key goes, the others stay in order,
        and the key counter is left alone, so the key is not handed out again. */
    method HandleDelete(targetKey: int)
      requires Valid()
      modifies this
      ensures Valid()
      ensures todoList == WithoutKey(old(todoList), targetKey)
      ensures itemKey == old(itemKey) && issued == old(issued)
    {
      WithoutKeyKeepsKeys(todoList, targetKey, itemKey);
      todoList := WithoutKey(todoList, targetKey);
    }
  }

  /** Two adds and a delete from the start state: the list keeps the second
      item, under key 1, and the next key is 2. */
  method Scenario() returns (list: seq<ToDoItem>, next: int)
    ensures list == [ToDoItem("b", "high", 1)] && next == 2
  {
    var app := new ToDoApp();
    app.HandleAdd("a", "low");
    app.HandleAdd("", "low");
    app.HandleAdd("b", "high");
    app.HandleDelete(0);
    assert [ToDoItem("a", "low", 0), ToDoItem("b", "high", 1)][1..] == [ToDoItem("b", "high", 1)];
    list, next := app.todoList, app.itemKey;
  }
}
