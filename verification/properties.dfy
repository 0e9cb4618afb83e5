/**
  Properties of the shopping-list reducer that relate several calls: order
  preservation and idempotence of REMOVE, involution of TOGGLE, what
  successive dispatches can and cannot do to the list.
*/
module ReducerProperties {
  import opened Items
  import opened Actions
  import opened Reducers

  /** `a` is `b` with some items dropped, the rest in their original order. */
  ghost predicate IsSubsequence(a: seq<Item>, b: seq<Item>)
    decreases |b|
  {
    if a == [] then true
    else if b == [] then false
    else (a[0] == b[0] && IsSubsequence(a[1..], b[1..])) || IsSubsequence(a, b[1..])
  }

  // ---------------------------------------------------------------- REMOVE

  /** Filtering a concatenation filters each part: REMOVE keeps relative order. */
  lemma {:induction false} WithoutConcat(a: seq<Item>, b: seq<Item>, id: Id)
    ensures Without(a + b, id) == Without(a, id) + Without(b, id)
  {
    if a == [] {
      assert a + b == b;
    } else {
      assert (a + b)[0] == a[0];
      assert (a + b)[1..] == a[1..] + b;
      WithoutConcat(a[1..], b, id);
    }
  }

  /** REMOVE of a single item drops it exactly when its id matches. */
  lemma WithoutSingleton(x: Item, id: Id)
    ensures Without([x], id) == if x.id == id then [] else [x]
  {
  }

  /** The list REMOVE returns is a subsequence of the old one. */
  lemma {:induction false} WithoutIsSubsequence(items: seq<Item>, id: Id)
    ensures IsSubsequence(Without(items, id), items)
  {
    if items != [] {
      WithoutIsSubsequence(items[1..], id);
      var rest := Without(items[1..], id);
      if items[0].id != id {
        var r := [items[0]] + rest;
        assert r[0] == items[0] && r[1..] == rest;
      } else {
        SubsequenceDropHead(rest, items);
      }
    }
  }

  /** A subsequence of the tail is a subsequence of the whole list. */
  lemma SubsequenceDropHead(a: seq<Item>, b: seq<Item>)
    requires b != [] && IsSubsequence(a, b[1..])
    ensures IsSubsequence(a, b)
  {
  }

  /** Removing the same id twice is removing it once. */
  lemma WithoutIdempotent(items: seq<Item>, id: Id)
    ensures Without(Without(items, id), id) == Without(items, id)
  {
  }

  // ---------------------------------------------------------------- EDIT

  /** EDIT with an id no item has changes nothing. */
  lemma RenamedAbsent(items: seq<Item>, id: Id, newName: string)
    requires id !in Ids(items)
    ensures Renamed(items, id, newName) == items
  {
  }

  /** Editing twice to the same name is editing once. */
  lemma RenamedIdempotent(items: seq<Item>, id: Id, newName: string)
    ensures Renamed(Renamed(items, id, newName), id, newName) == Renamed(items, id, newName)
  {
  }

  // ---------------------------------------------------------------- TOGGLE

  /** TOGGLE with an id no item has changes nothing. */
  lemma ToggledAbsent(items: seq<Item>, id: Id)
    requires id !in Ids(items)
    ensures Toggled(items, id) == items
  {
  }

  /** Toggling the same id twice gives back the original list. */
  lemma ToggleInvolution(items: seq<Item>, id: Id)
    ensures Toggled(Toggled(items, id), id) == items
  {
  }

  // ------------------------------------------- a REMOVE racing another action

  /** A REMOVE and a TOGGLE give the same list in either order, for any two ids. */
  lemma {:induction false} WithoutToggledCommute(items: seq<Item>, toggled: Id, removed: Id)
    ensures Without(Toggled(items, toggled), removed) == Toggled(Without(items, removed), toggled)
  {
    if items != [] {
      WithoutToggledCommute(items[1..], toggled, removed);
      var t := Toggled(items, toggled);
      assert t[1..] == Toggled(items[1..], toggled);
      var w := Without(items, removed);
      if items[0].id != removed {
        assert w[0] == items[0] && w[1..] == Without(items[1..], removed);
      }
    }
  }

  /** A REMOVE and an EDIT give the same list in either order, for any two ids. */
  lemma {:induction false} WithoutRenamedCommute(items: seq<Item>, edited: Id, newName: string, removed: Id)
    ensures Without(Renamed(items, edited, newName), removed) == Renamed(Without(items, removed), edited, newName)
  {
    if items != [] {
      WithoutRenamedCommute(items[1..], edited, newName, removed);
      var t := Renamed(items, edited, newName);
      assert t[1..] == Renamed(items[1..], edited, newName);
      var w := Without(items, removed);
      if items[0].id != removed {
        assert w[0] == items[0] && w[1..] == Without(items[1..], removed);
      }
    }
  }

  // ---------------------------------------------------------------- the reducer

  /** Dispatching the loaded list leaves the state as it was: SET_ITEMS has no case. */
  lemma SetItemsIgnored(s: State, saved: seq<Item>)
    ensures Reduce(s, SetItems(saved)) == s
  {
  }

  /** The state after dispatching `actions` one after another. */
  function ReduceAll(s: State, actions: seq<Action>): (r: State)
    ensures |r.items| <= |s.items| + |actions|
    decreases |actions|
  {
    if actions == [] then s
    else ReduceAll(Reduce(s, actions[0]), actions[1..])
  }

  /** How many of `actions` are ADD actions. */
  function AddCount(actions: seq<Action>): (n: nat)
    ensures n <= |actions|
  {
    if actions == [] then 0
    else (if actions[0].Add? then 1 else 0) + AddCount(actions[1..])
  }

  /** The ids the ADD actions among `actions` carry. */
  function AddedIds(actions: seq<Action>): (ids: set<Id>)
  {
    if actions == [] then {}
    else (if actions[0].Add? then {actions[0].item.id} else {}) + AddedIds(actions[1..])
  }

  /** Only ADD actions grow the list, by one item each; a run of ADDs grows it by exactly its length. */
  lemma {:induction false} ReduceAllLength(s: State, actions: seq<Action>)
    ensures |ReduceAll(s, actions).items| <= |s.items| + AddCount(actions)
    ensures AddCount(actions) == |actions| ==> |ReduceAll(s, actions).items| == |s.items| + |actions|
    decreases |actions|
  {
    if actions != [] {
      ReduceAllLength(Reduce(s, actions[0]), actions[1..]);
    }
  }

  /** Dispatching `first` and then `rest` is dispatching `first + rest`. */
  lemma {:induction false} ReduceAllConcat(s: State, first: seq<Action>, rest: seq<Action>)
    ensures ReduceAll(s, first + rest) == ReduceAll(ReduceAll(s, first), rest)
    decreases |first|
  {
    if first == [] {
      assert first + rest == rest;
    } else {
      assert (first + rest)[0] == first[0];
      assert (first + rest)[1..] == first[1..] + rest;
      ReduceAllConcat(Reduce(s, first[0]), first[1..], rest);
    }
  }

  /** ADD of the item the add handler builds appends an unchecked item with that id and name. */
  lemma AddNewItemAppendsUnchecked(s: State, id: Id, input: string)
    ensures var r := Reduce(s, AddItem(NewItem(id, input)));
      && r.items[..|s.items|] == s.items
      && r.items[|s.items|] == Item(id, input, false)
  {
  }

  /** No action invents an id: every id in the list was there or came with an ADD. */
  lemma {:induction false} ReduceAllIds(s: State, actions: seq<Action>)
    ensures Ids(ReduceAll(s, actions).items) <= Ids(s.items) + AddedIds(actions)
    decreases |actions|
  {
    if actions != [] {
      ReduceAllIds(Reduce(s, actions[0]), actions[1..]);
    }
  }

  /** Add "Milk", toggle it on and off, then remove it: the list is empty again. */
  lemma MilkScenario()
    ensures
      var milk := NewItem("1", "Milk");
      var s1 := Reduce(InitialState(), AddItem(milk));
      var s2 := Reduce(s1, ToggleItem("1"));
      var s3 := Reduce(s2, ToggleItem("1"));
      var s4 := Reduce(s3, RemoveItem("1"));
      && s1.items == [Item("1", "Milk", false)]
      && s2.items == [Item("1", "Milk", true)]
      && s3 == s1
      && s4 == InitialState()
  {
  }
}
