/**
  The shopping-list reducer: a pure function from the current state and an
  action to the next state. The state holds one ordered list, `items`.
  Each case builds a fresh list from the old one: ADD appends, REMOVE
  filters, EDIT and TOGGLE map; any other action leaves the state as it is.
*/
module Reducers {
  import opened Items
  import opened Actions

  datatype State = State(items: seq<Item>)

  /** A state argument that may be absent, as when the store first calls the reducer. */
  datatype Option<T> = None | Some(value: T)

  /** The state before any action: no items. */
  function InitialState(): (s: State)
    ensures |s.items| == 0 && Ids(s.items) == {}
  {
    State([])
  }

  /** ADD: the old list followed by the new item. */
  function Appended(items: seq<Item>, item: Item): (r: seq<Item>)
    ensures |r| == |items| + 1
    ensures r[..|items|] == items && r[|items|] == item
    ensures Ids(r) == Ids(items) + {item.id}
  {
    var r := items + [item];
    assert r[..|items|] == items;
    assert forall x :: x in r <==> x in items || x == item;
    r
  }

  /** REMOVE: keep, in order, the items whose id is not `id`. */
  function Without(items: seq<Item>, id: Id): (r: seq<Item>)
    ensures |r| <= |items|
    ensures forall x :: x in r <==> x in items && x.id != id
    ensures Ids(r) == Ids(items) - {id}
    ensures id !in Ids(items) ==> r == items
  {
    if items == [] then []
    else
      IdsCons(items);
      var rest := Without(items[1..], id);
      if items[0].id != id then
        var r := [items[0]] + rest;
        IdsCons(r);
        assert r[1..] == rest;
        r
      else
        rest
  }

  /** EDIT: rename, in place, every item whose id is `id`. */
  function Renamed(items: seq<Item>, id: Id, newName: string): (r: seq<Item>)
    ensures |r| == |items|
    ensures forall i :: 0 <= i < |items| ==>
      r[i].id == items[i].id && r[i].checked == items[i].checked &&
      r[i].name == (if items[i].id == id then newName else items[i].name)
    ensures forall i :: 0 <= i < |items| && items[i].id != id ==> r[i] == items[i]
  {
    if items == [] then []
    else
      var head := if items[0].id == id then items[0].(name := newName) else items[0];
      [head] + Renamed(items[1..], id, newName)
  }

  /** TOGGLE: flip, in place, the checked flag of every item whose id is `id`. */
  function Toggled(items: seq<Item>, id: Id): (r: seq<Item>)
    ensures |r| == |items|
    ensures forall i :: 0 <= i < |items| ==>
      r[i].id == items[i].id && r[i].name == items[i].name &&
      r[i].checked == (if items[i].id == id then !items[i].checked else items[i].checked)
    ensures forall i :: 0 <= i < |items| && items[i].id != id ==> r[i] == items[i]
  {
    if items == [] then []
    else
      var head := if items[0].id == id then items[0].(checked := !items[0].checked) else items[0];
      [head] + Toggled(items[1..], id)
  }

  /** The reducer on a present state, one case per action. */
  function Reduce(s: State, a: Action): (r: State)
    ensures a.Add? ==> |r.items| == |s.items| + 1
    ensures !a.Add? ==> |r.items| <= |s.items|
    ensures a.Add? ==> Ids(r.items) == Ids(s.items) + {a.item.id}
    ensures a.Remove? ==> Ids(r.items) == Ids(s.items) - {a.id}
    ensures a.Edit? || a.Toggle? ==> Ids(r.items) == Ids(s.items) && |r.items| == |s.items|
    ensures a.Other? ==> r == s
  {
    match a
    case Add(item) => State(Appended(s.items, item))
    case Remove(id) => State(Without(s.items, id))
    case Edit(id, newItem) =>
      var r := Renamed(s.items, id, newItem);
      IdsPointwise(s.items, r);
      State(r)
    case Toggle(id) =>
      var r := Toggled(s.items, id);
      IdsPointwise(s.items, r);
      State(r)
    case Other(_, _) => s
  }

  /** The reducer as the store calls it: an absent state stands for the initial one. */
  function ShoppingListReducer(state: Option<State>, a: Action): (r: State)
    ensures state.None? ==> r.items == (if a.Add? then [a.item] else [])
    ensures state.Some? ==> r == Reduce(state.value, a)
  {
    var s := match state case Some(s) => s case None => InitialState();
    Reduce(s, a)
  }

  /** Two lists of equal length whose items agree on their ids have the same ids. */
  lemma IdsPointwise(a: seq<Item>, b: seq<Item>)
    requires |a| == |b|
    requires forall i :: 0 <= i < |a| ==> a[i].id == b[i].id
    ensures Ids(a) == Ids(b)
  {
  }
}
