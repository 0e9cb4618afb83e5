/**
  Redux actions of the shopping list: the four type tags, the action objects
  `{ type, payload }` and the creators that build them.

  An action is a closed datatype with one constructor per creator and `Other`
  for every action object whose type is none of the four tags (the
  `SET_ITEMS` action dispatched when the saved list is loaded is one).
  `TypeField` and `PayloadField` give back the two fields of the object.
*/
module Actions {
  import opened Items

  const ADD_ITEM: string := "ADD_ITEM"
  const REMOVE_ITEM: string := "REMOVE_ITEM"
  const EDIT_ITEM: string := "EDIT_ITEM"
  const TOGGLE_ITEM: string := "TOGGLE_ITEM"

  /** The tag the app uses when it loads the saved list. */
  const SET_ITEMS: string := "SET_ITEMS"

  /** A type tag that none of the reducer's four cases matches. */
  type OtherTag = t: string | t != ADD_ITEM && t != REMOVE_ITEM && t != EDIT_ITEM && t != TOGGLE_ITEM
    witness SET_ITEMS

  /** The shapes the `payload` field takes. */
  datatype Payload =
    | ItemPayload(item: Item)
    | IdPayload(id: Id)
    | EditPayload(id: Id, newItem: string)
    | ItemsPayload(items: seq<Item>)

  datatype Action =
    | Add(item: Item)
    | Remove(id: Id)
    | Edit(id: Id, newItem: string)
    | Toggle(id: Id)
    | Other(tag: OtherTag, payload: Payload)
  {
    /** The `type` field of the action object. */
    function TypeField(): (t: string)
    {
      match this
      case Add(_) => ADD_ITEM
      case Remove(_) => REMOVE_ITEM
      case Edit(_, _) => EDIT_ITEM
      case Toggle(_) => TOGGLE_ITEM
      case Other(t, _) => t
    }

    /** The `payload` field of the action object. */
    function PayloadField(): (p: Payload)
    {
      match this
      case Add(item) => ItemPayload(item)
      case Remove(id) => IdPayload(id)
      case Edit(id, newItem) => EditPayload(id, newItem)
      case Toggle(id) => IdPayload(id)
      case Other(_, p) => p
    }
  }

  /** The four tags are pairwise distinct. */
  lemma TypeTagsDistinct()
    ensures ADD_ITEM != REMOVE_ITEM && ADD_ITEM != EDIT_ITEM && ADD_ITEM != TOGGLE_ITEM
    ensures REMOVE_ITEM != EDIT_ITEM && REMOVE_ITEM != TOGGLE_ITEM
    ensures EDIT_ITEM != TOGGLE_ITEM
  {
  }

  /**
    The `type` field alone decides which reducer case an action reaches, so
    matching on the constructor is the reducer's `switch (action.type)`.
  */
  lemma TypeSelectsCase(a: Action)
    ensures a.TypeField() == ADD_ITEM <==> a.Add?
    ensures a.TypeField() == REMOVE_ITEM <==> a.Remove?
    ensures a.TypeField() == EDIT_ITEM <==> a.Edit?
    ensures a.TypeField() == TOGGLE_ITEM <==> a.Toggle?
  {
  }

  /** An action is determined by its `type` and `payload` fields. */
  lemma ObjectFieldsDetermineAction(a: Action, b: Action)
    requires a.TypeField() == b.TypeField() && a.PayloadField() == b.PayloadField()
    ensures a == b
  {
  }

  /** `addItem(item)`: an ADD_ITEM action carrying the item itself. */
  function AddItem(item: Item): (a: Action)
    ensures a.TypeField() == ADD_ITEM && a.PayloadField() == ItemPayload(item)
  {
    Add(item)
  }

  /** `removeItem(id)`: a REMOVE_ITEM action carrying the id. */
  function RemoveItem(id: Id): (a: Action)
    ensures a.TypeField() == REMOVE_ITEM && a.PayloadField() == IdPayload(id)
  {
    Remove(id)
  }

  /** `editItem(id, newItem)`: an EDIT_ITEM action carrying the id and the new name. */
  function EditItem(id: Id, newItem: string): (a: Action)
    ensures a.TypeField() == EDIT_ITEM && a.PayloadField() == EditPayload(id, newItem)
  {
    Edit(id, newItem)
  }

  /** `toggleItem(id)`: a TOGGLE_ITEM action carrying the id. */
  function ToggleItem(id: Id): (a: Action)
    ensures a.TypeField() == TOGGLE_ITEM && a.PayloadField() == IdPayload(id)
  {
    Toggle(id)
  }

  /** The action the app dispatches with the parsed saved list; no creator builds it. */
  function SetItems(items: seq<Item>): (a: Action)
    ensures a.TypeField() == SET_ITEMS && a.PayloadField() == ItemsPayload(items)
    ensures a.Other?
  {
    Other(SET_ITEMS, ItemsPayload(items))
  }
}
