/** Shopping-list entries: the `{ id, name, checked }` objects the store holds. */
module Items {

  /** Ids are the decimal strings of a clock reading; the model takes them as given. */
  type Id = string

  /** One entry of the list. */
  datatype Item = Item(id: Id, name: string, checked: bool)

  /** The entry the add handler builds from the text input: never checked yet. */
  function NewItem(id: Id, input: string): (r: Item)
    ensures !r.checked && r.id == id && r.name == input
  {
    Item(id, input, false)
  }

  /** Every id that occurs in `items` (ids need not be unique). */
  function Ids(items: seq<Item>): (ids: set<Id>)
  {
    set x | x in items :: x.id
  }

  /** The ids of a list are the id of its head and the ids of its tail. */
  lemma IdsCons(items: seq<Item>)
    requires items != []
    ensures Ids(items) == {items[0].id} + Ids(items[1..])
  {
  }
}
