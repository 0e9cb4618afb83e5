# Shopping-list reducer, modelled in Dafny

This project models the state logic of a React Native shopping-list app built
on Redux. The store holds one record with an ordered list `items`. Each item
has an `id`, a `name` and a `checked` flag. Four action creators build the
actions the reducer handles:

- ADD_ITEM appends the given item.
- REMOVE_ITEM drops every item with the given id.
- EDIT_ITEM renames every item with the given id.
- TOGGLE_ITEM flips `checked` on every item with the given id.

Any other action leaves the state unchanged. That includes the `SET_ITEMS`
action the app dispatches with the list it loads from storage.

Ids come from a clock reading, so nothing makes them unique. Every property
is therefore stated over all items that carry a given id.

Files:

- `items.dfy` (module `Items`): the item record and the set of ids in a list.
- `actions.dfy` (module `Actions`): the type tags, the action datatype, its
  `type`/`payload` object view and the creators.
- `reducers.dfy` (module `Reducers`): the state, the initial state, one
  function per reducer case, and the reducer itself.
- `properties.dfy` (module `ReducerProperties`): lemmas that relate several
  reducer calls, and the state after a sequence of dispatches.

The action is a closed datatype with one constructor per creator. A fifth
constructor, `Other`, stands for every action whose type is none of the four
tags; its tag has a subset type that excludes them. The reducer's
`switch (action.type)` therefore becomes a `match` on the constructor.
`Actions.TypeSelectsCase` proves that the two choose the same case.

The app has no purchased list, prices, totals, name trimming or
bulk-replace action. Loading the saved list has no effect on the state
(`ReducerProperties.SetItemsIgnored`).

## Model

| member | source | states |
|---|---|---|
| `Reducers.InitialState` | src/store/reducers.js:3-5 | the initial state has no items and therefore no ids |
| `Reducers.Appended` | src/store/reducers.js:9-10 | ADD grows the list by exactly one; the earlier items keep their positions; the payload is last; the id set gains exactly the payload's id |
| `Reducers.Without` | src/store/reducers.js:11-12 | REMOVE never lengthens the list; an item survives iff it was there and its id differs; the id set loses exactly that id; an absent id changes nothing |
| `Reducers.Renamed` | src/store/reducers.js:13-19 | EDIT keeps the length, and each item's position, id and `checked`; the name becomes the new one exactly on matching ids; every other item is identical |
| `Reducers.Toggled` | src/store/reducers.js:20-26 | TOGGLE keeps the length, and each item's position, id and name; `checked` flips exactly on matching ids; every other item is identical |
| `Reducers.Reduce` | src/store/reducers.js:7-30 | only ADD lengthens the list (by one); REMOVE removes its id from the id set; EDIT and TOGGLE keep the length and id set; any other action type returns the state unchanged |
| `Reducers.ShoppingListReducer` | src/store/reducers.js:7 | an absent state defaults to the initial one, for every action: an ADD then yields exactly the payload, and every other action yields no items; a present state is reduced as given |
| `Actions.TypeTagsDistinct` | src/store/actions.js:1-4 | the four type tags are pairwise distinct |
| `Actions.TypeSelectsCase` | src/store/reducers.js:8-28 | an action's `type` equals a tag iff the action is of that tag's case, so each creator's action reaches its own case and `Other` reaches the default |
| `Actions.ObjectFieldsDetermineAction` | src/store/actions.js:6-24 | two actions with equal `type` and `payload` fields are the same action |
| `Actions.AddItem` | src/store/actions.js:6-9 | `addItem` builds an ADD_ITEM action whose payload is the item |
| `Actions.RemoveItem` | src/store/actions.js:11-14 | `removeItem` builds a REMOVE_ITEM action whose payload is the id |
| `Actions.EditItem` | src/store/actions.js:16-19 | `editItem` builds an EDIT_ITEM action whose payload carries the id and the new name |
| `Actions.ToggleItem` | src/store/actions.js:21-24 | `toggleItem` builds a TOGGLE_ITEM action whose payload is the id |
| `Actions.SetItems` | App.js:22 | the load action has type `SET_ITEMS`, carries the parsed list, and is not one of the four handled cases |
| `ReducerProperties.WithoutConcat` | src/store/reducers.js:12 | REMOVE on a concatenation is the concatenation of the REMOVEs, so the surviving items keep their relative order |
| `ReducerProperties.WithoutSingleton` | src/store/reducers.js:12 | REMOVE on a one-item list drops the item exactly when its id matches |
| `ReducerProperties.WithoutIsSubsequence` | src/store/reducers.js:12 | the result of REMOVE is a subsequence of the old list |
| `ReducerProperties.WithoutIdempotent` | src/store/reducers.js:12 | removing an id twice equals removing it once |
| `ReducerProperties.RenamedAbsent` | src/store/reducers.js:16-18 | EDIT with an id that no item has returns the list unchanged |
| `ReducerProperties.RenamedIdempotent` | src/store/reducers.js:16-18 | editing an id twice to the same name equals editing it once |
| `ReducerProperties.ToggledAbsent` | src/store/reducers.js:23-25 | TOGGLE with an id that no item has returns the list unchanged |
| `ReducerProperties.ToggleInvolution` | src/store/reducers.js:23-25 | toggling an id twice gives back the original list |
| `ReducerProperties.WithoutToggledCommute` | src/store/reducers.js:11-26 | a REMOVE and a TOGGLE give the same list in either order, for any ids |
| `ReducerProperties.WithoutRenamedCommute` | src/store/reducers.js:11-19 | a REMOVE and an EDIT give the same list in either order, for any ids |
| `ReducerProperties.SetItemsIgnored` | src/store/reducers.js:27-28 | dispatching the loaded list leaves any state unchanged |
| `ReducerProperties.ReduceAll` | src/store/reducers.js:7-30 | the state after successive dispatches; each dispatch adds at most one item |
| `ReducerProperties.ReduceAllConcat` | src/store/reducers.js:7-30 | dispatching one run of actions and then another equals dispatching their concatenation |
| `ReducerProperties.ReduceAllLength` | src/store/reducers.js:7-30 | after any sequence of dispatches, the list is at most as long as before plus the number of ADDs; a run made only of ADDs grows it by exactly the run's length |
| `ReducerProperties.ReduceAllIds` | src/store/reducers.js:7-30 | after any sequence of dispatches, every id was there before or came with an ADD |
| `Items.NewItem` | App.js:30 | the item the add handler builds carries the given id and input text and is unchecked |
| `ReducerProperties.AddNewItemAppendsUnchecked` | App.js:30-31 | dispatching ADD of that item keeps the old list as prefix and appends an unchecked item with that id and name |
| `ReducerProperties.MilkScenario` | App.js:29-49 | adding "Milk", toggling it twice and removing it passes through the expected states and ends at the initial state |

## Left out

- Rendering (`View`, `TextInput`, `FlatList`, styles): this is user interface and holds no state logic.
- Loading and saving with AsyncStorage, and `JSON.parse`/`JSON.stringify` of the list: these are asynchronous I/O and library calls. The load's only effect is a `SET_ITEMS` dispatch, which is modelled (`Actions.SetItems`). The save writes the `items` value captured before the dispatch; that is closure timing, not reducer logic.
- Id generation from `Date.now()`: it reads the clock. Ids are inputs to the model (`Items.NewItem` takes the id as a parameter).
- `createStore`, `Provider`, `useDispatch` and `useSelector`: these are Redux and React library code, which is not part of this model. A sequence of dispatches is modelled as a fold of the reducer (`ReducerProperties.ReduceAll`).
- Object identity: the reducer returns the very same state object for unknown actions, and fresh objects otherwise. The model works on values, so it states equality of values only.
- Extra object fields: the spreads `{ ...state }` and `{ ...item }` copy any further properties. The model's state and items have exactly the fields the code reads and writes.
- JavaScript truthiness: `!item.checked` works on any value. The model's `checked` is a boolean, as the app always builds it.
- Payloads of unknown actions are limited to the shapes in `Actions.Payload`. The reducer never reads them.
