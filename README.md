# Shopping-list slice

A Dafny model of the Redux slice behind the shopping-list app
(`Redux/shoppingListSlice.js`). The slice keeps one flat, ordered sequence
`items` of shopping items. Four reducers change it in place:

- `addItem` appends the payload as given.
- `editItem` overwrites `name` and `quantity` of the first item whose `id` matches.
- `deleteItem` removes every item with the given `id`.
- `setItems` replaces the whole sequence.

The state starts out empty.

In `shopping_list_slice.dfy`, module `ShoppingListSlice`:

- `Item` is a datatype. Its `purchased` field stands for every field the reducers never touch.
- `ShoppingListState` is a class with a mutable field `items: seq<Item>`, one method per reducer, and a constructor for the initial state.
- `EditItem` searches for the first match with a loop. `DeleteItem` builds the kept sequence with a loop. Each method is proved equal to a pure function of the old sequence: `Edited` (built on `FirstIndex`) and `Filter`.
- The lemmas state what the reducers promise about those functions: length, order, which position changes, and that nothing else changes.

The app's wider design describes a two-level store: named lists, each holding
items, plus toggle-purchased, a duplicate-name guard and empty-name checks. The
slice's code has none of this. It keeps one flat `items` sequence with four
reducers. This model follows the code. The screen in
`app/(tabs)/shoppingList.tsx` imports actions such as `addList` and
`toggleItemPurchased`. This slice does not export them, and their reducers are
not part of this model.

## Model

| member | source | states |
|---|---|---|
| `ShoppingListSlice.ShoppingListState.constructor` | Redux/shoppingListSlice.js:3-5 | the initial state has an empty `items` sequence |
| `ShoppingListSlice.ShoppingListState.AddItem` | Redux/shoppingListSlice.js:11-13 | new `items` is the old one followed by the payload; length grows by one, earlier items are unchanged, and nothing rejects an existing id |
| `ShoppingListSlice.ShoppingListState.EditItem` | Redux/shoppingListSlice.js:14-21 | new `items` equals `Edited(old items, payload)`, which the lemmas below characterise |
| `ShoppingListSlice.ShoppingListState.DeleteItem` | Redux/shoppingListSlice.js:22-24 | new `items` equals `Filter(old items, id)`, which the lemmas below characterise |
| `ShoppingListSlice.ShoppingListState.SetItems` | Redux/shoppingListSlice.js:25-27 | new `items` is exactly the payload, whatever it held before |
| `ShoppingListSlice.FirstIndex` | Redux/shoppingListSlice.js:16 | `find` result: `None` exactly when no item has the id; otherwise the index of an item with the id, and no earlier item has it |
| `ShoppingListSlice.Filter` | Redux/shoppingListSlice.js:23 | no kept item has the deleted id, every kept item was in the input, and the result is no longer than the input |
| `ShoppingListSlice.FilterAppend` | Redux/shoppingListSlice.js:23 | deleting distributes over concatenation, so kept items keep their relative order |
| `ShoppingListSlice.FilterLength` | Redux/shoppingListSlice.js:23 | length drops by exactly the number of items with the id |
| `ShoppingListSlice.CountZero` | Redux/shoppingListSlice.js:23 | the count of an id is zero if and only if no item has that id |
| `ShoppingListSlice.FilterAbsent` | Redux/shoppingListSlice.js:23 | deleting an id no item has leaves `items` unchanged |
| `ShoppingListSlice.FilterIdempotent` | Redux/shoppingListSlice.js:23 | deleting an id twice gives the same result as deleting it once |
| `ShoppingListSlice.FilterMembership` | Redux/shoppingListSlice.js:23 | an item is in the result if and only if it was in the input and has another id |
| `ShoppingListSlice.FilterMultiplicity` | Redux/shoppingListSlice.js:23 | every item with another id is kept as many times as it occurred; items with the id occur zero times |
| `ShoppingListSlice.FilterPosition` | Redux/shoppingListSlice.js:23 | a kept item at index i appears in the result at the index given by the number of kept items before it |
| `ShoppingListSlice.FilterOrder` | Redux/shoppingListSlice.js:23 | a kept item lands strictly before every later item, so relative order is preserved |
| `ShoppingListSlice.FilterCommutes` | Redux/shoppingListSlice.js:23 | deleting two ids gives the same result in either order |
| `ShoppingListSlice.EditedAbsent` | Redux/shoppingListSlice.js:16-17 | editing an id no item has leaves `items` unchanged |
| `ShoppingListSlice.EditedFirstMatch` | Redux/shoppingListSlice.js:15-20 | at the first matching index the item gets the payload's name and quantity and keeps its id and purchased flag; every other position is identical, including later items with the same id |
| `ShoppingListSlice.EditedShape` | Redux/shoppingListSlice.js:16-20 | editing preserves length, ids and purchased flags at every position |
| `ShoppingListSlice.FirstIndexSameIds` | Redux/shoppingListSlice.js:16 | sequences with equal ids at every position give the same `find` result |
| `ShoppingListSlice.EditedTwice` | Redux/shoppingListSlice.js:14-21 | two edits of the same id: the second overrides the first |
| `ShoppingListSlice.DeleteAfterEdit` | Redux/shoppingListSlice.js:14-24 | editing an id and then deleting it gives the same result as deleting it at once |
| `ShoppingListSlice.AddDuplicates` | Redux/shoppingListSlice.js:11-13 | adding an item whose id is already present raises the count of that id by one, because there is no duplicate check |
| `ShoppingListSlice.AddThenDelete` | Redux/shoppingListSlice.js:11-13 | deleting the id of a just-added item gives the same result as deleting it before the add |

## Left out

- The `createSlice`/Immer machinery, the exported action creators and the default reducer export (Redux/shoppingListSlice.js:1, 7-10, 31-32). They belong to a foreign library. The reducers are modelled as methods on the state object.
- Action payloads are untyped JavaScript values. The model types them: `addItem` and `setItems` take `Item` values, `editItem` takes an `EditPayload` of id, name and quantity, and `deleteItem` takes a string id. Payloads with missing or non-string fields are not modelled.
- Items are values, not shared objects. `editItem` assigns to the found object's fields. Under Immer this gives a fresh copy of that one item, so aliasing between items is not modelled.
- Persistence to device storage, its asynchronous load/save and the ordering race between overlapping saves. This is I/O, and the slice's code has none of it.
- UI rendering and action dispatch in `app/(tabs)/shoppingList.tsx` and `app/(tabs)/index.tsx`. This is the presentation layer.
- Named lists, toggle-purchased, empty-name validation and the duplicate-name guard. They do not appear in the slice's code.
