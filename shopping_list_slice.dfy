/*
 * The shopping-list slice: one flat, ordered sequence of items held by the
 * store and four reducers that change it in place.
 *
 * The reducers are methods of ShoppingListState. Each one is specified by a
 * pure function of the old sequence (Filter, Edited), and what the slice
 * promises is proved about those functions as lemmas.
 */
module ShoppingListSlice {

  /** An item as the store holds it. `purchased` stands for the fields no reducer touches. */
  datatype Item = Item(id: string, name: string, quantity: string, purchased: bool)

  /** The payload of `editItem`: which item, and its new name and quantity. */
  datatype EditPayload = EditPayload(id: string, name: string, quantity: string)

  datatype Option<T> = None | Some(value: T)

  // ---------------------------------------------------------------------
  // Specification functions
  // ---------------------------------------------------------------------

  /** The index of the first item with identifier `id`, as `Array.prototype.find` picks it. */
  function FirstIndex(xs: seq<Item>, id: string): (r: Option<nat>)
    ensures r.None? <==> forall i :: 0 <= i < |xs| ==> xs[i].id != id
    ensures r.Some? ==> r.value < |xs| && xs[r.value].id == id
    ensures r.Some? ==> forall i :: 0 <= i < r.value ==> xs[i].id != id
  {
    if xs == [] then None
    else if xs[0].id == id then Some(0)
    else match FirstIndex(xs[1..], id)
      case None => None
      case Some(k) => Some(k + 1)
  }

  /** The items whose identifier differs from `id`, in their original order. */
  function Filter(xs: seq<Item>, id: string): (r: seq<Item>)
    ensures |r| <= |xs|
    ensures forall i :: 0 <= i < |r| ==> r[i].id != id && r[i] in xs
  {
    if xs == [] then []
    else if xs[0].id == id then Filter(xs[1..], id)
    else [xs[0]] + Filter(xs[1..], id)
  }

  /** The number of items with identifier `id`. */
  function Count(xs: seq<Item>, id: string): (n: nat)
    ensures n <= |xs|
  {
    if xs == [] then 0
    else (if xs[0].id == id then 1 else 0) + Count(xs[1..], id)
  }

  /** The sequence after `editItem`: the first item with the payload's id gets its name and quantity. */
  function Edited(xs: seq<Item>, p: EditPayload): (r: seq<Item>)
    ensures |r| == |xs|
  {
    match FirstIndex(xs, p.id)
    case None => xs
    case Some(k) => xs[k := xs[k].(name := p.name, quantity := p.quantity)]
  }

  /** Where the kept item at index `i` of `xs` lands in `Filter(xs, id)`. */
  function KeptIndex(xs: seq<Item>, id: string, i: nat): nat
    requires i <= |xs|
  {
    |Filter(xs[..i], id)|
  }

  // ---------------------------------------------------------------------
  // deleteItem: properties of Filter
  // ---------------------------------------------------------------------

  /** Filtering distributes over concatenation: the relative order of kept items is preserved. */
  lemma {:induction false} FilterAppend(a: seq<Item>, b: seq<Item>, id: string)
    ensures Filter(a + b, id) == Filter(a, id) + Filter(b, id)
  {
    if a == [] {
      assert a + b == b;
    } else {
      assert (a + b)[1..] == a[1..] + b;
      FilterAppend(a[1..], b, id);
    }
  }

  /** Deleting removes exactly the matching items: the length drops by their number. */
  lemma {:induction false} FilterLength(xs: seq<Item>, id: string)
    ensures |Filter(xs, id)| == |xs| - Count(xs, id)
  {
    if xs != [] {
      FilterLength(xs[1..], id);
    }
  }

  /** An identifier occurs nowhere exactly when its count is zero. */
  lemma {:induction false} CountZero(xs: seq<Item>, id: string)
    ensures Count(xs, id) == 0 <==> forall i :: 0 <= i < |xs| ==> xs[i].id != id
  {
    if xs != [] {
      CountZero(xs[1..], id);
      assert forall i :: 1 <= i < |xs| ==> xs[i] == xs[1..][i - 1];
    }
  }

  /** Deleting an identifier no item has leaves the sequence unchanged. */
  lemma {:induction false} FilterAbsent(xs: seq<Item>, id: string)
    requires forall i :: 0 <= i < |xs| ==> xs[i].id != id
    ensures Filter(xs, id) == xs
  {
    if xs != [] {
      assert forall i :: 0 <= i < |xs| - 1 ==> xs[1..][i] == xs[i + 1];
      FilterAbsent(xs[1..], id);
    }
  }

  /** Deleting the same identifier twice is the same as deleting it once. */
  lemma FilterIdempotent(xs: seq<Item>, id: string)
    ensures Filter(Filter(xs, id), id) == Filter(xs, id)
  {
    FilterAbsent(Filter(xs, id), id);
  }

  /** An item survives deletion exactly when it was present and has another identifier. */
  lemma {:induction false} FilterMembership(xs: seq<Item>, id: string, x: Item)
    ensures x in Filter(xs, id) <==> x in xs && x.id != id
  {
    if xs != [] {
      FilterMembership(xs[1..], id, x);
      assert xs == [xs[0]] + xs[1..];
    }
  }

  /** Every item with another identifier is kept as often as it occurred; matching ones are gone. */
  lemma {:induction false} FilterMultiplicity(xs: seq<Item>, id: string, x: Item)
    ensures multiset(Filter(xs, id))[x] == if x.id == id then 0 else multiset(xs)[x]
  {
    if xs != [] {
      FilterMultiplicity(xs[1..], id, x);
      assert xs == [xs[0]] + xs[1..];
      assert multiset(xs) == multiset([xs[0]]) + multiset(xs[1..]);
    }
  }

  /** A kept item at index `i` sits at index `KeptIndex(xs, id, i)` of the result. */
  lemma FilterPosition(xs: seq<Item>, id: string, i: nat)
    requires i < |xs| && xs[i].id != id
    ensures KeptIndex(xs, id, i) < |Filter(xs, id)|
    ensures Filter(xs, id)[KeptIndex(xs, id, i)] == xs[i]
  {
    assert xs == xs[..i] + xs[i..];
    FilterAppend(xs[..i], xs[i..], id);
    assert xs[i..][0] == xs[i];
  }

  /** Kept items keep their relative order: a kept item lands before every later one. */
  lemma FilterOrder(xs: seq<Item>, id: string, i: nat, j: nat)
    requires i < j <= |xs| && xs[i].id != id
    ensures KeptIndex(xs, id, i) < KeptIndex(xs, id, j)
  {
    assert xs[..j] == xs[..i] + xs[i..j];
    FilterAppend(xs[..i], xs[i..j], id);
    assert xs[i..j][0] == xs[i];
  }

  /** Deleting two identifiers gives the same result in either order. */
  lemma {:induction false} FilterCommutes(xs: seq<Item>, a: string, b: string)
    ensures Filter(Filter(xs, a), b) == Filter(Filter(xs, b), a)
  {
    if xs != [] {
      FilterCommutes(xs[1..], a, b);
    }
  }

  // ---------------------------------------------------------------------
  // editItem: properties of Edited
  // ---------------------------------------------------------------------

  /** Editing an identifier no item has leaves the sequence unchanged. */
  lemma EditedAbsent(xs: seq<Item>, p: EditPayload)
    requires forall i :: 0 <= i < |xs| ==> xs[i].id != p.id
    ensures Edited(xs, p) == xs
  {
  }

  /**
   * When `k` is the first index holding the payload's id, only that item changes:
   * it takes the payload's name and quantity and keeps its id and purchased flag;
   * every other position, later items with the same id included, is untouched.
   */
  lemma EditedFirstMatch(xs: seq<Item>, p: EditPayload, k: nat)
    requires k < |xs| && xs[k].id == p.id
    requires forall j :: 0 <= j < k ==> xs[j].id != p.id
    ensures |Edited(xs, p)| == |xs|
    ensures Edited(xs, p)[k].name == p.name && Edited(xs, p)[k].quantity == p.quantity
    ensures Edited(xs, p)[k].id == xs[k].id && Edited(xs, p)[k].purchased == xs[k].purchased
    ensures forall j :: 0 <= j < |xs| && j != k ==> Edited(xs, p)[j] == xs[j]
  {
  }

  /** Editing never changes the length, any identifier, or any purchased flag. */
  lemma EditedShape(xs: seq<Item>, p: EditPayload)
    ensures |Edited(xs, p)| == |xs|
    ensures forall j :: 0 <= j < |xs| ==>
      Edited(xs, p)[j].id == xs[j].id && Edited(xs, p)[j].purchased == xs[j].purchased
  {
  }

  /** Two sequences with the same identifiers at every position agree on the first match. */
  lemma FirstIndexSameIds(xs: seq<Item>, ys: seq<Item>, id: string)
    requires |xs| == |ys|
    requires forall j :: 0 <= j < |xs| ==> xs[j].id == ys[j].id
    ensures FirstIndex(xs, id) == FirstIndex(ys, id)
  {
  }

  /** Two edits of the same id: the last one wins. */
  lemma EditedTwice(xs: seq<Item>, p: EditPayload, q: EditPayload)
    requires p.id == q.id
    ensures Edited(Edited(xs, p), q) == Edited(xs, q)
  {
    EditedShape(xs, p);
    FirstIndexSameIds(Edited(xs, p), xs, q.id);
  }

  /** Deleting an id after editing it gives the same result as deleting it straight away. */
  lemma DeleteAfterEdit(xs: seq<Item>, p: EditPayload)
    ensures Filter(Edited(xs, p), p.id) == Filter(xs, p.id)
  {
    match FirstIndex(xs, p.id)
    case None =>
    case Some(k) =>
      var ys := Edited(xs, p);
      assert xs == xs[..k] + [xs[k]] + xs[k + 1..];
      assert ys == xs[..k] + [ys[k]] + xs[k + 1..];
      FilterAppend(xs[..k] + [xs[k]], xs[k + 1..], p.id);
      FilterAppend(xs[..k], [xs[k]], p.id);
      FilterAppend(xs[..k] + [ys[k]], xs[k + 1..], p.id);
      FilterAppend(xs[..k], [ys[k]], p.id);
  }

  // ---------------------------------------------------------------------
  // addItem: no duplicate check
  // ---------------------------------------------------------------------

  /** Adding an item whose id is already present adds one more item with that id. */
  lemma AddDuplicates(xs: seq<Item>, x: Item)
    ensures Count(xs + [x], x.id) == Count(xs, x.id) + 1
  {
    FilterAppend(xs, [x], x.id);
    FilterLength(xs + [x], x.id);
    FilterLength(xs, x.id);
  }

  /** Deleting the id of the item just added gives what deleting it before the add gives. */
  lemma AddThenDelete(xs: seq<Item>, x: Item)
    ensures Filter(xs + [x], x.id) == Filter(xs, x.id)
  {
    FilterAppend(xs, [x], x.id);
  }

  // ---------------------------------------------------------------------
  // The store
  // ---------------------------------------------------------------------

  /** The slice's state: the `items` array, changed in place by the reducers. */
  class ShoppingListState {
    var items: seq<Item>

    /** The initial state holds no items. */
    constructor ()
      ensures items == []
    {
      items := [];
    }

    /** `addItem`: appends the payload as given, without validation or duplicate check. */
    method AddItem(item: Item)
      modifies this
      ensures items == old(items) + [item]
      ensures |items| == |old(items)| + 1 && items[|old(items)|] == item
    {
      items := items + [item];
    }

    /** `editItem`: finds the first item with the payload's id and overwrites its name and quantity. */
    method EditItem(p: EditPayload)
      modifies this
      ensures items == Edited(old(items), p)
    {
      var xs := items;
      var i := 0;
      while i < |xs| && xs[i].id != p.id
        invariant 0 <= i <= |xs|
        invariant forall j :: 0 <= j < i ==> xs[j].id != p.id
      {
        i := i + 1;
      }
      if i < |xs| {
        EditedFirstMatch(xs, p, i);
        items := xs[i := xs[i].(name := p.name, quantity := p.quantity)];
      } else {
        EditedAbsent(xs, p);
      }
    }

    /** `deleteItem`: keeps, in order, every item whose id differs from the payload. */
    method DeleteItem(id: string)
      modifies this
      ensures items == Filter(old(items), id)
    {
      var xs := items;
      var kept: seq<Item> := [];
      var i := 0;
      while i < |xs|
        invariant 0 <= i <= |xs|
        invariant kept == Filter(xs[..i], id)
      {
        assert xs[..i + 1] == xs[..i] + [xs[i]];
        FilterAppend(xs[..i], [xs[i]], id);
        if xs[i].id != id {
          kept := kept + [xs[i]];
        }
        i := i + 1;
      }
      assert xs[..i] == xs;
      items := kept;
    }

    /** `setItems`: replaces the whole sequence with the payload. */
    method SetItems(payload: seq<Item>)
      modifies this
      ensures items == payload
    {
      items := payload;
    }
  }
}
