/** The shopping cart of the page controller: adding an artwork, changing a
    line's quantity, removing a line and pricing the cart. */
module Cart {
  import opened Records
  import opened Seqs

  /** The line a first add creates: the artwork's display fields, quantity 1. */
  function NewLine(a: Artwork): (item: CartItem)
    ensures item.id == a.id && item.title == a.title && item.price == a.price
    ensures item.image == a.image && item.artistName == a.artistName && item.quantity == 1
  {
    CartItem(a.id, a.title, a.price, a.image, a.artistName, 1)
  }

  /** `prev.map(...)` of the add path: every line with this id gets one more. */
  function IncrementLines(cart: seq<CartItem>, id: int): (r: seq<CartItem>)
    ensures |r| == |cart|
    ensures forall i :: 0 <= i < |cart| ==>
      r[i] == if cart[i].id == id then cart[i].(quantity := cart[i].quantity + 1) else cart[i]
    decreases |cart|
  {
    if cart == [] then []
    else
      var head := if cart[0].id == id then cart[0].(quantity := cart[0].quantity + 1) else cart[0];
      [head] + IncrementLines(cart[1..], id)
  }

  /** `handleAddToCart` for a signed-in user: a line that already holds the
      artwork gets one more, otherwise a new line goes at the end. */
  function AddOrIncrement(cart: seq<CartItem>, a: Artwork): (r: seq<CartItem>)
    ensures a.id in CartIds(cart) ==> |r| == |cart|
    ensures a.id in CartIds(cart) ==> forall i :: 0 <= i < |cart| ==>
      (cart[i].id == a.id ==> r[i] == cart[i].(quantity := cart[i].quantity + 1)) &&
      (cart[i].id != a.id ==> r[i] == cart[i])
    ensures a.id !in CartIds(cart) ==> r == cart + [NewLine(a)]
    ensures CartIds(r) == if a.id in CartIds(cart) then CartIds(cart) else CartIds(cart) + [a.id]
  {
    if a.id in CartIds(cart) then IncrementLines(cart, a.id) else cart + [NewLine(a)]
  }

  /** `handleUpdateCartQuantity`: the lines with this id take the quantity as
      given, whatever its sign; nothing else changes. */
  function SetQuantity(cart: seq<CartItem>, id: int, quantity: int): (r: seq<CartItem>)
    ensures |r| == |cart|
    ensures forall i :: 0 <= i < |cart| ==>
      r[i].id == cart[i].id && r[i].title == cart[i].title && r[i].price == cart[i].price &&
      r[i].image == cart[i].image && r[i].artistName == cart[i].artistName
    ensures forall i :: 0 <= i < |cart| ==> r[i].quantity == if cart[i].id == id then quantity else cart[i].quantity
    decreases |cart|
  {
    if cart == [] then []
    else
      var head := if cart[0].id == id then cart[0].(quantity := quantity) else cart[0];
      [head] + SetQuantity(cart[1..], id, quantity)
  }

  /** `handleRemoveFromCart`: every line with this id is dropped, the others
      stay in order. */
  function RemoveLine(cart: seq<CartItem>, id: int): (r: seq<CartItem>)
    ensures |r| <= |cart|
    ensures forall i :: 0 <= i < |r| ==> r[i].id != id && r[i] in cart
    ensures forall i :: 0 <= i < |cart| && cart[i].id != id ==> cart[i] in r
  {
    Filter(cart, (item: CartItem) => item.id != id)
  }

  /** What one line costs before tax. */
  function LineAmount(item: CartItem): (amount: real)
  {
    item.price * item.quantity as real
  }

  /** The `reduce` of `calculateCartTotal`: a left fold of line amounts from 0. */
  function Subtotal(cart: seq<CartItem>): (subtotal: real)
    decreases |cart|
  {
    if cart == [] then 0.0 else Subtotal(cart[..|cart| - 1]) + LineAmount(cart[|cart| - 1])
  }

  /** The rate of the sales tax added to the cart. */
  const TaxRate: real := 0.08

  /** `calculateCartTotal`: the subtotal plus 8% tax on it. */
  function CartTotal(cart: seq<CartItem>): (total: real)
    ensures total == Subtotal(cart) * (1.0 + 8.0 / 100.0)
  {
    var subtotal := Subtotal(cart);
    var tax := subtotal * TaxRate;
    subtotal + tax
  }

  /** `handleCheckout`'s guard: payment opens only for a non-empty cart. */
  function CheckoutOpensPayment(cart: seq<CartItem>): (opens: bool)
    ensures opens <==> |cart| > 0
  {
    !(|cart| == 0)
  }

  // ---------------------------------------------------------------------
  // Adding

  /** Adding keeps "at most one line per artwork id". */
  lemma AddKeepsDistinct(cart: seq<CartItem>, a: Artwork)
    requires DistinctIds(cart)
    ensures DistinctIds(AddOrIncrement(cart, a))
  {
    var r := AddOrIncrement(cart, a);
    if a.id !in CartIds(cart) {
      forall i | 0 <= i < |cart|
        ensures cart[i].id != a.id
      {
        assert CartIds(cart)[i] == cart[i].id;
      }
    } else {
      assert forall i :: 0 <= i < |r| ==> r[i].id == cart[i].id;
    }
  }

  /** Adding the same artwork twice to a cart without it yields one line of
      quantity 2, not two lines. */
  lemma AddTwiceOneLine(cart: seq<CartItem>, a: Artwork)
    requires a.id !in CartIds(cart)
    ensures AddOrIncrement(AddOrIncrement(cart, a), a) == cart + [NewLine(a).(quantity := 2)]
  {
    var once := cart + [NewLine(a)];
    assert CartIds(once)[|cart|] == a.id;
    var twice := IncrementLines(once, a.id);
    var expected := cart + [NewLine(a).(quantity := 2)];
    forall i | 0 <= i < |once|
      ensures twice[i] == expected[i]
    {
      if i < |cart| {
        assert CartIds(cart)[i] == cart[i].id;
      }
    }
  }

  /** The add path never looks at `sold`: a sold artwork handed to it is
      added like any other. */
  lemma AddIgnoresSold(cart: seq<CartItem>, a: Artwork)
    ensures AddOrIncrement(cart, a.(sold := true)) == AddOrIncrement(cart, a.(sold := false))
  {
  }

  /** Removing an artwork right after adding it anew restores the cart. */
  lemma RemoveUndoesNewAdd(cart: seq<CartItem>, a: Artwork)
    requires a.id !in CartIds(cart)
    ensures RemoveLine(AddOrIncrement(cart, a), a.id) == cart
  {
    var p := (item: CartItem) => item.id != a.id;
    forall i | 0 <= i < |cart|
      ensures p(cart[i])
    {
      assert CartIds(cart)[i] == cart[i].id;
    }
    FilterConcat(cart, [NewLine(a)], p);
    FilterAll(cart, p);
  }

  /** Setting a line back to the quantity it had undoes an add that
      incremented it. */
  lemma SetQuantityUndoesIncrement(cart: seq<CartItem>, a: Artwork, k: int)
    requires DistinctIds(cart)
    requires 0 <= k < |cart| && cart[k].id == a.id
    ensures SetQuantity(AddOrIncrement(cart, a), a.id, cart[k].quantity) == cart
  {
    assert CartIds(cart)[k] == a.id;
    var r := SetQuantity(AddOrIncrement(cart, a), a.id, cart[k].quantity);
    assert forall i :: 0 <= i < |cart| ==> r[i] == cart[i];
  }

  // ---------------------------------------------------------------------
  // Setting quantities and removing

  /** A quantity change keeps "at most one line per artwork id". */
  lemma SetQuantityKeepsDistinct(cart: seq<CartItem>, id: int, quantity: int)
    requires DistinctIds(cart)
    ensures DistinctIds(SetQuantity(cart, id, quantity))
  {
  }

  /** Setting the same quantity twice is setting it once. */
  lemma SetQuantityIdempotent(cart: seq<CartItem>, id: int, quantity: int)
    ensures SetQuantity(SetQuantity(cart, id, quantity), id, quantity) == SetQuantity(cart, id, quantity)
  {
  }

  /** Removing an id the cart does not hold leaves it unchanged. */
  lemma RemoveAbsentUnchanged(cart: seq<CartItem>, id: int)
    requires id !in CartIds(cart)
    ensures RemoveLine(cart, id) == cart
  {
    var p := (item: CartItem) => item.id != id;
    forall i | 0 <= i < |cart|
      ensures p(cart[i])
    {
      assert CartIds(cart)[i] == cart[i].id;
    }
    FilterAll(cart, p);
  }

  /** The lines that survive a removal keep their order, and each survives
      as often as it occurs in the cart: a repeated line stays repeated. */
  lemma RemoveIsSubsequence(cart: seq<CartItem>, id: int, x: CartItem)
    ensures SubsequenceOf(RemoveLine(cart, id), cart)
    ensures multiset(RemoveLine(cart, id))[x] == if x.id != id then multiset(cart)[x] else 0
  {
    FilterIsSubsequence(cart, (item: CartItem) => item.id != id);
    FilterMultiplicity(cart, (item: CartItem) => item.id != id, x);
  }

  /** Removing keeps "at most one line per artwork id". */
  lemma {:induction false} RemoveKeepsDistinct(cart: seq<CartItem>, id: int)
    requires DistinctIds(cart)
    ensures DistinctIds(RemoveLine(cart, id))
    decreases |cart|
  {
    if cart != [] {
      RemoveKeepsDistinct(cart[1..], id);
      var rest := RemoveLine(cart[1..], id);
      forall j | 0 <= j < |rest|
        ensures rest[j].id != cart[0].id
      {
        var k :| 0 <= k < |cart[1..]| && cart[1..][k] == rest[j];
        assert cart[k + 1] == rest[j];
      }
    }
  }

  // ---------------------------------------------------------------------
  // Prices

  /** The subtotal distributes over concatenation. */
  lemma {:induction false} SubtotalConcat(a: seq<CartItem>, b: seq<CartItem>)
    ensures Subtotal(a + b) == Subtotal(a) + Subtotal(b)
    decreases |b|
  {
    if b == [] {
      assert a + b == a;
    } else {
      var b' := b[..|b| - 1];
      assert (a + b)[..|a + b| - 1] == a + b';
      SubtotalConcat(a, b');
    }
  }

  /** Replacing one line changes the subtotal by the difference of the two
      lines' amounts. */
  lemma SubtotalUpdate(cart: seq<CartItem>, k: int, item: CartItem)
    requires 0 <= k < |cart|
    ensures Subtotal(cart[k := item]) == Subtotal(cart) - LineAmount(cart[k]) + LineAmount(item)
  {
    var before, after := cart[..k], cart[k + 1..];
    assert cart == before + [cart[k]] + after;
    assert cart[k := item] == before + [item] + after;
    SubtotalConcat(before + [cart[k]], after);
    SubtotalConcat(before, [cart[k]]);
    SubtotalConcat(before + [item], after);
    SubtotalConcat(before, [item]);
    assert [item][..0] == [] && [cart[k]][..0] == [];
  }

  /** An empty cart costs nothing, and its checkout does not open payment. */
  lemma EmptyCartTotal()
    ensures CartTotal([]) == 0.0
    ensures !CheckoutOpensPayment([])
  {
  }

  /** Two of an item at 100 and one at 50: subtotal 250, tax 20, total 270. */
  lemma CartTotalExample(a: CartItem, b: CartItem)
    requires a.price == 100.0 && a.quantity == 2 && b.price == 50.0 && b.quantity == 1
    ensures Subtotal([a, b]) == 250.0
    ensures Subtotal([a, b]) * TaxRate == 20.0
    ensures CartTotal([a, b]) == 270.0
  {
    assert [a, b][..1] == [a];
    assert [a][..0] == [];
    assert LineAmount(a) == 200.0 && LineAmount(b) == 50.0;
    assert Subtotal([a]) == 200.0;
  }

  /** Adding an artwork the cart lacks raises the subtotal by its price. */
  lemma AddNewRaisesSubtotal(cart: seq<CartItem>, a: Artwork)
    requires a.id !in CartIds(cart)
    ensures Subtotal(AddOrIncrement(cart, a)) == Subtotal(cart) + a.price
  {
    SubtotalConcat(cart, [NewLine(a)]);
    assert [NewLine(a)][..0] == [];
  }

  /** No line other than the one at `k` carries that line's id. */
  predicate OnlyLineWithId(cart: seq<CartItem>, k: int)
  {
    0 <= k < |cart| && forall i :: 0 <= i < |cart| && i != k ==> cart[i].id != cart[k].id
  }

  /** With distinct ids, every line is the only one with its id. */
  lemma DistinctOnlyLine(cart: seq<CartItem>, k: int)
    requires DistinctIds(cart)
    requires 0 <= k < |cart|
    ensures OnlyLineWithId(cart, k)
  {
    forall i | 0 <= i < |cart| && i != k
      ensures cart[i].id != cart[k].id
    {
      if i < k {
        assert cart[i].id != cart[k].id;
      } else {
        assert cart[k].id != cart[i].id;
      }
    }
  }

  /** When the line at `k` is the only one with its id, an add increments
      that line alone. */
  lemma IncrementIsUpdate(cart: seq<CartItem>, k: int)
    requires OnlyLineWithId(cart, k)
    ensures IncrementLines(cart, cart[k].id) == cart[k := cart[k].(quantity := cart[k].quantity + 1)]
  {
    var r := IncrementLines(cart, cart[k].id);
    var u := cart[k := cart[k].(quantity := cart[k].quantity + 1)];
    forall i | 0 <= i < |cart|
      ensures r[i] == u[i]
    {
      if i != k {
        assert cart[i].id != cart[k].id;
      }
    }
  }

  /** When the line at `k` is the only one with its id, a quantity change
      touches that line alone. */
  lemma SetQuantityIsUpdate(cart: seq<CartItem>, k: int, quantity: int)
    requires OnlyLineWithId(cart, k)
    ensures SetQuantity(cart, cart[k].id, quantity) == cart[k := cart[k].(quantity := quantity)]
  {
    var r := SetQuantity(cart, cart[k].id, quantity);
    var u := cart[k := cart[k].(quantity := quantity)];
    forall i | 0 <= i < |cart|
      ensures r[i] == u[i]
    {
      if i != k {
        assert cart[i].id != cart[k].id;
      }
    }
  }

  /** When the line at `k` is the only one with its id, removing that id
      drops exactly that line. */
  lemma RemoveIsSplice(cart: seq<CartItem>, k: int)
    requires OnlyLineWithId(cart, k)
    ensures RemoveLine(cart, cart[k].id) == cart[..k] + cart[k + 1..]
  {
    var id := cart[k].id;
    var before, after := cart[..k], cart[k + 1..];
    SplitAt(cart, k);
    assert forall i :: 0 <= i < |before| ==> before[i] == cart[i];
    assert forall i :: 0 <= i < |after| ==> after[i] == cart[k + 1 + i];
    FilterDropsOne(before, cart[k], after, (item: CartItem) => item.id != id);
  }

  /** A line's amount changes by its price times the change in quantity. */
  lemma LineAmountChange(item: CartItem, quantity: int)
    ensures LineAmount(item.(quantity := quantity)) == LineAmount(item) + item.price * (quantity - item.quantity) as real
  {
    var d := (quantity - item.quantity) as real;
    assert quantity as real == item.quantity as real + d;
    assert item.price * (item.quantity as real + d) == item.price * item.quantity as real + item.price * d;
  }

  /** Changing the quantity of the line at `k` changes the subtotal by that
      line's price times the change in quantity. */
  lemma SubtotalQuantityAt(cart: seq<CartItem>, k: int, quantity: int)
    requires 0 <= k < |cart|
    ensures Subtotal(cart[k := cart[k].(quantity := quantity)]) ==
      Subtotal(cart) + cart[k].price * (quantity - cart[k].quantity) as real
  {
    SubtotalUpdate(cart, k, cart[k].(quantity := quantity));
    LineAmountChange(cart[k], quantity);
  }

  /** One more of the line at `k` raises the subtotal by that line's price. */
  lemma SubtotalIncrementAt(cart: seq<CartItem>, k: int)
    requires 0 <= k < |cart|
    ensures Subtotal(cart[k := cart[k].(quantity := cart[k].quantity + 1)]) == Subtotal(cart) + cart[k].price
  {
    SubtotalUpdate(cart, k, cart[k].(quantity := cart[k].quantity + 1));
    assert (cart[k].quantity + 1) as real == cart[k].quantity as real + 1.0;
  }

  /** Appending a line adds its amount to the subtotal. */
  lemma SubtotalSnoc(cart: seq<CartItem>, item: CartItem)
    ensures Subtotal(cart + [item]) == Subtotal(cart) + LineAmount(item)
  {
    assert (cart + [item])[..|cart|] == cart;
  }

  /** A line between two parts of a cart adds its amount to theirs. */
  lemma SubtotalSpliceParts(before: seq<CartItem>, item: CartItem, after: seq<CartItem>)
    ensures Subtotal(before + [item] + after) == Subtotal(before + after) + LineAmount(item)
  {
    SubtotalConcat(before + [item], after);
    SubtotalSnoc(before, item);
    SubtotalConcat(before, after);
  }

  /** Dropping the line at `k` lowers the subtotal by that line's amount. */
  lemma SubtotalSplice(cart: seq<CartItem>, k: int)
    requires 0 <= k < |cart|
    ensures Subtotal(cart[..k] + cart[k + 1..]) == Subtotal(cart) - LineAmount(cart[k])
  {
    SplitAt(cart, k);
    SubtotalSpliceParts(cart[..k], cart[k], cart[k + 1..]);
  }

  /** With distinct ids, adding the artwork of the line at `k` increments that
      line alone. */
  lemma AddExistingIsUpdate(cart: seq<CartItem>, a: Artwork, k: int)
    requires DistinctIds(cart)
    requires 0 <= k < |cart| && cart[k].id == a.id
    ensures AddOrIncrement(cart, a) == cart[k := cart[k].(quantity := cart[k].quantity + 1)]
  {
    assert CartIds(cart)[k] == a.id;
    DistinctOnlyLine(cart, k);
    IncrementIsUpdate(cart, k);
  }

  /** Adding an artwork the cart holds raises the subtotal by the price
      recorded on its line, which may differ from the artwork's price now. */
  lemma AddExistingRaisesSubtotal(cart: seq<CartItem>, a: Artwork, k: int)
    requires DistinctIds(cart)
    requires 0 <= k < |cart| && cart[k].id == a.id
    ensures Subtotal(AddOrIncrement(cart, a)) == Subtotal(cart) + cart[k].price
  {
    AddExistingIsUpdate(cart, a, k);
    SubtotalIncrementAt(cart, k);
  }

  /** Setting the quantity of the line at `k` changes the subtotal by the
      price of that line times the change in quantity. */
  lemma SetQuantitySubtotal(cart: seq<CartItem>, k: int, quantity: int)
    requires DistinctIds(cart)
    requires 0 <= k < |cart|
    ensures Subtotal(SetQuantity(cart, cart[k].id, quantity)) ==
      Subtotal(cart) + cart[k].price * (quantity - cart[k].quantity) as real
  {
    DistinctOnlyLine(cart, k);
    SetQuantityIsUpdate(cart, k, quantity);
    SubtotalQuantityAt(cart, k, quantity);
  }

  /** Removing the line at `k` lowers the subtotal by that line's amount. */
  lemma RemoveLowersSubtotal(cart: seq<CartItem>, k: int)
    requires DistinctIds(cart)
    requires 0 <= k < |cart|
    ensures Subtotal(RemoveLine(cart, cart[k].id)) == Subtotal(cart) - LineAmount(cart[k])
  {
    DistinctOnlyLine(cart, k);
    RemoveIsSplice(cart, k);
    SubtotalSplice(cart, k);
  }
}
