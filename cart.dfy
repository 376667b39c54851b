/** The client-side shopping cart: a list of line items kept in component state
    and written back to local storage after every change. */
module Cart {
  import opened Common

  /** A product as the catalogue API delivers it. Prices are in integer cents;
      an absent `stock` reads as 0 (`product.stock || 0`). */
  datatype Product = Product(
    id: int,
    title: string,
    slug: string,
    priceCents: int,
    stock: int,
    imageUrl: Option<string>,
    image2Url: Option<string>,
    image3Url: Option<string>,
    image4Url: Option<string>)

  /** A cart line: the product's fields spread into the item, plus a quantity. */
  datatype Line = Line(product: Product, quantity: int)

  /** No two lines share a product id. */
  ghost predicate DistinctIds(items: seq<Line>) {
    forall i, j :: 0 <= i < j < |items| ==> items[i].product.id != items[j].product.id
  }

  /** The index of the first line holding product `id`, or `|items|` (`Array.find`). */
  function FindIndex(items: seq<Line>, id: int): (k: nat)
    ensures k <= |items|
    ensures forall j :: 0 <= j < k ==> items[j].product.id != id
    ensures k < |items| ==> items[k].product.id == id
  {
    if items == [] then 0
    else if items[0].product.id == id then 0
    else 1 + FindIndex(items[1..], id)
  }

  function Find(items: seq<Line>, id: int): Option<Line> {
    var k := FindIndex(items, id);
    if k < |items| then Some(items[k]) else None
  }

  /** `items.map(item => item.id === id ? { ...item, quantity: q } : item)` */
  function SetQuantity(items: seq<Line>, id: int, q: int): seq<Line> {
    seq(|items|, i requires 0 <= i < |items| =>
      if items[i].product.id == id then items[i].(quantity := q) else items[i])
  }

  /** `addToCart(product, quantity)`. A product already in the cart has the
      quantity of its (first) line raised by `qty`, capped at the product's
      stock, on every line with its id; a new product is appended with
      `min(qty, stock)`, unless that is not positive. */
  function AddToCart(items: seq<Line>, p: Product, qty: int): (r: seq<Line>)
    ensures var k := FindIndex(items, p.id);
      k < |items| ==>
        |r| == |items| &&
        forall i :: 0 <= i < |items| ==>
          r[i] == if items[i].product.id == p.id
                  then items[i].(quantity := Min(items[k].quantity + qty, p.stock))
                  else items[i]
    ensures FindIndex(items, p.id) == |items| ==>
      if Min(qty, p.stock) <= 0 then r == items else r == items + [Line(p, Min(qty, p.stock))]
  {
    var k := FindIndex(items, p.id);
    var available := p.stock;
    if k < |items| then
      var newQuantity := items[k].quantity + qty;
      if newQuantity > available then SetQuantity(items, p.id, available)
      else SetQuantity(items, p.id, newQuantity)
    else
      var finalQuantity := if qty <= available then qty else available;
      if finalQuantity <= 0 then items
      else items + [Line(p, finalQuantity)]
  }

  /** `items.filter(item => item.id !== id)` */
  function RemoveFromCart(items: seq<Line>, id: int): seq<Line> {
    if items == [] then []
    else if items[|items| - 1].product.id == id then RemoveFromCart(items[..|items| - 1], id)
    else RemoveFromCart(items[..|items| - 1], id) + [items[|items| - 1]]
  }

  /** Removal leaves no line of the product, keeps every line of another
      product, and adds none. */
  lemma {:induction false} RemoveFromCartKeeps(items: seq<Line>, id: int)
    ensures var r := RemoveFromCart(items, id);
      |r| <= |items| &&
      (forall i :: 0 <= i < |r| ==> r[i].product.id != id) &&
      (forall l :: l in items && l.product.id != id ==> l in r) &&
      (forall l :: l in r ==> l in items)
    decreases |items|
  {
    if items != [] {
      var init := items[..|items| - 1];
      RemoveFromCartKeeps(init, id);
      assert items == init + [items[|items| - 1]];
    }
  }

  /** `updateQuantity(id, q)`: a quantity of zero or less removes the product;
      otherwise every line of that product gets `min(q, its own stored stock)`. */
  function UpdateQuantity(items: seq<Line>, id: int, q: int): (r: seq<Line>)
    ensures q <= 0 ==> r == RemoveFromCart(items, id)
    ensures q > 0 ==>
      |r| == |items| &&
      forall i :: 0 <= i < |items| ==>
        r[i] == if items[i].product.id == id
                then items[i].(quantity := Min(q, items[i].product.stock))
                else items[i]
  {
    if q <= 0 then RemoveFromCart(items, id)
    else
      seq(|items|, i requires 0 <= i < |items| =>
        if items[i].product.id == id
        then items[i].(quantity := if q <= items[i].product.stock then q else items[i].product.stock)
        else items[i])
  }

  /** What one line adds to the total, `parseFloat(item.price) * item.quantity`. */
  function LineTotal(l: Line): int {
    l.product.priceCents * l.quantity
  }

  /** `getCartTotal`: a left fold over the lines, as `reduce` computes it. */
  function CartTotal(items: seq<Line>): int {
    if items == [] then 0 else CartTotal(items[..|items| - 1]) + LineTotal(items[|items| - 1])
  }

  /** `getCartItemCount` */
  function CartItemCount(items: seq<Line>): int {
    if items == [] then 0 else CartItemCount(items[..|items| - 1]) + items[|items| - 1].quantity
  }

  // ---------------------------------------------------------------------
  // Sums over concatenations
  // ---------------------------------------------------------------------

  lemma {:induction false} TotalAppend(a: seq<Line>, b: seq<Line>)
    ensures CartTotal(a + b) == CartTotal(a) + CartTotal(b)
    ensures CartItemCount(a + b) == CartItemCount(a) + CartItemCount(b)
    decreases |b|
  {
    if b == [] {
      assert a + b == a;
    } else {
      var b' := b[..|b| - 1];
      assert (a + b)[..|a + b| - 1] == a + b';
      TotalAppend(a, b');
    }
  }

  lemma TotalSingle(l: Line)
    ensures CartTotal([l]) == LineTotal(l) && CartItemCount([l]) == l.quantity
  {
    assert [l][..0] == [];
  }

  /** Splitting the cart around line `k`. */
  lemma TotalAround(items: seq<Line>, k: nat)
    requires k < |items|
    ensures CartTotal(items) == CartTotal(items[..k]) + LineTotal(items[k]) + CartTotal(items[k + 1..])
    ensures CartItemCount(items) == CartItemCount(items[..k]) + items[k].quantity + CartItemCount(items[k + 1..])
  {
    assert items == items[..k] + [items[k]] + items[k + 1..];
    TotalAppend(items[..k] + [items[k]], items[k + 1..]);
    TotalAppend(items[..k], [items[k]]);
    TotalSingle(items[k]);
  }

  // ---------------------------------------------------------------------
  // Properties of the operations
  // ---------------------------------------------------------------------

  /** Two line lists that agree everywhere except at position `k`. */
  lemma TotalReplaceAt(items: seq<Line>, r: seq<Line>, k: nat)
    requires k < |items| == |r|
    requires forall i :: 0 <= i < |items| && i != k ==> r[i] == items[i]
    ensures CartTotal(r) == CartTotal(items) - LineTotal(items[k]) + LineTotal(r[k])
    ensures CartItemCount(r) == CartItemCount(items) - items[k].quantity + r[k].quantity
  {
    assert r[..k] == items[..k];
    assert r[k + 1..] == items[k + 1..];
    TotalAround(items, k);
    TotalAround(r, k);
  }

  /** Setting the quantity of the line at `k` to `nq` changes the total by
      its price times the change, and the count by the change. */
  lemma TotalSetAt(items: seq<Line>, r: seq<Line>, k: nat, nq: int)
    requires k < |items| == |r| && r[k] == items[k].(quantity := nq)
    requires forall i :: 0 <= i < |items| && i != k ==> r[i] == items[i]
    ensures CartTotal(r) == CartTotal(items) + items[k].product.priceCents * (nq - items[k].quantity)
    ensures CartItemCount(r) == CartItemCount(items) + (nq - items[k].quantity)
  {
    TotalReplaceAt(items, r, k);
    Distribute(items[k].product.priceCents, nq, items[k].quantity);
  }

  /** With distinct ids, the line at `k` is the only line of its product. */
  lemma OnlyLineOf(items: seq<Line>, k: nat)
    requires DistinctIds(items) && k < |items|
    ensures forall i :: 0 <= i < |items| && i != k ==> items[i].product.id != items[k].product.id
  {
  }

  /** addToCart keeps product ids distinct. */
  lemma AddKeepsDistinct(items: seq<Line>, p: Product, qty: int)
    requires DistinctIds(items)
    ensures DistinctIds(AddToCart(items, p, qty))
  {
    var r := AddToCart(items, p, qty);
    var k := FindIndex(items, p.id);
    if k < |items| {
      assert forall i :: 0 <= i < |r| ==> r[i].product.id == items[i].product.id;
    } else if Min(qty, p.stock) > 0 {
      assert forall i :: 0 <= i < |items| ==> r[i] == items[i];
    }
  }

  /** After addToCart the product's line never holds more than the stock
      passed in, and a product whose line already had at least that much does
      not gain any quantity. */
  lemma AddCapsAtStock(items: seq<Line>, p: Product, qty: int)
    requires DistinctIds(items)
    ensures var r := AddToCart(items, p, qty);
      Find(r, p.id).Some? ==> Find(r, p.id).value.quantity <= p.stock
    ensures var r := AddToCart(items, p, qty);
      Find(items, p.id).Some? && Find(items, p.id).value.quantity >= p.stock && qty >= 0 ==>
        Find(r, p.id).Some? && Find(r, p.id).value.quantity <= Find(items, p.id).value.quantity
  {
    var r := AddToCart(items, p, qty);
    var k := FindIndex(items, p.id);
    if k < |items| {
      assert FindIndex(r, p.id) == k by {
        assert forall j :: 0 <= j < k ==> r[j] == items[j];
        FindIndexIs(r, p.id, k);
      }
    } else if Min(qty, p.stock) > 0 {
      assert FindIndex(r, p.id) == |items| by {
        assert forall j :: 0 <= j < |items| ==> r[j] == items[j];
        FindIndexIs(r, p.id, |items|);
      }
    } else {
      assert r == items;
    }
  }

  lemma FindIndexIs(items: seq<Line>, id: int, k: nat)
    requires k < |items| && items[k].product.id == id
    requires forall j :: 0 <= j < k ==> items[j].product.id != id
    ensures FindIndex(items, id) == k
  {
  }

  /** Adding `qty` of a product the cart already holds changes the total and
      the item count by exactly the change of that one line. */
  lemma AddExistingTotal(items: seq<Line>, p: Product, qty: int)
    requires DistinctIds(items)
    requires Find(items, p.id).Some?
    ensures var old_ := Find(items, p.id).value;
      var q := Min(old_.quantity + qty, p.stock);
      var r := AddToCart(items, p, qty);
      CartTotal(r) == CartTotal(items) + old_.product.priceCents * (q - old_.quantity) &&
      CartItemCount(r) == CartItemCount(items) + (q - old_.quantity)
  {
    var k := FindIndex(items, p.id);
    var r := AddToCart(items, p, qty);
    var q := Min(items[k].quantity + qty, p.stock);
    OnlyLineOf(items, k);
    assert r[k] == items[k].(quantity := q);
    TotalSetAt(items, r, k, q);
  }

  /** Adding a new product grows the total by its line and the count by its
      quantity, or changes nothing when the clamped quantity is not positive. */
  lemma AddNewTotal(items: seq<Line>, p: Product, qty: int)
    requires Find(items, p.id).None?
    ensures var q := Min(qty, p.stock);
      var r := AddToCart(items, p, qty);
      (q <= 0 ==> r == items) &&
      (q > 0 ==> CartTotal(r) == CartTotal(items) + p.priceCents * q &&
                 CartItemCount(r) == CartItemCount(items) + q)
  {
    var q := Min(qty, p.stock);
    if q > 0 {
      TotalAppend(items, [Line(p, q)]);
      TotalSingle(Line(p, q));
    }
  }

  /** removeFromCart in the middle of a list of distinct ids cuts out exactly
      that line: the others keep their order. */
  lemma RemoveAt(items: seq<Line>, k: nat)
    requires k < |items|
    requires forall i :: 0 <= i < |items| && i != k ==> items[i].product.id != items[k].product.id
    ensures RemoveFromCart(items, items[k].product.id) == items[..k] + items[k + 1..]
  {
    var id := items[k].product.id;
    var a, b := items[..k], items[k + 1..];
    assert RemoveFromCart(items, id) == RemoveFromCart(a + [items[k]], id) + RemoveFromCart(b, id) by {
      assert items == a + [items[k]] + b;
      RemoveAppend(a + [items[k]], b, id);
    }
    assert RemoveFromCart(a + [items[k]], id) == RemoveFromCart(a, id) by {
      RemoveAppend(a, [items[k]], id);
      assert [items[k]][..0] == [];
      assert RemoveFromCart([items[k]], id) == [];
    }
    assert RemoveFromCart(a, id) == a by {
      forall i | 0 <= i < |a| ensures a[i].product.id != id {
        assert a[i] == items[i];
      }
      RemoveAbsent(a, id);
    }
    assert RemoveFromCart(b, id) == b by {
      forall i | 0 <= i < |b| ensures b[i].product.id != id {
        assert b[i] == items[k + 1 + i];
      }
      RemoveAbsent(b, id);
    }
  }

  /** removeFromCart of an id that no line holds changes nothing. */
  lemma {:induction false} RemoveAbsent(items: seq<Line>, id: int)
    requires forall i :: 0 <= i < |items| ==> items[i].product.id != id
    ensures RemoveFromCart(items, id) == items
    decreases |items|
  {
    if items != [] {
      RemoveAbsent(items[..|items| - 1], id);
    }
  }

  /** removeFromCart distributes over concatenation, so it keeps the relative
      order of all remaining lines. */
  lemma {:induction false} RemoveAppend(a: seq<Line>, b: seq<Line>, id: int)
    ensures RemoveFromCart(a + b, id) == RemoveFromCart(a, id) + RemoveFromCart(b, id)
    decreases |b|
  {
    if b == [] {
      assert a + b == a;
    } else {
      var b' := b[..|b| - 1];
      assert (a + b)[..|a + b| - 1] == a + b';
      RemoveAppend(a, b', id);
    }
  }

  /** Cutting one line out of a list of distinct ids leaves distinct ids. */
  lemma CutKeepsDistinct(items: seq<Line>, k: nat)
    requires DistinctIds(items) && k < |items|
    ensures DistinctIds(items[..k] + items[k + 1..])
  {
    var r := items[..k] + items[k + 1..];
    forall i, j | 0 <= i < j < |r| ensures r[i].product.id != r[j].product.id {
      var i' := if i < k then i else i + 1;
      var j' := if j < k then j else j + 1;
      assert r[i] == items[i'] && r[j] == items[j'];
    }
  }

  /** removeFromCart keeps DistinctIds and takes the line's share off the sums. */
  lemma RemoveTotal(items: seq<Line>, id: int)
    requires DistinctIds(items)
    ensures DistinctIds(RemoveFromCart(items, id))
    ensures Find(items, id).None? ==> RemoveFromCart(items, id) == items
    ensures Find(items, id).Some? ==>
      CartTotal(RemoveFromCart(items, id)) == CartTotal(items) - LineTotal(Find(items, id).value) &&
      CartItemCount(RemoveFromCart(items, id)) == CartItemCount(items) - Find(items, id).value.quantity
  {
    var k := FindIndex(items, id);
    if k < |items| {
      var r := items[..k] + items[k + 1..];
      OnlyLineOf(items, k);
      RemoveAt(items, k);
      assert RemoveFromCart(items, id) == r;
      TotalAround(items, k);
      TotalAppend(items[..k], items[k + 1..]);
      CutKeepsDistinct(items, k);
    } else {
      RemoveAbsent(items, id);
    }
  }

  /** updateQuantity keeps DistinctIds; with a positive quantity it changes the
      total and count by the change of the one line it touches. */
  lemma UpdateTotal(items: seq<Line>, id: int, q: int)
    requires DistinctIds(items)
    ensures DistinctIds(UpdateQuantity(items, id, q))
    ensures q > 0 && Find(items, id).Some? ==>
      var l := Find(items, id).value;
      var nq := Min(q, l.product.stock);
      CartTotal(UpdateQuantity(items, id, q)) == CartTotal(items) + l.product.priceCents * (nq - l.quantity) &&
      CartItemCount(UpdateQuantity(items, id, q)) == CartItemCount(items) + (nq - l.quantity)
    ensures q > 0 && Find(items, id).None? ==> UpdateQuantity(items, id, q) == items
  {
    if q <= 0 {
      RemoveTotal(items, id);
    } else {
      var r := UpdateQuantity(items, id, q);
      assert DistinctIds(r) by {
        assert forall i :: 0 <= i < |r| ==> r[i].product.id == items[i].product.id;
      }
      var k := FindIndex(items, id);
      if k < |items| {
        OnlyLineOf(items, k);
        UpdateChangesOnlyK(items, id, q, k);
        TotalSetAt(items, r, k, Min(q, items[k].product.stock));
      } else {
        assert forall i :: 0 <= i < |r| ==> r[i] == items[i];
      }
    }
  }

  /** A positive update of the only line with its id changes that line and
      leaves every other line as it was. */
  lemma UpdateChangesOnlyK(items: seq<Line>, id: int, q: int, k: nat)
    requires q > 0 && k < |items| && items[k].product.id == id
    requires forall i :: 0 <= i < |items| && i != k ==> items[i].product.id != id
    ensures var r := UpdateQuantity(items, id, q);
      |r| == |items| && r[k] == items[k].(quantity := Min(q, items[k].product.stock)) &&
      forall i :: 0 <= i < |items| && i != k ==> r[i] == items[i]
  {
  }

  lemma Distribute(a: int, b: int, c: int)
    ensures a * b - a * c == a * (b - c)
  {
  }

  /** Quantities stay non-negative under every operation, as long as stock
      figures are non-negative and additions are not negative. */
  ghost predicate NonNegative(items: seq<Line>) {
    forall i :: 0 <= i < |items| ==> items[i].quantity >= 0 && items[i].product.stock >= 0
  }

  lemma OperationsKeepNonNegative(items: seq<Line>, p: Product, qty: int, id: int, q: int)
    requires NonNegative(items)
    ensures p.stock >= 0 && qty >= 0 ==> NonNegative(AddToCart(items, p, qty))
    ensures NonNegative(RemoveFromCart(items, id))
    ensures NonNegative(UpdateQuantity(items, id, q))
  {
    var r := RemoveFromCart(items, id);
    RemoveFromCartKeeps(items, id);
    forall i | 0 <= i < |r| ensures r[i].quantity >= 0 && r[i].product.stock >= 0 {
      assert r[i] in items;
    }
    if q <= 0 {
      assert UpdateQuantity(items, id, q) == r;
    }
  }

  // ---------------------------------------------------------------------
  // The provider: state plus its persisted copy
  // ---------------------------------------------------------------------

  /** What local storage holds under the cart key when the provider mounts. */
  datatype Stored = Absent | Unreadable | Saved(items: seq<Line>)

  class CartStore {
    /** `cartItems` */
    var items: seq<Line>
    /** local storage's `cart` entry */
    var storage: Stored

    /** After every render the save effect has written the list back. */
    ghost predicate Valid()
      reads this
    {
      storage == Saved(items)
    }

    /** Mounting: the load effect takes a readable saved list (an absent or
        unreadable entry leaves the empty list), and the save effect writes
        the resulting list back. */
    constructor (stored: Stored)
      ensures Valid()
      ensures items == (if stored.Saved? then stored.items else [])
    {
      items := if stored.Saved? then stored.items else [];
      storage := Saved(items);
    }

    method Add(p: Product, qty: int)
      requires Valid()
      modifies this
      ensures Valid()
      ensures items == AddToCart(old(items), p, qty)
      ensures old(DistinctIds(items)) ==> DistinctIds(items)
    {
      if DistinctIds(items) { AddKeepsDistinct(items, p, qty); }
      items := AddToCart(items, p, qty);
      storage := Saved(items);
    }

    method Remove(id: int)
      requires Valid()
      modifies this
      ensures Valid()
      ensures items == RemoveFromCart(old(items), id)
      ensures old(DistinctIds(items)) ==> DistinctIds(items)
    {
      if DistinctIds(items) { RemoveTotal(items, id); }
      items := RemoveFromCart(items, id);
      storage := Saved(items);
    }

    method Update(id: int, q: int)
      requires Valid()
      modifies this
      ensures Valid()
      ensures items == UpdateQuantity(old(items), id, q)
      ensures old(DistinctIds(items)) ==> DistinctIds(items)
    {
      if DistinctIds(items) { UpdateTotal(items, id, q); }
      if q <= 0 {
        Remove(id);
        return;
      }
      items := UpdateQuantity(items, id, q);
      storage := Saved(items);
    }

    method Clear()
      requires Valid()
      modifies this
      ensures Valid()
      ensures items == []
    {
      items := [];
      storage := Saved(items);
    }

    function Total(): int
      reads this
    {
      CartTotal(items)
    }

    function ItemCount(): int
      reads this
    {
      CartItemCount(items)
    }
  }

  /** A reload mounts a new provider over the same storage and sees the same
      list: persistence loses nothing. */
  method Reload(cart: CartStore) returns (reloaded: CartStore)
    requires cart.Valid()
    ensures fresh(reloaded) && reloaded.Valid()
    ensures reloaded.items == cart.items
  {
    reloaded := new CartStore(cart.storage);
  }
}
