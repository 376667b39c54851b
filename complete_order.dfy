/** The order-completion endpoint: it checks the posted cart, computes the
    total, joins the shipping address, records the order and its items, and
    takes the sold quantities out of stock. The database is a class whose
    tables are fields. */
module CompleteOrder {
  import opened Common
  import opened Cart
  import opened PaymentModels

  /** A numeric field of a posted cart item: absent, a number, or something
      `float()`/`int()` cannot convert. */
  datatype Value = Missing | Num(n: int) | Malformed

  /** One entry of `cart_items`. Prices are in cents. */
  datatype CartItem = CartItem(id: Option<int>, price: Value, quantity: Value)

  /** `item.get(key, d)` converted to a number. */
  function ValueOr(v: Value, d: int): int
    requires !v.Malformed?
  {
    if v.Num? then v.n else d
  }

  predicate WellFormed(items: seq<CartItem>) {
    forall i :: 0 <= i < |items| ==> !items[i].price.Malformed? && !items[i].quantity.Malformed?
  }

  /** `sum(float(price) * int(quantity))`, a missing field counting 0. */
  function OrderTotal(items: seq<CartItem>): int
    requires WellFormed(items)
  {
    if items == [] then 0
    else
      var last := items[|items| - 1];
      OrderTotal(items[..|items| - 1]) + ValueOr(last.price, 0) * ValueOr(last.quantity, 0)
  }

  /** The quantity the stock loop uses: `int(item.get('quantity', 1))`. */
  function SoldQuantity(item: CartItem): int
    requires !item.quantity.Malformed?
  {
    ValueOr(item.quantity, DefaultQuantity)
  }

  /** A cart item without a quantity adds nothing to the amount paid but
      still takes one unit out of stock: the two defaults disagree. */
  lemma MissingQuantityDefaults(item: CartItem)
    requires item.quantity.Missing? && !item.price.Malformed?
    ensures OrderTotal([item]) == 0
    ensures SoldQuantity(item) == 1
  {
    assert [item][..0] == [];
  }

  /** The cart line as the checkout page posts it. */
  function Posted(l: Line): CartItem {
    CartItem(Some(l.product.id), Num(l.product.priceCents), Num(l.quantity))
  }

  function PostedCart(items: seq<Line>): (r: seq<CartItem>)
    ensures |r| == |items| && WellFormed(r)
    ensures forall i :: 0 <= i < |items| ==> r[i] == Posted(items[i])
  {
    seq(|items|, i requires 0 <= i < |items| => Posted(items[i]))
  }

  /** The amount the server records for a cart posted by the checkout page
      is the total the cart showed. */
  lemma {:induction false} ServerTotalIsCartTotal(items: seq<Line>)
    ensures OrderTotal(PostedCart(items)) == CartTotal(items)
    decreases |items|
  {
    if items != [] {
      var n := |items| - 1;
      ServerTotalIsCartTotal(items[..n]);
      assert PostedCart(items)[..n] == PostedCart(items[..n]);
      TotalAppend(items[..n], [items[n]]);
      TotalSingle(items[n]);
      assert items[..n] + [items[n]] == items;
    }
  }

  // ---------------------------------------------------------------------
  // The shipping address
  // ---------------------------------------------------------------------

  /** `shipping_data.get(key, '')` */
  function Field(shipping: map<string, string>, key: string): string {
    if key in shipping then shipping[key] else ""
  }

  /** `filter(None, parts)`: the non-empty parts, in order. */
  function NonEmpty(parts: seq<string>): (r: seq<string>)
    ensures |r| <= |parts|
    ensures forall k :: 0 <= k < |r| ==> r[k] != [] && r[k] in parts
  {
    if parts == [] then []
    else
      var rest := NonEmpty(parts[1..]);
      if parts[0] == [] then rest else [parts[0]] + rest
  }

  /** `filter(None, ...)` keeps a lone part exactly when it is non-empty ... */
  lemma NonEmptySingle(part: string)
    ensures NonEmpty([part]) == if part == [] then [] else [part]
  {
    assert [part][1..] == [];
  }

  /** ... and works part by part, in order: filtering a concatenation is
      concatenating the filtered parts. */
  lemma {:induction false} NonEmptyAppend(a: seq<string>, b: seq<string>)
    ensures NonEmpty(a + b) == NonEmpty(a) + NonEmpty(b)
    decreases |a|
  {
    if a != [] {
      assert (a + b)[1..] == a[1..] + b;
      NonEmptyAppend(a[1..], b);
    } else {
      assert a + b == b;
    }
  }

  function AddressParts(shipping: map<string, string>): seq<string> {
    [Field(shipping, "address1"), Field(shipping, "address2"), Field(shipping, "city"),
     Field(shipping, "state"), Field(shipping, "zipcode")]
  }

  /** The address lines joined by newlines. */
  function ShippingAddress(shipping: map<string, string>): string {
    Join(NonEmpty(AddressParts(shipping)), '\n')
  }

  /** The address lines are the five shipping fields in their order
      (`address1`, `address2`, `city`, `state`, `zipcode`), each kept when
      non-empty. */
  lemma AddressLinesInOrder(shipping: map<string, string>)
    ensures var ps := AddressParts(shipping);
      NonEmpty(ps) == NonEmpty([ps[0]]) + NonEmpty([ps[1]]) + NonEmpty([ps[2]]) + NonEmpty([ps[3]]) + NonEmpty([ps[4]])
  {
    var ps := AddressParts(shipping);
    var a, b, c, d, e := ps[0], ps[1], ps[2], ps[3], ps[4];
    assert ps == [a, b, c, d] + [e];
    assert [a, b, c, d] == [a, b, c] + [d];
    assert [a, b, c] == [a, b] + [c];
    assert [a, b] == [a] + [b];
    NonEmptyAppend([a, b, c, d], [e]);
    NonEmptyAppend([a, b, c], [d]);
    NonEmptyAppend([a, b], [c]);
    NonEmptyAppend([a], [b]);
  }

  /** When no part holds a newline, the address splits back into exactly its
      non-empty parts, in order; with no parts it is empty. */
  lemma AddressLinesRecoverable(shipping: map<string, string>)
    requires forall k :: 0 <= k < 5 ==> '\n' !in AddressParts(shipping)[k]
    ensures NonEmpty(AddressParts(shipping)) == [] ==> ShippingAddress(shipping) == []
    ensures NonEmpty(AddressParts(shipping)) != [] ==>
      Split(ShippingAddress(shipping), '\n') == NonEmpty(AddressParts(shipping))
  {
    var lines := NonEmpty(AddressParts(shipping));
    if lines != [] {
      forall k | 0 <= k < |lines| ensures '\n' !in lines[k] {
        var j :| 0 <= j < 5 && AddressParts(shipping)[j] == lines[k];
      }
      SplitJoin(lines, '\n');
    }
  }

  // ---------------------------------------------------------------------
  // Stock bookkeeping
  // ---------------------------------------------------------------------

  /** A `Product` row as the loop reads and saves it. Both counts are
      `PositiveIntegerField`s, so the database refuses to store a negative
      value in either. */
  datatype StoredProduct = StoredProduct(title: string, stock: int, unitsSold: int)

  /** Every stored product has a non-negative stock and units sold. */
  predicate NonNegativeStock(products: map<int, StoredProduct>) {
    forall k :: k in products ==> products[k].stock >= 0 && products[k].unitsSold >= 0
  }

  /** One save of the loop: a known product loses the item's quantity from
      stock and gains it in units sold; an unknown id changes nothing. */
  function NextStock(products: map<int, StoredProduct>, item: CartItem): (r: map<int, StoredProduct>)
    requires !item.quantity.Malformed?
    ensures r.Keys == products.Keys
  {
    if item.id.Some? && item.id.value in products then
      var p := products[item.id.value];
      var q := SoldQuantity(item);
      products[item.id.value := p.(stock := p.stock - q, unitsSold := p.unitsSold + q)]
    else products
  }

  /** The product table after the loop has saved `items`, one after the
      other (a product named twice is updated twice); no entry is added or
      dropped. */
  function StockAfter(products: map<int, StoredProduct>, items: seq<CartItem>): (r: map<int, StoredProduct>)
    requires WellFormed(items)
    ensures r.Keys == products.Keys
  {
    if items == [] then products
    else NextStock(StockAfter(products, items[..|items| - 1]), items[|items| - 1])
  }

  /** One more item of the loop is one more save. */
  lemma StockAfterStep(products: map<int, StoredProduct>, items: seq<CartItem>, i: nat)
    requires i < |items| && WellFormed(items)
    ensures StockAfter(products, items[..i + 1]) == NextStock(StockAfter(products, items[..i]), items[i])
  {
    assert items[..i + 1][..i] == items[..i];
  }

  /** The units of product `k` the items sell. */
  function SoldOf(items: seq<CartItem>, k: int): int
    requires WellFormed(items)
  {
    if items == [] then 0
    else
      var last := items[|items| - 1];
      SoldOf(items[..|items| - 1], k) + (if last.id == Some(k) then SoldQuantity(last) else 0)
  }

  /** Each known product's stock falls, and its units sold rise, by exactly
      what the items sell of it. `StockAfter` itself does not look at the
      stock; the endpoint stops before a save the columns refuse. */
  lemma {:induction false} StockAfterSells(products: map<int, StoredProduct>, items: seq<CartItem>)
    requires WellFormed(items)
    ensures forall k :: k in products ==>
      StockAfter(products, items)[k] ==
        products[k].(stock := products[k].stock - SoldOf(items, k),
                     unitsSold := products[k].unitsSold + SoldOf(items, k))
    decreases |items|
  {
    if items != [] {
      StockAfterSells(products, items[..|items| - 1]);
    }
  }

  /** Stock plus units sold is the same before and after. */
  lemma StockPlusSoldPreserved(products: map<int, StoredProduct>, items: seq<CartItem>, k: int)
    requires WellFormed(items) && k in products
    ensures k in StockAfter(products, items)
    ensures StockAfter(products, items)[k].stock + StockAfter(products, items)[k].unitsSold ==
            products[k].stock + products[k].unitsSold
  {
    StockAfterSells(products, items);
  }

  /** Items naming an unknown product sell nothing of any stored product. */
  lemma {:induction false} UnknownIdsSellNothing(items: seq<CartItem>, products: map<int, StoredProduct>, k: int)
    requires WellFormed(items) && k in products
    requires forall i :: 0 <= i < |items| ==> items[i].id.None? || items[i].id.value !in products
    ensures SoldOf(items, k) == 0
    decreases |items|
  {
    if items != [] {
      UnknownIdsSellNothing(items[..|items| - 1], products, k);
    }
  }

  // ---------------------------------------------------------------------
  // Refused saves
  // ---------------------------------------------------------------------

  /** The database refuses to save `item` against the table `before`: it
      names a stored product and either its quantity is negative, which the
      order-item column does not accept, or taking it out of the product
      would make the stock or the units sold negative, which the product
      columns do not accept. */
  predicate RefusedBy(before: map<int, StoredProduct>, item: CartItem)
    requires !item.quantity.Malformed?
  {
    var q := SoldQuantity(item);
    item.id.Some? && item.id.value in before &&
    (q < 0 || before[item.id.value].stock - q < 0 || before[item.id.value].unitsSold + q < 0)
  }

  /** The database refuses item `i`, against the table the earlier items
      left behind. */
  predicate RefusedAt(products: map<int, StoredProduct>, items: seq<CartItem>, i: int)
    requires WellFormed(items) && 0 <= i < |items|
  {
    RefusedBy(StockAfter(products, items[..i]), items[i])
  }

  /** The index of the first refused item, counting from `i`, or the number
      of items when none is. */
  function FirstRefusedFrom(products: map<int, StoredProduct>, items: seq<CartItem>, i: nat): (n: nat)
    requires WellFormed(items) && i <= |items|
    ensures i <= n <= |items|
    ensures forall j :: i <= j < n ==> !RefusedAt(products, items, j)
    ensures n < |items| ==> RefusedAt(products, items, n)
    decreases |items| - i
  {
    if i == |items| then i
    else if RefusedAt(products, items, i) then i
    else FirstRefusedFrom(products, items, i + 1)
  }

  /** The index of the first refused item, or the number of items. The
      items before it name stored products only with non-negative
      quantities. */
  function FirstRefused(products: map<int, StoredProduct>, items: seq<CartItem>): (n: nat)
    requires WellFormed(items)
    ensures n <= |items| && KnownNonNegative(items[..n], products.Keys)
  {
    var n := FirstRefusedFrom(products, items, 0);
    UnrefusedKnownNonNegative(products, items, n);
    n
  }

  /** The first refused item is the only index that has no refused item
      before it and is refused itself (or is the end). */
  lemma FirstRefusedIs(products: map<int, StoredProduct>, items: seq<CartItem>, n: nat)
    requires WellFormed(items) && n <= |items|
    requires forall j :: 0 <= j < n ==> !RefusedAt(products, items, j)
    requires n < |items| ==> RefusedAt(products, items, n)
    ensures FirstRefused(products, items) == n
  {
  }

  /** A non-empty, well-formed cart none of whose items is refused. */
  predicate NoneRefused(items: seq<CartItem>, products: map<int, StoredProduct>) {
    items != [] && WellFormed(items) && forall i :: 0 <= i < |items| ==> !RefusedAt(products, items, i)
  }

  /** The loop runs to the end exactly when no item is refused. */
  lemma CompletesIffNoneRefused(products: map<int, StoredProduct>, items: seq<CartItem>)
    requires items != [] && WellFormed(items)
    ensures FirstRefused(products, items) == |items| <==> NoneRefused(items, products)
  {
    var n := FirstRefused(products, items);
    if n < |items| {
      assert RefusedAt(products, items, n);
    }
  }

  /** Saves the columns accept keep every stock and units sold
      non-negative: the items before the first refused one never oversell. */
  lemma {:induction false} StockStaysNonNegative(products: map<int, StoredProduct>, items: seq<CartItem>, i: nat)
    requires WellFormed(items) && NonNegativeStock(products) && i <= |items|
    requires forall j :: 0 <= j < i ==> !RefusedAt(products, items, j)
    ensures NonNegativeStock(StockAfter(products, items[..i]))
    decreases i
  {
    if i > 0 {
      StockStaysNonNegative(products, items, i - 1);
      StockAfterStep(products, items, i - 1);
      assert !RefusedAt(products, items, i - 1);
    }
  }

  // ---------------------------------------------------------------------
  // Order items
  // ---------------------------------------------------------------------

  /** Items naming a stored product have a non-negative quantity. */
  predicate KnownNonNegative(items: seq<CartItem>, known: set<int>) {
    WellFormed(items) &&
    forall i :: 0 <= i < |items| && items[i].id.Some? && items[i].id.value in known ==> SoldQuantity(items[i]) >= 0
  }

  /** The `OrderItem` row an item naming a stored product writes: its
      quantity (1 when absent) and its price (0 when absent). */
  function ItemRow(order: int, user: Option<int>, item: CartItem): OrderItem
    requires item.id.Some? && !item.price.Malformed? && !item.quantity.Malformed? && SoldQuantity(item) >= 0
  {
    OrderItem(order, item.id.value, SoldQuantity(item), ValueOr(item.price, 0), user)
  }

  /** The row one item writes: one when it names a stored product, none
      otherwise. */
  function NewRow(order: int, user: Option<int>, known: set<int>, item: CartItem): (r: seq<OrderItem>)
    requires !item.price.Malformed? && !item.quantity.Malformed?
    requires item.id.Some? && item.id.value in known ==> SoldQuantity(item) >= 0
  {
    if item.id.Some? && item.id.value in known then [ItemRow(order, user, item)] else []
  }

  /** The rows the loop writes for `items`: one per item naming a stored
      product, in the order of the items; unknown ids write nothing. */
  function Rows(order: int, user: Option<int>, known: set<int>, items: seq<CartItem>): (r: seq<OrderItem>)
    requires KnownNonNegative(items, known)
    ensures |r| <= |items|
    ensures forall j :: 0 <= j < |r| ==> r[j].order == order && r[j].user == user && r[j].product in known
  {
    if items == [] then []
    else Rows(order, user, known, items[..|items| - 1]) + NewRow(order, user, known, items[|items| - 1])
  }

  /** One more item of the loop adds its row. */
  lemma RowsStep(order: int, user: Option<int>, known: set<int>, items: seq<CartItem>, i: nat)
    requires i < |items| && KnownNonNegative(items[..i + 1], known)
    ensures KnownNonNegative(items[..i], known)
    ensures Rows(order, user, known, items[..i + 1]) ==
      Rows(order, user, known, items[..i]) + NewRow(order, user, known, items[i])
  {
    assert items[..i + 1][..i] == items[..i];
  }

  /** The items before the first refused one name stored products only with
      non-negative quantities. */
  lemma UnrefusedKnownNonNegative(products: map<int, StoredProduct>, items: seq<CartItem>, n: nat)
    requires WellFormed(items) && n <= |items|
    requires forall j :: 0 <= j < n ==> !RefusedAt(products, items, j)
    ensures KnownNonNegative(items[..n], products.Keys)
  {
    forall i | 0 <= i < n && items[i].id.Some? && items[i].id.value in products
      ensures SoldQuantity(items[i]) >= 0
    {
      assert !RefusedAt(products, items, i);
    }
  }

  /** The units of product `k` the rows record. */
  function RowQuantity(rows: seq<OrderItem>, k: int): int {
    if rows == [] then 0
    else
      var last := rows[|rows| - 1];
      RowQuantity(rows[..|rows| - 1], k) + (if last.product == k then last.quantity else 0)
  }

  lemma {:induction false} RowQuantityAppend(a: seq<OrderItem>, b: seq<OrderItem>, k: int)
    ensures RowQuantity(a + b, k) == RowQuantity(a, k) + RowQuantity(b, k)
    decreases |b|
  {
    if b == [] {
      assert a + b == a;
    } else {
      var n := |b| - 1;
      RowQuantityAppend(a, b[..n], k);
      assert (a + b)[..|a + b| - 1] == a + b[..n];
    }
  }

  /** The order items record, for every stored product, exactly the units
      the items sell of it, which is what its stock loses. */
  lemma {:induction false} RowsRecordSales(order: int, user: Option<int>, known: set<int>, items: seq<CartItem>, k: int)
    requires KnownNonNegative(items, known) && k in known
    ensures RowQuantity(Rows(order, user, known, items), k) == SoldOf(items, k)
    decreases |items|
  {
    if items != [] {
      var n := |items| - 1;
      var last := items[n];
      RowsRecordSales(order, user, known, items[..n], k);
      var tail := NewRow(order, user, known, last);
      RowQuantityAppend(Rows(order, user, known, items[..n]), tail, k);
      assert tail != [] ==> tail[..0] == [];
    }
  }

  /** The product table the loop leaves behind: every item before the
      first refused one saved. */
  function SavedStock(products: map<int, StoredProduct>, items: seq<CartItem>): map<int, StoredProduct>
    requires WellFormed(items)
  {
    StockAfter(products, items[..FirstRefused(products, items)])
  }

  /** The order items the loop leaves behind: the rows of the items before
      the first refused one, and the refused item's own row when it was only
      its product's save that failed. */
  function WrittenRows(order: int, user: Option<int>, products: map<int, StoredProduct>, items: seq<CartItem>): seq<OrderItem>
    requires WellFormed(items)
  {
    var n := FirstRefused(products, items);
    Rows(order, user, products.Keys, items[..n]) +
    (if n < |items| && SoldQuantity(items[n]) >= 0 then [ItemRow(order, user, items[n])] else [])
  }

  /** Where the loop stops: at the first refused item, or at the end; the
      rows written so far, plus the refused item's own row, are the rows the
      loop leaves behind. */
  lemma LoopStopsAt(earlier: seq<OrderItem>, order: int, user: Option<int>,
                    products: map<int, StoredProduct>, items: seq<CartItem>, i: nat)
    requires WellFormed(items) && i <= |items|
    requires forall j :: 0 <= j < i ==> !RefusedAt(products, items, j)
    requires i < |items| ==> RefusedAt(products, items, i)
    ensures FirstRefused(products, items) == i
    ensures SavedStock(products, items) == StockAfter(products, items[..i])
    ensures earlier + Rows(order, user, products.Keys, items[..i]) +
      (if i < |items| && SoldQuantity(items[i]) >= 0 then [ItemRow(order, user, items[i])] else []) ==
      earlier + WrittenRows(order, user, products, items)
  {
    FirstRefusedIs(products, items, i);
  }

  /** An item the loop saves extends every fact of the loop by one. */
  lemma LoopStep(earlier: seq<OrderItem>, order: int, user: Option<int>,
                 products: map<int, StoredProduct>, items: seq<CartItem>, i: nat)
    requires WellFormed(items) && i < |items|
    requires forall j :: 0 <= j < i ==> !RefusedAt(products, items, j)
    requires !RefusedAt(products, items, i)
    ensures forall j :: 0 <= j < i + 1 ==> !RefusedAt(products, items, j)
    ensures KnownNonNegative(items[..i + 1], products.Keys)
    ensures StockAfter(products, items[..i + 1]) == NextStock(StockAfter(products, items[..i]), items[i])
    ensures earlier + Rows(order, user, products.Keys, items[..i]) + NewRow(order, user, products.Keys, items[i]) ==
      earlier + Rows(order, user, products.Keys, items[..i + 1])
  {
    UnrefusedKnownNonNegative(products, items, i + 1);
    StockAfterStep(products, items, i);
    RowsStep(order, user, products.Keys, items, i);
  }

  // ---------------------------------------------------------------------
  // The endpoint
  // ---------------------------------------------------------------------

  /** The posted body: `cart_items` (absent reads as empty) and `shipping`. */
  datatype Request = Request(cartItems: seq<CartItem>, shipping: map<string, string>)

  datatype Response = Completed(orderId: int, message: string) | BadRequest(error: string)

  class Database {
    var products: map<int, StoredProduct>
    var orders: seq<Order>
    var orderItems: seq<OrderItem>
    /** The next `BigAutoField` value. */
    var nextId: int

    constructor (products: map<int, StoredProduct>)
      ensures this.products == products && orders == [] && orderItems == [] && nextId == 1
    {
      this.products, orders, orderItems, nextId := products, [], [], 1;
    }

    /** One pass of the loop: an item naming a stored product writes its
        order item, unless its quantity is negative, and then saves the
        product with the quantity moved from stock to units sold, unless
        that would make a count negative. On a refusal the product is left
        as it was. */
    method SaveItem(item: CartItem, id: int, user: Option<int>) returns (refused: bool)
      requires !item.price.Malformed? && !item.quantity.Malformed?
      modifies this`products, this`orderItems
      ensures refused == RefusedBy(old(products), item)
      ensures !refused ==>
        products == NextStock(old(products), item) &&
        orderItems == old(orderItems) + NewRow(id, user, old(products).Keys, item)
      ensures refused ==>
        products == old(products) &&
        orderItems == old(orderItems) + (if SoldQuantity(item) >= 0 then [ItemRow(id, user, item)] else [])
    {
      if item.id.Some? && item.id.value in products {
        var k := item.id.value;
        var q := SoldQuantity(item);
        if q < 0 {
          return true;
        }
        var p := products[k];
        orderItems := orderItems + [OrderItem(id, k, q, ValueOr(item.price, 0), user)];
        if p.stock - q < 0 || p.unitsSold + q < 0 {
          return true;
        }
        products := products[k := p.(stock := p.stock - q, unitsSold := p.unitsSold + q)];
      }
      return false;
    }

    /** The loop over the items: each one naming a stored product writes its
        order item and then saves the product with the quantity moved from
        stock to units sold. The first item the database refuses stops the
        loop, with everything written before it kept: a negative quantity
        writes no order item, an oversold product keeps its order item but
        not the new counts. */
    method TakeStock(items: seq<CartItem>, id: int, user: Option<int>) returns (refused: bool)
      requires WellFormed(items)
      modifies this`products, this`orderItems
      ensures refused <==> FirstRefused(old(products), items) < |items|
      ensures products == SavedStock(old(products), items)
      ensures orderItems == old(orderItems) + WrittenRows(id, user, old(products), items)
    {
      ghost var startItems := orderItems;
      ghost var start := products;
      var i := 0;
      assert items[..0] == [];
      while i < |items|
        invariant 0 <= i <= |items|
        invariant forall j :: 0 <= j < i ==> !RefusedAt(start, items, j)
        invariant products == StockAfter(start, items[..i])
        invariant KnownNonNegative(items[..i], start.Keys)
        invariant orderItems == startItems + Rows(id, user, start.Keys, items[..i])
      {
        var refused := SaveItem(items[i], id, user);
        if refused {
          LoopStopsAt(startItems, id, user, start, items, i);
          return true;
        }
        LoopStep(startItems, id, user, start, items, i);
        i := i + 1;
      }
      LoopStopsAt(startItems, id, user, start, items, |items|);
      return false;
    }

    /** `api_complete_order`. `user` is the authenticated account, if any;
        `errorText` is the text of the exception a malformed number or a
        refused row raises. The confirmation email is sent after all writes
        and its failure is swallowed, so it does not appear here. */
    method ApiCompleteOrder(request: Request, user: Option<int>, errorText: string)
      returns (response: Response)
      modifies this
      // an empty cart is refused before anything is written
      ensures request.cartItems == [] ==>
        response == BadRequest("Cart is empty") && unchanged(this)
      // a number that does not convert fails the request before anything is written
      ensures request.cartItems != [] && !WellFormed(request.cartItems) ==>
        response == BadRequest("Failed to complete order: " + errorText) && unchanged(this)
      // otherwise the order is recorded first, then the items up to the
      // first refused one; the request fails exactly when one is refused,
      // and the order row and the rows written before stay behind
      ensures request.cartItems != [] && WellFormed(request.cartItems) ==>
        var items := request.cartItems;
        nextId == old(nextId) + 1 &&
        orders == old(orders) + [NewOrder(old(nextId), Field(request.shipping, "full_name"),
                                          Field(request.shipping, "email"), ShippingAddress(request.shipping),
                                          OrderTotal(items), user)] &&
        products == SavedStock(old(products), items) &&
        orderItems == old(orderItems) + WrittenRows(old(nextId), user, old(products), items) &&
        response == if FirstRefused(old(products), items) == |items| then Completed(old(nextId), "Order completed successfully")
                    else BadRequest("Failed to complete order: " + errorText)
      // a stored table without negative counts never gets one
      ensures NonNegativeStock(old(products)) ==> NonNegativeStock(products)
    {
      var items := request.cartItems;
      if items == [] {
        return BadRequest("Cart is empty");
      }
      if !WellFormed(items) {
        return BadRequest("Failed to complete order: " + errorText);
      }
      var total := OrderTotal(items);
      var address := ShippingAddress(request.shipping);
      var id := nextId;
      nextId := nextId + 1;
      orders := orders + [NewOrder(id, Field(request.shipping, "full_name"), Field(request.shipping, "email"),
                                   address, total, user)];
      ghost var start := products;
      var refused := TakeStock(items, id, user);
      if NonNegativeStock(start) {
        StockStaysNonNegative(start, items, FirstRefused(start, items));
      }
      if refused {
        return BadRequest("Failed to complete order: " + errorText);
      }
      response := Completed(id, "Order completed successfully");
    }
  }
}
