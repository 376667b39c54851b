/** The product page: an image gallery with cyclic previous/next navigation,
    and an add-to-cart button guarded by the stock already in the cart. */
module ProductDetail {
  import opened Common
  import opened Cart

  /** `.filter(Boolean)` over optional strings: the present, non-empty ones. */
  function Present(slots: seq<Option<string>>): (r: seq<string>)
    ensures |r| <= |slots|
    ensures forall i :: 0 <= i < |r| ==> r[i] != []
    ensures forall i :: 0 <= i < |slots| && slots[i].Some? && slots[i].value != [] ==> slots[i].value in r
    ensures forall s :: s in r ==> Some(s) in slots
  {
    if slots == [] then []
    else
      var rest := Present(slots[1..]);
      assert forall i :: 1 <= i < |slots| ==> slots[i] == slots[1..][i - 1];
      if slots[0].Some? && slots[0].value != [] then [slots[0].value] + rest else rest
  }

  /** What `.filter(Boolean)` keeps of one slot: its value when present and
      non-empty, nothing otherwise. */
  function Slot(o: Option<string>): seq<string> {
    if o.Some? && o.value != [] then [o.value] else []
  }

  /** The filter keeps one slot as `Slot` does ... */
  lemma PresentSingle(o: Option<string>)
    ensures Present([o]) == Slot(o)
  {
    assert [o][1..] == [];
  }

  /** ... and works slot by slot, in order: filtering a concatenation is
      concatenating the filtered parts. With `PresentSingle` this fixes the
      result exactly, order and repeats included. */
  lemma {:induction false} PresentAppend(a: seq<Option<string>>, b: seq<Option<string>>)
    ensures Present(a + b) == Present(a) + Present(b)
    decreases |a|
  {
    if a != [] {
      assert (a + b)[1..] == a[1..] + b;
      PresentAppend(a[1..], b);
    } else {
      assert a + b == b;
    }
  }

  /** The gallery: `image_url` to `image4_url`, skipping absent or empty ones,
      in that order. */
  function Images(p: Product): (r: seq<string>)
    ensures |r| <= 4
    ensures forall i :: 0 <= i < |r| ==> r[i] != []
    ensures p.imageUrl.Some? && p.imageUrl.value != [] ==> |r| >= 1 && r[0] == p.imageUrl.value
  {
    Present([p.imageUrl, p.image2Url, p.image3Url, p.image4Url])
  }

  /** The gallery is exactly the four image fields in order, each kept when
      present and non-empty. */
  lemma ImagesInOrder(p: Product)
    ensures Images(p) == Slot(p.imageUrl) + Slot(p.image2Url) + Slot(p.image3Url) + Slot(p.image4Url)
  {
    var a, b, c, d := p.imageUrl, p.image2Url, p.image3Url, p.image4Url;
    assert [a, b, c, d] == [a, b, c] + [d];
    assert [a, b, c] == [a, b] + [c];
    assert [a, b] == [a] + [b];
    PresentAppend([a, b, c], [d]);
    PresentAppend([a, b], [c]);
    PresentAppend([a], [b]);
    PresentSingle(a);
    PresentSingle(b);
    PresentSingle(c);
    PresentSingle(d);
  }

  /** `prev > 0 ? prev - 1 : images.length - 1` */
  function PreviousIndex(i: int, len: int): int {
    if i > 0 then i - 1 else len - 1
  }

  /** `prev < images.length - 1 ? prev + 1 : 0` */
  function NextIndex(i: int, len: int): int {
    if i < len - 1 then i + 1 else 0
  }

  /** On a valid index both steps stay valid, undo each other, and are
      stepping by one modulo the number of images. */
  lemma GalleryStepsCycle(i: int, len: int)
    requires 0 <= i < len
    ensures 0 <= PreviousIndex(i, len) < len && 0 <= NextIndex(i, len) < len
    ensures NextIndex(PreviousIndex(i, len), len) == i
    ensures PreviousIndex(NextIndex(i, len), len) == i
    ensures NextIndex(i, len) == (i + 1) % len
    ensures PreviousIndex(i, len) == (i - 1) % len
  {
    if i == len - 1 {
      assert (i + 1) % len == 0;
    } else {
      assert (i + 1) % len == i + 1;
    }
    if i == 0 {
      assert (i - 1) % len == len - 1;
    } else {
      assert (i - 1) % len == i - 1;
    }
  }

  /** `n` presses of the right arrow. */
  function NextTimes(i: int, len: int, n: nat): int {
    if n == 0 then i else NextIndex(NextTimes(i, len, n - 1), len)
  }

  /** Pressing the right arrow `n` times moves `n` places round the gallery;
      in particular `len` presses come back to the start. */
  lemma {:induction false} NextTimesIsModular(i: int, len: int, n: nat)
    requires 0 <= i < len
    ensures NextTimes(i, len, n) == (i + n) % len
  {
    if n > 0 {
      NextTimesIsModular(i, len, n - 1);
      var j := NextTimes(i, len, n - 1);
      GalleryStepsCycle(j, len);
      ModAddOne(i + n - 1, len);
    }
  }

  /** `a % len` is determined by any decomposition `a == k * len + m` with
      `0 <= m < len`. */
  lemma ModUnique(a: int, len: int, k: int, m: int)
    requires len > 0 && 0 <= m < len && a == k * len + m
    ensures a % len == m
  {
    var q := a / len;
    assert a == q * len + a % len;
    var d := k - q;
    assert d * len == k * len - q * len;
    assert d * len == a % len - m;
  }

  /** One more step from `a % len` is `(a + 1) % len`. */
  lemma ModAddOne(a: int, len: int)
    requires len > 0
    ensures (a % len + 1) % len == (a + 1) % len
  {
    var q := a / len;
    var j := a % len;
    assert a == q * len + j;
    if j + 1 < len {
      ModUnique(j + 1, len, 0, j + 1);
      ModUnique(a + 1, len, q, j + 1);
    } else {
      assert (q + 1) * len == q * len + len;
      ModUnique(j + 1, len, 1, 0);
      ModUnique(a + 1, len, q + 1, 0);
    }
  }

  /** `images[selected] || images[0]`: an index outside the list falls back to
      the first image, and there is none when the list is empty. */
  function MainImage(images: seq<string>, selected: int): (r: Option<string>)
    ensures 0 <= selected < |images| && images[selected] != [] ==> r == Some(images[selected])
    ensures !(0 <= selected < |images|) && |images| > 0 ==> r == Some(images[0])
    ensures images == [] ==> r.None?
  {
    if 0 <= selected < |images| && images[selected] != [] then Some(images[selected])
    else if |images| > 0 then Some(images[0])
    else None
  }

  /** The quantity of the product already in the cart, 0 when absent. */
  function InCart(items: seq<Line>, id: int): int {
    match Find(items, id)
    case Some(l) => l.quantity
    case None => 0
  }

  /** The button's guard: the cart already holds the product's whole stock. */
  predicate AtStockLimit(items: seq<Line>, p: Product) {
    InCart(items, p.id) >= p.stock
  }

  function MaximumMessage(stock: int): string {
    "Maximum quantity (" + IntToString(stock) + ") already in cart"
  }

  /** `w` occurs in `s` starting at position `i`. */
  predicate OccursAt(s: string, w: string, i: int) {
    0 <= i <= |s| - |w| && s[i..i + |w|] == w
  }

  /** `s.includes(w)` */
  predicate Includes(s: string, w: string) {
    exists i :: 0 <= i <= |s| - |w| && OccursAt(s, w, i)
  }

  /** The message box is drawn as a warning when the message includes
      `maximum`, compared case-sensitively as written. */
  predicate WarningStyleAsWritten(message: string) {
    Includes(message, "maximum")
  }

  /** The refusal message is spelled with a capital `M`, so as written it
      is never drawn as a warning. */
  lemma MaximumMessageNeverWarns(stock: int)
    ensures !WarningStyleAsWritten(MaximumMessage(stock))
  {
    var m := MaximumMessage(stock);
    var head := "Maximum quantity (";
    var digits := IntToString(stock);
    var tail := ") already in cart";
    assert m == head + digits + tail;
    assert forall k :: 0 <= k < |digits| ==> digits[k] == '-' || '0' <= digits[k] <= '9' by {
      if stock < 0 {
        assert digits == "-" + NatToString(-stock);
        forall k | 0 <= k < |digits|
          ensures digits[k] == '-' || '0' <= digits[k] <= '9'
        {
          if k > 0 { assert digits[k] == NatToString(-stock)[k - 1]; }
        }
      }
    }
    // the only `x` of the message is the one of `Maximum`, at index 2
    forall k | 0 <= k < |m| && m[k] == 'x'
      ensures k == 2
    {
      if k < |head| {
        assert m[k] == head[k];
      }
    }
    forall i | 0 <= i <= |m| - 7
      ensures !OccursAt(m, "maximum", i)
    {
      if i == 0 {
        assert m[0] == 'M';
      } else {
        assert m[i + 2] != 'x';
      }
      assert m[i..i + 7][0] == m[i] && m[i..i + 7][2] == m[i + 2];
    }
  }

  /** The warning style keyed on the refusal message as it is spelled. */
  predicate WarningStyle(message: string) {
    Includes(message, "Maximum")
  }

  /** With the corrected test the refusal message is always a warning. */
  lemma MaximumMessageWarns(stock: int)
    ensures WarningStyle(MaximumMessage(stock))
  {
    var m := MaximumMessage(stock);
    assert m[0..7] == "Maximum";
    assert OccursAt(m, "Maximum", 0);
  }

  /** When the guard lets a click through, the cart gains exactly one unit of
      the product and still holds no more than its stock. */
  lemma GuardedAddAddsOne(items: seq<Line>, p: Product)
    requires DistinctIds(items) && !AtStockLimit(items, p)
    ensures InCart(AddToCart(items, p, 1), p.id) == InCart(items, p.id) + 1 <= p.stock
  {
    var r := AddToCart(items, p, 1);
    var k := FindIndex(items, p.id);
    if k < |items| {
      assert forall j :: 0 <= j < k ==> r[j] == items[j];
      FindIndexIs(r, p.id, k);
    } else {
      assert forall j :: 0 <= j < |items| ==> r[j] == items[j];
      FindIndexIs(r, p.id, |items|);
    }
  }

  /** The button is disabled exactly for an out-of-stock product, and such a
      product is always at its limit, so disabling it refuses nothing the
      guard would have let through. */
  lemma DisabledOnlyWhenRefused(items: seq<Line>, p: Product)
    requires NonNegative(items) && p.stock == 0
    ensures AtStockLimit(items, p)
  {
    var k := FindIndex(items, p.id);
    if k < |items| {
      assert items[k].quantity >= 0;
    }
  }

  datatype Key = ArrowLeft | ArrowRight | OtherKey

  class ProductPage {
    var product: Option<Product>
    var loading: bool
    var selectedImageIndex: int
    var addedToCart: bool
    var cartMessage: string

    constructor ()
      ensures product.None? && loading && selectedImageIndex == 0
      ensures !addedToCart && cartMessage == []
    {
      product, loading, selectedImageIndex := None, true, 0;
      addedToCart, cartMessage := false, [];
    }

    function Gallery(): seq<string>
      reads this
    {
      if product.Some? then Images(product.value) else []
    }

    /** The keyboard listener is only installed for more than one image. */
    predicate KeyboardInstalled()
      reads this
    {
      |Gallery()| > 1
    }

    function Shown(): Option<string>
      reads this
    {
      MainImage(Gallery(), selectedImageIndex)
    }

    /** `fetchProduct`: a fetched product replaces the shown one and the
        selection goes back to the first image when it has a main image; a
        failed fetch keeps the old product. */
    method FetchProduct(response: Fetch<Product>)
      modifies this`product, this`loading, this`selectedImageIndex
      ensures !loading
      ensures response.Ok? ==> product == Some(response.body)
      ensures response.Ok? && response.body.imageUrl.Some? && response.body.imageUrl.value != [] ==>
        selectedImageIndex == 0
      ensures !(response.Ok? && response.body.imageUrl.Some? && response.body.imageUrl.value != []) ==>
        selectedImageIndex == old(selectedImageIndex)
      ensures response.Failed? ==> product == old(product)
    {
      loading := true;
      match response {
        case Ok(p) =>
          product := Some(p);
          if p.imageUrl.Some? && p.imageUrl.value != [] {
            selectedImageIndex := 0;
          }
        case Failed =>
      }
      loading := false;
    }

    /** A key press; without the listener nothing happens. */
    method PressKey(key: Key)
      modifies this`selectedImageIndex
      ensures !KeyboardInstalled() || key == OtherKey ==> selectedImageIndex == old(selectedImageIndex)
      ensures KeyboardInstalled() && key == ArrowLeft ==>
        selectedImageIndex == PreviousIndex(old(selectedImageIndex), |Gallery()|)
      ensures KeyboardInstalled() && key == ArrowRight ==>
        selectedImageIndex == NextIndex(old(selectedImageIndex), |Gallery()|)
    {
      var n := |Gallery()|;
      if n <= 1 {
        return;
      }
      if key == ArrowLeft {
        selectedImageIndex := PreviousIndex(selectedImageIndex, n);
      } else if key == ArrowRight {
        selectedImageIndex := NextIndex(selectedImageIndex, n);
      }
    }

    /** The on-image arrow buttons, rendered only for more than one image. */
    method ClickArrow(forward: bool)
      modifies this`selectedImageIndex
      ensures |Gallery()| <= 1 ==> selectedImageIndex == old(selectedImageIndex)
      ensures |Gallery()| > 1 ==>
        selectedImageIndex == if forward then NextIndex(old(selectedImageIndex), |Gallery()|)
                              else PreviousIndex(old(selectedImageIndex), |Gallery()|)
    {
      var n := |Gallery()|;
      if n > 1 {
        selectedImageIndex := if forward then NextIndex(selectedImageIndex, n)
                              else PreviousIndex(selectedImageIndex, n);
      }
    }

    /** A thumbnail click; thumbnails exist only for more than one image. */
    method SelectThumbnail(index: nat)
      modifies this`selectedImageIndex
      ensures |Gallery()| > 1 && index < |Gallery()| ==> selectedImageIndex == index
      ensures !(|Gallery()| > 1 && index < |Gallery()|) ==> selectedImageIndex == old(selectedImageIndex)
    {
      if |Gallery()| > 1 && index < |Gallery()| {
        selectedImageIndex := index;
      }
    }

    /** The three-second timer started by a refusal clears the message. */
    method MessageTimerFires()
      modifies this`cartMessage
      ensures cartMessage == []
    {
      cartMessage := [];
    }

    /** The two-second timer started by an add resets the button's label. */
    method AddedTimerFires()
      modifies this`addedToCart
      ensures !addedToCart
    {
      addedToCart := false;
    }

    /** The add-to-cart button. It is disabled for an out-of-stock product;
        otherwise a product already at its stock in the cart is refused with
        the maximum message, and any other is added once. */
    method ClickAddToCart(cart: CartStore)
      requires cart.Valid()
      modifies this`addedToCart, this`cartMessage, cart
      ensures cart.Valid()
      ensures product.None? || product.value.stock == 0 ==>
        cart.items == old(cart.items) && cartMessage == old(cartMessage) && addedToCart == old(addedToCart)
      ensures product.Some? && product.value.stock != 0 && AtStockLimit(old(cart.items), product.value) ==>
        cart.items == old(cart.items) && cartMessage == MaximumMessage(product.value.stock) &&
        addedToCart == old(addedToCart)
      ensures product.Some? && product.value.stock != 0 && !AtStockLimit(old(cart.items), product.value) ==>
        cart.items == AddToCart(old(cart.items), product.value, 1) && cartMessage == [] && addedToCart
    {
      if product.None? || product.value.stock == 0 {
        return;
      }
      var p := product.value;
      var existing := Find(cart.items, p.id);
      var currentQuantity := if existing.Some? then existing.value.quantity else 0;
      if currentQuantity >= p.stock {
        cartMessage := MaximumMessage(p.stock);
        return;
      }
      cart.Add(p, 1);
      addedToCart := true;
      cartMessage := [];
    }
  }
}
