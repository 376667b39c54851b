/** The payment app's order records and the rule that stamps the shipping
    date when an order is saved as shipped. Times are abstract integers. */
module PaymentModels {
  import opened Common

  /** An `Order` row. `user` is the id of the account that placed it. */
  datatype Order = Order(
    id: int,
    fullName: string,
    email: string,
    shippingAddress: string,
    amountPaidCents: int,
    user: Option<int>,
    shipped: bool,
    dateShipped: Option<int>,
    trackingNumber: Option<string>,
    courier: Option<string>)

  /** `Order.objects.create(...)`: a new order is not shipped, has no
      shipping date and no tracking details. */
  function NewOrder(id: int, fullName: string, email: string, shippingAddress: string,
                    amountPaidCents: int, user: Option<int>): (o: Order)
    ensures o.id == id && o.fullName == fullName && o.email == email
    ensures o.shippingAddress == shippingAddress && o.amountPaidCents == amountPaidCents && o.user == user
    ensures !o.shipped && o.dateShipped.None?
    ensures o.trackingNumber.None? && o.courier.None?
  {
    Order(id, fullName, email, shippingAddress, amountPaidCents, user, false, None, None, None)
  }

  /** The default of `OrderItem.quantity`. */
  const DefaultQuantity: nat := 1

  /** An `OrderItem` row; the quantity is a positive big integer field, so
      never negative. */
  datatype OrderItem = OrderItem(order: int, product: int, quantity: nat, priceCents: int, user: Option<int>)

  /** The date a save leaves behind: a save that moves the order from not
      shipped to shipped stamps `now`; every other save keeps the date,
      including one that takes the shipped flag back. */
  function NextShippedDate(wasShipped: bool, isShipped: bool, date: Option<int>, now: int): (d: Option<int>)
    ensures isShipped && !wasShipped ==> d == Some(now)
    ensures !(isShipped && !wasShipped) ==> d == date
  {
    if isShipped && !wasShipped then Some(now) else date
  }

  /** The order being saved, as the `pre_save` signal receives it. */
  class OrderInstance {
    var pk: Option<int>
    var shipped: bool
    var dateShipped: Option<int>

    constructor (pk: Option<int>, shipped: bool, dateShipped: Option<int>)
      ensures this.pk == pk && this.shipped == shipped && this.dateShipped == dateShipped
    {
      this.pk, this.shipped, this.dateShipped := pk, shipped, dateShipped;
    }

    /** `if instance.pk`: a primary key that is present and not 0. */
    predicate Saved()
      reads this
    {
      pk.Some? && pk.value != 0
    }
  }

  /** `set_shipped_date_on_update`, with the stored rows as `table`. A new
      order (no key) is left alone; for a stored one the date is stamped on
      the not-shipped to shipped transition. A key with no stored row makes
      the lookup raise (`raised`), and the save fails with the date as it was. */
  method SetShippedDateOnUpdate(instance: OrderInstance, table: map<int, Order>, now: int)
    returns (raised: bool)
    modifies instance`dateShipped
    ensures !instance.Saved() ==> !raised && instance.dateShipped == old(instance.dateShipped)
    ensures instance.Saved() && instance.pk.value !in table ==>
      raised && instance.dateShipped == old(instance.dateShipped)
    ensures instance.Saved() && instance.pk.value in table ==>
      !raised &&
      instance.dateShipped ==
        NextShippedDate(table[instance.pk.value].shipped, instance.shipped, old(instance.dateShipped), now)
  {
    raised := false;
    if instance.Saved() {
      if instance.pk.value !in table {
        raised := true;
        return;
      }
      var obj := table[instance.pk.value];
      if instance.shipped && !obj.shipped {
        instance.dateShipped := Some(now);
      }
    }
  }

  // ---------------------------------------------------------------------
  // A history of saves
  // ---------------------------------------------------------------------

  /** One later save of a stored order: the shipped flag it is saved with,
      and the time. */
  datatype Save = Save(shipped: bool, time: int)

  /** The shipped flag and date after a series of saves, each one applying
      the signal's rule against the row the previous save left behind. */
  function AfterSaves(shipped: bool, date: Option<int>, saves: seq<Save>): (bool, Option<int>)
    decreases |saves|
  {
    if saves == [] then (shipped, date)
    else
      var last := saves[|saves| - 1];
      var prev := AfterSaves(shipped, date, saves[..|saves| - 1]);
      (last.shipped, NextShippedDate(prev.0, last.shipped, prev.1, last.time))
  }

  /** Save `k` turns the order from not shipped to shipped. */
  predicate ShipsAt(shipped: bool, saves: seq<Save>, k: int)
    requires 0 <= k < |saves|
  {
    saves[k].shipped && !(if k == 0 then shipped else saves[k - 1].shipped)
  }

  /** After any history the shipped flag is the last one saved, and the
      date is the original one when no save shipped the order. */
  lemma {:induction false} ShippedDateIsLastShipping(shipped: bool, date: Option<int>, saves: seq<Save>)
    ensures var r := AfterSaves(shipped, date, saves);
      r.0 == (if saves == [] then shipped else saves[|saves| - 1].shipped)
    ensures var r := AfterSaves(shipped, date, saves);
      (forall k :: 0 <= k < |saves| ==> !ShipsAt(shipped, saves, k)) ==> r.1 == date
    decreases |saves|
  {
    if saves != [] {
      var n := |saves| - 1;
      var init := saves[..n];
      ShippedDateIsLastShipping(shipped, date, init);
      assert forall k :: 0 <= k < n ==> ShipsAt(shipped, init, k) == ShipsAt(shipped, saves, k);
      var prev := AfterSaves(shipped, date, init);
      assert prev.0 == (if n == 0 then shipped else saves[n - 1].shipped);
      var r := AfterSaves(shipped, date, saves);
      assert r.1 == if ShipsAt(shipped, saves, n) then Some(saves[n].time) else prev.1;
    }
  }

  /** When some save shipped the order, the date is the time of the latest
      such save. */
  lemma {:induction false} LatestShippingDate(shipped: bool, date: Option<int>, saves: seq<Save>, k: nat)
    requires k < |saves| && ShipsAt(shipped, saves, k)
    requires forall j :: k < j < |saves| ==> !ShipsAt(shipped, saves, j)
    ensures AfterSaves(shipped, date, saves).1 == Some(saves[k].time)
    decreases |saves|
  {
    var n := |saves| - 1;
    var init := saves[..n];
    var prev := AfterSaves(shipped, date, init);
    ShippedDateIsLastShipping(shipped, date, init);
    assert prev.0 == (if n == 0 then shipped else saves[n - 1].shipped);
    if k < n {
      assert !ShipsAt(shipped, saves, n);
      assert forall j :: 0 <= j < n ==> ShipsAt(shipped, init, j) == ShipsAt(shipped, saves, j);
      LatestShippingDate(shipped, date, init, k);
    }
  }
}
