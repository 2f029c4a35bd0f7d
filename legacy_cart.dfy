/**
 * The older cart page (Pages/CartComponent.jsx): the same line items and
 * coupon, but without a per-item selection. Everything in the cart is paid
 * for, checkout only plays the delivery overlay, and the cart is emptied by
 * the overlay's Continue Shopping button.
 */
module LegacyCart {
  import opened Pricing
  import ShoppingCart

  datatype Item = Item(id: int, name: string, price: nat, quantity: int, image: string, size: string, color: string)

  const InitialItems: seq<Item> := [
    Item(1, "Hand-Embroidered Silk Kurta", 4999, 1, "/api/placeholder/120/140", "M", "Maroon"),
    Item(2, "Traditional Cotton Saree", 6599, 1, "/api/placeholder/120/140", "Free Size", "Cream"),
    Item(3, "Traditional Cotton Saree", 6599, 1, "/api/placeholder/120/140", "Free Size", "Cream"),
    Item(4, "Traditional Cotton Saree", 6599, 1, "/api/placeholder/120/140", "Free Size", "Cream")
  ]

  predicate QuantitiesPositive(items: seq<Item>) {
    forall i | 0 <= i < |items| :: items[i].quantity >= 1
  }

  /** `cartItems.reduce((total, item) => total + item.price * item.quantity, 0)`. */
  function Subtotal(items: seq<Item>): int {
    if items == [] then 0 else Subtotal(items[..|items| - 1]) + items[|items| - 1].price * items[|items| - 1].quantity
  }

  /** The badge: the sum of the quantities. */
  function ItemCount(items: seq<Item>): int {
    if items == [] then 0 else ItemCount(items[..|items| - 1]) + items[|items| - 1].quantity
  }

  function WithQuantity(items: seq<Item>, id: int, q: int): seq<Item> {
    seq(|items|, i requires 0 <= i < |items| => if items[i].id == id then items[i].(quantity := q) else items[i])
  }

  /** `cartItems.filter(item => item.id !== id)`. */
  function WithoutId(items: seq<Item>, id: int): (r: seq<Item>)
    ensures |r| <= |items|
    ensures forall x :: x in r <==> x in items && x.id != id
  {
    if items == [] then []
    else
      var rest := WithoutId(items[1..], id);
      assert items == [items[0]] + items[1..];
      if items[0].id != id then [items[0]] + rest else rest
  }

  /*
   * The legacy item has no selection flag, so it is a type of its own and
   * the removal lemmas of the current cart are restated over it: the same
   * filter on `id`, proved the same way.
   */
  lemma {:induction false} WithoutIdAppend(a: seq<Item>, b: seq<Item>, id: int)
    ensures WithoutId(a + b, id) == WithoutId(a, id) + WithoutId(b, id)
  {
    if a == [] {
      assert a + b == b;
    } else {
      var t := a[1..];
      var h := if a[0].id != id then [a[0]] else [];
      calc {
        WithoutId(a + b, id);
        { assert a + b == [a[0]] + (t + b); }
        WithoutId([a[0]] + (t + b), id);
        { WithoutIdCons(a[0], t + b, id); }
        h + WithoutId(t + b, id);
        { WithoutIdAppend(t, b, id); }
        h + (WithoutId(t, id) + WithoutId(b, id));
        (h + WithoutId(t, id)) + WithoutId(b, id);
        { WithoutIdCons(a[0], t, id); assert a == [a[0]] + t; }
        WithoutId(a, id) + WithoutId(b, id);
      }
    }
  }

  lemma WithoutIdCons(x: Item, s: seq<Item>, id: int)
    ensures WithoutId([x] + s, id) == (if x.id != id then [x] else []) + WithoutId(s, id)
  {
    assert ([x] + s)[0] == x;
    assert ([x] + s)[1..] == s;
  }

  /** Filtering out an id no line has changes nothing. */
  lemma {:induction false} WithoutAbsentId(items: seq<Item>, id: int)
    requires forall i | 0 <= i < |items| :: items[i].id != id
    ensures WithoutId(items, id) == items
  {
    if items != [] {
      WithoutAbsentId(items[1..], id);
      assert items == [items[0]] + items[1..];
    }
  }

  /** Line k is the only line with its id. */
  predicate UniqueIdAt(items: seq<Item>, k: int) {
    0 <= k < |items| && forall i | 0 <= i < |items| && i != k :: items[i].id != items[k].id
  }

  /**
   * Removing the line whose id no other line shares drops that line alone
   * and keeps the others in their order.
   */
  lemma RemoveUniqueLine(items: seq<Item>, k: int)
    requires UniqueIdAt(items, k)
    ensures WithoutId(items, items[k].id) == items[..k] + items[k + 1..]
  {
    var id, front, back := items[k].id, items[..k], items[k + 1..];
    forall i | 0 <= i < |front| ensures front[i].id != id {
      assert front[i] == items[i];
    }
    forall i | 0 <= i < |back| ensures back[i].id != id {
      assert back[i] == items[k + 1 + i];
    }
    assert items == front + ([items[k]] + back);
    WithoutMiddleLine(front, items[k], back);
  }

  lemma WithoutMiddleLine(front: seq<Item>, x: Item, back: seq<Item>)
    requires forall i | 0 <= i < |front| :: front[i].id != x.id
    requires forall i | 0 <= i < |back| :: back[i].id != x.id
    ensures WithoutId(front + ([x] + back), x.id) == front + back
  {
    WithoutIdAppend(front, [x] + back, x.id);
    WithoutIdCons(x, back, x.id);
    assert [] + WithoutId(back, x.id) == WithoutId(back, x.id);
    WithoutAbsentId(front, x.id);
    WithoutAbsentId(back, x.id);
  }

  /** The same line as an item of the selecting cart, selected. */
  function AsSelected(x: Item): ShoppingCart.LineItem {
    ShoppingCart.LineItem(x.id, x.name, x.price, x.quantity, x.image, x.size, x.color, true)
  }

  function AllAsSelected(items: seq<Item>): seq<ShoppingCart.LineItem> {
    seq(|items|, i requires 0 <= i < |items| => AsSelected(items[i]))
  }

  /**
   * The older cart charges what the selecting cart charges when every item
   * is selected, and both badges agree.
   */
  lemma {:induction false} AgreesWithFullySelectedCart(items: seq<Item>)
    ensures Subtotal(items) == ShoppingCart.Subtotal(AllAsSelected(items))
    ensures ItemCount(items) == ShoppingCart.ItemCount(AllAsSelected(items))
  {
    ShoppingCart.AllSelectedFilterIsIdentity(AllAsSelected(items));
    SumsAgree(items);
  }

  lemma {:induction false} SumsAgree(items: seq<Item>)
    ensures Subtotal(items) == ShoppingCart.SumLines(AllAsSelected(items))
    ensures ItemCount(items) == ShoppingCart.ItemCount(AllAsSelected(items))
  {
    if items != [] {
      var init := items[..|items| - 1];
      SumsAgree(init);
      assert AllAsSelected(items)[..|items| - 1] == AllAsSelected(init);
    }
  }

  lemma {:induction false} SubtotalNonNegative(items: seq<Item>)
    requires QuantitiesPositive(items)
    ensures 0 <= Subtotal(items)
  {
    if items != [] {
      SubtotalNonNegative(items[..|items| - 1]);
    }
  }

  /** Changing one quantity moves the subtotal by that line's price times the change. */
  lemma {:induction false} QuantityChangeShiftsSubtotal(items: seq<Item>, k: int, q: int)
    requires 0 <= k < |items|
    requires forall i | 0 <= i < |items| && i != k :: items[i].id != items[k].id
    ensures Subtotal(WithQuantity(items, items[k].id, q))
            == Subtotal(items) + items[k].price * (q - items[k].quantity)
  {
    var n := |items| - 1;
    var r := WithQuantity(items, items[k].id, q);
    assert r[..n] == WithQuantity(items[..n], items[k].id, q);
    if k < n {
      QuantityChangeShiftsSubtotal(items[..n], k, q);
    } else {
      UntouchedSubtotal(items[..n], items[k].id, q);
    }
  }

  lemma {:induction false} UntouchedSubtotal(items: seq<Item>, id: int, q: int)
    requires forall i | 0 <= i < |items| :: items[i].id != id
    ensures WithQuantity(items, id, q) == items
  {
  }

  class Cart {
    var items: seq<Item>
    var isCartOpen: bool
    var isCheckingOut: bool
    var deliveryAnimation: bool
    var coupon: CouponState

    ghost predicate Valid()
      reads this
    {
      QuantitiesPositive(items) && coupon.Consistent() && 0 <= coupon.discount
    }

    constructor ()
      ensures Valid()
      ensures items == InitialItems && coupon == EmptyCoupon
      ensures !isCartOpen && !isCheckingOut && !deliveryAnimation
    {
      items := InitialItems;
      isCartOpen := false;
      isCheckingOut := false;
      deliveryAnimation := false;
      coupon := EmptyCoupon;
    }

    function CurrentTotal(): int
      reads this
    {
      Total(Subtotal(items), coupon.discount)
    }

    /** The checkout button is disabled while checking out. */
    predicate CheckoutEnabled()
      reads this
    {
      !isCheckingOut
    }

    predicate ApplyEnabled()
      reads this
    {
      coupon.code != ""
    }

    predicate CouponInputEnabled()
      reads this
    {
      !coupon.applied
    }

    method UpdateQuantity(id: int, newQuantity: int)
      requires Valid()
      modifies this`items
      ensures Valid()
      ensures newQuantity < 1 ==> items == old(items)
      ensures newQuantity >= 1 ==> items == WithQuantity(old(items), id, newQuantity)
    {
      if newQuantity < 1 {
        return;
      }
      items := WithQuantity(items, id, newQuantity);
    }

    method RemoveItem(id: int)
      requires Valid()
      modifies this`items, this`coupon
      ensures Valid()
      ensures items == WithoutId(old(items), id)
      ensures forall k | UniqueIdAt(old(items), k) && old(items)[k].id == id ::
        items == old(items)[..k] + old(items)[k + 1..]
      ensures coupon == if |old(items)| == 1 then EmptyCoupon else old(coupon)
    {
      forall k | UniqueIdAt(items, k) && items[k].id == id {
        RemoveUniqueLine(items, k);
      }
      var wasSingle := |items| == 1;
      items := WithoutId(items, id);
      if wasSingle {
        coupon := EmptyCoupon;
      }
    }

    method ToggleCart()
      modifies this`isCartOpen
      ensures isCartOpen == !old(isCartOpen)
    {
      isCartOpen := !isCartOpen;
    }

    method SetCouponCode(code: string)
      requires Valid()
      modifies this`coupon
      ensures Valid()
      ensures coupon == old(coupon).(code := code)
    {
      coupon := coupon.(code := code);
    }

    method ApplyCoupon()
      requires Valid()
      modifies this`coupon
      ensures Valid()
      ensures coupon == Pricing.ApplyCoupon(old(coupon), Subtotal(items))
      ensures CouponInputEnabled() <==> CouponRate(coupon.code).None?
    {
      SubtotalNonNegative(items);
      coupon := Pricing.ApplyCoupon(coupon, Subtotal(items));
    }

    method ClearCoupon()
      requires Valid()
      modifies this`coupon
      ensures Valid()
      ensures coupon == EmptyCoupon
      ensures !ApplyEnabled()
      ensures CouponInputEnabled()
    {
      coupon := EmptyCoupon;
    }

    /** The click: only the checking-out flag; the items stay. */
    method HandleCheckout()
      modifies this`isCheckingOut
      ensures isCheckingOut && !CheckoutEnabled()
    {
      isCheckingOut := true;
    }

    /** The first timer of checkout: the overlay appears. */
    method DeliveryStarted()
      modifies this`deliveryAnimation
      ensures deliveryAnimation
    {
      deliveryAnimation := true;
    }

    /** The second timer: overlay and checking-out flag go away; the items still stay. */
    method DeliveryFinished()
      modifies this`deliveryAnimation, this`isCheckingOut
      ensures !deliveryAnimation && !isCheckingOut
    {
      deliveryAnimation := false;
      isCheckingOut := false;
    }

    /** The overlay's button: the only place the cart is emptied; the coupon is left as it was. */
    method ContinueShopping()
      requires Valid()
      modifies this`deliveryAnimation, this`isCheckingOut, this`isCartOpen, this`items
      ensures Valid()
      ensures !deliveryAnimation && !isCheckingOut && !isCartOpen && items == []
    {
      deliveryAnimation := false;
      isCheckingOut := false;
      isCartOpen := false;
      items := [];
    }
  }
}
