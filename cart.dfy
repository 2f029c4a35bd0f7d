/**
 * The shopping cart of the header (components/CartComponent.jsx): line items
 * with a per-item checkout selection, sizes drawn from a letter or numeric
 * table, a coupon, and a checkout that removes exactly the selected items.
 */
module ShoppingCart {
  import opened Wrappers
  import Text
  import opened Pricing

  datatype LineItem = LineItem(
    id: int,
    name: string,
    price: nat,
    quantity: int,
    image: string,
    size: string,
    color: string,
    selectedForCheckout: bool)

  datatype SizeFormat = Letter | Numeric

  const LetterSizes: seq<string> := ["XS", "S", "M", "L", "XL", "XXL"]
  const NumericSizes: seq<string> := ["36", "38", "40", "42", "44", "46"]
  const FreeSizes: seq<string> := ["Free Size"]

  /** The mock cart the component starts with. */
  const InitialCartItems: seq<LineItem> := [
    LineItem(1, "Hand-Embroidered Silk Kurta", 4999, 1, "/api/placeholder/120/140", "M", "Maroon", true),
    LineItem(2, "Traditional Cotton Saree", 6599, 1, "/api/placeholder/120/140", "Free Size", "Cream", true),
    LineItem(3, "Traditional Cotton Saree", 6599, 1, "/api/placeholder/120/140", "Free Size", "Cream", true),
    LineItem(4, "Traditional Cotton Saree", 6599, 1, "/api/placeholder/120/140", "Free Size", "Cream", true)
  ]

  predicate QuantitiesPositive(items: seq<LineItem>) {
    forall i | 0 <= i < |items| :: items[i].quantity >= 1
  }

  function LineTotal(item: LineItem): int {
    item.price * item.quantity
  }

  /** `reduce((total, item) => total + item.price * item.quantity, 0)`. */
  function SumLines(s: seq<LineItem>): int {
    if s == [] then 0 else SumLines(s[..|s| - 1]) + LineTotal(s[|s| - 1])
  }

  /** `cartItems.filter(item => item.selectedForCheckout)`. */
  function SelectedItems(items: seq<LineItem>): (r: seq<LineItem>)
    ensures |r| <= |items|
    ensures forall x :: x in r <==> x in items && x.selectedForCheckout
  {
    if items == [] then []
    else
      var rest := SelectedItems(items[..|items| - 1]);
      var last := items[|items| - 1];
      assert items == items[..|items| - 1] + [last];
      if last.selectedForCheckout then rest + [last] else rest
  }

  /** `cartItems.filter(item => !item.selectedForCheckout)`: what checkout leaves behind. */
  function UnselectedItems(items: seq<LineItem>): (r: seq<LineItem>)
    ensures |r| <= |items|
    ensures forall x :: x in r <==> x in items && !x.selectedForCheckout
  {
    if items == [] then []
    else
      var rest := UnselectedItems(items[..|items| - 1]);
      var last := items[|items| - 1];
      assert items == items[..|items| - 1] + [last];
      if !last.selectedForCheckout then rest + [last] else rest
  }

  /** The sum over the selected items only. */
  function Subtotal(items: seq<LineItem>): int {
    SumLines(SelectedItems(items))
  }

  /** Every item lands in exactly one of the two filters. */
  lemma {:induction false} SelectionSplitsCart(items: seq<LineItem>)
    ensures multiset(SelectedItems(items)) + multiset(UnselectedItems(items)) == multiset(items)
    ensures |SelectedItems(items)| + |UnselectedItems(items)| == |items|
  {
    if items != [] {
      var init, last := items[..|items| - 1], items[|items| - 1];
      SelectionSplitsCart(init);
      assert items == init + [last];
      if last.selectedForCheckout {
        assert SelectedItems(items) == SelectedItems(init) + [last];
        assert UnselectedItems(items) == UnselectedItems(init);
      } else {
        assert SelectedItems(items) == SelectedItems(init);
        assert UnselectedItems(items) == UnselectedItems(init) + [last];
      }
    }
  }

  lemma {:induction false} SumLinesAppend(a: seq<LineItem>, b: seq<LineItem>)
    ensures SumLines(a + b) == SumLines(a) + SumLines(b)
  {
    if b != [] {
      var b' := b[..|b| - 1];
      SumLinesAppend(a, b');
      assert (a + b)[..|a + b| - 1] == a + b';
    } else {
      assert a + b == a;
    }
  }

  lemma {:induction false} SelectedItemsAppend(a: seq<LineItem>, b: seq<LineItem>)
    ensures SelectedItems(a + b) == SelectedItems(a) + SelectedItems(b)
  {
    if b != [] {
      var b' := b[..|b| - 1];
      var last := b[|b| - 1];
      SelectedItemsAppend(a, b');
      assert (a + b)[..|a + b| - 1] == a + b';
      assert (a + b)[|a + b| - 1] == last;
      if last.selectedForCheckout {
        assert SelectedItems(a + b) == SelectedItems(a + b') + [last];
        assert SelectedItems(b) == SelectedItems(b') + [last];
      } else {
        assert SelectedItems(a + b) == SelectedItems(a + b');
        assert SelectedItems(b) == SelectedItems(b');
      }
    } else {
      assert a + b == a;
    }
  }

  lemma {:induction false} UnselectedItemsAppend(a: seq<LineItem>, b: seq<LineItem>)
    ensures UnselectedItems(a + b) == UnselectedItems(a) + UnselectedItems(b)
  {
    if b != [] {
      var b' := b[..|b| - 1];
      var last := b[|b| - 1];
      UnselectedItemsAppend(a, b');
      assert (a + b)[..|a + b| - 1] == a + b';
      assert (a + b)[|a + b| - 1] == last;
      if !last.selectedForCheckout {
        assert UnselectedItems(a + b) == UnselectedItems(a + b') + [last];
        assert UnselectedItems(b) == UnselectedItems(b') + [last];
      } else {
        assert UnselectedItems(a + b) == UnselectedItems(a + b');
        assert UnselectedItems(b) == UnselectedItems(b');
      }
    } else {
      assert a + b == a;
    }
  }

  /** The subtotal of two carts laid end to end is the sum of their subtotals. */
  lemma SubtotalAppend(a: seq<LineItem>, b: seq<LineItem>)
    ensures Subtotal(a + b) == Subtotal(a) + Subtotal(b)
  {
    SelectedItemsAppend(a, b);
    SumLinesAppend(SelectedItems(a), SelectedItems(b));
  }

  /** Adding an unselected item never changes the subtotal. */
  lemma AddingUnselectedKeepsSubtotal(items: seq<LineItem>, x: LineItem)
    requires !x.selectedForCheckout
    ensures Subtotal(items + [x]) == Subtotal(items)
  {
    SubtotalAppend(items, [x]);
    assert SelectedItems([x]) == [];
  }

  /**
   * Two carts of the same shape whose selected items cost the same line by
   * line have the same subtotal, whatever their unselected items hold.
   */
  lemma {:induction false} SubtotalDependsOnlyOnSelected(a: seq<LineItem>, b: seq<LineItem>)
    requires |a| == |b|
    requires forall i | 0 <= i < |a| :: a[i].selectedForCheckout == b[i].selectedForCheckout
    requires forall i | 0 <= i < |a| :: a[i].selectedForCheckout ==> LineTotal(a[i]) == LineTotal(b[i])
    ensures Subtotal(a) == Subtotal(b)
  {
    if a != [] {
      var n := |a| - 1;
      SubtotalDependsOnlyOnSelected(a[..n], b[..n]);
      SubtotalSnoc(a);
      SubtotalSnoc(b);
    }
  }

  /** The subtotal grows by the last line's total exactly when that line is selected. */
  lemma SubtotalSnoc(s: seq<LineItem>)
    requires s != []
    ensures Subtotal(s) == Subtotal(s[..|s| - 1]) + if s[|s| - 1].selectedForCheckout then LineTotal(s[|s| - 1]) else 0
  {
    var rest := SelectedItems(s[..|s| - 1]);
    if s[|s| - 1].selectedForCheckout {
      assert (rest + [s[|s| - 1]])[..|rest|] == rest;
    }
  }

  lemma {:induction false} SumLinesNonNegative(s: seq<LineItem>)
    requires QuantitiesPositive(s)
    ensures 0 <= SumLines(s)
  {
    if s != [] {
      SumLinesNonNegative(s[..|s| - 1]);
    }
  }

  /** With every quantity at least 1 the subtotal is never negative. */
  lemma SubtotalNonNegative(items: seq<LineItem>)
    requires QuantitiesPositive(items)
    ensures 0 <= Subtotal(items)
  {
    var sel := SelectedItems(items);
    forall i | 0 <= i < |sel| ensures sel[i].quantity >= 1 {
      assert sel[i] in items;
    }
    SumLinesNonNegative(sel);
  }

  /** Nothing in what checkout leaves behind is selected, so it costs nothing and ships for free. */
  lemma AfterCheckoutNothingToPay(items: seq<LineItem>)
    ensures Subtotal(UnselectedItems(items)) == 0
    ensures Total(Subtotal(UnselectedItems(items)), EmptyCoupon.discount) == 0
  {
  }

  /** `cartItems.map(item => item.id === id ? {...item, quantity: q} : item)`. */
  function WithQuantity(items: seq<LineItem>, id: int, q: int): seq<LineItem> {
    seq(|items|, i requires 0 <= i < |items| => if items[i].id == id then items[i].(quantity := q) else items[i])
  }

  /** `cartItems.map(item => item.id === id ? {...item, size: s} : item)`. */
  function WithSize(items: seq<LineItem>, id: int, size: string): seq<LineItem> {
    seq(|items|, i requires 0 <= i < |items| => if items[i].id == id then items[i].(size := size) else items[i])
  }

  /** Flips `selectedForCheckout` on the items with that id. */
  function WithSelectionToggled(items: seq<LineItem>, id: int): seq<LineItem> {
    seq(|items|, i requires 0 <= i < |items| =>
      if items[i].id == id then items[i].(selectedForCheckout := !items[i].selectedForCheckout) else items[i])
  }

  /** Sets `selectedForCheckout` on every item. */
  function WithAllSelected(items: seq<LineItem>, selected: bool): seq<LineItem> {
    seq(|items|, i requires 0 <= i < |items| => items[i].(selectedForCheckout := selected))
  }

  /** `cartItems.filter(item => item.id !== id)`. */
  function WithoutId(items: seq<LineItem>, id: int): (r: seq<LineItem>)
    ensures |r| <= |items|
    ensures forall x :: x in r <==> x in items && x.id != id
    ensures (exists i | 0 <= i < |items| :: items[i].id == id) ==> |r| < |items|
  {
    if items == [] then []
    else
      var rest := WithoutId(items[1..], id);
      assert items == [items[0]] + items[1..];
      assert forall i | 1 <= i < |items| :: items[i] == items[1..][i - 1];
      if items[0].id != id then [items[0]] + rest else rest
  }

  lemma {:induction false} WithoutIdAppend(a: seq<LineItem>, b: seq<LineItem>, id: int)
    ensures WithoutId(a + b, id) == WithoutId(a, id) + WithoutId(b, id)
  {
    if a == [] {
      assert a + b == b;
    } else {
      var t := a[1..];
      var h := if a[0].id != id then [a[0]] else [];
      calc {
        WithoutId(a + b, id);
        { assert a + b == [a[0]] + (t + b); }
        WithoutId([a[0]] + (t + b), id);
        { WithoutIdCons(a[0], t + b, id); }
        h + WithoutId(t + b, id);
        { WithoutIdAppend(t, b, id); }
        h + (WithoutId(t, id) + WithoutId(b, id));
        (h + WithoutId(t, id)) + WithoutId(b, id);
        { WithoutIdCons(a[0], t, id); assert a == [a[0]] + t; }
        WithoutId(a, id) + WithoutId(b, id);
      }
    }
  }

  lemma WithoutIdCons(x: LineItem, s: seq<LineItem>, id: int)
    ensures WithoutId([x] + s, id) == (if x.id != id then [x] else []) + WithoutId(s, id)
  {
    assert ([x] + s)[0] == x;
    assert ([x] + s)[1..] == s;
  }

  /** Filtering out an id no line has changes nothing. */
  lemma {:induction false} WithoutAbsentId(items: seq<LineItem>, id: int)
    requires forall i | 0 <= i < |items| :: items[i].id != id
    ensures WithoutId(items, id) == items
  {
    if items != [] {
      WithoutAbsentId(items[1..], id);
      assert items == [items[0]] + items[1..];
    }
  }

  /** Line k is the only line with its id. */
  predicate UniqueIdAt(items: seq<LineItem>, k: int) {
    0 <= k < |items| && forall i | 0 <= i < |items| && i != k :: items[i].id != items[k].id
  }

  /**
   * Removing the line whose id no other line shares drops that line alone
   * and keeps the others in their order.
   */
  lemma RemoveUniqueLine(items: seq<LineItem>, k: int)
    requires UniqueIdAt(items, k)
    ensures WithoutId(items, items[k].id) == items[..k] + items[k + 1..]
  {
    var id, front, back := items[k].id, items[..k], items[k + 1..];
    forall i | 0 <= i < |front| ensures front[i].id != id {
      assert front[i] == items[i];
    }
    forall i | 0 <= i < |back| ensures back[i].id != id {
      assert back[i] == items[k + 1 + i];
    }
    assert items == front + ([items[k]] + back);
    WithoutMiddleLine(front, items[k], back);
  }

  lemma WithoutMiddleLine(front: seq<LineItem>, x: LineItem, back: seq<LineItem>)
    requires forall i | 0 <= i < |front| :: front[i].id != x.id
    requires forall i | 0 <= i < |back| :: back[i].id != x.id
    ensures WithoutId(front + ([x] + back), x.id) == front + back
  {
    WithoutIdAppend(front, [x] + back, x.id);
    WithoutIdCons(x, back, x.id);
    assert [] + WithoutId(back, x.id) == WithoutId(back, x.id);
    WithoutAbsentId(front, x.id);
    WithoutAbsentId(back, x.id);
  }

  /** Changing the quantity of items that are not selected leaves the subtotal alone. */
  lemma QuantityOfUnselectedKeepsSubtotal(items: seq<LineItem>, id: int, q: int)
    requires forall i | 0 <= i < |items| :: items[i].id == id ==> !items[i].selectedForCheckout
    ensures Subtotal(WithQuantity(items, id, q)) == Subtotal(items)
  {
    SubtotalDependsOnlyOnSelected(items, WithQuantity(items, id, q));
  }

  /** A valid quantity keeps every quantity at least 1. */
  lemma WithQuantityKeepsPositive(items: seq<LineItem>, id: int, q: int)
    requires QuantitiesPositive(items) && q >= 1
    ensures QuantitiesPositive(WithQuantity(items, id, q))
  {
  }

  /** `cartItems.length > 0 && cartItems.every(item => item.selectedForCheckout)`. */
  predicate AllItemsSelected(items: seq<LineItem>) {
    |items| > 0 && forall i | 0 <= i < |items| :: items[i].selectedForCheckout
  }

  lemma {:induction false} AllSelectedFilterIsIdentity(items: seq<LineItem>)
    requires forall i | 0 <= i < |items| :: items[i].selectedForCheckout
    ensures SelectedItems(items) == items
  {
    if items != [] {
      AllSelectedFilterIsIdentity(items[..|items| - 1]);
      assert items == items[..|items| - 1] + [items[|items| - 1]];
    }
  }

  /** When every item is selected the subtotal is the whole cart. */
  lemma AllSelectedSubtotalIsWholeCart(items: seq<LineItem>)
    requires AllItemsSelected(items)
    ensures Subtotal(items) == SumLines(items)
  {
    AllSelectedFilterIsIdentity(items);
  }

  lemma {:induction false} NoneSelectedFilterIsEmpty(items: seq<LineItem>)
    requires forall i | 0 <= i < |items| :: !items[i].selectedForCheckout
    ensures SelectedItems(items) == []
  {
    if items != [] {
      NoneSelectedFilterIsEmpty(items[..|items| - 1]);
    }
  }

  /** Select-all selects everything; deselect-all leaves a zero subtotal. */
  lemma SelectAllOutcome(items: seq<LineItem>)
    ensures AllItemsSelected(WithAllSelected(items, true)) <==> |items| > 0
    ensures Subtotal(WithAllSelected(items, true)) == SumLines(WithAllSelected(items, true))
    ensures SelectedItems(WithAllSelected(items, false)) == []
    ensures Subtotal(WithAllSelected(items, false)) == 0
  {
    AllSelectedFilterIsIdentity(WithAllSelected(items, true));
    NoneSelectedFilterIsEmpty(WithAllSelected(items, false));
  }

  /** Toggling the same item twice restores the selection. */
  lemma ToggleSelectionTwice(items: seq<LineItem>, id: int)
    ensures WithSelectionToggled(WithSelectionToggled(items, id), id) == items
  {
  }

  /**
   * `getSizeOptions`: one free size for anything whose lower-cased name
   * mentions "saree", otherwise the table of the current format.
   */
  function GetSizeOptions(item: LineItem, format: SizeFormat): (r: seq<string>)
    ensures Text.Contains(Text.ToLower(item.name), "saree") ==> r == ["Free Size"]
    ensures !Text.Contains(Text.ToLower(item.name), "saree") ==>
      r == (if format == Letter then LetterSizes else NumericSizes)
    ensures |r| == 1 || |r| == 6
    ensures "Free Size" in r <==> Text.Contains(Text.ToLower(item.name), "saree")
  {
    if Text.Contains(Text.ToLower(item.name), "saree") then FreeSizes
    else if format == Letter then LetterSizes
    else NumericSizes
  }

  /** A name with "Saree" in it, in the case the catalogue writes it, gets the single free size. */
  lemma CapitalisedSareeGetsFreeSize(item: LineItem, format: SizeFormat, i: int)
    requires Text.OccursAt(item.name, "Saree", i)
    ensures GetSizeOptions(item, format) == ["Free Size"]
  {
    var low := Text.ToLower(item.name);
    forall j | 0 <= j < 5 ensures low[i + j] == "saree"[j] {
      assert item.name[i + j] == item.name[i..i + 5][j] == "Saree"[j];
    }
    assert low[i..i + 5] == "saree";
    assert Text.OccursAt(low, "saree", i);
  }

  /** The saree lines the cart starts with offer only the free size, in either format. */
  lemma InitialSareeLinesGetFreeSize(format: SizeFormat)
    ensures GetSizeOptions(InitialCartItems[1], format) == ["Free Size"]
  {
    var name := InitialCartItems[1].name;
    assert name[19..24] == "Saree";
    CapitalisedSareeGetsFreeSize(InitialCartItems[1], format, 19);
  }

  /** The format switch changes the options of exactly the items that are not sarees. */
  lemma FormatMattersExactlyForNonSarees(item: LineItem)
    ensures GetSizeOptions(item, Letter) == GetSizeOptions(item, Numeric)
            <==> Text.Contains(Text.ToLower(item.name), "saree")
  {
    if !Text.Contains(Text.ToLower(item.name), "saree") {
      assert LetterSizes[0] != NumericSizes[0];
    }
  }

  function OtherFormat(f: SizeFormat): SizeFormat {
    if f == Letter then Numeric else Letter
  }

  /** The badge: `cartItems.reduce((total, item) => total + item.quantity, 0)`. */
  function ItemCount(items: seq<LineItem>): int {
    if items == [] then 0 else ItemCount(items[..|items| - 1]) + items[|items| - 1].quantity
  }

  /** With positive quantities the badge counts at least one per line. */
  lemma {:induction false} ItemCountAtLeastLines(items: seq<LineItem>)
    requires QuantitiesPositive(items)
    ensures ItemCount(items) >= |items|
  {
    if items != [] {
      ItemCountAtLeastLines(items[..|items| - 1]);
    }
  }

  /**
   * The worked example: 500 x 1 and 300 x 2, both selected, give
   * 1100 (see Pricing.Welcome20WorkedExample for the coupon); deselecting
   * the second line brings the subtotal to 500.
   */
  lemma WorkedExampleSubtotals()
    ensures var items := [LineItem(1, "A", 500, 1, "", "M", "", true), LineItem(2, "B", 300, 2, "", "M", "", true)];
            Subtotal(items) == 1100 && Subtotal(WithSelectionToggled(items, 2)) == 500
  {
    var a := LineItem(1, "A", 500, 1, "", "M", "", true);
    var b := LineItem(2, "B", 300, 2, "", "M", "", true);
    var items := [a, b];
    assert items[..1] == [a];
    assert [a][..0] == [];
    assert SelectedItems(items) == [a, b];
    assert SumLines([a]) == 500;
    assert SumLines([a, b]) == 1100;
    var after := WithSelectionToggled(items, 2);
    assert after == [a, b.(selectedForCheckout := false)];
    assert after[..1] == [a];
    assert SelectedItems(after) == [a];
  }

  class Cart {
    var items: seq<LineItem>
    var isCartOpen: bool
    var isCheckingOut: bool
    var deliveryAnimation: bool
    var coupon: CouponState
    var activeSizeSelector: Option<int>
    var sizeFormat: SizeFormat

    /** Quantities stay at least 1 and the coupon fields stay consistent. */
    ghost predicate Valid()
      reads this
    {
      QuantitiesPositive(items) && coupon.Consistent() && 0 <= coupon.discount
    }

    constructor ()
      ensures Valid()
      ensures items == InitialCartItems && coupon == EmptyCoupon && sizeFormat == Letter
      ensures !isCartOpen && !isCheckingOut && !deliveryAnimation && activeSizeSelector == None
    {
      items := InitialCartItems;
      isCartOpen := false;
      isCheckingOut := false;
      deliveryAnimation := false;
      coupon := EmptyCoupon;
      activeSizeSelector := None;
      sizeFormat := Letter;
    }

    function CurrentSubtotal(): int
      reads this
    {
      Subtotal(items)
    }

    function CurrentTotal(): int
      reads this
    {
      Total(Subtotal(items), coupon.discount)
    }

    /** Whether the checkout button is enabled. */
    predicate CheckoutEnabled()
      reads this
    {
      !isCheckingOut && SelectedItems(items) != []
    }

    /** Whether the Apply button is enabled. */
    predicate ApplyEnabled()
      reads this
    {
      coupon.code != "" && SelectedItems(items) != []
    }

    /** Whether the code field accepts input. */
    predicate CouponInputEnabled()
      reads this
    {
      !coupon.applied && SelectedItems(items) != []
    }

    method UpdateQuantity(id: int, newQuantity: int)
      requires Valid()
      modifies this`items
      ensures Valid()
      ensures newQuantity < 1 ==> items == old(items)
      ensures newQuantity >= 1 ==> items == WithQuantity(old(items), id, newQuantity)
    {
      if newQuantity < 1 {
        return;
      }
      items := WithQuantity(items, id, newQuantity);
    }

    method RemoveItem(id: int)
      requires Valid()
      modifies this`items, this`coupon
      ensures Valid()
      ensures items == WithoutId(old(items), id)
      ensures forall k | UniqueIdAt(old(items), k) && old(items)[k].id == id ::
        items == old(items)[..k] + old(items)[k + 1..]
      ensures coupon == if |old(items)| == 1 then EmptyCoupon else old(coupon)
    {
      forall k | UniqueIdAt(items, k) && items[k].id == id {
        RemoveUniqueLine(items, k);
      }
      var wasSingle := |items| == 1;
      items := WithoutId(items, id);
      if wasSingle {
        coupon := EmptyCoupon;
      }
    }

    method ToggleCart()
      modifies this`isCartOpen, this`activeSizeSelector
      ensures isCartOpen == !old(isCartOpen) && activeSizeSelector == None
    {
      isCartOpen := !isCartOpen;
      activeSizeSelector := None;
    }

    /** Typing into the coupon field. */
    method SetCouponCode(code: string)
      requires Valid()
      modifies this`coupon
      ensures Valid()
      ensures coupon == old(coupon).(code := code)
    {
      coupon := coupon.(code := code);
    }

    method ApplyCoupon()
      requires Valid()
      modifies this`coupon
      ensures Valid()
      ensures coupon == Pricing.ApplyCoupon(old(coupon), Subtotal(items))
      ensures CouponInputEnabled() <==> CouponRate(coupon.code).None? && SelectedItems(items) != []
    {
      SubtotalNonNegative(items);
      coupon := Pricing.ApplyCoupon(coupon, Subtotal(items));
    }

    method ClearCoupon()
      requires Valid()
      modifies this`coupon
      ensures Valid()
      ensures coupon == EmptyCoupon
      ensures !ApplyEnabled()
      ensures CouponInputEnabled() <==> SelectedItems(items) != []
    {
      coupon := EmptyCoupon;
    }

    method ToggleSizeSelector(id: int)
      modifies this`activeSizeSelector
      ensures activeSizeSelector == if old(activeSizeSelector) == Some(id) then None else Some(id)
    {
      activeSizeSelector := if activeSizeSelector == Some(id) then None else Some(id);
    }

    /** Stores any size string on the matching items and closes the selector. */
    method UpdateSize(id: int, newSize: string)
      requires Valid()
      modifies this`items, this`activeSizeSelector
      ensures Valid()
      ensures items == WithSize(old(items), id, newSize)
      ensures activeSizeSelector == None
    {
      items := WithSize(items, id, newSize);
      activeSizeSelector := None;
    }

    method ToggleItemSelection(id: int)
      requires Valid()
      modifies this`items, this`coupon
      ensures Valid()
      ensures items == WithSelectionToggled(old(items), id)
      ensures coupon == EmptyCoupon
    {
      items := WithSelectionToggled(items, id);
      coupon := EmptyCoupon;
    }

    /**
     * Checkout, with its two timers run to completion: nothing happens when
     * no item is selected; otherwise the cart keeps exactly the unselected
     * items, in order, and the coupon is cleared.
     */
    method HandleCheckout()
      requires Valid()
      modifies this`items, this`coupon, this`isCheckingOut, this`deliveryAnimation
      ensures Valid()
      ensures SelectedItems(old(items)) == [] ==>
        items == old(items) && coupon == old(coupon)
        && isCheckingOut == old(isCheckingOut) && deliveryAnimation == old(deliveryAnimation)
      ensures SelectedItems(old(items)) != [] ==>
        items == UnselectedItems(old(items)) && coupon == EmptyCoupon
        && !isCheckingOut && !deliveryAnimation
      ensures !CheckoutEnabled()
    {
      if SelectedItems(items) == [] {
        return;
      }
      isCheckingOut := true;
      // first timer
      deliveryAnimation := true;
      // second timer
      deliveryAnimation := false;
      isCheckingOut := false;
      var kept := UnselectedItems(items);
      forall i | 0 <= i < |kept| ensures kept[i].quantity >= 1 {
        assert kept[i] in items;
      }
      items := kept;
      coupon := EmptyCoupon;
      if SelectedItems(items) != [] {
        assert SelectedItems(items)[0] in SelectedItems(items);
      }
    }

    /** The button of the delivery overlay. */
    method ContinueShopping()
      modifies this`deliveryAnimation, this`isCheckingOut, this`isCartOpen
      ensures !deliveryAnimation && !isCheckingOut && !isCartOpen
    {
      deliveryAnimation := false;
      isCheckingOut := false;
      isCartOpen := false;
    }

    method ToggleSelectAll(selectAll: bool)
      requires Valid()
      modifies this`items, this`coupon
      ensures Valid()
      ensures items == WithAllSelected(old(items), selectAll)
      ensures coupon == EmptyCoupon
    {
      items := WithAllSelected(items, selectAll);
      coupon := EmptyCoupon;
    }

    /** The select-all checkbox: selects everything unless everything already is. */
    method ClickSelectAll()
      requires Valid()
      modifies this`items, this`coupon
      ensures Valid()
      ensures items == WithAllSelected(old(items), !AllItemsSelected(old(items)))
      ensures coupon == EmptyCoupon
    {
      ToggleSelectAll(!AllItemsSelected(items));
    }

    function SizeOptions(item: LineItem): seq<string>
      reads this
    {
      GetSizeOptions(item, sizeFormat)
    }

    method ToggleSizeFormat()
      modifies this`sizeFormat
      ensures sizeFormat != old(sizeFormat)
      ensures sizeFormat == OtherFormat(old(sizeFormat))
    {
      sizeFormat := if sizeFormat == Letter then Numeric else Letter;
    }
  }
}
