/**
 * The coupon engine and the price arithmetic that both cart components share:
 * the two-entry code table, the percentage discount rounded like `Math.round`,
 * the flat shipping fee and the order total.
 */
module Pricing {
  import opened Wrappers
  import Text

  /** The fee charged whenever the subtotal is positive. */
  const ShippingFee: int := 199

  const InvalidCouponMessage: string := "Invalid coupon code"

  /**
   * The four coupon fields of a cart (`couponCode`, `discount`,
   * `couponApplied`, `couponError`) as one record.
   */
  datatype CouponState = CouponState(code: string, discount: int, applied: bool, error: string) {
    /** Applied and error never hold together, and only an applied coupon carries a discount. */
    predicate Consistent() {
      && (applied ==> error == "")
      && (!applied ==> discount == 0)
    }
  }

  /** The state `clearCoupon` and the coupon resets return to. */
  const EmptyCoupon: CouponState := CouponState("", 0, false, "")

  /** The percentage a code is worth; the code is compared upper-cased. */
  function CouponRate(code: string): (r: Option<int>)
    ensures r == None || r == Some(10) || r == Some(20)
  {
    var c := Text.ToUpper(code);
    if c == "RANJAYA10" then Some(10)
    else if c == "WELCOME20" then Some(20)
    else None
  }

  /** Matching ignores the case of the entered code. */
  lemma CouponRateIgnoresCase(code: string)
    ensures CouponRate(code) == CouponRate(Text.ToUpper(code))
  {
    Text.ToUpperIdempotent(code);
  }

  /**
   * `Math.round(amount * pct / 100)` computed exactly: the result is the
   * integer nearest to amount * pct / 100, halves rounded up.
   */
  function RoundedPercent(amount: int, pct: int): (r: int)
    requires 0 <= pct <= 100
    ensures 100 * r - 50 <= amount * pct < 100 * r + 50
    ensures 0 <= amount ==> 0 <= r <= amount
  {
    var r := (amount * pct + 50) / 100;
    assert 0 <= amount ==> amount * pct <= amount * 100;
    r
  }

  /** The `applyCoupon` handler on the coupon fields, for the current subtotal. */
  function ApplyCoupon(c: CouponState, subtotal: int): (r: CouponState)
    ensures r.code == c.code && r.Consistent()
    ensures r.applied <==> CouponRate(c.code).Some?
    ensures r.applied ==> r.discount == RoundedPercent(subtotal, CouponRate(c.code).value)
    ensures !r.applied ==> r.error == InvalidCouponMessage
    ensures 0 <= subtotal ==> 0 <= r.discount <= subtotal
  {
    match CouponRate(c.code)
    case Some(pct) => c.(discount := RoundedPercent(subtotal, pct), applied := true, error := "")
    case None => c.(discount := 0, applied := false, error := InvalidCouponMessage)
  }

  function Shipping(subtotal: int): int {
    if subtotal > 0 then ShippingFee else 0
  }

  function Total(subtotal: int, discount: int): int {
    subtotal + Shipping(subtotal) - discount
  }

  /** A discount just computed for the current subtotal never takes the total below the shipping charge. */
  lemma FreshDiscountKeepsTotalAboveShipping(c: CouponState, subtotal: int)
    requires 0 <= subtotal
    ensures Shipping(subtotal) <= Total(subtotal, ApplyCoupon(c, subtotal).discount)
    ensures 0 <= Total(subtotal, ApplyCoupon(c, subtotal).discount)
  {
  }

  /** A stale discount, kept while the subtotal shrinks, can make the total negative. */
  lemma StaleDiscountCanMakeTotalNegative(code: string)
    requires Text.ToUpper(code) == "WELCOME20"
    ensures var c := ApplyCoupon(CouponState(code, 0, false, ""), 10000);
            c.discount == 2000 && Total(10, c.discount) < 0
  {
    assert RoundedPercent(10000, 20) == 2000;
  }

  /** The code is matched whatever its case: "welcome20" is worth twenty percent. */
  lemma LowerCaseWelcome20Rate()
    ensures CouponRate("welcome20") == Some(20)
  {
    assert Text.ToUpper("welcome20") == "WELCOME20";
  }

  /** RANJAYA10, in any case, on a subtotal of 1000 gives a discount of 100. */
  lemma Ranjaya10OnThousand(code: string)
    requires Text.ToUpper(code) == "RANJAYA10"
    ensures var c := ApplyCoupon(CouponState(code, 0, false, ""), 1000);
            c.applied && c.discount == 100 && c.error == ""
  {
    assert RoundedPercent(1000, 10) == 100;
  }

  /** An unknown code leaves nothing applied and an error message. */
  lemma UnknownCodeIsInvalid()
    ensures var c := ApplyCoupon(CouponState("BOGUS", 0, false, ""), 1000);
            !c.applied && c.discount == 0 && c.error == InvalidCouponMessage
  {
    assert |Text.ToUpper("BOGUS")| == 5;
  }

  /**
   * WELCOME20, in any case, on 1100 takes 220 off, for a total of 1079; once
   * the coupon is reset, a subtotal of 500 costs 699.
   */
  lemma Welcome20WorkedExample(code: string)
    requires Text.ToUpper(code) == "WELCOME20"
    ensures var c := ApplyCoupon(CouponState(code, 0, false, ""), 1100);
            c.applied && c.discount == 220 && Total(1100, c.discount) == 1079
            && Total(500, EmptyCoupon.discount) == 699
  {
    ElevenHundredAtTwentyPercent();
  }

  lemma ElevenHundredAtTwentyPercent()
    ensures RoundedPercent(1100, 20) == 220
  {
  }
}
