/**
 * The product page: the quantity stepper, the price shown for the chosen
 * quantity, the image gallery's thumbnail arrows, and the add-to-cart
 * animation and confirmation modal.
 */
module ProductView {
  import opened Wrappers
  import opened Carousel

  /** What the page shows of a product; a missing or zero price is `None` or `Some(0)`. */
  datatype ProductInfo = ProductInfo(id: string, name: string, price: Option<int>, images: seq<string>)

  /** The placeholder the page loads: no name, no price yet, five images. */
  function PlaceholderProduct(productId: string): ProductInfo {
    ProductInfo(productId, "", None, [
      "/api/placeholder/600/800",
      "/api/placeholder/600/800?text=Image+2",
      "/api/placeholder/600/800?text=Image+3",
      "/api/placeholder/600/800?text=Image+4",
      "/api/placeholder/600/800?text=Image+5"
    ])
  }

  /**
   * The total shown beside the stepper, before formatting: nothing while no
   * product is loaded or its price is missing or zero, else price times quantity.
   */
  function CalculateTotalPrice(product: Option<ProductInfo>, quantity: int): (r: Option<int>)
    ensures r.None? <==> product.None? || product.value.price.None? || product.value.price.value == 0
    ensures r.Some? ==> r.value == product.value.price.value * quantity
  {
    match product
    case None => None
    case Some(p) =>
      match p.price
      case None => None
      case Some(price) => if price == 0 then None else Some(price * quantity)
  }

  /** The shown total grows by exactly one unit price per step of the stepper. */
  lemma TotalTracksQuantity(p: ProductInfo, quantity: int)
    requires p.price.Some? && p.price.value != 0
    ensures CalculateTotalPrice(Some(p), quantity + 1).value
            == CalculateTotalPrice(Some(p), quantity).value + p.price.value
  {
  }

  /** The placeholder has no price, so no total is shown for it. */
  lemma PlaceholderHasNoTotal(productId: string, quantity: int)
    ensures CalculateTotalPrice(Some(PlaceholderProduct(productId)), quantity) == None
  {
  }

  /** The page's state: the loaded product, the stepper, the gallery and the two flags. */
  class ProductPage {
    var product: Option<ProductInfo>
    var loading: bool
    var activeTab: string
    var quantity: int
    var activeImageIndex: int
    var showAddedAnimation: bool
    var showAddToCartModal: bool

    /** The stepper never shows less than one. */
    ghost predicate Valid()
      reads this
    {
      quantity >= 1
    }

    /** The gallery index names one of the loaded product's images. */
    predicate ImageInRange()
      reads this
    {
      product.Some? ==> 0 <= activeImageIndex < |product.value.images|
    }

    constructor()
      ensures Valid()
      ensures product == None && loading && activeTab == "details"
      ensures quantity == 1 && activeImageIndex == 0
      ensures !showAddedAnimation && !showAddToCartModal
    {
      product := None;
      loading := true;
      activeTab := "details";
      quantity := 1;
      activeImageIndex := 0;
      showAddedAnimation := false;
      showAddToCartModal := false;
    }

    /** The end of the simulated fetch: the product arrives and loading stops. */
    method ProductLoaded(p: ProductInfo)
      modifies this`product, this`loading
      ensures product == Some(p) && !loading
    {
      product := Some(p);
      loading := false;
    }

    /** The minus button: one less, but only from above one. */
    method DecreaseQuantity()
      requires Valid()
      modifies this`quantity
      ensures Valid()
      ensures old(quantity) > 1 ==> quantity == old(quantity) - 1
      ensures old(quantity) <= 1 ==> quantity == old(quantity)
      ensures old(DecreaseDisabled()) <==> quantity == old(quantity)
    {
      if quantity > 1 {
        quantity := quantity - 1;
      }
    }

    /** The plus button always adds one. */
    method IncreaseQuantity()
      requires Valid()
      modifies this`quantity
      ensures Valid() && quantity == old(quantity) + 1
    {
      quantity := quantity + 1;
    }

    /** The minus button is disabled exactly when pressing it would do nothing. */
    predicate DecreaseDisabled()
      reads this
    {
      quantity <= 1
    }

    function TotalPrice(): Option<int>
      reads this
    {
      CalculateTotalPrice(product, quantity)
    }

    /** Adding to the cart starts the animation and opens the modal; the quantity is kept. */
    method HandleAddToCart()
      modifies this`showAddedAnimation, this`showAddToCartModal
      ensures showAddedAnimation && showAddToCartModal
    {
      showAddedAnimation := true;
      showAddToCartModal := true;
    }

    /** The timer two seconds later hides the animation. */
    method AnimationEnded()
      modifies this`showAddedAnimation
      ensures !showAddedAnimation
    {
      showAddedAnimation := false;
    }

    /** "Buy now" adds to the cart; the checkout redirect does not exist yet. */
    method HandleBuyNow()
      modifies this`showAddedAnimation, this`showAddToCartModal
      ensures showAddedAnimation && showAddToCartModal
    {
      HandleAddToCart();
    }

    method HandleThumbnailClick(index: int)
      modifies this`activeImageIndex
      ensures activeImageIndex == index
      ensures product.Some? && 0 <= index < |product.value.images| ==> ImageInRange()
    {
      activeImageIndex := index;
    }

    /** Next image, the last going back to the first; nothing before a product is loaded. */
    method HandleNextThumbnail()
      modifies this`activeImageIndex
      ensures product.None? ==> activeImageIndex == old(activeImageIndex)
      ensures product.Some? ==> activeImageIndex == WrapNext(old(activeImageIndex), |product.value.images|)
      ensures old(ImageInRange()) ==> ImageInRange()
    {
      if product.None? {
        return;
      }
      var n := |product.value.images|;
      activeImageIndex := if activeImageIndex == n - 1 then 0 else activeImageIndex + 1;
    }

    /** Previous image, the first going round to the last; nothing before a product is loaded. */
    method HandlePrevThumbnail()
      modifies this`activeImageIndex
      ensures product.None? ==> activeImageIndex == old(activeImageIndex)
      ensures product.Some? ==> activeImageIndex == WrapPrev(old(activeImageIndex), |product.value.images|)
      ensures old(ImageInRange()) ==> ImageInRange()
    {
      if product.None? {
        return;
      }
      var n := |product.value.images|;
      activeImageIndex := if activeImageIndex == 0 then n - 1 else activeImageIndex - 1;
    }

    method HandleTabChange(tab: string)
      modifies this`activeTab
      ensures activeTab == tab
    {
      activeTab := tab;
    }

    /** Closing the modal clears that flag only. */
    method CloseAddToCartModal()
      modifies this`showAddToCartModal
      ensures !showAddToCartModal
    {
      showAddToCartModal := false;
    }
  }
}
