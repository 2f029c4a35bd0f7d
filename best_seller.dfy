/**
 * The best-seller listing: a sort drop-down whose choice re-orders a copy of
 * the product list by price or by name, or leaves it as it is.
 */
module BestSellers {
  import opened Sorting

  datatype Product = Product(id: int, name: string, price: int)

  /** The six products the page starts with, in "Best Selling" order. */
  const InitialProducts: seq<Product> := [
    Product(1, "VANRAAG", 1271), Product(2, "PICHWAI PANKH", 1346),
    Product(3, "RANG-GULZAR", 1271), Product(4, "PANKHURI", 1271),
    Product(5, "TANA-BANA", 2019), Product(6, "PURPLE PETAL", 1866)
  ]

  const BestSelling: string := "Best Selling"
  const PriceLowToHigh: string := "Price, low to high"
  const PriceHighToLow: string := "Price, high to low"
  const NameAToZ: string := "Alphabetically, A-Z"
  const NameZToA: string := "Alphabetically, Z-A"

  /** The drop-down's entries, in display order. */
  const SortOptions: seq<string> := [
    BestSelling, PriceLowToHigh, PriceHighToLow, NameAToZ, NameZToA,
    "Date, old to new", "Date, new to old"
  ]

  /**
   * String order, character by character, a proper prefix first. The page
   * compares names with `localeCompare`; see the README for the difference.
   */
  predicate LexLe(a: string, b: string)
    decreases |a|
  {
    if a == [] then true
    else if b == [] then false
    else if a[0] != b[0] then a[0] < b[0]
    else LexLe(a[1..], b[1..])
  }

  lemma {:induction false} LexLeTotal(a: string, b: string)
    ensures LexLe(a, b) || LexLe(b, a)
    decreases |a|
  {
    if a != [] && b != [] && a[0] == b[0] {
      LexLeTotal(a[1..], b[1..]);
    }
  }

  lemma {:induction false} LexLeTransitive(a: string, b: string, c: string)
    requires LexLe(a, b) && LexLe(b, c)
    ensures LexLe(a, c)
    decreases |a|
  {
    if a != [] && b != [] && c != [] && a[0] == b[0] && b[0] == c[0] {
      LexLeTransitive(a[1..], b[1..], c[1..]);
    }
  }

  /** Two names that are each at most the other are the same name. */
  lemma {:induction false} LexLeAntisymmetric(a: string, b: string)
    requires LexLe(a, b) && LexLe(b, a)
    ensures a == b
    decreases |a|
  {
    if a != [] {
      LexLeAntisymmetric(a[1..], b[1..]);
      assert a == [a[0]] + a[1..] && b == [b[0]] + b[1..];
    }
  }

  /** The four comparators, each as "the comparator does not return a positive number". */
  function CheaperFirst(a: Product, b: Product): bool { a.price - b.price <= 0 }
  function DearerFirst(a: Product, b: Product): bool { b.price - a.price <= 0 }
  function NameAscending(a: Product, b: Product): bool { LexLe(a.name, b.name) }
  function NameDescending(a: Product, b: Product): bool { LexLe(b.name, a.name) }

  lemma PriceOrdersArePreorders()
    ensures TotalPreorder(CheaperFirst) && TotalPreorder(DearerFirst)
  {
  }

  lemma NameOrdersArePreorders()
    ensures TotalPreorder(NameAscending) && TotalPreorder(NameDescending)
  {
    forall a: Product, b: Product
      ensures NameAscending(a, b) || NameAscending(b, a)
      ensures NameDescending(a, b) || NameDescending(b, a)
    {
      LexLeTotal(a.name, b.name);
    }
    forall a: Product, b: Product, c: Product | NameAscending(a, b) && NameAscending(b, c)
      ensures NameAscending(a, c)
    {
      LexLeTransitive(a.name, b.name, c.name);
    }
    forall a: Product, b: Product, c: Product | NameDescending(a, b) && NameDescending(b, c)
      ensures NameDescending(a, c)
    {
      LexLeTransitive(c.name, b.name, a.name);
    }
  }

  /** The `switch` of `handleSortChange`: which order, if any, an option sorts by. */
  function SortProducts(products: seq<Product>, option: string): (r: seq<Product>)
    ensures multiset(r) == multiset(products) && |r| == |products|
    ensures option !in {PriceLowToHigh, PriceHighToLow, NameAToZ, NameZToA} ==> r == products
  {
    if option == PriceLowToHigh then Sort(products, CheaperFirst)
    else if option == PriceHighToLow then Sort(products, DearerFirst)
    else if option == NameAToZ then Sort(products, NameAscending)
    else if option == NameZToA then Sort(products, NameDescending)
    else products
  }

  /**
   * Three entries of the drop-down have no case in the `switch`: choosing
   * "Best Selling" or either date order leaves the list as it is.
   */
  lemma UnsortedOptionsKeepOrder(products: seq<Product>)
    ensures forall k | 0 <= k < |SortOptions| && (k == 0 || 5 <= k) :: SortProducts(products, SortOptions[k]) == products
  {
  }

  /** Each of the four sorting options leaves the list ordered the way its label says. */
  lemma SortProductsOrdered(products: seq<Product>, option: string)
    ensures var r := SortProducts(products, option);
            && (option == PriceLowToHigh ==> forall i, j | 0 <= i < j < |r| :: r[i].price <= r[j].price)
            && (option == PriceHighToLow ==> forall i, j | 0 <= i < j < |r| :: r[i].price >= r[j].price)
            && (option == NameAToZ ==> forall i, j | 0 <= i < j < |r| :: LexLe(r[i].name, r[j].name))
            && (option == NameZToA ==> forall i, j | 0 <= i < j < |r| :: LexLe(r[j].name, r[i].name))
  {
    PriceOrdersArePreorders();
    NameOrdersArePreorders();
    if option == PriceLowToHigh {
      SortSorted(products, CheaperFirst);
    } else if option == PriceHighToLow {
      SortSorted(products, DearerFirst);
    } else if option == NameAToZ {
      SortSorted(products, NameAscending);
    } else if option == NameZToA {
      SortSorted(products, NameDescending);
    }
  }

  /**
   * Both price orders are stable: products of one price (ties under the
   * option's comparator) keep the order they had, so equally priced best
   * sellers stay in "Best Selling" order.
   */
  lemma PriceSortKeepsTiesInOrder(products: seq<Product>, option: string, p: Product)
    ensures option == PriceLowToHigh ==>
      TiesWith(SortProducts(products, option), p, CheaperFirst) == TiesWith(products, p, CheaperFirst)
    ensures option == PriceHighToLow ==>
      TiesWith(SortProducts(products, option), p, DearerFirst) == TiesWith(products, p, DearerFirst)
  {
    PriceOrdersArePreorders();
    if option == PriceLowToHigh {
      SortStable(products, p, CheaperFirst);
    } else if option == PriceHighToLow {
      SortStable(products, p, DearerFirst);
    }
  }

  /** Under either price comparator, two products tie exactly when their prices are equal. */
  lemma PriceTiesAreEqualPrices(a: Product, b: Product)
    ensures Tied(CheaperFirst, a, b) <==> a.price == b.price
    ensures Tied(DearerFirst, a, b) <==> a.price == b.price
  {
  }

  /** Choosing the same option a second time does not move anything. */
  lemma SortProductsIdempotent(products: seq<Product>, option: string)
    ensures SortProducts(SortProducts(products, option), option) == SortProducts(products, option)
  {
    PriceOrdersArePreorders();
    NameOrdersArePreorders();
    var r := SortProducts(products, option);
    if option == PriceLowToHigh {
      SortSorted(products, CheaperFirst);
      SortOfSorted(r, CheaperFirst);
    } else if option == PriceHighToLow {
      SortSorted(products, DearerFirst);
      SortOfSorted(r, DearerFirst);
    } else if option == NameAToZ {
      SortSorted(products, NameAscending);
      SortOfSorted(r, NameAscending);
    } else if option == NameZToA {
      SortSorted(products, NameDescending);
      SortOfSorted(r, NameDescending);
    }
  }

  /** The page's state: the chosen option, the two drop-down flags and the product list. */
  class BestSellerPage {
    var sortOption: string
    var showSortOptions: bool
    var showFilters: bool
    var products: seq<Product>

    constructor()
      ensures sortOption == BestSelling && !showSortOptions && !showFilters
      ensures products == InitialProducts
    {
      sortOption := BestSelling;
      showSortOptions := false;
      showFilters := false;
      products := InitialProducts;
    }

    /**
     * Records the option, closes the drop-down and replaces the list by a
     * sorted copy of it; the filter panel is untouched.
     */
    method HandleSortChange(option: string)
      modifies this`sortOption, this`showSortOptions, this`products
      ensures sortOption == option && !showSortOptions
      ensures products == SortProducts(old(products), option)
      ensures multiset(products) == multiset(old(products))
    {
      sortOption := option;
      showSortOptions := false;
      products := SortProducts(products, option);
    }

    method ToggleSortOptions()
      modifies this`showSortOptions
      ensures showSortOptions == !old(showSortOptions)
    {
      showSortOptions := !showSortOptions;
    }

    method ToggleFilters()
      modifies this`showFilters
      ensures showFilters == !old(showFilters)
    {
      showFilters := !showFilters;
    }

    /** A press outside both drop-downs closes them. */
    method HandleClickOutside()
      modifies this`showSortOptions, this`showFilters
      ensures !showSortOptions && !showFilters
    {
      showSortOptions := false;
      showFilters := false;
    }
  }
}
