/**
 * The site header: which navigation link is highlighted for the current
 * path, the category drawer it opens and closes, the mobile menu and the
 * search box, all of which a route change closes.
 */
module SiteHeader {
  import opened Wrappers
  import Text

  datatype NavItem = NavItem(name: string, path: string, hasDropdown: bool, opensCategoryDrawer: bool)

  const NavItems: seq<NavItem> := [
    NavItem("HOME", "/", false, false),
    NavItem("SUIT SETS", "/suit-sets", true, true),
    NavItem("SAREES", "/sarees", true, true),
    NavItem("NEW ARRIVALS", "/new-arrivals", false, false),
    NavItem("BEST SELLERS", "/best-sellers", false, false),
    NavItem("ABOUT US", "/about-us", false, false),
    NavItem("CONTACT US", "/contact-us", false, false)
  ]

  /** Below 768 pixels the header uses its mobile layout. */
  predicate IsMobile(width: int) { width < 768 }

  /**
   * A link is highlighted when the current path is inside it: "/" only on
   * the home page itself, any other link on every path it is a prefix of.
   */
  function IsActive(path: string, pathname: string): (r: bool)
    ensures path == "/" ==> (r <==> pathname == "/")
    ensures path != "/" ==> (r <==> |path| <= |pathname| && pathname[..|path|] == path)
  {
    if path == "/" && pathname == "/" then true
    else path != "/" && Text.StartsWith(pathname, path)
  }

  /** Pages below a section keep the section's link highlighted. */
  lemma SubPagesKeepParentActive(path: string, pathname: string, rest: string)
    requires path != "/" && IsActive(path, pathname)
    ensures IsActive(path, pathname + rest)
  {
    assert (pathname + rest)[..|path|] == pathname[..|path|];
  }

  /** The home link is highlighted nowhere but on the home page. */
  lemma HomeActiveOnlyAtHome(pathname: string)
    requires pathname != "/"
    ensures !IsActive("/", pathname)
  {
  }

  /** The test is on characters, not path segments: "/sarees" is highlighted on "/sarees-x". */
  lemma PrefixIsNotSegmentAware()
    ensures IsActive("/sarees", "/sarees-x")
    ensures IsActive("/sarees", "/sarees/collection/bridal")
    ensures !IsActive("/sarees", "/suit-sets")
  {
    assert "/sarees-x"[..7] == "/sarees";
    assert "/sarees/collection/bridal"[..7] == "/sarees";
    assert "/suit-sets"[..7] != "/sarees" by {
      assert "/suit-sets"[1] == 's' && "/suit-sets"[2] == 'u' && "/sarees"[2] == 'a';
    }
  }

  /**
   * `prev === key ? null : key`: the rule of every "open this one, or close
   * it if it is already open" control, the category drawer's buttons here
   * and the drawer's sub-menu headers.
   */
  function Toggle<K(==)>(prev: Option<K>, key: K): (r: Option<K>)
    ensures r == None <==> prev == Some(key)
    ensures r != None ==> r == Some(key)
  {
    if prev == Some(key) then None else Some(key)
  }

  /** Pressing the same category twice restores a closed drawer or that category's open drawer. */
  lemma ToggleTwiceRestores(prev: Option<string>, category: string)
    requires prev == None || prev == Some(category)
    ensures Toggle(Toggle(prev, category), category) == prev
  {
  }

  /** With another category open, two presses close the drawer instead of restoring it. */
  lemma ToggleTwiceFromOtherCategory()
    ensures Toggle(Toggle(Some("SAREES"), "SUIT SETS"), "SUIT SETS") == None
  {
  }

  /** A drawer button is highlighted for its path or while its drawer is open. */
  function Highlighted(item: NavItem, pathname: string, drawer: Option<string>): (r: bool)
    ensures item.opensCategoryDrawer && drawer == Some(item.name) ==> r
    ensures item.opensCategoryDrawer && drawer != Some(item.name) ==> (r <==> IsActive(item.path, pathname))
    ensures !item.opensCategoryDrawer ==> (r <==> IsActive(item.path, pathname))
  {
    IsActive(item.path, pathname) || (item.opensCategoryDrawer && drawer == Some(item.name))
  }

  /**
   * Anywhere under "/sarees" with no drawer open, the SAREES link is the
   * only one of the navigation bar that is highlighted.
   */
  lemma OnlySareesHighlightedUnderSarees(rest: string)
    ensures forall k | 0 <= k < |NavItems| :: Highlighted(NavItems[k], "/sarees" + rest, None) <==> NavItems[k].name == "SAREES"
  {
    var p := "/sarees" + rest;
    forall k | 0 <= k < |NavItems|
      ensures Highlighted(NavItems[k], p, None) <==> NavItems[k].name == "SAREES"
    {
      var path := NavItems[k].path;
      if k == 2 {
        assert p[..|path|] == path;
      } else if k != 0 {
        // "/suit-sets" parts from "/sarees" at its third character, every other link at its second.
        var i := if k == 1 then 2 else 1;
        assert p[i] != path[i];
        assert |path| <= |p| ==> p[..|path|][i] == p[i];
      }
    }
  }

  /** The header's state; the current path is the router's location. */
  class Header {
    var mobileMenuOpen: bool
    var searchOpen: bool
    var activeCategoryDrawer: Option<string>
    var windowWidth: int
    var pathname: string

    constructor(width: int, path: string)
      ensures !mobileMenuOpen && !searchOpen && activeCategoryDrawer == None
      ensures windowWidth == width && pathname == path
    {
      mobileMenuOpen := false;
      searchOpen := false;
      activeCategoryDrawer := None;
      windowWidth := width;
      pathname := path;
    }

    predicate Mobile()
      reads this
    {
      IsMobile(windowWidth)
    }

    function Active(path: string): bool
      reads this
    {
      IsActive(path, pathname)
    }

    method HandleResize(width: int)
      modifies this`windowWidth
      ensures windowWidth == width
      ensures Mobile() <==> width < 768
    {
      windowWidth := width;
    }

    /** Navigating closes the mobile menu, the search box and the category drawer. */
    method RouteChanged(path: string)
      modifies this`pathname, this`mobileMenuOpen, this`searchOpen, this`activeCategoryDrawer
      ensures pathname == path
      ensures !mobileMenuOpen && !searchOpen && activeCategoryDrawer == None
    {
      pathname := path;
      mobileMenuOpen := false;
      searchOpen := false;
      activeCategoryDrawer := None;
    }

    /** The hamburger and the category buttons: close the drawer if it shows this category, else show it. */
    method ToggleCategoryDrawer(category: string)
      modifies this`activeCategoryDrawer
      ensures activeCategoryDrawer == Toggle(old(activeCategoryDrawer), category)
    {
      activeCategoryDrawer := if activeCategoryDrawer == Some(category) then None else Some(category);
    }

    /** A category in the mobile menu toggles its drawer and closes the menu. */
    method MobileCategoryClick(category: string)
      modifies this`activeCategoryDrawer, this`mobileMenuOpen
      ensures activeCategoryDrawer == Toggle(old(activeCategoryDrawer), category)
      ensures !mobileMenuOpen
    {
      ToggleCategoryDrawer(category);
      mobileMenuOpen := false;
    }

    method ToggleSearch()
      modifies this`searchOpen
      ensures searchOpen == !old(searchOpen)
    {
      searchOpen := !searchOpen;
    }

    method ToggleMobileMenu()
      modifies this`mobileMenuOpen
      ensures mobileMenuOpen == !old(mobileMenuOpen)
    {
      mobileMenuOpen := !mobileMenuOpen;
    }

    /** The close button and every link of the mobile menu. */
    method CloseMobileMenu()
      modifies this`mobileMenuOpen
      ensures !mobileMenuOpen
    {
      mobileMenuOpen := false;
    }

    /**
     * A press somewhere on the page closes the mobile menu unless it lands
     * on the menu or its button, and the search box unless it lands on the
     * search component or its button.
     */
    method HandleClickOutside(onMenu: bool, onSearch: bool)
      modifies this`mobileMenuOpen, this`searchOpen
      ensures mobileMenuOpen == (old(mobileMenuOpen) && onMenu)
      ensures searchOpen == (old(searchOpen) && onSearch)
    {
      if mobileMenuOpen && !onMenu {
        mobileMenuOpen := false;
      }
      if searchOpen && !onSearch {
        searchOpen := false;
      }
    }
  }
}
