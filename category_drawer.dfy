/**
 * The category drawer the header opens: which category it shows, which of
 * its sub-menus is expanded, and the actions that close it. The open
 * category is the header's state, which the drawer both reads and clears.
 */
module Drawer {
  import opened Wrappers
  import opened SiteHeader

  datatype NavCategory = NavCategory(name: string, id: string)

  /** The two categories with a drawer, by display name and id. */
  const NavCategories: seq<NavCategory> := [
    NavCategory("SUIT SETS", "suit-sets"),
    NavCategory("SAREES", "sarees")
  ]

  /** `categories.find(c => c.name === name)`, as the id of the first match. */
  function FindCategoryId(categories: seq<NavCategory>, name: string): (r: Option<string>)
    ensures r.None? <==> forall c | c in categories :: c.name != name
    ensures r.Some? ==> exists i | 0 <= i < |categories| ::
                          && categories[i].name == name && categories[i].id == r.value
                          && forall j | 0 <= j < i :: categories[j].name != name
  {
    if categories == [] then None
    else if categories[0].name == name then Some(categories[0].id)
    else
      var r := FindCategoryId(categories[1..], name);
      FindPastHead(categories, name, r);
      r
  }

  /** A match found in the tail, past a head with another name, is the first match of the whole list. */
  lemma FindPastHead(categories: seq<NavCategory>, name: string, r: Option<string>)
    requires categories != [] && categories[0].name != name
    requires r.None? <==> forall c | c in categories[1..] :: c.name != name
    requires r.Some? ==> exists i | 0 <= i < |categories[1..]| ::
                           && categories[1..][i].name == name && categories[1..][i].id == r.value
                           && forall j | 0 <= j < i :: categories[1..][j].name != name
    ensures r.None? <==> forall c | c in categories :: c.name != name
    ensures r.Some? ==> exists i | 0 <= i < |categories| ::
                          && categories[i].name == name && categories[i].id == r.value
                          && forall j | 0 <= j < i :: categories[j].name != name
  {
    assert forall c | c in categories[1..] :: c in categories;
    assert forall c | c in categories :: c == categories[0] || c in categories[1..];
    if r.Some? {
      var i :| && 0 <= i < |categories[1..]|
               && categories[1..][i].name == name && categories[1..][i].id == r.value
               && forall j | 0 <= j < i :: categories[1..][j].name != name;
      assert categories[i + 1] == categories[1..][i];
      assert forall j | 1 <= j < i + 1 :: categories[j] == categories[1..][j - 1];
    }
  }

  /** A drawer is open when its category is set and not the empty string. */
  predicate IsOpen(drawer: Option<string>) {
    drawer.Some? && drawer.value != ""
  }

  /** The id of the open category, or nothing when the drawer is closed or the name is unknown. */
  function GetActiveCategoryId(drawer: Option<string>): (r: Option<string>)
    ensures !IsOpen(drawer) ==> r == None
    ensures drawer == Some("SUIT SETS") ==> r == Some("suit-sets")
    ensures drawer == Some("SAREES") ==> r == Some("sarees")
    ensures drawer != Some("SUIT SETS") && drawer != Some("SAREES") ==> r == None
  {
    if !IsOpen(drawer) then None
    else FindCategoryId(NavCategories, drawer.value)
  }

  /** Two presses on the same sub-menu header give back a collapsed one. */
  lemma ToggleSubcategoryTwice(id: string)
    ensures Toggle(Toggle(None, id), id) == None
  {
  }

  /** The drawer's own state and the two refs of its layout effect. */
  class CategoryDrawer {
    const header: Header
    var activeSubcategory: Option<string>
    var firstRender: bool
    var prevIsMobile: bool

    constructor(header: Header)
      ensures this.header == header
      ensures activeSubcategory == None && firstRender
      ensures prevIsMobile == header.Mobile()
    {
      this.header := header;
      activeSubcategory := None;
      firstRender := true;
      prevIsMobile := header.Mobile();
    }

    function ActiveCategoryId(): Option<string>
      reads this, header
    {
      GetActiveCategoryId(header.activeCategoryDrawer)
    }

    /**
     * Every way out of the drawer (the close button, the overlay, a press
     * outside it and each link inside it) clears both the open category and
     * the expanded sub-menu.
     */
    method Close()
      modifies header`activeCategoryDrawer, this`activeSubcategory
      ensures header.activeCategoryDrawer == None && activeSubcategory == None
    {
      header.activeCategoryDrawer := None;
      activeSubcategory := None;
    }

    /**
     * A press while the drawer is open closes it unless it lands on the
     * drawer, the hamburger or one of the two category buttons.
     */
    method HandleClickOutside(onDrawerOrButtons: bool)
      modifies header`activeCategoryDrawer, this`activeSubcategory
      ensures IsOpen(old(header.activeCategoryDrawer)) && !onDrawerOrButtons ==>
        header.activeCategoryDrawer == None && activeSubcategory == None
      ensures !IsOpen(old(header.activeCategoryDrawer)) || onDrawerOrButtons ==>
        header.activeCategoryDrawer == old(header.activeCategoryDrawer)
        && activeSubcategory == old(activeSubcategory)
    {
      if IsOpen(header.activeCategoryDrawer) && !onDrawerOrButtons {
        Close();
      }
    }

    /** A category tab inside the drawer shows that category with every sub-menu collapsed. */
    method SelectCategory(name: string)
      modifies header`activeCategoryDrawer, this`activeSubcategory
      ensures header.activeCategoryDrawer == Some(name) && activeSubcategory == None
    {
      header.activeCategoryDrawer := Some(name);
      activeSubcategory := None;
    }

    /** A sub-menu header collapses its sub-menu if it is the expanded one, else expands it. */
    method ToggleSubcategoryHeader(id: string)
      modifies this`activeSubcategory
      ensures activeSubcategory == Toggle(old(activeSubcategory), id)
    {
      activeSubcategory := if activeSubcategory == Some(id) then None else Some(id);
    }

    /** The effect that runs whenever the open category changes: every sub-menu collapses. */
    method OpenCategoryChanged()
      modifies this`activeSubcategory
      ensures activeSubcategory == None
    {
      activeSubcategory := None;
    }

    /**
     * The layout effect, run after a render: the first run only clears the
     * first-render flag; later runs close an open drawer when the layout
     * switched between mobile and desktop, then remember the layout.
     */
    method LayoutEffect()
      modifies this`firstRender, this`prevIsMobile, header`activeCategoryDrawer
      ensures old(firstRender) ==>
        !firstRender && prevIsMobile == old(prevIsMobile)
        && header.activeCategoryDrawer == old(header.activeCategoryDrawer)
      ensures !old(firstRender) ==> !firstRender && prevIsMobile == header.Mobile()
      ensures !old(firstRender) && old(prevIsMobile) != header.Mobile() && IsOpen(old(header.activeCategoryDrawer)) ==>
        header.activeCategoryDrawer == None
      ensures !old(firstRender) && (old(prevIsMobile) == header.Mobile() || !IsOpen(old(header.activeCategoryDrawer))) ==>
        header.activeCategoryDrawer == old(header.activeCategoryDrawer)
    {
      if firstRender {
        firstRender := false;
        return;
      }
      var isMobile := header.Mobile();
      if prevIsMobile != isMobile && IsOpen(header.activeCategoryDrawer) {
        header.activeCategoryDrawer := None;
      }
      prevIsMobile := isMobile;
    }
  }
}
