/**
 * The application shell: the menu table, the route table, and the navigation
 * state (`mobileMenuOpen`, `openDropdown`) its handlers update. Navigating is
 * recorded as the current path; the router and `window.scrollTo` are outside
 * the model.
 */
module App {
  import opened Js
  import Dropdown

  datatype Child = Child(name: string, path: string)

  datatype MenuItem = MenuItem(name: string, children: seq<Child>)

  /** `menuItems`. */
  const MenuItems: seq<MenuItem> := [
    MenuItem("Master", [Child("Fruits", "/fruits"), Child("Basket", "/basket"), Child("Decoration", "/decoration")]),
    MenuItem("Inventory Management", [Child("Purchase Order", "/purchase-order"), Child("Sales Invoice", "/sales-invoice")]),
    MenuItem("Payment Management", [Child("User Payment", "/payment"), Child("Refund Status", "/refund")]),
    MenuItem("Order Management", [Child("Order Status", "/delivery")]),
    MenuItem("Report", [Child("Report List", "/reports")])
  ]

  datatype Page = Home | FruitMaster | BasketMaster | DecorationMaster | PurchaseOrder | SalesInvoice
                | Payment | Refund | Delivery | Reports

  datatype Route = Route(path: string, page: Page)

  /** The `<Routes>` table. */
  const Routes: seq<Route> := [
    Route("/", Home), Route("/fruits", FruitMaster), Route("/basket", BasketMaster),
    Route("/decoration", DecorationMaster), Route("/purchase-order", PurchaseOrder),
    Route("/sales-invoice", SalesInvoice), Route("/payment", Payment), Route("/refund", Refund),
    Route("/delivery", Delivery), Route("/reports", Reports)
  ]

  /** The page a path renders, if some route has exactly that path. */
  function Match(routes: seq<Route>, path: string): (r: Option<Page>)
    ensures r.Some? <==> exists i :: 0 <= i < |routes| && routes[i].path == path
    ensures r.Some? ==> exists i :: 0 <= i < |routes| && routes[i] == Route(path, r.value)
  {
    if routes == [] then None
    else if routes[0].path == path then Some(routes[0].page)
    else
      var r := Match(routes[1..], path);
      assert forall i :: 0 < i < |routes| ==> routes[1..][i - 1] == routes[i];
      r
  }

  function RoutePaths(routes: seq<Route>): (ps: seq<string>)
    ensures |ps| == |routes|
    ensures forall i :: 0 <= i < |routes| ==> ps[i] == routes[i].path
  {
    seq(|routes|, i requires 0 <= i < |routes| => routes[i].path)
  }

  /** The paths of the menu's children, menu by menu. */
  function ChildPaths(items: seq<MenuItem>): seq<string>
  {
    if items == [] then [] else Paths(items[0].children) + ChildPaths(items[1..])
  }

  function Paths(children: seq<Child>): (ps: seq<string>)
    ensures |ps| == |children|
    ensures forall i :: 0 <= i < |children| ==> ps[i] == children[i].path
  {
    seq(|children|, i requires 0 <= i < |children| => children[i].path)
  }

  /**
   * The menu's entries are exactly the routes other than "/", in the same
   * order, so every entry leads to a page.
   */
  lemma MenuMatchesRoutes()
    ensures ChildPaths(MenuItems) == RoutePaths(Routes)[1..]
    ensures forall p :: p in ChildPaths(MenuItems) ==> Match(Routes, p).Some?
    ensures Match(Routes, "/") == Some(Home)
  {
    MenuPaths();
    RouteTail();
    forall p | p in RoutePaths(Routes)[1..] ensures Match(Routes, p).Some? {
      RoutedPathMatches(Routes, p);
    }
  }

  lemma RouteTail()
    ensures RoutePaths(Routes)[1..] == ["/fruits", "/basket", "/decoration", "/purchase-order", "/sales-invoice",
                                        "/payment", "/refund", "/delivery", "/reports"]
  {
  }

  lemma RoutedPathMatches(routes: seq<Route>, p: string)
    requires p in RoutePaths(routes)
    ensures Match(routes, p).Some?
  {
    var k :| 0 <= k < |routes| && RoutePaths(routes)[k] == p;
    assert routes[k].path == p;
  }

  lemma MenuPaths()
    ensures ChildPaths(MenuItems) == ["/fruits", "/basket", "/decoration", "/purchase-order", "/sales-invoice",
                                      "/payment", "/refund", "/delivery", "/reports"]
  {
    var m := MenuItems;
    assert ChildPaths(m[4..]) == ["/reports"] by { assert m[4..][1..] == []; }
    assert ChildPaths(m[3..]) == ["/delivery", "/reports"] by { assert m[3..][1..] == m[4..]; }
    assert ChildPaths(m[2..]) == ["/payment", "/refund", "/delivery", "/reports"] by { assert m[2..][1..] == m[3..]; }
    assert ChildPaths(m[1..]) == ["/purchase-order", "/sales-invoice", "/payment", "/refund", "/delivery", "/reports"]
      by { assert m[1..][1..] == m[2..]; }
  }

  /** The shell's navigation state. */
  class Navigation {
    var mobileMenuOpen: bool
    var openDropdown: Option<string>
    /** The path the router is at. */
    var location: string

    constructor(location: string)
      ensures !mobileMenuOpen && openDropdown == None && this.location == location
    {
      mobileMenuOpen := false;
      openDropdown := None;
      this.location := location;
    }

    /** `toggleDropdown`: the clicked menu closes if open, otherwise it becomes the only open one. */
    method ToggleDropdown(menuName: string)
      modifies this
      ensures openDropdown == Dropdown.Toggle(old(openDropdown), menuName)
      ensures mobileMenuOpen == old(mobileMenuOpen) && location == old(location)
    {
      openDropdown := Dropdown.Toggle(openDropdown, menuName);
    }

    /** `handleNavigation`: go to the path, close the mobile menu and every dropdown. */
    method HandleNavigation(path: string)
      modifies this
      ensures location == path && !mobileMenuOpen && openDropdown == None
    {
      location := path;
      mobileMenuOpen := false;
      openDropdown := None;
    }

    /** The mobile menu button. */
    method ToggleMobileMenu()
      modifies this
      ensures mobileMenuOpen == !old(mobileMenuOpen)
      ensures openDropdown == old(openDropdown) && location == old(location)
    {
      mobileMenuOpen := !mobileMenuOpen;
    }
  }
}
