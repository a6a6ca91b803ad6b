/**
 * The storefront's navigation engine (App.tsx): the URL router, the
 * programmatic navigation calls, the section-driven theme and the choice of
 * which page is mounted.
 */
module App {
  import opened Wrappers
  import opened JsString

  /** The values of the `currentView` state cell. */
  datatype View =
    | Home | Collection | About | Product | Cart | ThankYou | Checkout
    | Account | AccountOrders | AccountDetails

  /** The values of the `theme` state cell. */
  datatype Theme = Light | Dark

  /** The string literal the source uses for each view. */
  function ViewName(v: View): string {
    match v
    case Home => "home"
    case Collection => "collection"
    case About => "about"
    case Product => "product"
    case Cart => "cart"
    case ThankYou => "thank-you"
    case Checkout => "checkout"
    case Account => "account"
    case AccountOrders => "account-orders"
    case AccountDetails => "account-details"
  }

  // ---------------------------------------------------------------------------
  // Routing: path -> view
  // ---------------------------------------------------------------------------

  /** What a recognised path asks for: a product page with its slug, or a plain view. */
  datatype Route = ToProduct(slug: string) | ToView(view: View)

  /** The two prefixes that introduce a product slug. */
  predicate HasProductPrefix(path: string)
    ensures HasProductPrefix(path) ==> |path| >= 9 && path[0] == '/' && '/' in path[1..]
  {
    assert StartsWith(path, "/product/") ==> path[..9][8] == path[1..][7] == '/';
    assert StartsWith(path, "/collection/") ==> path[..12][11] == path[1..][10] == '/';
    StartsWith(path, "/product/") || StartsWith(path, "/collection/")
  }

  /**
   * The ordered rule list of `handleLocationChange`, first match wins;
   * `None` is a path no rule matches. A product route always carries a
   * non-empty slug without separators, taken from a product-prefixed path.
   */
  function ParsePath(path: string): (r: Option<Route>)
    ensures r.Some? && r.value.ToProduct? ==>
              HasProductPrefix(path) && r.value.slug != "" && '/' !in r.value.slug
  {
    if HasProductPrefix(path) && Last(Split(path)) != "" then Some(ToProduct(Last(Split(path))))
    else if path == "/collection" then Some(ToView(Collection))
    else if path == "/cart" then Some(ToView(Cart))
    else if path == "/checkout" then Some(ToView(Checkout))
    else if path == "/checkout/thank-you" then Some(ToView(ThankYou))
    else if path == "/account/orders" then Some(ToView(AccountOrders))
    else if path == "/account/details" then Some(ToView(AccountDetails))
    else if path == "/account" then Some(ToView(Account))
    else if path == "/" then Some(ToView(Home))
    else None
  }

  /** The routing table's exact entries, as an independent reference for `ParsePath`. */
  const ExactRoutes: seq<(string, View)> := [
    ("/collection", Collection), ("/cart", Cart), ("/checkout", Checkout),
    ("/checkout/thank-you", ThankYou), ("/account/orders", AccountOrders),
    ("/account/details", AccountDetails), ("/account", Account), ("/", Home)
  ]

  /** A path whose first segment starts with neither `p` nor `co` has no product prefix. */
  lemma NoProductPrefix(p: string)
    requires |p| >= 3 && p[1] != 'p' && !(p[1] == 'c' && p[2] == 'o')
    ensures !HasProductPrefix(p)
  {
    if |p| >= 9 {
      assert p[..9][1] == p[1];
    }
    if |p| >= 12 {
      assert p[..12][1] == p[1] && p[..12][2] == p[2];
    }
  }

  /**
   * None of the exact entries, and none of the paths `navigateTo` pushes,
   * starts with a product prefix, so the slug rule never shadows them.
   */
  lemma LiteralPathsHaveNoProductPrefix()
    ensures !HasProductPrefix("/collection") && !HasProductPrefix("/cart")
    ensures !HasProductPrefix("/checkout") && !HasProductPrefix("/checkout/thank-you")
    ensures !HasProductPrefix("/account/orders") && !HasProductPrefix("/account/details")
    ensures !HasProductPrefix("/account") && !HasProductPrefix("/")
    ensures !HasProductPrefix("/about") && !HasProductPrefix("/thank-you")
    ensures !HasProductPrefix("/account-orders") && !HasProductPrefix("/account-details")
  {
    assert "/collection"[..9][1] == 'c';
    NoProductPrefix("/checkout");
    NoProductPrefix("/checkout/thank-you");
    NoProductPrefix("/account/orders");
    NoProductPrefix("/account/details");
    NoProductPrefix("/thank-you");
    NoProductPrefix("/account-orders");
    NoProductPrefix("/account-details");
  }

  /** A path parses to a plain view exactly when it is one of the table's exact entries for that view. */
  lemma ExactRoutesParse(path: string, v: View)
    ensures ParsePath(path) == Some(ToView(v)) <==> (path, v) in ExactRoutes
  {
    LiteralPathsHaveNoProductPrefix();
    if (path, v) in ExactRoutes {
      var i :| 0 <= i < |ExactRoutes| && ExactRoutes[i] == (path, v);
      assert !HasProductPrefix(path);
    }
  }

  /** No path leads to the about page or to the product view without a slug. */
  lemma AboutAndBareProductUnroutable(path: string)
    ensures ParsePath(path) != Some(ToView(About))
    ensures ParsePath(path) != Some(ToView(Product))
  {
    ExactRoutesParse(path, About);
    ExactRoutesParse(path, Product);
  }

  /**
   * A product-prefixed path is a product route for its last segment when that
   * segment is non-empty, and matches nothing otherwise: the exact entries
   * never shadow it.
   */
  lemma ProductRule(path: string)
    requires HasProductPrefix(path)
    ensures ParsePath(path) ==
              if Last(Split(path)) != "" then Some(ToProduct(Last(Split(path)))) else None
  {
    LiteralPathsHaveNoProductPrefix();
  }

  /** The slug rule wins over the exact `/collection` rule. */
  lemma CollectionSlugPrecedence()
    ensures ParsePath("/collection/midnight-rose") == Some(ToProduct("midnight-rose"))
  {
    assert "/collection/midnight-rose" == ProductPath("midnight-rose");
    ProductPathRoundTrip("midnight-rose");
  }

  /** Paths outside the table match no rule. */
  lemma UnknownPathsUnmatched()
    ensures ParsePath("/about") == None
    ensures ParsePath("/foo") == None
  {
    LiteralPathsHaveNoProductPrefix();
    NoProductPrefix("/foo");
  }

  /** Product prefixes whose last segment is empty match no rule. */
  lemma EmptySlugUnmatched()
    ensures ParsePath("/collection/") == None
    ensures ParsePath("/product/") == None
  {
    assert "/collection/" == ProductPath("");
    ProductPathParse("");
    var p := "/product/";
    assert p == "/product" + "/" + "";
    LastSplitAfterSeparator("/product", "");
    assert p[..9] == "/product/";
    ProductRule(p);
  }

  // ---------------------------------------------------------------------------
  // Navigation: view -> path
  // ---------------------------------------------------------------------------

  /** The path `navigateTo` pushes: `/` for home, `/` + the view's name otherwise. */
  function NavPath(v: View): (p: string)
    ensures |p| >= 1 && p[0] == '/'
    ensures p == "/" <==> v == Home
  {
    if v == Home then "/" else "/" + ViewName(v)
  }

  /** The path `navigateToProduct` pushes. */
  function ProductPath(slug: string): (p: string)
    ensures HasProductPrefix(p) && |p| == 12 + |slug|
    ensures p[..12] == "/collection/" && p[12..] == slug
  {
    var p := "/collection/" + slug;
    assert p[..12] == "/collection/";
    p
  }

  /** The views whose `navigateTo` path is also a route back to them. */
  const RoundTripViews: set<View> := {Home, Collection, Cart, Checkout, Account}

  /** The paths `navigateTo` pushes, spelled out. */
  lemma NavPathSpelled(v: View)
    ensures NavPath(v) == match v
      case Home => "/"
      case Collection => "/collection"
      case About => "/about"
      case Product => "/product"
      case Cart => "/cart"
      case ThankYou => "/thank-you"
      case Checkout => "/checkout"
      case Account => "/account"
      case AccountOrders => "/account-orders"
      case AccountDetails => "/account-details"
  {
  }

  /**
   * Round trip of `navigateTo`: the pushed path parses back to the view for
   * home, collection, cart, checkout and account; for the other views the
   * pushed path (`/about`, `/thank-you`, `/account-orders`,
   * `/account-details`) is recognised by no rule.
   */
  lemma NavPathRoundTrip(v: View)
    requires v != Product
    ensures ParsePath(NavPath(v)) == if v in RoundTripViews then Some(ToView(v)) else None
  {
    NavPathSpelled(v);
    LiteralPathsHaveNoProductPrefix();
    if v == AccountOrders {
      assert "/account-orders"[8] != "/account/orders"[8];
    } else if v == AccountDetails {
      assert "/account-details"[8] != "/account/details"[8];
    }
  }

  /**
   * Round trip of `navigateToProduct`: the pushed path parses to a product
   * route for the last `/`-segment of the slug, or to nothing when that
   * segment is empty.
   */
  lemma ProductPathParse(slug: string)
    ensures ParsePath(ProductPath(slug)) ==
              if Last(Split(slug)) != "" then Some(ToProduct(Last(Split(slug)))) else None
  {
    var p := ProductPath(slug);
    assert p == "/collection" + "/" + slug;
    LastSplitAfterSeparator("/collection", slug);
    assert p[..12] == "/collection/";
    ProductRule(p);
  }

  /** A non-empty slug without separators survives the round trip unchanged. */
  lemma ProductPathRoundTrip(slug: string)
    requires slug != "" && '/' !in slug
    ensures ParsePath(ProductPath(slug)) == Some(ToProduct(slug))
  {
    ProductPathParse(slug);
  }

  // ---------------------------------------------------------------------------
  // Theme detection
  // ---------------------------------------------------------------------------

  /** The views listed in the theme effect as forcing the light theme. */
  const LightViews: seq<View> := [
    Collection, About, Product, Cart, ThankYou, Checkout, Account, AccountOrders, AccountDetails
  ]

  /** The list is exactly the views other than home. */
  lemma LightViewsAreNonHome(v: View)
    ensures v in LightViews <==> v != Home
  {
    if v != Home {
      var i := match v
        case Home => 0 case Collection => 0 case About => 1 case Product => 2 case Cart => 3
        case ThankYou => 4 case Checkout => 5 case Account => 6
        case AccountOrders => 7 case AccountDetails => 8;
      assert LightViews[i] == v;
    }
  }

  /**
   * One intersection-observer entry, in delivery order: whether its section
   * now crosses the viewport's centre line, and the section's `data-theme`
   * (`None` when the attribute is missing or empty, both falsy).
   */
  datatype Entry = Entry(isIntersecting: bool, dataTheme: Option<Theme>)

  /** Whether the callback calls `setTheme` for this entry. */
  predicate SetsTheme(e: Entry) {
    e.isIntersecting && e.dataTheme.Some?
  }

  /** The theme after the callback's `forEach` has run over `batch`, starting from `current`. */
  function BatchTheme(current: Theme, batch: seq<Entry>): (r: Theme)
    ensures r == current || exists k :: 0 <= k < |batch| && SetsTheme(batch[k]) && r == batch[k].dataTheme.value
  {
    if batch == [] then current
    else
      var before := BatchTheme(current, batch[..|batch| - 1]);
      assert forall k :: 0 <= k < |batch| - 1 ==> batch[..|batch| - 1][k] == batch[k];
      var e := batch[|batch| - 1];
      if SetsTheme(e) then e.dataTheme.value else before
  }

  /** The last entry that sets a theme decides the batch's theme. */
  lemma {:induction false} LastSetterWins(current: Theme, batch: seq<Entry>, j: nat)
    requires j < |batch| && SetsTheme(batch[j])
    requires forall k :: j < k < |batch| ==> !SetsTheme(batch[k])
    ensures BatchTheme(current, batch) == batch[j].dataTheme.value
  {
    if j < |batch| - 1 {
      var init := batch[..|batch| - 1];
      assert init[j] == batch[j];
      assert forall k :: j < k < |init| ==> init[k] == batch[k];
      LastSetterWins(current, init, j);
    }
  }

  /** A batch in which no entry sets a theme leaves the theme as it was. */
  lemma {:induction false} SilentBatchKeepsTheme(current: Theme, batch: seq<Entry>)
    requires forall k :: 0 <= k < |batch| ==> !SetsTheme(batch[k])
    ensures BatchTheme(current, batch) == current
  {
    if batch != [] {
      var init := batch[..|batch| - 1];
      assert forall k :: 0 <= k < |init| ==> init[k] == batch[k];
      SilentBatchKeepsTheme(current, init);
    }
  }

  // ---------------------------------------------------------------------------
  // View dispatch
  // ---------------------------------------------------------------------------

  /** A scroll section of the home page and its declared `data-theme`. */
  datatype Section = Section(name: string, dataTheme: Theme)

  /** The four sections of the home page, top to bottom. */
  const HomeSections: seq<Section> := [
    Section("The Beginning", Dark), Section("Our Philosophy", Light),
    Section("Archive", Light), Section("Connect", Dark)
  ]

  /** The page content the ternary chain mounts. */
  datatype Page<P> =
    | HomePage(sections: seq<Section>)
    | AboutPage | CartPage | ThankYouPage | CheckoutPage
    | AccountPage | AccountOrdersPage | AccountDetailsPage
    | ProductDetailPage(product: P)
    | FullCollection

  /** `currentProduct`: a truthy slug looked up in the catalog. */
  function CurrentProduct<P>(slug: Option<string>, catalog: map<string, P>): Option<P> {
    if slug.Some? && slug.value != "" && slug.value in catalog then Some(catalog[slug.value]) else None
  }

  /** The view a page belongs to: the inverse of `Dispatch` on resolved views. */
  function PageView<P>(page: Page<P>): View {
    match page
    case HomePage(_) => Home
    case AboutPage => About
    case CartPage => Cart
    case ThankYouPage => ThankYou
    case CheckoutPage => Checkout
    case AccountPage => Account
    case AccountOrdersPage => AccountOrders
    case AccountDetailsPage => AccountDetails
    case ProductDetailPage(_) => Product
    case FullCollection => Collection
  }

  /**
   * The view-routing ternary chain. Each view gets its own page, except that
   * a product view whose slug did not resolve falls back to the collection
   * listing; the home page stacks its four themed sections.
   */
  function Dispatch<P>(view: View, product: Option<P>): (page: Page<P>)
    ensures PageView(page) == if view == Product && product.None? then Collection else view
    ensures page.ProductDetailPage? ==> product == Some(page.product)
    ensures page.HomePage? ==> page.sections == HomeSections
  {
    if view == Home then HomePage(HomeSections)
    else if view == About then AboutPage
    else if view == Cart then CartPage
    else if view == ThankYou then ThankYouPage
    else if view == Checkout then CheckoutPage
    else if view == Account then AccountPage
    else if view == AccountOrders then AccountOrdersPage
    else if view == AccountDetails then AccountDetailsPage
    else if view == Product && product.Some? then ProductDetailPage(product.value)
    else
      assert view == Collection || view == Product;
      FullCollection
  }

  /** The home page declares the themes dark, light, light, dark, in order. */
  lemma HomeSectionThemes<P>(product: Option<P>)
    ensures Dispatch(Home, product).HomePage?
    ensures |Dispatch(Home, product).sections| == 4
    ensures forall i :: 0 <= i < 4 ==>
              Dispatch(Home, product).sections[i].dataTheme == [Dark, Light, Light, Dark][i]
  {
  }

  /** An unknown slug shows the collection listing, never an error. */
  lemma UnknownSlugShowsCollection<P>(slug: string, catalog: map<string, P>)
    requires slug !in catalog
    ensures Dispatch(Product, CurrentProduct(Some(slug), catalog)) == FullCollection
  {
  }

  // ---------------------------------------------------------------------------
  // The state cells of the App component
  // ---------------------------------------------------------------------------

  /**
   * `currentView`, `theme` and `currentProductSlug`, whether the section
   * observer is connected, and the paths pushed onto the browser history.
   */
  class AppState {
    var view: View
    var theme: Theme
    var productSlug: Option<string>
    var observerConnected: bool
    ghost var history: seq<string>

    /** The product view is only ever entered together with a slug. */
    ghost predicate Valid()
      reads this
    {
      view == Product ==> productSlug.Some?
    }

    /** The initial `useState` values. */
    constructor ()
      ensures Valid()
      ensures view == Home && theme == Light && productSlug == None
      ensures !observerConnected && history == []
    {
      view := Home;
      theme := Light;
      productSlug := None;
      observerConnected := false;
      history := [];
    }

    /**
     * `handleLocationChange`, run at startup and on every `popstate`: apply
     * the first matching rule for the current path; an unmatched path leaves
     * view and slug as they were.
     */
    method HandleLocationChange(path: string)
      requires Valid()
      modifies this`view, this`productSlug
      ensures Valid()
      ensures match ParsePath(path)
                case None => view == old(view) && productSlug == old(productSlug)
                case Some(ToProduct(s)) => view == Product && productSlug == Some(s)
                case Some(ToView(v)) => view == v && productSlug == old(productSlug)
    {
      if StartsWith(path, "/product/") || StartsWith(path, "/collection/") {
        var slug := Last(Split(path));
        if slug != "" {
          productSlug := Some(slug);
          view := Product;
          return;
        }
      }
      if path == "/collection" { view := Collection; return; }
      if path == "/cart" { view := Cart; return; }
      if path == "/checkout" { view := Checkout; return; }
      if path == "/checkout/thank-you" { view := ThankYou; return; }
      if path == "/account/orders" { view := AccountOrders; return; }
      if path == "/account/details" { view := AccountDetails; return; }
      if path == "/account" { view := Account; return; }
      if path == "/" { view := Home; }
    }

    /** `navigateTo`: push the view's path, then switch to it; the slug is kept. */
    method NavigateTo(v: View)
      requires Valid() && v != Product
      modifies this`view, this`history
      ensures Valid()
      ensures history == old(history) + [NavPath(v)]
      ensures view == v
    {
      history := history + [NavPath(v)];
      view := v;
    }

    /** `navigateToProduct`: push `/collection/` + slug, record the slug, show the product. */
    method NavigateToProduct(slug: string)
      requires Valid()
      modifies this`view, this`productSlug, this`history
      ensures Valid()
      ensures history == old(history) + [ProductPath(slug)]
      ensures productSlug == Some(slug) && view == Product
    {
      history := history + [ProductPath(slug)];
      productSlug := Some(slug);
      view := Product;
    }

    /**
     * The theme effect, run after each change of view: the previous observer
     * is disconnected; a view in the light list forces the light theme,
     * while home connects a fresh observer and keeps the theme.
     */
    method ThemeEffect()
      modifies this`theme, this`observerConnected
      ensures observerConnected == (view == Home)
      ensures theme == if view != Home then Light else old(theme)
    {
      observerConnected := false;
      LightViewsAreNonHome(view);
      if view in LightViews {
        theme := Light;
        return;
      }
      observerConnected := true;
    }

    /**
     * `observerCallback` on one intersection batch: every intersecting entry
     * with a theme sets it, so the last such entry wins. A disconnected
     * observer delivers nothing.
     */
    method ObserverCallback(entries: seq<Entry>)
      modifies this`theme
      ensures theme == if observerConnected then BatchTheme(old(theme), entries) else old(theme)
    {
      if !observerConnected {
        return;
      }
      var i := 0;
      while i < |entries|
        invariant 0 <= i <= |entries|
        invariant theme == BatchTheme(old(theme), entries[..i])
      {
        var entry := entries[i];
        assert entries[..i + 1][..i] == entries[..i];
        if entry.isIntersecting && entry.dataTheme.Some? {
          theme := entry.dataTheme.value;
        }
        i := i + 1;
      }
      assert entries[..|entries|] == entries;
    }

    /** The page content mounted for the current state, given the catalog. */
    function Render<P>(catalog: map<string, P>): (page: Page<P>)
      reads this
      requires Valid()
      ensures view == Product && productSlug.value in catalog && productSlug.value != "" ==>
                page == ProductDetailPage(catalog[productSlug.value])
      ensures view == Product && (productSlug.value == "" || productSlug.value !in catalog) ==>
                page == FullCollection
      ensures view != Product ==> PageView(page) == view
    {
      Dispatch(view, CurrentProduct(productSlug, catalog))
    }
  }

  /**
   * Leaving home and running the theme effect disconnects the observer, so
   * later batches do not change the theme (which is light from then on).
   */
  method LeavingHomeFreezesTheme(app: AppState, v: View, later: seq<seq<Entry>>)
    requires app.Valid() && app.view == Home && v != Home && v != Product
    modifies app
    ensures app.view == v && app.theme == Light && !app.observerConnected
  {
    app.NavigateTo(v);
    app.ThemeEffect();
    for i := 0 to |later|
      invariant app.view == v && app.theme == Light && !app.observerConnected
    {
      app.ObserverCallback(later[i]);
    }
  }
}
