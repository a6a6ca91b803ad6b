# ZIZI storefront: navigation engine and logo docking, in Dafny

This project models the two pieces of logic at the heart of the ZIZI single-page storefront.

- **The navigation engine of `App.tsx`.** It has four parts:
  - the URL router (`handleLocationChange`), an ordered first-match rule list from a path to a view and an optional product slug;
  - the programmatic navigation calls `navigateTo` and `navigateToProduct`, which push a path onto the browser history and update the view state;
  - the section theme: light off the home page, and on home the `data-theme` of the last intersecting section in each intersection-observer batch;
  - the view-routing ternary chain that chooses which page is mounted.
- **The wordmark docking calculator of `components/AnimatedLogo.tsx`.** It covers scroll progress, the mobile flag, the docked scale, `isDocked`, the logo colour, the numeric part of the transform and the text-shadow condition.

Layout:

- `wrappers.dfy`: the `Option` type, which stands for JavaScript's `null`.
- `js_string.dfy` (module `JsString`): the string operations the router uses, `startsWith`, `split('/')` and `pop()`. `join('/')` is modelled too, as the inverse of `split`.
- `app.dfy` (module `App`): the router, the navigation paths, the theme fold over an observer batch, and the dispatcher, all as functions. The component's state cells are a class `AppState` with the fields `view`, `theme`, `productSlug` and `observerConnected`, plus a ghost list `history` of pushed paths. Its methods are `HandleLocationChange`, `NavigateTo`, `NavigateToProduct`, `ThemeEffect` and `ObserverCallback`. `ObserverCallback` is a loop over the batch, as the source's `forEach` is.
- `animated_logo.dfy` (module `AnimatedLogo`): the formulas as functions over `real`. The component's state cells are a class `LogoState`, which the handlers `HandleScroll`, `CheckMobile` and `CalculateScale` overwrite.

Facts the model establishes about the source as written:

- `/collection/<slug>` is a product route, because the slug rule comes before the exact `/collection` rule.
- `/collection/` and `/product/` match no rule, because their last segment is empty.
- A slug containing `/` routes to its last segment only.
- The about page cannot be reached from any URL.
- `navigateTo` does not round-trip for about, thank-you, account-orders and account-details. It pushes `/about`, `/thank-you`, `/account-orders` and `/account-details`, and the router recognises none of them. A back or forward step onto such an entry therefore leaves the previous view showing.

Three behaviours of the source differ from what a reader of the component might expect. The model follows the source:

- Progress has no lower clamp. A negative scroll offset (overscroll) gives a negative progress.
- The scroll handler is registered on every view, not only on home.
- A change of the mobile flag does not recompute the progress. The effect only re-registers the listener, so the new threshold takes effect at the next scroll event.

## Model

| member | source | states |
|---|---|---|
| `JsString.Split` | App.tsx:46 | `split('/')` never returns an empty array, no piece holds a `/`, and a string without `/` splits into itself alone |
| `JsString.JoinSplit` | App.tsx:46 | joining the pieces of `split('/')` with `/` gives back the original path, so splitting loses nothing |
| `JsString.LastSplitAfterSeparator` | App.tsx:46 | the segment `pop()` takes from `a/b` is the last segment of `b`, whatever `a` is |
| `App.HasProductPrefix` | App.tsx:45 | a product-prefixed path is at least nine characters long, starts with `/` and holds a second `/`, so `pop()` takes a segment after the prefix's separator |
| `App.ParsePath` | App.tsx:43-62 | the rule list: a product route only comes from a `/product/` or `/collection/` path and carries a non-empty slug without `/` |
| `App.ExactRoutesParse` | App.tsx:54-61 | a path yields a plain view exactly when it is one of the eight exact table entries for that view (both directions) |
| `App.LiteralPathsHaveNoProductPrefix` | App.tsx:45-61 | no exact entry and no path `navigateTo` pushes starts with a product prefix, so the slug rule never shadows one |
| `App.AboutAndBareProductUnroutable` | App.tsx:45-61 | no path yields the about view, and none yields the product view without a slug |
| `App.ProductRule` | App.tsx:45-53 | a product-prefixed path yields the product view with its last segment when that segment is non-empty, and matches no rule otherwise |
| `App.CollectionSlugPrecedence` | App.tsx:45-54 | `/collection/midnight-rose` yields product `midnight-rose`, not collection |
| `App.UnknownPathsUnmatched` | App.tsx:45-61 | `/about` and `/foo` match no rule |
| `App.EmptySlugUnmatched` | App.tsx:45-61 | `/collection/` and `/product/` match no rule, because the popped segment is empty |
| `App.NavPath` | App.tsx:98 | every path `navigateTo` pushes starts with `/`, and it is the bare `/` exactly for home |
| `App.ProductPath` | App.tsx:104 | the path `navigateToProduct` pushes carries a product prefix, and the slug is everything after `/collection/` |
| `App.NavPathSpelled` | App.tsx:98 | the paths `navigateTo` pushes are `/` for home and `/about`, `/thank-you`, `/account-orders` and so on for the others |
| `App.NavPathRoundTrip` | App.tsx:97-101 | the path `navigateTo(v)` pushes parses back to `v` for home, collection, cart, checkout and account, and to nothing for the other four views |
| `App.ProductPathParse` | App.tsx:103-106 | the path `navigateToProduct(s)` pushes parses to a product route for the last segment of `s`, or to nothing when that segment is empty |
| `App.ProductPathRoundTrip` | App.tsx:103-106 | for a non-empty slug without `/`, parsing the pushed path gives back exactly that slug |
| `App.LightViewsAreNonHome` | App.tsx:70 | the list of views that force the light theme is exactly the views other than home |
| `App.BatchTheme` | App.tsx:81-88 | after a batch, the theme is either the one before it or the `data-theme` of some intersecting entry that has one |
| `App.LastSetterWins` | App.tsx:81-88 | after a batch, the theme is the `data-theme` of the last entry that is intersecting and has a theme |
| `App.SilentBatchKeepsTheme` | App.tsx:81-88 | a batch in which no entry sets a theme leaves the theme unchanged |
| `App.Dispatch` | App.tsx:123-185 | each view mounts its own page, except that a product view without a resolved product falls back to the collection listing; a detail page shows the resolved product; home mounts the home sections |
| `App.HomeSectionThemes` | App.tsx:123-158 | home mounts four sections declaring the themes dark, light, light, dark, in that order |
| `App.UnknownSlugShowsCollection` | App.tsx:175-184 | a slug missing from the catalog renders the collection listing, with no error page |
| `App.AppState.constructor` | App.tsx:37-39 | the initial state is home, light theme, no slug |
| `App.AppState.HandleLocationChange` | App.tsx:43-62 | the state becomes what the first matching rule says; an unmatched path leaves view and slug unchanged; the product-view-has-a-slug invariant is kept |
| `App.AppState.NavigateTo` | App.tsx:97-101 | exactly one path is pushed, `/` for home and `/`+name otherwise; the view becomes `v`; the slug is untouched; `product` is refused |
| `App.AppState.NavigateToProduct` | App.tsx:103-108 | `/collection/`+slug is pushed, the slug is recorded and the view becomes product |
| `App.AppState.ThemeEffect` | App.tsx:69-95 | off home the theme is forced to light and the observer is disconnected; on home an observer is connected and the theme is kept |
| `App.AppState.ObserverCallback` | App.tsx:81-88 | the loop leaves the theme equal to the fold over the batch while the observer is connected, and unchanged when it is disconnected |
| `App.AppState.Render` | App.tsx:110-187 | a product view with a known non-empty slug shows its detail page; an empty or unknown slug shows the collection; every other view shows its own page |
| `App.LeavingHomeFreezesTheme` | App.tsx:69-101 | after navigating away from home and re-running the theme effect, the observer stays disconnected and any number of later observer batches leave the theme light |
| `AnimatedLogo.Threshold` | components/AnimatedLogo.tsx:29 | for a positive viewport height the threshold is a positive fraction of it, above half the height exactly on mobile |
| `AnimatedLogo.Progress` | components/AnimatedLogo.tsx:30 | progress is never above 1; it is exactly 1 iff the offset has reached the threshold; it is non-negative iff the offset is |
| `AnimatedLogo.ScrollProgress` | components/AnimatedLogo.tsx:29-30 | the progress for a viewport is never above 1, exactly 1 iff the offset has reached that viewport's threshold, and non-negative iff the offset is |
| `AnimatedLogo.ProgressMonotone` | components/AnimatedLogo.tsx:29-30 | for a fixed threshold, progress is non-decreasing in the scroll offset |
| `AnimatedLogo.ProgressAt800` | components/AnimatedLogo.tsx:29-30 | at height 800 on desktop the threshold is 320, and offsets 0, 160 and 500 give progress 0, 0.5 and 1 |
| `AnimatedLogo.MobileDocksLater` | components/AnimatedLogo.tsx:29 | the mobile threshold (0.6·height) exceeds the desktop one (0.4·height), so for non-negative offsets mobile progress never runs ahead of desktop progress |
| `AnimatedLogo.DockedScale` | components/AnimatedLogo.tsx:40-46 | for every non-negative width the docked scale lies in [0.08, 1] |
| `AnimatedLogo.DockedScaleAt1024` | components/AnimatedLogo.tsx:41-44 | at width 1024 the scale is 40/163.84, strictly inside the clamp |
| `AnimatedLogo.DockedScaleSaturates` | components/AnimatedLogo.tsx:42-44 | widths up to 175 give scale 1, and widths from 3125 give scale 0.08 |
| `AnimatedLogo.DockedScaleNonIncreasing` | components/AnimatedLogo.tsx:42-44 | on either side of the 768 breakpoint, a wider viewport never gets a larger docked scale |
| `AnimatedLogo.DockedScaleJumpsAtBreakpoint` | components/AnimatedLogo.tsx:43 | the target-size switch makes the scale jump up from width 767 to width 768 |
| `AnimatedLogo.IsDocked` | components/AnimatedLogo.tsx:52 | the logo is always docked off home, and on home it is not docked while progress is below 1 |
| `AnimatedLogo.DockedOnHomeIffPastThreshold` | components/AnimatedLogo.tsx:52 | on home, `isDocked` holds exactly when the scroll offset has reached the threshold |
| `AnimatedLogo.LogoColor` | components/AnimatedLogo.tsx:55-59 | the logo is white iff the view is home and either progress is below 0.2 or the theme is dark; otherwise it is black |
| `AnimatedLogo.HasTextShadow` | components/AnimatedLogo.tsx:81 | the text shadow only appears on home, on an undocked logo |
| `AnimatedLogo.ShadowOnWhiteNearTop` | components/AnimatedLogo.tsx:55-81 | below progress 0.2 the logo that casts the shadow is white |
| `AnimatedLogo.HeaderOffset` | components/AnimatedLogo.tsx:63 | the header offset is 2.4 rem on mobile and 2.2 rem otherwise |
| `AnimatedLogo.DockedTransform` | components/AnimatedLogo.tsx:64 | the docked transform is exactly where the undocked formula arrives at progress 1, so docking has no jump |
| `AnimatedLogo.UndockedTransform` | components/AnimatedLogo.tsx:66-67 | the undocked transform is the identity at progress 0; for progress in [0, 1] the logo rises by at most half a viewport and, with a docked scale at most 1, its scale lies in [dockedScale, 1] |
| `AnimatedLogo.LogoTransform` | components/AnimatedLogo.tsx:62-68 | off home the transform is the docked one; on home it always equals the undocked formula, including at full progress |
| `AnimatedLogo.UndockedScaleNonIncreasing` | components/AnimatedLogo.tsx:67 | on mobile and desktop alike, the undocked scale is non-increasing in progress |
| `AnimatedLogo.LogoState.constructor` | components/AnimatedLogo.tsx:14-16 | the initial state is progress 0, not mobile, docked scale 0.12 |
| `AnimatedLogo.LogoState.CheckMobile` | components/AnimatedLogo.tsx:19-24 | the mobile flag is set iff the width is below 768 |
| `AnimatedLogo.LogoState.HandleScroll` | components/AnimatedLogo.tsx:28-32 | progress is recomputed from the offset with the registered mobile flag, and stays at most 1 |
| `AnimatedLogo.LogoState.CalculateScale` | components/AnimatedLogo.tsx:40-46 | the docked scale is recomputed from the width and stays within [0.08, 1] |
| `AnimatedLogo.LogoState.Style` | components/AnimatedLogo.tsx:52-83 | off home the logo is docked, black and shadowless; with non-negative progress its scale lies between the docked scale and 1 |

## Left out

- Browser side effects are not modelled. This covers `window.scrollTo`, the registration and removal of the `popstate`, `scroll` and `resize` listeners, and `observer.observe`/`disconnect`. The one exception is the observer's connected state, which is a field.
- `window.location.pathname`, `scrollY`, `innerWidth` and `innerHeight` are I/O. They become method parameters.
- The browser's position within the history stack is not modelled. `history` records the pushed paths, and a back or forward step is modelled as `HandleLocationChange` with the path it lands on.
- React's effect scheduling is not modelled. `ThemeEffect` is the effect body, and the caller runs it after a change of view.
- Rendering is not modelled. This covers JSX, `Suspense`, lazy bundle loading and the `PageLoader` placeholder. The mounted content is the `Page` datatype.
- `getProductBySlug` is in `data/products`, which is not part of this model. The catalog is a map from slug to product.
- `IntersectionObserver` geometry and DOM querying are not modelled. A batch is a sequence of entries in delivery order.
- App.Entry: a `data-theme` other than `light` or `dark` is not modelled. The `as 'dark' | 'light'` cast is erased at run time and would let any string through, but every section home mounts declares `dark` or `light` (App.tsx:127,135,144,153). A missing or empty attribute is `None`.
- Floating point is not modelled: all arithmetic is on exact reals. IEEE-754 rounding (for instance whether `scrollY / threshold` lands exactly on 1) is not captured.
- The CSS string formatting of `getLogoTransform` is not modelled. This includes `calc(...)`, `parseFloat('2.4rem')` and the `--` that a negative progress would print. Neither are the transition and easing declarations.
- The logo's click handler is not modelled. It only calls `navigateTo('home')`, which is `App.AppState.NavigateTo`.
- AnimatedLogo.Progress: requires a positive threshold. A zero viewport height divides by zero, giving Infinity or NaN in JavaScript, and that case is not modelled.
- AnimatedLogo.LogoState.HandleScroll: requires a positive viewport height, for the same reason.
