/** The hash router: routes are registered with the game runner under a
    path derived from the route, and a location hash starts the route it
    names when that route was accepted. The runner's `register` answer and
    the browser's `location` are inputs; `runner.start` is represented by
    the route it would be started with. */
module Router {

  import opened Values
  import opened Strings
  import opened Promises

  const Root := "/"
  const Divider := '/'
  const Hash := '#'

  /** `Router.cleanRoute(route)`: "/" for the empty string, otherwise "/"
      followed by the text between the first and the second `#`, which is
      the word "undefined" when the route holds no `#`. */
  function CleanRoute(route: string): (r: string)
    ensures |r| >= 1 && r[0] == Divider
    ensures Hash !in r
    ensures |route| == 0 ==> r == Root
  {
    if |route| == 0 then Root
    else [Divider] + JsText(SecondPart(route, Hash))
  }

  /** Called without an argument, `cleanRoute` cleans "#", which gives the
      root. */
  lemma CleanRouteDefault()
    ensures CleanRoute([Hash]) == Root
  {
    CleanRouteTakesSecondSegment([], []);
    assert [] + [Hash] + [] == [Hash];
  }

  /** A route with a `#` cleans to "/" followed by what comes after that
      `#` up to the next one. */
  lemma CleanRouteTakesSecondSegment(a: string, b: string)
    requires Hash !in a && Hash !in b
    ensures CleanRoute(a + [Hash] + b) == [Divider] + b
  {
    SplitAround(a, Hash, b);
    SplitWithoutSeparator(a, Hash);
    SplitWithoutSeparator(b, Hash);
  }

  lemma CleanRouteIgnoresLaterSegments(a: string, b: string, c: string)
    requires Hash !in a && Hash !in b
    ensures CleanRoute(a + [Hash] + b + [Hash] + c) == [Divider] + b
  {
    SplitAround(a, Hash, b + [Hash] + c);
    SplitAround(b, Hash, c);
    SplitWithoutSeparator(a, Hash);
    SplitWithoutSeparator(b, Hash);
    assert a + [Hash] + b + [Hash] + c == a + [Hash] + (b + [Hash] + c);
  }

  /** A non-empty route without `#` cleans to "/undefined"; in particular a
      cleaned route cleans again to "/undefined". */
  lemma CleanRouteWithoutHash(route: string)
    requires |route| > 0 && Hash !in route
    ensures CleanRoute(route) == "/undefined"
  {
  }

  lemma CleanRouteTwice(route: string)
    ensures CleanRoute(CleanRoute(route)) == "/undefined"
  {
    CleanRouteWithoutHash(CleanRoute(route));
  }

  /** The browser's `location`, when there is one. */
  datatype Location = Location(hash: string)

  /** `Router.extractLocationHash()`: the cleaned location hash, or the
      cleaned root when there is no `location`. */
  function ExtractLocationHash(location: Option<Location>): (r: string)
    ensures |r| >= 1 && r[0] == Divider && Hash !in r
  {
    match location
    case Some(l) => CleanRoute(l.hash)
    case None => CleanRoute(Root)
  }

  /** An empty hash is the root, "#rest" is "/rest", and without a location
      the root is cleaned as a route without `#`, which gives "/undefined"
      rather than "/". */
  lemma LocationHashes(rest: string)
    requires Hash !in rest
    ensures ExtractLocationHash(Some(Location(""))) == Root
    ensures ExtractLocationHash(Some(Location([Hash] + rest))) == [Divider] + rest
    ensures ExtractLocationHash(None) == "/undefined"
  {
    CleanRouteTakesSecondSegment([], rest);
    assert [] + [Hash] + rest == [Hash] + rest;
  }

  /** The path `on(route, …)` registers with the runner: the route with its
      first "/" turned into "#", cleaned. */
  function RegisteredPath(route: string): string {
    CleanRoute(ReplaceFirst(route, Divider, Hash))
  }

  /** The runner is registered under the route itself for every route
      "/rest" whose `rest` holds no `#` (further "/" included). */
  lemma RegisteredPathOfRootedRoute(rest: string)
    requires Hash !in rest
    ensures RegisteredPath([Divider] + rest) == [Divider] + rest
  {
    ReplaceFirstSpec([], Divider, Hash, rest);
    assert [] + [Divider] + rest == [Divider] + rest;
    CleanRouteTakesSecondSegment([], rest);
    assert [] + [Hash] + rest == [Hash] + rest;
  }

  /** The routes accepted so far, in registration order. */
  datatype Router = Router(routes: seq<string>)

  const Initial := Router([])

  /** `isValidRoute(route)`: was exactly this route accepted? */
  predicate IsValidRoute(router: Router, route: string)
    ensures IsValidRoute(router, route) <==> exists i :: 0 <= i < |router.routes| && router.routes[i] == route
  {
    route in router.routes
  }

  /** `on(route, classname)`: registers the route's path with the runner
      (its answer is `register`) and records the route itself, as given,
      only when the runner accepts. */
  function On(router: Router, route: string, register: string -> bool): (r: Router)
    ensures forall x :: IsValidRoute(r, x) <==> IsValidRoute(router, x) || (x == route && register(RegisteredPath(route)))
    ensures |router.routes| <= |r.routes| <= |router.routes| + 1 && r.routes[..|router.routes|] == router.routes
    ensures register(RegisteredPath(route)) ==> r.routes == router.routes + [route]
    ensures !register(RegisteredPath(route)) ==> r == router
  {
    if register(RegisteredPath(route)) then Router(router.routes + [route]) else router
  }

  /** `handleHashChange()`: the route the runner is started with, if the
      current location names an accepted route. */
  function HandleHashChange(router: Router, location: Option<Location>): (r: Option<string>)
    ensures r.Some? <==> IsValidRoute(router, ExtractLocationHash(location))
    ensures r.Some? ==> r.value == ExtractLocationHash(location)
  {
    var hash := ExtractLocationHash(location);
    if IsValidRoute(router, hash) then Some(hash) else None
  }

  /** Accepting "/rest" and then navigating to "#rest" starts that route,
      and the runner was registered under the same text. */
  lemma NavigateToRegisteredRoute(router: Router, rest: string, register: string -> bool)
    requires Hash !in rest
    requires register([Divider] + rest)
    ensures RegisteredPath([Divider] + rest) == [Divider] + rest
    ensures HandleHashChange(On(router, [Divider] + rest, register), Some(Location([Hash] + rest))) == Some([Divider] + rest)
  {
    RegisteredPathOfRootedRoute(rest);
    LocationHashes(rest);
  }

  /** A route that does not start with "/", or that holds a `#`, never
      matches a location: accepting it changes no navigation. */
  lemma UnreachableRouteNeverStarts(router: Router, route: string, register: string -> bool, location: Option<Location>)
    requires |route| == 0 || route[0] != Divider || Hash in route
    ensures HandleHashChange(On(router, route, register), location) == HandleHashChange(router, location)
  {
  }

  /** Registering more routes never disables a navigation that worked. */
  lemma OnKeepsNavigation(router: Router, route: string, register: string -> bool, location: Option<Location>)
    requires HandleHashChange(router, location).Some?
    ensures HandleHashChange(On(router, route, register), location) == HandleHashChange(router, location)
  {
  }

  /** The route `start` finally hands to the runner: the current location's
      route when it was accepted, the root otherwise. */
  function StartRoute(router: Router, location: Option<Location>): (r: string)
    ensures r == ExtractLocationHash(location) || r == Root
    ensures IsValidRoute(router, ExtractLocationHash(location)) ==> r == ExtractLocationHash(location)
    ensures r != Root ==> IsValidRoute(router, r)
  {
    var current := ExtractLocationHash(location);
    if IsValidRoute(router, current) then current else Root
  }

  /** At start-up the router starts what a hash change would start, and
      falls back to the root where a hash change would do nothing. */
  lemma StartMatchesHashChange(router: Router, location: Option<Location>)
    ensures StartRoute(router, location) == HandleHashChange(router, location).GetOr(Root)
  {
  }

  /** Without a `location` the start route is the root unless the route
      "/undefined" was accepted. */
  lemma StartWithoutLocation(router: Router)
    ensures StartRoute(router, None) == (if IsValidRoute(router, "/undefined") then "/undefined" else Root)
  {
    CleanRouteWithoutHash(Root);
  }

  /** `start(config, assets, selector)`: once the environment check and the
      asset load have both resolved, the runner is started with the start
      route; if either rejects or never settles, nothing is started. */
  function Start(router: Router, checked: Settlement, loaded: Settlement, location: Option<Location>): (r: Option<string>)
    ensures r.Some? <==> checked == Fulfilled && loaded == Fulfilled
    ensures r.Some? ==> r.value == StartRoute(router, location)
  {
    if checked == Fulfilled && loaded == Fulfilled then Some(StartRoute(router, location)) else None
  }
}
