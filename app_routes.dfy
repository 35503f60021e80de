/** The route guards and route table of src/App.js. A guard looks at the
    session's `loading` flag and current user and either shows a spinner,
    renders its page, or redirects. */
module AppRoutes {
  import opened Wrappers
  import opened Records

  /** What a guard renders. */
  datatype View = Spinner | Child | RedirectTo(path: string)

  datatype Guard = Protected | Public

  datatype Page = LoginPage | SignupPage | ProductsPage | CartPage | CheckoutPage | PaymentPage | OrdersPage

  /** What a path maps to: a page behind a guard, or a bare redirect. */
  datatype Entry = Guarded(guard: Guard, page: Page) | Bare(to: string)

  /** `ProtectedRoute`: spinner while loading, the page for a signed-in
      user, otherwise a redirect to `/login`. */
  function ProtectedRoute(loading: bool, user: Option<User>): (v: View)
    ensures loading <==> v == Spinner
    ensures !loading ==> (v == Child <==> user.Some?)
    ensures !loading && user.None? ==> v == RedirectTo("/login")
  {
    if loading then Spinner else if user.Some? then Child else RedirectTo("/login")
  }

  /** `PublicRoute`: spinner while loading, the page when nobody is signed
      in, otherwise a redirect to `/products`. */
  function PublicRoute(loading: bool, user: Option<User>): (v: View)
    ensures loading <==> v == Spinner
    ensures !loading ==> (v == Child <==> user.None?)
    ensures !loading && user.Some? ==> v == RedirectTo("/products")
  {
    if loading then Spinner else if user.None? then Child else RedirectTo("/products")
  }

  function Guarding(g: Guard, loading: bool, user: Option<User>): View {
    match g
    case Protected => ProtectedRoute(loading, user)
    case Public => PublicRoute(loading, user)
  }

  /** ASCII lower case; every route path is lower-case ASCII. */
  function LowerChar(c: char): (l: char)
    ensures 'A' <= c <= 'Z' ==> 'a' <= l <= 'z' && l as int == c as int + 32
    ensures !('A' <= c <= 'Z') ==> l == c
  {
    if 'A' <= c <= 'Z' then (c as int + 32) as char else c
  }

  function LowerAscii(s: string): (r: string)
    ensures |r| == |s| && forall i :: 0 <= i < |s| ==> r[i] == LowerChar(s[i])
  {
    seq(|s|, i requires 0 <= i < |s| => LowerChar(s[i]))
  }

  /** Drops the trailing slashes of a path, keeping its first character. */
  function TrimSlashes(path: string): (r: string)
    ensures |r| <= |path| && r == path[..|r|]
    ensures forall i :: |r| <= i < |path| ==> path[i] == '/'
    ensures |r| > 1 ==> r[|r| - 1] != '/'
    ensures path != [] ==> r != []
    decreases |path|
  {
    if |path| > 1 && path[|path| - 1] == '/' then TrimSlashes(path[..|path| - 1]) else path
  }

  /** The form in which a location is compared with the route paths. */
  function Normalize(path: string): string {
    LowerAscii(TrimSlashes(path))
  }

  /** React Router 6 matches a route path `pat` (with no `caseSensitive`
      prop) by a case-insensitive regular expression: `pat` anchored at the start,
      then any number of slashes up to the end. So the location is a prefix
      equal to `pat` up to letter case, followed only by slashes. */
  ghost predicate PatternMatch(pat: string, path: string) {
    exists n :: 0 <= n <= |path| && LowerAscii(path[..n]) == pat && Slashes(path, n)
  }

  predicate Slashes(path: string, n: int)
    requires 0 <= n <= |path|
  {
    forall i :: n <= i < |path| ==> path[i] == '/'
  }

  /** The `<Routes>` table: a location matches the route whose path equals
      it after lower-casing and dropping trailing slashes; one that matches
      no route renders nothing. */
  function Route(path: string): (e: Option<Entry>)
    ensures e.Some? <==> Normalize(path) in KnownPaths
  {
    Table(Normalize(path))
  }

  /** The eight `<Route>` elements, keyed by their paths. */
  function Table(p: string): (e: Option<Entry>)
    ensures e.Some? <==> p in KnownPaths
  {
    if p == "/login" then Some(Guarded(Public, LoginPage))
    else if p == "/signup" then Some(Guarded(Public, SignupPage))
    else if p == "/products" then Some(Guarded(Protected, ProductsPage))
    else if p == "/cart" then Some(Guarded(Protected, CartPage))
    else if p == "/checkout" then Some(Guarded(Protected, CheckoutPage))
    else if p == "/payment" then Some(Guarded(Protected, PaymentPage))
    else if p == "/orders" then Some(Guarded(Protected, OrdersPage))
    else if p == "/" then Some(Bare("/products"))
    else None
  }

  const KnownPaths: set<string> :=
    {"/login", "/signup", "/products", "/cart", "/checkout", "/payment", "/orders", "/"}

  /** Each route path is lower case, starts with `/` and, apart from `/`
      itself, does not end with one. */
  predicate RoutePath(pat: string) {
    && pat != [] && pat[0] == '/'
    && (forall i :: 0 <= i < |pat| ==> !('A' <= pat[i] <= 'Z'))
    && (|pat| > 1 ==> pat[|pat| - 1] != '/')
  }

  lemma KnownPathsAreRoutePaths(pat: string)
    requires pat in KnownPaths
    ensures RoutePath(pat)
  {
  }

  /** A route path is already in normal form. */
  lemma NormalizeRoutePath(pat: string)
    requires RoutePath(pat)
    ensures Normalize(pat) == pat
  {
    TrimSlashesAfter(pat, |pat|);
    assert pat[..|pat|] == pat;
  }

  /** Normalising is exactly the router's match: a location matches a route
      path by the regular expression iff it normalises to that path. */
  lemma NormalizeIsPatternMatch(pat: string, path: string)
    requires RoutePath(pat)
    ensures PatternMatch(pat, path) <==> Normalize(path) == pat
  {
    var r := TrimSlashes(path);
    if Normalize(path) == pat {
      assert path[..|r|] == r;
      assert Slashes(path, |r|);
    }
    if PatternMatch(pat, path) {
      var n :| 0 <= n <= |path| && LowerAscii(path[..n]) == pat && Slashes(path, n);
      TrimSlashesAfter(path, n);
    }
  }

  /** A location finds a route exactly when it matches one of the eight
      route paths the way the router's regular expressions do. */
  lemma RouteMatchesLikeRouter(path: string)
    ensures Route(path).Some? <==> exists pat :: pat in KnownPaths && PatternMatch(pat, path)
  {
    if Route(path).Some? {
      var pat := Normalize(path);
      KnownPathsAreRoutePaths(pat);
      NormalizeIsPatternMatch(pat, path);
    }
    if exists pat :: pat in KnownPaths && PatternMatch(pat, path) {
      var pat :| pat in KnownPaths && PatternMatch(pat, path);
      KnownPathsAreRoutePaths(pat);
      NormalizeIsPatternMatch(pat, path);
    }
  }

  /** Letter case does not matter. */
  lemma RouteIgnoresCase()
    ensures Route("/Login") == Route("/login") == Some(Guarded(Public, LoginPage))
  {
    assert LowerAscii("/Login") == "/login";
  }

  /** Trailing slashes do not matter. */
  lemma RouteIgnoresTrailingSlashes()
    ensures Route("/cart//") == Route("/cart") == Some(Guarded(Protected, CartPage))
  {
    TrimSlashesAfter("/cart//", 5);
    assert "/cart//"[..5] == "/cart";
    KnownPathsAreRoutePaths("/cart");
    NormalizeRoutePath("/cart");
  }

  /** Anything after a route path other than slashes does matter. */
  lemma RouteRejectsLongerPaths()
    ensures Route("/cart/x") == None
  {
  }

  /** A path whose last kept character is not a slash (or that keeps only
      its first character) loses exactly its trailing slashes. */
  lemma {:induction false} TrimSlashesAfter(path: string, n: int)
    requires 1 <= n <= |path| && Slashes(path, n)
    requires n > 1 ==> path[n - 1] != '/'
    ensures TrimSlashes(path) == path[..n]
    decreases |path|
  {
    if |path| > n {
      var shorter := path[..|path| - 1];
      assert shorter[..n] == path[..n];
      TrimSlashesAfter(shorter, n);
    }
  }

  /** What visiting a path shows: a page, the spinner, a redirect, or
      nothing for an unknown path. Only a signed-in-aware guard or `/`
      redirects, and only to the two entry pages; a page renders only once
      loading has finished. */
  function Visit(path: string, loading: bool, user: Option<User>): (r: Option<View>)
    ensures r.Some? <==> Normalize(path) in KnownPaths
    ensures r == Some(Child) ==> !loading
    ensures r.Some? && r.value.RedirectTo? ==> r.value.path == "/products" || r.value.path == "/login"
  {
    match Route(path)
    case None => None
    case Some(Bare(to)) => Some(RedirectTo(to))
    case Some(Guarded(g, _)) => Some(Guarding(g, loading, user))
  }

  /** While the session is loading, every guarded path shows only the
      spinner. */
  lemma LoadingShowsSpinner(path: string, user: Option<User>)
    requires Route(path).Some? && Route(path).value.Guarded?
    ensures Visit(path, true, user) == Some(Spinner)
  {
  }

  /** Once loading has finished, for any user state exactly one of the two
      guards renders its page. */
  lemma ExactlyOneGuardRenders(user: Option<User>)
    ensures ProtectedRoute(false, user).Child? != PublicRoute(false, user).Child?
  {
  }

  /** The table: the sign-in pages are public, the shop pages protected,
      and `/` sends to the products page. */
  lemma RouteTable()
    ensures forall path :: path in {"/login", "/signup"} ==> Route(path).Some? && Route(path).value.Guarded? && Route(path).value.guard == Public
    ensures forall path :: path in {"/products", "/cart", "/checkout", "/payment", "/orders"} ==>
      Route(path).Some? && Route(path).value.Guarded? && Route(path).value.guard == Protected
    ensures Route("/") == Some(Bare("/products"))
  {
    KnownPathsNormal();
  }

  /** Following redirects from `path` reaches a rendering page within
      `hops` redirects, once loading has finished. */
  function Settles(path: string, user: Option<User>, hops: nat): bool
    decreases hops
  {
    match Visit(path, false, user)
    case Some(Child) => true
    case Some(RedirectTo(to)) => hops > 0 && Settles(to, user, hops - 1)
    case _ => false
  }

  /** Redirects do not loop: once loading has finished, every known path
      reaches a page that renders after at most two redirects. */
  lemma RedirectsSettle(path: string, user: Option<User>)
    requires Normalize(path) in KnownPaths
    ensures Settles(path, user, 2)
  {
    TargetsSettle(user);
  }

  /** Both redirect targets settle within one more redirect. */
  lemma TargetsSettle(user: Option<User>)
    ensures Settles("/products", user, 1) && Settles("/login", user, 1)
  {
    RedirectTargets(user);
  }

  /** Where the two redirect targets lead once loading has finished. */
  lemma RedirectTargets(user: Option<User>)
    ensures Visit("/products", false, user) == Some(if user.Some? then Child else RedirectTo("/login"))
    ensures Visit("/login", false, user) == Some(if user.None? then Child else RedirectTo("/products"))
  {
    KnownPathsAreRoutePaths("/products");
    NormalizeRoutePath("/products");
    KnownPathsAreRoutePaths("/login");
    NormalizeRoutePath("/login");
  }

  lemma KnownPathsNormal()
    ensures forall pat :: pat in KnownPaths ==> Normalize(pat) == pat
  {
    forall pat | pat in KnownPaths
      ensures Normalize(pat) == pat
    {
      KnownPathsAreRoutePaths(pat);
      NormalizeRoutePath(pat);
    }
  }
}
