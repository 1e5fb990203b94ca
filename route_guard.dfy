/**
 * The request guard (frontend/src/middleware.ts): on the paths the
 * middleware runs for, a signed-out request for a protected page goes to
 * `/sign-in`, a non-admin request for an admin page goes to `/unauthorized`,
 * and everything else passes.
 */
module RouteGuard {
  import opened Wrappers
  import opened Text
  import opened Http

  /** The patterns `"<prefix>(.*)"` of the protected-route matcher. */
  const ProtectedPrefixes: seq<string> := ["/dashboard", "/profile", "/orders", "/cart/checkout", "/api/protected"]

  /** The patterns of the admin-route matcher. */
  const AdminPrefixes: seq<string> := ["/admin", "/api/admin"]

  /** A `createRouteMatcher` over `"<prefix>(.*)"` patterns: the path starts with one of them. */
  predicate MatchesAny(prefixes: seq<string>, path: string) {
    exists i :: 0 <= i < |prefixes| && StartsWith(path, prefixes[i])
  }

  predicate IsProtectedRoute(path: string) {
    MatchesAny(ProtectedPrefixes, path)
  }

  predicate IsAdminRoute(path: string) {
    MatchesAny(AdminPrefixes, path)
  }

  /** The roots of `config.matcher`: each entry is `"<root>/:path*"`. */
  const MatcherRoots: seq<string> := ["/dashboard", "/profile", "/orders", "/cart", "/admin", "/api"]

  /** `"<root>/:path*"` matches the root itself and every path below it. */
  predicate UnderRoot(root: string, path: string) {
    path == root || StartsWith(path, root + "/")
  }

  /** The middleware runs only for paths `config.matcher` admits; the rest pass untouched. */
  predicate InMatcher(path: string) {
    exists i :: 0 <= i < |MatcherRoots| && UnderRoot(MatcherRoots[i], path)
  }

  /** `sessionClaims?.metadata?.role || "user"`. */
  function EffectiveRole(role: Option<string>): (r: string)
    ensures r != ""
    ensures Truthy(role) ==> r == role.value
    ensures !Truthy(role) ==> r == "user"
  {
    if Truthy(role) then role.value else "user"
  }

  datatype Decision = RedirectTo(location: string) | PassThrough

  /** The answer for a path, the signed-in user id and the session's role claim. */
  function Decide(path: string, userId: Option<string>, role: Option<string>): (d: Decision)
    ensures d == RedirectTo("/sign-in") <==> InMatcher(path) && IsProtectedRoute(path) && !Truthy(userId)
    ensures d == RedirectTo("/unauthorized") <==>
              && InMatcher(path)
              && !(IsProtectedRoute(path) && !Truthy(userId))
              && IsAdminRoute(path) && EffectiveRole(role) != "admin"
    ensures d.PassThrough? <==>
              || !InMatcher(path)
              || (!(IsProtectedRoute(path) && !Truthy(userId)) && !(IsAdminRoute(path) && EffectiveRole(role) != "admin"))
  {
    if !InMatcher(path) then PassThrough
    else if IsProtectedRoute(path) && !Truthy(userId) then RedirectTo("/sign-in")
    else if IsAdminRoute(path) && EffectiveRole(role) != "admin" then RedirectTo("/unauthorized")
    else PassThrough
  }

  /** Two prefixes that differ at a position both reach cannot both start the same path. */
  lemma PrefixesClash(path: string, a: string, b: string, k: nat)
    requires k < |a| && k < |b| && a[k] != b[k]
    ensures !(StartsWith(path, a) && StartsWith(path, b))
  {
    if StartsWith(path, a) {
      assert path[k] == a[k];
    }
  }

  /** No path is both protected and admin. */
  lemma RouteClassesDisjoint(path: string)
    ensures !(IsProtectedRoute(path) && IsAdminRoute(path))
  {
    forall i, j | 0 <= i < |ProtectedPrefixes| && 0 <= j < |AdminPrefixes|
      ensures !(StartsWith(path, ProtectedPrefixes[i]) && StartsWith(path, AdminPrefixes[j]))
    {
      var k := if i == 4 then (if j == 0 then 2 else 5) else 1;
      PrefixesClash(path, ProtectedPrefixes[i], AdminPrefixes[j], k);
    }
  }

  /**
   * A guarded prefix or any path below it is one the middleware runs for:
   * `/cart/checkout` lies under `/cart`, and `/api/protected` and `/api/admin`
   * under `/api`.
   */
  lemma GuardedSubtreesAreMatched(path: string, prefix: string)
    requires prefix in ProtectedPrefixes || prefix in AdminPrefixes
    requires UnderRoot(prefix, path)
    ensures InMatcher(path)
  {
    var root := if prefix == "/cart/checkout" then "/cart"
                else if prefix == "/api/protected" || prefix == "/api/admin" then "/api"
                else prefix;
    assert StartsWith(prefix, root + "/") || prefix == root;
    assert UnderRoot(root, path);
    assert root in MatcherRoots;
  }

  /** A pattern match that is not under a matcher root never reaches the guard. */
  lemma PatternMatchOutsideMatcherPasses()
    ensures IsAdminRoute("/administrator") && Decide("/administrator", None, None) == PassThrough
    ensures IsProtectedRoute("/dashboardx") && Decide("/dashboardx", None, None) == PassThrough
  {
    assert StartsWith("/administrator", AdminPrefixes[0]);
    assert StartsWith("/dashboardx", ProtectedPrefixes[0]);
    forall i | 0 <= i < |MatcherRoots| ensures !UnderRoot(MatcherRoots[i], "/administrator") {
      if i == 4 { assert "/administrator"[6] != (MatcherRoots[i] + "/")[6]; }
      else if i == 5 { assert "/administrator"[2] != MatcherRoots[i][2]; }
      else { assert "/administrator"[1] != MatcherRoots[i][1]; }
    }
    forall i | 0 <= i < |MatcherRoots| ensures !UnderRoot(MatcherRoots[i], "/dashboardx") {
      if i == 0 { assert "/dashboardx"[10] != (MatcherRoots[i] + "/")[10]; }
      else { assert "/dashboardx"[1] != MatcherRoots[i][1]; }
    }
  }

  /** An admin page is refused to every non-admin, signed-out visitors included, with `/unauthorized`. */
  lemma AdminRouteNeedsAdminRole(path: string, userId: Option<string>, role: Option<string>)
    requires IsAdminRoute(path) && InMatcher(path)
    ensures Decide(path, userId, role) == (if EffectiveRole(role) == "admin" then PassThrough else RedirectTo("/unauthorized"))
  {
    RouteClassesDisjoint(path);
  }

  /** Without a role claim the visitor is a "user" and cannot reach an admin page. */
  lemma MissingRoleIsUser(path: string, userId: Option<string>)
    requires IsAdminRoute(path) && InMatcher(path)
    ensures Decide(path, userId, None) == RedirectTo("/unauthorized")
    ensures Decide(path, userId, Some("")) == RedirectTo("/unauthorized")
  {
    AdminRouteNeedsAdminRole(path, userId, None);
    AdminRouteNeedsAdminRole(path, userId, Some(""));
  }

  /** The checkout and the protected API are guarded; the rest of `/cart` is not. */
  lemma CheckoutIsProtected()
    ensures Decide("/cart/checkout/pay", None, None) == RedirectTo("/sign-in")
    ensures Decide("/cart", None, None) == PassThrough
    ensures Decide("/admin/products", Some("u1"), Some("admin")) == PassThrough
  {
    assert StartsWith("/cart/checkout/pay", ProtectedPrefixes[3]);
    assert UnderRoot(MatcherRoots[3], "/cart/checkout/pay");
    assert UnderRoot(MatcherRoots[3], "/cart");
    assert UnderRoot(MatcherRoots[4], "/admin/products");
    assert !IsProtectedRoute("/cart") by {
      forall i | 0 <= i < |ProtectedPrefixes| ensures !StartsWith("/cart", ProtectedPrefixes[i]) {
        if i == 3 { assert |ProtectedPrefixes[i]| > |"/cart"|; }
        else { assert "/cart"[1] != ProtectedPrefixes[i][1]; }
      }
    }
    assert !IsAdminRoute("/cart") by {
      forall i | 0 <= i < |AdminPrefixes| ensures !StartsWith("/cart", AdminPrefixes[i]) {
        assert "/cart"[1] != AdminPrefixes[i][1];
      }
    }
  }
}
