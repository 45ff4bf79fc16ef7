/** The route guard (src/middleware.ts): a decision from the request path, the
    signed-in user (if any) and the user's profile role. */
module Middleware {
  import opened Types

  datatype Decision = Pass | Redirect(to: string)

  /** The prefixes under which the user is looked up (plain `startsWith`). */
  predicate IsProtected(path: string)
  {
    "/admin" <= path || "/checkout" <= path || "/orders" <= path
  }

  predicate IsAdminRoute(path: string)
  {
    "/admin" <= path
  }

  predicate IsCustomerRoute(path: string)
  {
    "/checkout" <= path || "/orders" <= path
  }

  /** The profile role of `u` is `admin`; a user without a profile row is not
      an admin. */
  predicate IsAdmin(roles: map<UserId, string>, u: UserId)
  {
    u in roles && roles[u] == "admin"
  }

  /** The `config.matcher` patterns `/admin/:path*`, `/checkout/:path*` and
      `/orders/:path*`: the section itself or anything below it. */
  predicate Matched(path: string)
  {
    || path == "/admin" || "/admin/" <= path
    || path == "/checkout" || "/checkout/" <= path
    || path == "/orders" || "/orders/" <= path
  }

  /** The body of `middleware`. `roles` is the profiles table's `role` column. */
  function Guard(path: string, user: Option<UserId>, roles: map<UserId, string>): (r: Decision)
    ensures r == Redirect("/login") <==> IsProtected(path) && user.None?
    ensures r == Redirect("/") <==> IsAdminRoute(path) && user.Some? && !IsAdmin(roles, user.value)
    ensures r == Pass <==>
      || !IsProtected(path)
      || (IsAdminRoute(path) && user.Some? && IsAdmin(roles, user.value))
      || (!IsAdminRoute(path) && IsCustomerRoute(path) && user.Some?)
    ensures r.Pass? || r == Redirect("/login") || r == Redirect("/")
  {
    if !IsProtected(path) then Pass
    else if IsAdminRoute(path) then
      (if user.None? then Redirect("/login")
       else if !IsAdmin(roles, user.value) then Redirect("/")
       else Pass)
    else if IsCustomerRoute(path) && user.None? then Redirect("/login")
    else Pass
  }

  /** Every path the matcher selects is one the body treats as protected, so
      the body's early return for unprotected paths is never taken. */
  lemma MatchedIsProtected(path: string)
    requires Matched(path)
    ensures IsProtected(path)
    ensures IsAdminRoute(path) || IsCustomerRoute(path)
  {
    if "/admin/" <= path {
      assert path[..6] == "/admin/"[..6];
    } else if "/checkout/" <= path {
      assert path[..9] == "/checkout/"[..9];
    } else if "/orders/" <= path {
      assert path[..7] == "/orders/"[..7];
    }
  }

  /** What a request gets: the framework runs the body only on matched paths;
      every other path is served as is. */
  function Route(path: string, user: Option<UserId>, roles: map<UserId, string>): (r: Decision)
    ensures !Matched(path) ==> r == Pass
    ensures r == Redirect("/login") <==> Matched(path) && user.None?
    ensures r == Redirect("/") <==> Matched(path) && IsAdminRoute(path) && user.Some? && !IsAdmin(roles, user.value)
    ensures r == Pass <==>
      || !Matched(path)
      || (IsAdminRoute(path) && user.Some? && IsAdmin(roles, user.value))
      || (!IsAdminRoute(path) && user.Some?)
  {
    if Matched(path) then
      MatchedIsProtected(path);
      Guard(path, user, roles)
    else Pass
  }

  /** Outside the protected sections the decision is Pass whoever asks. */
  lemma UnprotectedIgnoresUser(path: string, u1: Option<UserId>, r1: map<UserId, string>,
                               u2: Option<UserId>, r2: map<UserId, string>)
    requires !IsProtected(path)
    ensures Route(path, u1, r1) == Route(path, u2, r2) == Pass
  {
    if Matched(path) {
      MatchedIsProtected(path);
    }
  }

  /** Off the admin section the role never matters; on a customer section
      only the user's presence does. */
  lemma CustomerRouteIgnoresRole(path: string, user: Option<UserId>, r1: map<UserId, string>, r2: map<UserId, string>)
    requires !IsAdminRoute(path)
    ensures Route(path, user, r1) == Route(path, user, r2)
    ensures Matched(path) ==> Route(path, user, r1) == if user.Some? then Pass else Redirect("/login")
  {
  }

  /** The body's prefix test would treat `/administrator` as an admin route,
      but the matcher never runs the body there, so every visitor passes. */
  lemma AdministratorIsNotGuarded(u: UserId, roles: map<UserId, string>)
    requires !IsAdmin(roles, u)
    ensures Guard("/administrator", Some(u), roles) == Redirect("/")
    ensures Route("/administrator", Some(u), roles) == Pass
    ensures Route("/administrator", None, roles) == Pass
  {
    assert "/admin" <= "/administrator";
    assert !("/admin/" <= "/administrator") by {
      assert "/administrator"[6] != "/admin/"[6];
    }
    assert !("/checkout/" <= "/administrator") by {
      assert "/administrator"[1] != "/checkout/"[1];
    }
    assert !("/orders/" <= "/administrator") by {
      assert "/administrator"[1] != "/orders/"[1];
    }
  }

  /** The admin check is decided by the user's own role alone: changing the
      roles of other users never changes a decision. */
  lemma OnlyOwnRoleMatters(path: string, u: UserId, r1: map<UserId, string>, r2: map<UserId, string>)
    requires (u in r1 <==> u in r2) && (u in r1 ==> r1[u] == r2[u])
    ensures Route(path, Some(u), r1) == Route(path, Some(u), r2)
  {
  }
}
