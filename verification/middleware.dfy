/** The routing decision of `GroupRequiredMiddleware`: after login, an account
    that has no group is sent to the group-creation page, except for static
    files, invite links and a fixed list of exempt pages. */
module Middleware {
  import opened Basics

  const STATIC_PREFIX: string := "/static/"
  const INVITE_MARKER: string := "invite="
  const CREATE_GROUP: string := "create_group"

  /** URL names whose paths never trigger the redirect, in the order they are tried. */
  const EXEMPT_URLS: seq<string> := ["login", "logout", "signup", "create_group"]

  /** The part of `request.user` the middleware reads. The group is an opaque
      identifier; `None` is Python's `None`. */
  datatype Visitor = Visitor(isAuthenticated: bool, group: Option<nat>)

  /** `path` is `request.path`; `fullPath` is `request.get_full_path()`, the
      path followed by the query string. */
  datatype Request = Request(user: Visitor, path: string, fullPath: string)

  /** What the middleware does with a request: hand it on to the next handler,
      answer with a redirect to `location`, or fail because the URL name
      `name` has no route (Django's `NoReverseMatch`). */
  datatype Response = PassThrough | Redirect(location: string) | NoReverseMatch(name: string)

  /** The URL configuration, as Django's `reverse`: a URL name to its path, or
      `None` when no route has that name. */
  type Reverse = string -> Option<string>

  /** The route named `name` exists and `path` lies under it. */
  predicate Covers(reverse: Reverse, name: string, path: string) {
    reverse(name).Some? && StartsWith(path, reverse(name).value)
  }

  /** The first `k` names all resolve and none of them covers `path`: the
      exempt loop gets past its first `k` iterations without returning or raising. */
  ghost predicate ClearedUpTo(path: string, names: seq<string>, reverse: Reverse, k: int) {
    k <= |names| && forall j :: 0 <= j < k ==> reverse(names[j]).Some? && !Covers(reverse, names[j], path)
  }

  /** How the loop over the exempt URL names ends. */
  datatype Scan = Exempt | NotExempt | Unresolved(name: string)

  /** The `for exempt in EXEMPT_URLS` loop: names are reversed in order, the
      first route that is a prefix of the path ends the loop, and a name
      without a route raises before any later name is tried. */
  function ScanExempt(path: string, names: seq<string>, reverse: Reverse): (r: Scan)
    ensures r == NotExempt <==> ClearedUpTo(path, names, reverse, |names|)
    ensures r == Exempt <==>
      exists i :: 0 <= i < |names| && ClearedUpTo(path, names, reverse, i) && Covers(reverse, names[i], path)
    ensures r.Unresolved? ==>
      exists i :: 0 <= i < |names| && ClearedUpTo(path, names, reverse, i) && names[i] == r.name && reverse(names[i]).None?
    decreases |names|
  {
    if |names| == 0 then
      NotExempt
    else if reverse(names[0]).None? then
      assert ClearedUpTo(path, names, reverse, 0);
      Unresolved(names[0])
    else if StartsWith(path, reverse(names[0]).value) then
      assert ClearedUpTo(path, names, reverse, 0);
      Exempt
    else
      var rest := ScanExempt(path, names[1..], reverse);
      forall k | 0 <= k < |names|
        ensures ClearedUpTo(path, names, reverse, k + 1) <==> ClearedUpTo(path, names[1..], reverse, k)
      {
        assert forall j :: 1 <= j < k + 1 ==> names[j] == names[1..][j - 1];
      }
      assert rest.Exempt? ==> exists i :: 0 <= i < |names| && ClearedUpTo(path, names, reverse, i) && Covers(reverse, names[i], path) by {
        if rest.Exempt? {
          var i :| 0 <= i < |names[1..]| && ClearedUpTo(path, names[1..], reverse, i) && Covers(reverse, names[1..][i], path);
          assert ClearedUpTo(path, names, reverse, i + 1) && Covers(reverse, names[i + 1], path);
        }
      }
      assert rest.Unresolved? ==> exists i :: 0 <= i < |names| && ClearedUpTo(path, names, reverse, i) && names[i] == rest.name && reverse(names[i]).None? by {
        if rest.Unresolved? {
          var i :| 0 <= i < |names[1..]| && ClearedUpTo(path, names[1..], reverse, i) && names[1..][i] == rest.name && reverse(names[1..][i]).None?;
          assert ClearedUpTo(path, names, reverse, i + 1) && names[i + 1] == rest.name;
        }
      }
      assert (exists i :: 0 <= i < |names| && ClearedUpTo(path, names, reverse, i) && Covers(reverse, names[i], path)) ==> rest.Exempt? by {
        if exists i :: 0 <= i < |names| && ClearedUpTo(path, names, reverse, i) && Covers(reverse, names[i], path) {
          var i :| 0 <= i < |names| && ClearedUpTo(path, names, reverse, i) && Covers(reverse, names[i], path);
          assert i != 0;
          assert ClearedUpTo(path, names[1..], reverse, i - 1) && Covers(reverse, names[1..][i - 1], path);
        }
      }
      rest
  }

  /** `GroupRequiredMiddleware.__call__`: the guards in source order, each of
      which hands the request on; only a request that gets past all of them
      and whose user has no group is redirected. */
  function Decide(req: Request, reverse: Reverse): (r: Response)
    ensures r.Redirect? <==>
      && req.user.isAuthenticated
      && !StartsWith(req.path, STATIC_PREFIX)
      && !Contains(req.fullPath, INVITE_MARKER)
      && ClearedUpTo(req.path, EXEMPT_URLS, reverse, |EXEMPT_URLS|)
      && req.user.group.None?
    ensures r.Redirect? ==> reverse(CREATE_GROUP) == Some(r.location)
    ensures r.NoReverseMatch? ==> r.name in EXEMPT_URLS && reverse(r.name).None?
    ensures forall n :: r == NoReverseMatch(n) <==>
      && req.user.isAuthenticated
      && !StartsWith(req.path, STATIC_PREFIX)
      && !Contains(req.fullPath, INVITE_MARKER)
      && ScanExempt(req.path, EXEMPT_URLS, reverse) == Unresolved(n)
  {
    if !req.user.isAuthenticated then
      PassThrough
    else if StartsWith(req.path, STATIC_PREFIX) then
      PassThrough
    else if Contains(req.fullPath, INVITE_MARKER) then
      PassThrough
    else
      match ScanExempt(req.path, EXEMPT_URLS, reverse)
      case Exempt => PassThrough
      case Unresolved(name) => NoReverseMatch(name)
      case NotExempt =>
        if req.user.group.None? then
          assert EXEMPT_URLS[3] == CREATE_GROUP;
          Redirect(reverse(CREATE_GROUP).value)
        else
          PassThrough
  }

  /** An anonymous visitor is always handed on, whatever the path or group. */
  lemma AnonymousPasses(req: Request, reverse: Reverse)
    requires !req.user.isAuthenticated
    ensures Decide(req, reverse) == PassThrough
  {
  }

  /** Requests for static files are handed on. */
  lemma StaticPasses(req: Request, reverse: Reverse)
    requires StartsWith(req.path, STATIC_PREFIX)
    ensures Decide(req, reverse) == PassThrough
  {
  }

  /** A request whose path and query contain `invite=` anywhere is handed on. */
  lemma InviteLinkPasses(req: Request, reverse: Reverse, i: int)
    requires OccursAt(req.fullPath, INVITE_MARKER, i)
    ensures Decide(req, reverse) == PassThrough
  {
  }

  /** A path under the route of an exempt name is handed on, provided the
      names tried before it have routes (later names are never reversed). */
  lemma ExemptPathPasses(req: Request, reverse: Reverse, i: int)
    requires 0 <= i < |EXEMPT_URLS|
    requires forall j :: 0 <= j < i ==> reverse(EXEMPT_URLS[j]).Some?
    requires Covers(reverse, EXEMPT_URLS[i], req.path)
    ensures Decide(req, reverse) == PassThrough
  {
  }

  /** An authenticated user whose group is set is never redirected. */
  lemma GroupMemberNeverRedirected(req: Request, reverse: Reverse)
    requires req.user.group.Some?
    ensures !Decide(req, reverse).Redirect?
  {
  }

  /** The group is only read once every earlier guard has let the request
      through: when one of them already decided, the group makes no difference. */
  lemma GroupReadLast(req: Request, reverse: Reverse, group: Option<nat>)
    requires !req.user.isAuthenticated
          || StartsWith(req.path, STATIC_PREFIX)
          || Contains(req.fullPath, INVITE_MARKER)
          || ScanExempt(req.path, EXEMPT_URLS, reverse) != NotExempt
    ensures Decide(req.(user := req.user.(group := group)), reverse) == Decide(req, reverse)
  {
  }

  /** No redirect loop: following the redirect (same user, any query string)
      reaches the group-creation page, which is exempt, so it is handed on. */
  lemma NoRedirectLoop(req: Request, reverse: Reverse, query: string)
    requires Decide(req, reverse).Redirect?
    ensures Decide(Request(req.user, Decide(req, reverse).location, query), reverse) == PassThrough
  {
  }

  /** The routes the repository's URL configurations declare that take no
      arguments: the project's own and the application's, which it includes
      at the root. No route is named `create_group`. This is the routing on
      the assumption that the URL configuration loads; with the views module
      as it stands it does not, because the configurations import
      `portfolio_top_view` and refer to `views.signup`, which that module
      does not define. */
  function ShownRoute(name: string): Option<string> {
    if name == "portfolio_top" then Some("/")
    else if name == "portfolio" then Some("/portfolio/")
    else if name == "login" then Some("/login/")
    else if name == "logout" then Some("/logout/")
    else if name == "signup" then Some("/signup/")
    else if name == "home" then Some("/home/")
    else if name == "password_reset" then Some("/password_reset/")
    else if name == "password_reset_done" then Some("/password_reset_done/")
    else if name == "password_reset_complete" then Some("/reset/done/")
    else if name == "password_change" then Some("/password_change/")
    else if name == "password_change_done" then Some("/password_change/done/")
    else None
  }

  /** With the routes as declared, every logged-in request that is not for a
      static file, an invite link or the login, logout or signup page fails
      with `NoReverseMatch` for `create_group`, whatever the user's group:
      the redirect is never issued, and users who have a group fail too. */
  lemma ShownRoutesNeverRedirect(req: Request)
    requires req.user.isAuthenticated
    requires !StartsWith(req.path, STATIC_PREFIX) && !Contains(req.fullPath, INVITE_MARKER)
    requires !StartsWith(req.path, "/login/") && !StartsWith(req.path, "/logout/") && !StartsWith(req.path, "/signup/")
    ensures Decide(req, ShownRoute) == NoReverseMatch(CREATE_GROUP)
  {
    assert ScanExempt(req.path, EXEMPT_URLS[3..], ShownRoute) == Unresolved(CREATE_GROUP);
  }

  /** The page at `/home/` for a logged-in user, whatever the group. */
  lemma ShownRoutesFailAtHome(group: Option<nat>)
    ensures Decide(Request(Visitor(true, group), "/home/", "/home/"), ShownRoute) == NoReverseMatch(CREATE_GROUP)
  {
    ShownRoutesNeverRedirect(Request(Visitor(true, group), "/home/", "/home/"));
  }

  /** The routes with the group-creation page the middleware documents
      (`group/create`) added under the name `create_group`. */
  function IntendedRoute(name: string): Option<string> {
    if name == CREATE_GROUP then Some("/group/create/") else ShownRoute(name)
  }

  /** With a `create_group` route, the middleware does what it is for: a
      logged-in user without a group is redirected to the group-creation page,
      and one with a group is handed on. */
  lemma IntendedRoutesRedirectGroupless(req: Request)
    requires req.user.isAuthenticated
    requires !StartsWith(req.path, STATIC_PREFIX) && !Contains(req.fullPath, INVITE_MARKER)
    requires !StartsWith(req.path, "/login/") && !StartsWith(req.path, "/logout/") && !StartsWith(req.path, "/signup/")
    requires !StartsWith(req.path, "/group/create/")
    ensures Decide(req, IntendedRoute) == if req.user.group.None? then Redirect("/group/create/") else PassThrough
  {
    assert ScanExempt(req.path, EXEMPT_URLS[3..], IntendedRoute) == NotExempt;
  }
}
