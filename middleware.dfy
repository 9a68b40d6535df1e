/**
 * The route guard (middleware.ts): requests under `/dashboard` without a
 * session are sent to `/login`, and a signed-in visit to `/login` is sent to
 * `/dashboard`; everything else goes through. A redirect clones the request
 * URL and changes its pathname only.
 */
module Middleware {
  import opened Text

  const DashboardPath: string := "/dashboard"
  const LoginPath: string := "/login"

  /** The parts of the request URL; a redirect keeps all but the pathname. */
  datatype Url = Url(origin: string, pathname: string, search: string, hash: string)

  /** What the middleware answers: let the request through, or redirect it. */
  datatype Response = Next | Redirect(location: Url)

  /** The paths the middleware runs on (`config.matcher`: `/dashboard/:path*` and `/login`). */
  predicate Matched(path: string)
  {
    path == DashboardPath || StartsWith(path, DashboardPath + "/") || path == LoginPath
  }

  /** The dashboard rule: a protected path and no session. */
  predicate NeedsLogin(url: Url, session: bool)
  {
    StartsWith(url.pathname, DashboardPath) && !session
  }

  /** The login rule: the login page with a session. */
  predicate AlreadySignedIn(url: Url, session: bool)
  {
    url.pathname == LoginPath && session
  }

  /** The decision `middleware` takes for a request URL and whether a session exists. */
  function Decide(url: Url, session: bool): (r: Response)
    ensures NeedsLogin(url, session) <==> r == Redirect(url.(pathname := LoginPath))
    ensures AlreadySignedIn(url, session) <==> r == Redirect(url.(pathname := DashboardPath))
    ensures r == Next <==> !NeedsLogin(url, session) && !AlreadySignedIn(url, session)
    ensures r.Redirect? ==> r.location == url.(pathname := r.location.pathname)
  {
    if StartsWith(url.pathname, DashboardPath) && !session then
      Redirect(url.(pathname := LoginPath))
    else if url.pathname == LoginPath && session then
      Redirect(url.(pathname := DashboardPath))
    else
      Next
  }

  /** The two rules never fire on the same request: at most one redirect per request. */
  lemma RulesExclusive(url: Url, session: bool)
    ensures !(NeedsLogin(url, session) && AlreadySignedIn(url, session))
  {
  }

  /** The redirect target is itself a path the middleware runs on. */
  lemma RedirectTargetMatched(url: Url, session: bool)
    ensures Decide(url, session).Redirect? ==> Matched(Decide(url, session).location.pathname)
  {
  }

  /**
   * No redirect loops: following a redirect with the same session state is
   * let through. `/login` is not under `/dashboard`, and `/dashboard` is not
   * `/login`.
   */
  lemma {:induction false} NoRedirectLoop(url: Url, session: bool)
    ensures Decide(url, session).Redirect? ==> Decide(Decide(url, session).location, session) == Next
  {
    var r := Decide(url, session);
    if r.Redirect? {
      if session {
        assert r.location.pathname == DashboardPath;
        assert !AlreadySignedIn(r.location, session);
      } else {
        assert r.location.pathname == LoginPath;
        assert !StartsWith(LoginPath, DashboardPath) by { assert LoginPath[1] != DashboardPath[1]; }
      }
    }
  }

  /** A matched request is let through exactly when the session state fits the page: signed in on the dashboard, signed out on the login page. */
  lemma MatchedDecision(url: Url, session: bool)
    requires Matched(url.pathname)
    ensures Decide(url, session) == Next <==> (url.pathname == LoginPath <==> !session)
  {
    if url.pathname != LoginPath {
      assert StartsWith(url.pathname, DashboardPath) by {
        if url.pathname != DashboardPath {
          assert url.pathname[..|DashboardPath|] == (DashboardPath + "/")[..|DashboardPath|];
        }
      }
    } else {
      assert !StartsWith(LoginPath, DashboardPath) by { assert LoginPath[1] != DashboardPath[1]; }
    }
  }
}
