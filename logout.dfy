/**
 * app/api/auth/logout/route.ts: destroy the session, delete its cookie, and
 * redirect home with a cache-busting parameter and no-cache headers.
 */
module Logout {
  import opened Js
  import opened Http
  import opened Strings
  import SessionConfig

  const NoStore := "no-store"
  const NoCache := "no-cache"
  const CacheControl := NoStore + ", " + NoCache + ", must-revalidate, proxy-revalidate"

  const NoCacheHeaders := [
    ("Cache-Control", CacheControl),
    ("Pragma", "no-cache"),
    ("Expires", "0")]

  const LogoutFailedMessage := "Logout failed"

  /** `new URL('/', req.url)` with `logout=true` set; the request's own query is not kept. */
  function LogoutRedirect(requestOrigin: string): (r: Response)
    ensures r.Redirect? && r.location.base == requestOrigin && r.location.path == "/"
    ensures Param(r.location.query, "logout") == Some("true")
    ensures Param(r.headers, "Pragma") == Some("no-cache")
    ensures Param(r.headers, "Expires") == Some("0")
    ensures Param(r.headers, "Cache-Control").Some?
    ensures Includes(Param(r.headers, "Cache-Control").value, "no-store")
    ensures Includes(Param(r.headers, "Cache-Control").value, "no-cache")
  {
    var r := Redirect(Url(requestOrigin, "/", [("logout", "true")]), NoCacheHeaders);
    assert Param(r.headers, "Cache-Control") == Some(CacheControl);
    IncludesMiddle("", NoStore, ", " + NoCache + ", must-revalidate, proxy-revalidate");
    assert "" + NoStore + (", " + NoCache + ", must-revalidate, proxy-revalidate") == CacheControl;
    IncludesMiddle(NoStore + ", ", NoCache, ", must-revalidate, proxy-revalidate");
    assert "Pragma" != "Cache-Control" && "Expires" != "Cache-Control" && "Expires" != "Pragma";
    ParamAt(r.headers, "Pragma", 1);
    ParamAt(r.headers, "Expires", 2);
    r
  }

  /**
   * `GET /api/auth/logout`. `failure` is the exception `getSession()` raises,
   * if it raises one; the handler then answers 500 and nothing is changed.
   * Otherwise the session ends empty, the session cookie is deleted and the
   * redirect is the same whatever the session held before.
   */
  method Get(requestOrigin: string, failure: Option<string>, session: SessionConfig.Session)
    returns (resp: Response, deletedCookie: Option<string>)
    modifies session
    ensures failure.Some? ==>
      resp == ErrorReply(500, LogoutFailedMessage) && deletedCookie.None? && session.Data() == old(session.Data())
    ensures failure.None? ==>
      && session.Data() == SessionConfig.EmptySession
      && deletedCookie == Some(SessionConfig.CookieName)
      && resp == LogoutRedirect(requestOrigin)
  {
    if failure.Some? {
      return ErrorReply(500, LogoutFailedMessage), None;
    }
    session.Destroy();
    deletedCookie := Some("decision-debt-studio-session");
    var url := Url(requestOrigin, "/", []);
    url := url.(query := [("logout", "true")]);
    resp := Redirect(url, NoCacheHeaders);
  }
}
