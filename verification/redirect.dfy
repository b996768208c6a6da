/** The first route: a path without a trailing slash is redirected to its
    slash-terminated form when the request has no query string, and passed on
    to the later routes when it has one. */
module Redirect {
  import opened Types

  /** The route's pattern `(/.*[^/])$` against the raw path info: a leading
      slash, then anything, then a last character that is not a slash. The
      capture is the whole path; Sinatra URI-unescapes it before the route
      reads it from `params`, which the routes below take as the opaque
      parameter `unescape`. */
  predicate MatchesNoTrailingSlash(path: string)
  {
    |path| >= 2 && path[0] == '/' && path[|path| - 1] != '/'
  }

  /** The query string is absent or empty. */
  predicate NoQuery(req: Request)
  {
    req.queryString == None || req.queryString == Some("")
  }

  datatype Decision = RedirectTo(location: string) | Pass

  function Decide(req: Request, unescape: string -> string): (d: Decision)
    ensures d.RedirectTo? <==> MatchesNoTrailingSlash(req.pathInfo) && NoQuery(req)
    ensures d.RedirectTo? ==> d.location == req.scriptName + unescape(req.pathInfo) + "/"
  {
    if MatchesNoTrailingSlash(req.pathInfo) && NoQuery(req) then
      RedirectTo(req.scriptName + unescape(req.pathInfo) + "/")
    else Pass
  }

  /** The redirect route placed in front of the later routes `next`: it
      answers with a 302 and a location, or leaves the request to `next`. */
  function Route(req: Request, ctx: Context, unescape: string -> string,
                 next: (Request, Context) -> Response): (resp: Response)
    ensures Decide(req, unescape).RedirectTo? ==>
      resp.status == 302 && resp.location == Some(Decide(req, unescape).location)
    ensures Decide(req, unescape).Pass? ==> resp == next(req, ctx)
  {
    match Decide(req, unescape)
    case RedirectTo(loc) => Response(302, false, Some(loc), "")
    case Pass => next(req, ctx)
  }

  /** Following the redirect under the same mount point does not redirect
      again: the new path ends in a slash, whatever the unescaping did to the
      captured path (an escaped slash at the end included). */
  lemma RedirectTargetIsStable(req: Request, unescape: string -> string, unescapeNext: string -> string)
    requires Decide(req, unescape).RedirectTo?
    ensures var followed := req.(pathInfo := unescape(req.pathInfo) + "/", queryString := None);
            Decide(followed, unescapeNext) == Pass
            && req.scriptName + followed.pathInfo == Decide(req, unescape).location
  {
  }

  /** The query string alone decides between redirecting and passing when the
      path lacks a trailing slash. */
  lemma QueryStringDecides(req: Request, unescape: string -> string)
    requires MatchesNoTrailingSlash(req.pathInfo)
    ensures Decide(req, unescape).Pass? <==> exists q :: req.queryString == Some(q) && q != ""
  {
  }
}
