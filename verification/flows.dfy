/**
 * How the three handlers fit together: the endpoints that anonymous visitors
 * must reach are public, so a redirect to one of them is never bounced.
 */
module Flows {
  import opened Http
  import Gate
  import ShareTarget

  const CallbackPath := "/auth/callback"
  const ShareTargetPath := "/share-target"

  /** The callback and the share intake are intercepted and admitted without a session. */
  lemma EndpointsAdmitAnonymous()
    ensures Gate.Intercepted(CallbackPath) && Gate.Decide(CallbackPath, false) == Gate.Admit
    ensures Gate.Intercepted(ShareTargetPath) && Gate.Decide(ShareTargetPath, false) == Gate.Admit
  {
    Gate.PublicPathsIntercepted(CallbackPath);
    Gate.PublicPathsIntercepted(ShareTargetPath);
  }

  /** The share page's login redirect is admitted by the gate, signed in or not. */
  lemma ShareLoginRedirectAdmitted(appUrl: string, url: ParamValue, title: ParamValue, text: ParamValue, signedIn: bool)
    ensures var u := ShareTarget.ShareLoginUrl(appUrl, url, title, text);
      Gate.Intercepted(u.path) && Gate.Decide(u.path, signedIn) == Gate.Admit
  {
    Gate.PublicPathsIntercepted(Gate.LoginPath);
  }

  /** An anonymous visit to the home page is sent to `/login?redirect=/`, the same target the home page uses itself. */
  lemma HomeRedirectsToLogin(origin: string, q: seq<Param>)
    ensures Gate.Decide("/", false) == Gate.RedirectToLogin
    ensures Gate.LoginUrl(Url(origin, "/", q)) == Url(origin, "/login", [Param("redirect", "/")])
  {
  }
}
