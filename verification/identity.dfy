/**
 * What the identity provider is asked and what it answers. Token validation,
 * refresh and code exchange happen outside this model; each handler receives
 * the provider as a function of the request's cookies.
 */
module Identity {
  import opened Options
  import opened Cookies

  datatype User = User(id: string, email: string)

  /**
   * The answer to a session lookup: the user, if any (`session?.user`; a
   * provider error reads as no user), and the cookie entries the lookup
   * asked the adapter to write through `setAll`.
   */
  datatype SessionResult = SessionResult(user: Option<User>, writes: seq<CookieEntry>)
}
