/**
 * The authentication completion endpoint of `app/auth/callback/route.ts`:
 * exchanges `code` for a session when one is given, and always redirects to
 * `next` (default `/`) with the exchange's cookie writes on the redirect.
 */
module AuthCallback {
  import opened Options
  import opened Cookies
  import opened Http

  /** What the exchange reports (`succeeded`, never inspected by the handler) and the cookies it writes through `setAll`. */
  datatype ExchangeResult = ExchangeResult(succeeded: bool, writes: seq<CookieEntry>)

  /** `NextResponse.redirect(new URL(ref, base))` with its cookie jar; resolving `ref` against `base` is left to the URL parser. */
  datatype RedirectResponse = RedirectResponse(ref: string, base: Url, cookies: Jar)

  /** `searchParams.get('next') || '/'`. */
  function NextTarget(q: seq<Param>): (t: string)
    ensures t != ""
    ensures GetFirst(q, "next").Some? && GetFirst(q, "next").value != "" ==> t == GetFirst(q, "next").value
    ensures GetFirst(q, "next") == None || GetFirst(q, "next") == Some("") ==> t == "/"
  {
    match GetFirst(q, "next")
    case Some(n) => if n != "" then n else "/"
    case None => "/"
  }

  /** The code to exchange: `searchParams.get('code')` when it is truthy (present and non-empty). */
  function CodeOf(q: seq<Param>): (c: Option<string>)
    ensures c.Some? ==> c.value != "" && GetFirst(q, "code") == c
    ensures c.None? ==> GetFirst(q, "code") == None || GetFirst(q, "code") == Some("")
  {
    match GetFirst(q, "code")
    case Some(c) => if c != "" then Some(c) else None
    case None => None
  }

  /**
   * `GET(request)`. `exchange` stands for `exchangeCodeForSession`, which reads
   * only the request's cookies; `exchanged` records the codes it was called
   * with. The redirect is built first and is the response on every path.
   */
  method Get(request: Request, exchange: (string, map<string, string>) -> ExchangeResult)
    returns (r: RedirectResponse, exchanged: seq<string>)
    ensures r.ref == NextTarget(request.url.query) && r.base == request.url
    ensures CodeOf(request.url.query).None? ==> exchanged == [] && r.cookies == map[]
    ensures CodeOf(request.url.query).Some? ==>
      var code := CodeOf(request.url.query).value;
      exchanged == [code] && r.cookies == Applied(map[], exchange(code, request.cookies).writes)
  {
    var code := GetFirst(request.url.query, "code");
    var next := NextTarget(request.url.query);
    var response := new CookieJar.Empty();
    exchanged := [];

    if code.Some? && code.value != "" {
      var result := exchange(code.value, request.cookies);
      exchanged := exchanged + [code.value];
      response.SetAll(result.writes);
    }
    r := RedirectResponse(next, request.url, response.store);
  }

  /**
   * Setting `code` never changes the `next` reference the redirect is resolved
   * from. The base it is resolved against is the request URL, code included.
   */
  lemma TargetIgnoresCode(q: seq<Param>, code: string)
    ensures NextTarget(SetParam(q, "code", code)) == NextTarget(q)
  {
    GetAfterSet(q, "code", code, "next");
  }
}
