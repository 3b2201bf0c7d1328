/**
 * The share-intake page of `app/share-target/page.tsx`: checks the shared URL,
 * looks the session up, forwards the share once to the webhook and turns the
 * webhook's answer into the next view.
 *
 * The webhook's answer is an input. Its JSON body is reduced to whether
 * `data.success` is truthy, or to `OkBadJson` when reading it throws.
 */
module ShareTarget {
  import opened Options
  import opened Http
  import opened Identity
  import Gate

  const DefaultAppUrl := "http://localhost:3000"
  const HomeAdded := "/?added=true"

  datatype WebhookReply = Throws | NotOk | OkBadJson | Ok(success: bool)

  /** The JSON body of the POST: `{user_id, url, title, text}`. */
  datatype WebhookBody = WebhookBody(userId: string, url: ParamValue, title: ParamValue, text: ParamValue)

  /** The page's external effects, in the order they happen. */
  datatype Effect = SessionLookup | WebhookPost(body: WebhookBody)

  /** What the `try` block can throw: a failed `fetch`, the `Webhook falló` error, a JSON read failure, or `redirect`'s own signal. */
  datatype Thrown = FetchFailed | WebhookFailed | BadJson | RedirectSignal

  datatype Cause = NoUrl | SaveFailed(error: Thrown)

  /** The page's terminal outcomes. `HomeRedirect` is the redirect to `/?added=true`. */
  datatype PageResult = ErrorPage(cause: Cause) | DuplicatePage | LoginRedirect(to: Url) | HomeRedirect

  /** How the `try` block ends: with a returned view, or with something thrown. */
  datatype Completion = Returned(page: PageResult) | Threw(error: Thrown)

  /** JavaScript truthiness of a `searchParams` value: absent and `""` are falsy; an array is truthy. */
  predicate Truthy(v: ParamValue)
    ensures Truthy(v) <==> v != Missing && v != Single("")
  {
    match v
    case Missing => false
    case Single(t) => t != ""
    case Multiple(_) => true
  }

  /** `v || ''`. */
  function OrEmpty(v: ParamValue): (r: ParamValue)
    ensures Truthy(v) ==> r == v
    ensures !Truthy(v) ==> r == Single("")
  {
    if Truthy(v) then v else Single("")
  }

  /** `Array.prototype.join` with `,`: the first element leads, and one comma separates each pair. */
  function Join(ts: seq<string>): (r: string)
    ensures ts != [] ==> ts[0] <= r
    ensures |r| >= |ts| - 1
  {
    if ts == [] then ""
    else if |ts| == 1 then ts[0]
    else ts[0] + "," + Join(ts[1..])
  }

  /** The pieces of a text between its commas; a text without commas is one piece. */
  function Split(s: string): (parts: seq<string>)
    ensures |parts| >= 1
  {
    if s == [] then [""]
    else if s[0] == ',' then [""] + Split(s[1..])
    else var rest := Split(s[1..]); [[s[0]] + rest[0]] + rest[1..]
  }

  predicate CommaFree(t: string)
  {
    forall i :: 0 <= i < |t| ==> t[i] != ','
  }

  lemma {:induction false} SplitCommaFree(a: string)
    requires CommaFree(a)
    ensures Split(a) == [a]
  {
    if a != [] {
      SplitCommaFree(a[1..]);
      assert [a[0]] + a[1..] == a;
    }
  }

  /** Splitting after a comma-free first piece and a comma gives that piece, then the split of the rest. */
  lemma {:induction false} SplitAfterPiece(a: string, rest: string)
    requires CommaFree(a)
    ensures Split(a + "," + rest) == [a] + Split(rest)
  {
    if a == [] {
      assert a + "," + rest == [','] + rest;
      assert ([','] + rest)[1..] == rest;
    } else {
      SplitAfterPiece(a[1..], rest);
      var s := a + "," + rest;
      assert s[0] == a[0] && s[1..] == a[1..] + "," + rest;
      assert [a[0]] + a[1..] == a;
    }
  }

  /**
   * `String(array)` keeps every element: for elements without commas,
   * splitting the joined text on commas gives the array back.
   */
  lemma {:induction false} SplitJoin(ts: seq<string>)
    requires ts != []
    requires forall i :: 0 <= i < |ts| ==> CommaFree(ts[i])
    ensures Split(Join(ts)) == ts
  {
    if |ts| == 1 {
      SplitCommaFree(ts[0]);
    } else {
      SplitJoin(ts[1..]);
      SplitAfterPiece(ts[0], Join(ts[1..]));
      assert [ts[0]] + ts[1..] == ts;
    }
  }

  /** `String(v)` as `searchParams.set` applies it; an array becomes its comma-joined elements. */
  function ToText(v: ParamValue): (t: string)
    ensures v.Single? ==> t == v.text
    ensures v.Multiple? && v.texts != [] ==> v.texts[0] <= t && |t| >= |v.texts| - 1
    ensures v.Multiple? && v.texts != [] && (forall i :: 0 <= i < |v.texts| ==> CommaFree(v.texts[i])) ==>
      Split(t) == v.texts
  {
    match v
    case Missing => "undefined"
    case Single(t) => t
    case Multiple(ts) =>
      if ts != [] && forall i :: 0 <= i < |ts| ==> CommaFree(ts[i]) then
        SplitJoin(ts); Join(ts)
      else Join(ts)
  }

  /** `process.env.NEXT_PUBLIC_APP_URL || 'http://localhost:3000'`, with `""` standing for unset. */
  function AppOrigin(configured: string): (o: string)
    ensures o != ""
    ensures configured != "" ==> o == configured
    ensures configured == "" ==> o == DefaultAppUrl
  {
    if configured != "" then configured else DefaultAppUrl
  }

  /** The query of the login redirect: `share_url`, `share_title` and `share_text`, set in that order. */
  function ShareQuery(url: ParamValue, title: ParamValue, text: ParamValue): (q: seq<Param>)
    ensures q == [Param("share_url", ToText(url)), Param("share_title", ToText(OrEmpty(title))),
                  Param("share_text", ToText(OrEmpty(text)))]
  {
    var p1, p2, p3 := Param("share_url", ToText(url)), Param("share_title", ToText(OrEmpty(title))),
                      Param("share_text", ToText(OrEmpty(text)));
    assert p1.name != p2.name && p1.name != p3.name && p2.name != p3.name;
    var q1 := SetParam([], p1.name, p1.value);
    assert q1 == [p1];
    assert q1[0].name != p2.name && q1[1..] == [];
    var q2 := SetParam(q1, p2.name, p2.value);
    assert SetParam([], p2.name, p2.value) == [p2];
    assert q2 == [q1[0]] + SetParam(q1[1..], p2.name, p2.value);
    assert q2 == [p1, p2];
    assert q2[0].name != p3.name && q2[1..] == [p2];
    assert SetParam([p2], p3.name, p3.value) == [p2, p3];
    SetParam(q2, p3.name, p3.value)
  }

  /**
   * `new URL('/login', appUrl)` with the three share parameters set, and nothing else, in its query.
   * The `origin` field holds the configured base as given; taking the origin
   * out of it is left to the URL parser.
   */
  function ShareLoginUrl(appUrl: string, url: ParamValue, title: ParamValue, text: ParamValue): (u: Url)
    ensures u.origin == AppOrigin(appUrl) && u.path == Gate.LoginPath
    ensures u.query == [Param("share_url", ToText(url)), Param("share_title", ToText(OrEmpty(title))),
                        Param("share_text", ToText(OrEmpty(text)))]
  {
    Url(AppOrigin(appUrl), Gate.LoginPath, ShareQuery(url, title, text))
  }

  /** The webhook body built from the signed-in user and the shared fields. */
  function BodyFor(user: User, url: ParamValue, title: ParamValue, text: ParamValue): (b: WebhookBody)
    ensures b.userId == user.id && b.url == url
    ensures Truthy(title) ==> b.title == title
    ensures !Truthy(title) ==> b.title == Single("")
    ensures Truthy(text) ==> b.text == text
    ensures !Truthy(text) ==> b.text == Single("")
  {
    WebhookBody(user.id, url, OrEmpty(title), OrEmpty(text))
  }

  /** The `try` block once `fetch` has settled: throw on a non-ok status, duplicate view on a falsy `success`, otherwise `redirect`, which throws. */
  function TryWebhook(reply: WebhookReply): (c: Completion)
    ensures c.Returned? <==> reply == Ok(false)
    ensures c.Returned? ==> c.page == DuplicatePage
    ensures reply == Ok(true) ==> c == Threw(RedirectSignal)
    ensures c.Threw? && c.error != RedirectSignal ==> !reply.Ok?
  {
    match reply
    case Throws => Threw(FetchFailed)
    case NotOk => Threw(WebhookFailed)
    case OkBadJson => Threw(BadJson)
    case Ok(success) => if !success then Returned(DuplicatePage) else Threw(RedirectSignal)
  }

  /**
   * The `try`/`catch` as written: the `catch` turns everything thrown, the
   * redirect signal included, into the error view, so a saved share never
   * reaches the home redirect.
   */
  function ReplyOutcomeAsWritten(reply: WebhookReply): (p: PageResult)
    ensures p != HomeRedirect
    ensures p == DuplicatePage <==> reply == Ok(false)
    ensures p.ErrorPage? <==> reply != Ok(false)
  {
    match TryWebhook(reply)
    case Returned(page) => page
    case Threw(e) => ErrorPage(SaveFailed(e))
  }

  /**
   * The `try`/`catch` with the framework's redirect signal let through, as the
   * code evidently intends: a non-ok status or a failure reading the reply is
   * the error view, a falsy `success` is the duplicate view, and a truthy
   * `success` is the redirect home.
   */
  function ReplyOutcome(reply: WebhookReply): (p: PageResult)
    ensures p == HomeRedirect <==> reply == Ok(true)
    ensures p == DuplicatePage <==> reply == Ok(false)
    ensures p.ErrorPage? <==> !reply.Ok?
    ensures p.ErrorPage? ==> p.cause.SaveFailed? && p.cause.error != RedirectSignal
    ensures !p.LoginRedirect?
  {
    match TryWebhook(reply)
    case Returned(page) => page
    case Threw(RedirectSignal) => HomeRedirect
    case Threw(e) => ErrorPage(SaveFailed(e))
  }

  /** The two versions differ only on a saved share. */
  lemma AsWrittenDiffersOnlyOnSuccess(reply: WebhookReply)
    ensures ReplyOutcomeAsWritten(reply) == ReplyOutcome(reply) <==> reply != Ok(true)
    ensures ReplyOutcomeAsWritten(Ok(true)) == ErrorPage(SaveFailed(RedirectSignal))
  {
  }

  /** The number of webhook posts in a trace. */
  function Posts(trace: seq<Effect>): nat
  {
    if trace == [] then 0
    else (if trace[0].WebhookPost? then 1 else 0) + Posts(trace[1..])
  }

  /** At most one webhook post, and only right after a session lookup that found a user. */
  predicate PostsOnceAfterAuth(trace: seq<Effect>, session: Option<User>)
  {
    && Posts(trace) <= 1
    && forall i :: 0 <= i < |trace| && trace[i].WebhookPost? ==>
         0 < i && trace[i - 1] == SessionLookup && session.Some?
  }

  /**
   * `ShareTargetPage({searchParams})`. `session` is what the session lookup
   * finds; `reply` is how the webhook call settles. The trace records the
   * lookup and the POST in the order they happen. The webhook's reply is read
   * as `ReplyOutcome` reads it, with the home redirect let through; the code
   * as written swallows it (`ReplyOutcomeAsWritten`).
   */
  method ShareTargetPage(query: seq<Param>, appUrl: string, session: Option<User>, reply: WebhookReply)
    returns (page: PageResult, trace: seq<Effect>)
    ensures var url := SearchValue(query, "url");
      !Truthy(url) ==> page == ErrorPage(NoUrl) && trace == []
    ensures var url, title, text := SearchValue(query, "url"), SearchValue(query, "title"), SearchValue(query, "text");
      Truthy(url) && session.None? ==>
        page == LoginRedirect(ShareLoginUrl(appUrl, url, title, text)) && trace == [SessionLookup]
    ensures var url, title, text := SearchValue(query, "url"), SearchValue(query, "title"), SearchValue(query, "text");
      Truthy(url) && session.Some? ==>
        trace == [SessionLookup, WebhookPost(BodyFor(session.value, url, title, text))] && page == ReplyOutcome(reply)
    ensures PostsOnceAfterAuth(trace, session)
    ensures page == HomeRedirect ==> Posts(trace) == 1
  {
    var url := SearchValue(query, "url");
    var title := SearchValue(query, "title");
    var text := SearchValue(query, "text");
    trace := [];

    if !Truthy(url) {
      return ErrorPage(NoUrl), trace;
    }

    trace := trace + [SessionLookup];
    if session.None? {
      // `redirect` throws outside the `try`; the framework answers with the redirect.
      return LoginRedirect(ShareLoginUrl(appUrl, url, title, text)), trace;
    }

    var body := BodyFor(session.value, url, title, text);
    trace := trace + [WebhookPost(body)];
    assert Posts(trace[1..][1..]) == 0 by { assert trace[1..][1..] == []; }
    assert Posts(trace) == 1;
    page := ReplyOutcome(reply);
  }

  /**
   * The share survives the login redirect: reading the login URL's query back
   * gives the shared URL, the title or `""`, and the text or `""`; the login
   * page is public, so the gate admits it.
   */
  lemma ShareSurvivesLoginRedirect(appUrl: string, url: ParamValue, title: ParamValue, text: ParamValue)
    ensures var u := ShareLoginUrl(appUrl, url, title, text);
      && GetFirst(u.query, "share_url") == Some(ToText(url))
      && GetFirst(u.query, "share_title") == Some(ToText(OrEmpty(title)))
      && GetFirst(u.query, "share_text") == Some(ToText(OrEmpty(text)))
      && GetFirst(u.query, "redirect") == None
      && Gate.IsPublic(u.path)
  {
  }

  /** A shared URL that arrives once keeps its text on the login redirect. */
  lemma SingleUrlKeptVerbatim(appUrl: string, query: seq<Param>, shared: string)
    requires Values(query, "url") == [shared] && shared != ""
    ensures Truthy(SearchValue(query, "url"))
    ensures GetFirst(ShareLoginUrl(appUrl, SearchValue(query, "url"), SearchValue(query, "title"), SearchValue(query, "text")).query, "share_url") == Some(shared)
  {
  }
}
