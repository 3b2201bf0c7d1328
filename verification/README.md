# Bookmark session gate, share intake and auth callback — a Dafny model

This project models the request-scoped core of a small Next.js bookmark app
that sits behind a Supabase login:

- **the edge gate** (`proxy.ts`): runs before every intercepted request. It
  looks the session up, with any refreshed cookies relayed onto the
  pass-through response. It classifies the path as public (`/login…`,
  `/auth/…`, exactly `/share-target`) or protected. It sends an anonymous
  request for a protected path to `/login?redirect=<path>`.
- **the share intake page** (`app/share-target/page.tsx`): checks the shared
  `url`. It sends an anonymous visitor to the login page with the share
  attached. Otherwise it POSTs the share to a webhook exactly once and turns
  the webhook's answer into a view. As written, every answer ends in the error
  view or the "already exists" view: the redirect home after a successful save
  is caught by the page's own `catch` (see "## Findings"). The handler method
  follows the intended reading, which redirects home.
- **the auth completion endpoint** (`app/auth/callback/route.ts`): resolves
  `next` (default `/`). It exchanges `code` for a session only when a code is
  given. When the URL parser accepts `next`, it redirects to `next`, with the
  exchange's cookie writes on the redirect.

Modules:

- `Cookies` (cookies.dfy) holds cookie entries, the response jar as a class
  with a `SetAll` loop, and the relay laws.
- `Http` (http.dfy) holds URLs as origin, path and query pairs, with
  `URLSearchParams.get`/`set` and the page's `searchParams` object.
- `Identity` (identity.dfy) holds users and the answer of a session lookup.
- `Gate`, `ShareTarget` and `AuthCallback` model the three handlers.
- `Flows` (flows.dfy) states how the three handlers fit together.
- `Options` (options.dfy) holds the optional-value datatype.

The identity provider is an input. In `Gate.Proxy` and `AuthCallback.Get`,
`getSession` and `exchangeCodeForSession` are function parameters applied to
the request's cookie jar. Those two contracts therefore say that the gate and
the callback read only the request's cookies. The share page receives the
result of its session lookup as a plain argument. Its contract does not say
which cookies the lookup reads.
The webhook's answer is an input too: `Throws`, `NotOk`, `OkBadJson`, or
`Ok(success)`, where `success` is whether `data.success` is truthy. The share
page returns a trace of its effects (`SessionLookup`, `WebhookPost(body)`).
The auth callback returns the list of codes it exchanged.

## Model

| member | source | states |
|---|---|---|
| `Cookies.CookieJar.Empty` | proxy.ts:9 | a freshly built response has an empty cookie jar |
| `Cookies.CookieJar.Set` | proxy.ts:21 | `set` replaces the name's value and options and leaves every other name alone |
| `Cookies.CookieJar.SetAll` | proxy.ts:19-23 | relaying `cookiesToSet` leaves the jar equal to the old jar with each entry set in order |
| `Cookies.Applied` | proxy.ts:20-22 | the `forEach` of `set` calls: it keeps every name the jar held and holds every name written |
| `Cookies.AppliedKeys` | proxy.ts:19-23 | no entry is dropped: the relayed jar's names are the old names plus every written name |
| `Cookies.LastWriteWins` | proxy.ts:20-22 | a name written several times holds the value and options of its last write |
| `Cookies.UnwrittenUnchanged` | proxy.ts:19-23 | a name no entry writes keeps its presence and its cookie |
| `Http.GetFirst` | app/auth/callback/route.ts:8-9 | `URLSearchParams.get`: a found value is a pair of the query under that key; null only when no pair has the key |
| `Http.SetParam` | proxy.ts:45 | `URLSearchParams.set`: the result holds the new pair, and every other pair in it came from the query under another key |
| `Http.SetParamValues` | proxy.ts:45 | after `searchParams.set(k, v)` the key holds exactly `[v]` and every other key keeps all its values |
| `Http.GetAfterSet` | proxy.ts:45 | `get(k)` after `set(k, v)` returns `v`, and other keys read back unchanged |
| `Http.SearchValue` | app/share-target/page.tsx:10-12 | a page parameter is absent exactly when the query lacks the key, a string when the key occurs once, and the array of all values when it repeats |
| `Gate.IsPublic` | proxy.ts:34-38 | the public-path test. A public path is absolute, at least six characters long, and its first segment starts with `l`, `a` or `s` |
| `Gate.Decide` | proxy.ts:34-50 | the admit/redirect decision: only a protected path can be redirected, and a signed-in request is always admitted |
| `Gate.Intercepted` | proxy.ts:54 | the matcher: no path under `/api`, `/_next/static` or `/_next/image` reaches the gate |
| `Gate.LoginUrl` | proxy.ts:44-45 | the login URL keeps the request's origin and has path `/login`. Its query is exactly `redirect=<requested pathname>`: the request's own query is dropped |
| `Gate.Proxy` | proxy.ts:7-51 | the response is a redirect exactly when the path is protected and the lookup found no user. The redirect goes to the login URL with an empty jar. Otherwise the pass-through response carries the lookup's cookie writes. Public paths always pass |
| `Gate.PublicAlwaysAdmitted` | proxy.ts:33-40 | a public path is admitted whatever the session |
| `Gate.ProtectedNeedsUser` | proxy.ts:43-50 | a protected path is admitted exactly when a user was found |
| `Gate.NoRedirectLoop` | proxy.ts:35 | the login redirect's target path is public, so following the redirect is admitted whatever the session |
| `Gate.ClassificationBoundaries` | proxy.ts:34-38 | `/loginx` is public (prefix test); `/auth` and `/share-target/x` are protected |
| `Gate.PublicPathsIntercepted` | proxy.ts:54 | every public path passes the matcher, so the gate always sees its own login target |
| `Gate.MatcherBoundaries` | proxy.ts:54 | `/api…`, `/_next/static…` and `/favicon?ico` paths are never intercepted; `/`, `/login` and `/auth/callback` are |
| `ShareTarget.Truthy` | app/share-target/page.tsx:14 | JavaScript truthiness of a parameter: everything except absent and `""` is truthy, arrays included |
| `ShareTarget.ToText` | app/share-target/page.tsx:25 | `String(v)` as `set` applies it: a string is itself, and an array starts with its first element. When no element contains a comma, splitting the text on commas gives the array back |
| `ShareTarget.SplitJoin` | app/share-target/page.tsx:25 | `String(array)` loses no element: for comma-free elements, splitting the comma-joined text on commas gives the array back |
| `ShareTarget.ShareLoginUrl` | app/share-target/page.tsx:24-27 | the login URL is on the app origin, at `/login`, with exactly `share_url`, `share_title`, `share_text` in that order, holding the url, the title or `""`, and the text or `""` |
| `ShareTarget.BodyFor` | app/share-target/page.tsx:33 | the webhook body carries the session user's id and the url unchanged. The title and text are carried when truthy and are `""` otherwise |
| `ShareTarget.TryWebhook` | app/share-target/page.tsx:36-50 | the `try` block ends normally only for a falsy `success`, with the duplicate view. A truthy `success` throws the redirect signal. Every other throw comes from a reply other than `Ok(_)`: a failed fetch, a non-ok status, or an ok status whose body cannot be read (`OkBadJson`) |
| `ShareTarget.OrEmpty` | app/share-target/page.tsx:33 | `v \|\| ''` keeps a truthy value and turns anything else into `""` |
| `ShareTarget.AppOrigin` | app/share-target/page.tsx:24 | the login base is the configured app URL when set, otherwise `http://localhost:3000` |
| `ShareTarget.ReplyOutcomeAsWritten` | app/share-target/page.tsx:35-53 | as written, a non-ok status, a failed fetch or a bad body gives the error view. A falsy `success` gives the duplicate view. A truthy `success` also ends in the error view, because the catch swallows the redirect, so the home redirect never happens |
| `ShareTarget.ReplyOutcome` | app/share-target/page.tsx:42-50 | the intended reading: home redirect iff `success` is true; duplicate view iff it is false; error view iff the reply is not `Ok(_)`, so a failed fetch, a non-ok status, or `OkBadJson` (an ok status whose body cannot be read); never a login redirect |
| `ShareTarget.AsWrittenDiffersOnlyOnSuccess` | app/share-target/page.tsx:50-52 | the code as written and the intended reading agree on every reply except a successful save |
| `ShareTarget.ShareTargetPage` | app/share-target/page.tsx:5-54 | a missing or empty `url` gives the no-URL error with no effects. No user gives the login redirect with the share, after only the lookup. Otherwise exactly one POST of `{user_id, url, title or "", text or ""}` follows the lookup, and the outcome is the reply's under the intended reading (`ReplyOutcome`), not the code as written. There is at most one POST, and only after a lookup that found a user |
| `ShareTarget.ShareSurvivesLoginRedirect` | app/share-target/page.tsx:24-28 | the login URL's `share_url`, `share_title` and `share_text` read back as the url, the title or `""` and the text or `""`. It carries no `redirect` parameter, and its path is public |
| `ShareTarget.SingleUrlKeptVerbatim` | app/share-target/page.tsx:25 | a `url` given once reaches `share_url` unchanged |
| `AuthCallback.NextTarget` | app/auth/callback/route.ts:9 | `next` is the first `next` in the query when it is non-empty, otherwise `/`. A later non-empty `next` is ignored |
| `AuthCallback.CodeOf` | app/auth/callback/route.ts:8 | a code is used only when the first `code` is present and non-empty |
| `AuthCallback.Get` | app/auth/callback/route.ts:6-34 | the response is a redirect to `next` resolved against the request URL, whether or not there is a code (URL parse failures are not modelled). Without a code there is no exchange and no cookie. With one, there is exactly one exchange of that code over the request's cookies, its writes are on the redirect, and its result is not inspected |
| `AuthCallback.TargetIgnoresCode` | app/auth/callback/route.ts:12 | setting or changing `code` never changes the `next` reference the redirect is resolved from. The base it is resolved against still holds `code` |
| `Flows.EndpointsAdmitAnonymous` | proxy.ts:36-37 | `/auth/callback` and `/share-target` are intercepted and admitted without a session |
| `Flows.ShareLoginRedirectAdmitted` | app/share-target/page.tsx:24 | the share page's login redirect reaches the gate and is admitted, signed in or not |
| `Flows.HomeRedirectsToLogin` | app/page.tsx:10-12 | an anonymous `/` is protected and goes to `/login?redirect=/`, the target the home page uses itself |

## Left out

- Supabase itself is not modelled: token validation and refresh, `getSession` and `exchangeCodeForSession`. Each is a function of the request's cookies that returns a user (or an exchange flag) and the cookie entries to write. Provider errors appear as "no user".
- The server-render adapter (`lib/supabase/server.ts`) is not modelled. Its `setAll` swallows write failures, and its cookie writes from the share page's session lookup are not modelled.
- The login page (`app/login/page.tsx`) is not modelled. Its browser session subscription and sign-in forms are event-driven browser code that calls the provider.
- The home page's bookmark query, its rendering and its sign-out action are not modelled. Only its login redirect is used, as a cross-check.
- `fetch`, JSON parsing and JSON serialisation are not modelled. The webhook's answer is an input. The body is a value with four fields, not its JSON text.
- ShareTarget.ShareTargetPage: after a signed-in POST, the outcome follows the intended reading, `ReplyOutcome`. It does not follow the code as written, `ReplyOutcomeAsWritten`. So for a reply of `Ok(true)` it promises the home redirect where the code as written shows the error view. `ShareTarget.AsWrittenDiffersOnlyOnSuccess` shows that this is the only reply on which the two differ.
- AuthCallback.Get: `new URL(next, request.url)` throws when the parser rejects `next` (for example `http://`). The handler then fails before any exchange and returns no redirect. The model does not parse URLs, so it returns the redirect for every `next`.
- Percent-encoding and URL parsing are not modelled. `AuthCallback.Get`: the redirect location is the pair (`next`, request URL), because resolving `next` against the base is the URL parser's job. A `next` that is only a fragment (for example `#x`) resolves to the request URL itself, with its `code`, so the redirect then depends on `code`. From the code alone, such a `next` sends the browser back to the callback with a code it has already used, and it keeps being redirected there. The model therefore does not say whether a `next` such as `//host` leaves the origin.
- `Gate.MatcherBoundaries`, `Gate.PublicPathsIntercepted`: the matcher's regex is read with `.` matching any character. Pathnames contain no line terminators, because they are percent-encoded.
- The page's `searchParams` is taken as the plain object that its type annotation declares. It is not taken as a promise. `proxy.ts:1` names the file as the new name for `middleware.ts`. The framework release that made that rename hands a page its `searchParams` as a promise with no synchronous property access. Under that release, `searchParams.url` at `app/share-target/page.tsx:10` reads `undefined`, and every request takes the no-URL branch at line 14. This follows from reading the code; it was not executed.
- Environment variables are parameters. `NEXT_PUBLIC_APP_URL` is the `appUrl` argument, with `""` meaning unset. The Supabase keys and the webhook URL do not appear.
- Rendered JSX is not modelled. Error views are named by their cause, not by their text.
- The share login redirect carries only `share_url`, `share_title` and `share_text`, as the code sets them. It has no `redirect` parameter.

## Findings

| source | as written | input that shows it | evidently intended | confidence | as-written member | corrected member |
|---|---|---|---|---|---|---|
| app/share-target/page.tsx:50 | `redirect('/?added=true')` is called inside the `try`. The framework's `redirect` throws its own signal, and the `catch` at line 51 turns every throw into the "Error al guardar" view | signed-in share with a `url`, where the webhook answers ok with `{success: true}`. The bookmark is saved, but the page shows the error view | a redirect to `/?added=true` | high, not executed | `ShareTarget.ReplyOutcomeAsWritten` | `ShareTarget.ReplyOutcome` |
