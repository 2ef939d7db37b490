# hydrawebcomponents, modelled in Dafny

hydrawebcomponents is a small Go scaffold for admin web applications. This
project models its three self-contained pieces of logic and proves what they
promise:

- **the credential check and the login / logout / login-page handlers**
  (`hydrawebcomponents.go`): one shared admin secret, accepted from the
  `Authorization` header (with at most one leading `"Bearer "` removed) or
  from the `admin_session` cookie;
- **the template registry and render dispatch** (`renderer.go`): a map from
  page name to `layout + "\n" + page` source, with the shared `login.html`
  registered first and project pages after it in list order, and an
  exact-key lookup at render time;
- **the authorization gates and JSON writers** (`middleware.go`).

Requests and responses are abstract. A `Request` holds the three values the
package reads: the `Authorization` header, the first `admin_session` cookie,
and the `token` form field. A handler's effect on its `ResponseWriter` is an
append-only log of `Action`s: set a header, write the status, encode JSON,
set a cookie, redirect, `http.Error`, execute a template, or panic.
`Http.Sent` replays such a log into the `Response` the writer has put on the
wire so far, while the handler is still running. In that replay, header
fields and cookies count only while no final status has been written. An
interim 1xx status other than 101 is sent at once and leaves the header phase
open. A final 304 drops the Content-Type field. The first body write commits
a 200. A status code outside 100..999 makes `WriteHeader` panic, which aborts
the response. Under a final status that allows no body (1xx, 204, 304), body writes
are refused. This is what makes "header before status" a property the model
can state. When a handler returns having written nothing, net/http then
sends a 200 itself; `Sent` does not include that step.

Layout:

| file | module | models |
|---|---|---|
| `wrappers.dfy` | `Wrappers` | `Option`, `Result` |
| `strings.dfy` | `Strings` | `strings.TrimPrefix` |
| `types.dfy` | `Types` | `Config`, `NavLink`, `Brand`, `PageData`; Go's `any` as `Payload` |
| `http.dfy` | `Http` | request fields, cookies, the action log, `ResponseWriter`, what a client receives |
| `registry.dfy` | `Registry` | the registry as a function of the file systems, and `Render`'s outcome |
| `web.dfy` | `HydraWeb` | classes `Web` and `Renderer`, the credential check, the handlers, `NewRenderer`, `Render` |
| `middleware.dfy` | `Middleware` | `RequireAuth`, `RequireWebAuth`, `WriteJSON`, `WriteError` |

`Web` and `Renderer` share one module because each holds a reference to the
other. `Web`'s token, brand and navigation links are `const`: `New` sets them
and nothing reassigns them. `renderer` is the only field that changes, and
only `NewRenderer` changes it. A handler's `next` is modelled as the function
from a request to the actions it appends. A gate "calls next" on a request
when its answer there depends on which `next` it wraps.

The model follows the code where its behaviour is easy to misread:

- The `"Bearer "` prefix is matched case-sensitively.
- The header may also carry the bare secret with no prefix.
- A secret that itself starts with `"Bearer "` cannot be sent bare in the
  header; it must carry the prefix, as in `"Bearer Bearer x"` for the secret
  `"Bearer x"`.
- The layout and the page are joined with a newline.
- After a wrong login token, a missing `login.html` template would not reach
  the client as a 500. `HandleLogin` has already written 401, and `Sent`
  keeps that 401.

## Model

| member | source | states |
|---|---|---|
| `Strings.TrimPrefix` | hydrawebcomponents.go:63 | the result is what follows the prefix when `s` starts with it, and `s` itself otherwise |
| `HydraWeb.HeaderMatches` | hydrawebcomponents.go:62-66 | the header matches iff it is non-empty and is either `"Bearer " + secret`, or does not start with `"Bearer "` and equals the secret |
| `HydraWeb.Web.IsAuthenticated` | hydrawebcomponents.go:61-74 | the credential check itself; its meaning is stated by `IsAuthenticatedIff`, `HeaderMatches`, `BearerHeaderAuthenticates`, `RawHeaderAuthenticates`, `BearerStrippedOnce`, `CookieFallback` and `EmptyHeaderIgnored` |
| `HydraWeb.IsAuthenticatedIff` | hydrawebcomponents.go:61-74 | a request is authenticated exactly when its Authorization header matches the secret or its first `admin_session` cookie carries the secret |
| `HydraWeb.BearerHeaderAuthenticates` | hydrawebcomponents.go:62-66 | `"Bearer " + secret` in the header authenticates, whatever the cookie |
| `HydraWeb.RawHeaderAuthenticates` | hydrawebcomponents.go:62-66 | with no cookie, the bare secret in the header authenticates iff the secret is non-empty and does not start with `"Bearer "` |
| `HydraWeb.BearerStrippedOnce` | hydrawebcomponents.go:63-64 | `"Bearer Bearer " + secret` without a cookie is refused: the prefix is removed only once |
| `HydraWeb.CookieFallback` | hydrawebcomponents.go:68-73 | when the header does not match, the request is authenticated iff its `admin_session` cookie equals the secret |
| `HydraWeb.EmptyHeaderIgnored` | hydrawebcomponents.go:62 | an empty header is skipped even for an empty secret; only the cookie then decides |
| `HydraWeb.Web.constructor` | hydrawebcomponents.go:48-57 | `New` copies the token, the brand prefix and suffix, and the navigation links; it ignores the project name and attaches no renderer |
| `HydraWeb.Web.CallRender` | hydrawebcomponents.go:82 | calling `w.renderer.Render` appends the renderer's outcome, or a panic when no renderer is attached |
| `HydraWeb.Web.HandleLoginPage` | hydrawebcomponents.go:77-83 | appends the login-page decision to the writer's log and nothing else |
| `HydraWeb.LoginPageDecision` | hydrawebcomponents.go:77-83 | an authenticated request gets only a 303 to `/admin`; any other renders `login.html` with loggedIn false, an empty error and the instance's brand, title and links; with no renderer attached the handler panics, and nothing is sent |
| `HydraWeb.Web.HandleLogin` | hydrawebcomponents.go:86-103 | appends the login decision to the writer's log and nothing else |
| `HydraWeb.LoginRejected` | hydrawebcomponents.go:87-92 | a wrong form token writes 401 first, then renders `login.html` with error `"Invalid token"`; no action sets a cookie; the status is 401 with no cookies, and the response is aborted (nothing reaches the client) exactly when no renderer is attached |
| `HydraWeb.LoginAccepted` | hydrawebcomponents.go:93-102 | the right token sets exactly `admin_session` = secret, Path `/`, HttpOnly, Secure, SameSite Lax, MaxAge 2592000, then redirects 303 to `/admin`; the client receives exactly that |
| `HydraWeb.SessionRoundTrip` | hydrawebcomponents.go:93-101 | a later request carrying only the cookie that login set is authenticated |
| `HydraWeb.Web.HandleLogout` | hydrawebcomponents.go:106-116 | appends the cookie clearing and the redirect, in that order |
| `HydraWeb.LogoutClears` | hydrawebcomponents.go:106-116 | logout sets `admin_session` to `""` with MaxAge -1 and no SameSite, then redirects 303 to `/login`; a client that drops the cookie is not authenticated, and the empty value authenticates only an empty secret |
| `HydraWeb.Web.NewRenderer` | renderer.go:23-64 | on success it returns a fresh renderer whose map is the registry function's map, and it attaches that renderer to this instance; on a missing file it returns that failure and leaves the instance's renderer unchanged |
| `HydraWeb.Renderer.constructor` | renderer.go:33-36 | a new renderer has an empty map and refers to its instance |
| `HydraWeb.Renderer.Render` | renderer.go:67-86 | appends exactly the render outcome for the stored map and the instance's brand and links |
| `Registry.AddPages` | renderer.go:47-58 | the registration loop as a function; its meaning is stated by `AddPagesSucceedsIff`, `AddPagesFailsAtFirstMissing`, `AddPagesContents` and `AddPagesAppend`, and `NewRenderer`'s loop is proved equal to it |
| `Registry.Templates` | renderer.go:24-58 | the whole registry, or the fatal failure; its meaning is stated by `TemplatesSucceedsIff`, `TemplatesFailure` and `TemplatesContents` |
| `Registry.RenderOutcome` | renderer.go:68-83 | what one `Render` call appends; its meaning is stated by `RenderAfterBuild` and `RenderMissSent`, and `Renderer.Render` is proved to append exactly it |
| `Registry.AddPagesSucceedsIff` | renderer.go:47-51 | the registration loop finishes iff every listed page file exists |
| `Registry.AddPagesFailsAtFirstMissing` | renderer.go:47-51 | a failed loop names the first listed page, in list order, whose file is missing |
| `Registry.AddPagesContents` | renderer.go:47-58 | after the loop the keys are the old keys plus every page name; each page holds layout + "\n" + its file; every other key keeps its old value |
| `Registry.AddPagesAppend` | renderer.go:47-58 | registering `ps` then `qs` equals registering `ps + qs`: insertion is ordered and a later write replaces an earlier one |
| `Registry.TemplatesSucceedsIff` | renderer.go:24-51 | a registry is produced iff the layout, the shared login page and every listed page can be read |
| `Registry.TemplatesFailure` | renderer.go:24-51 | a missing layout is reported first, then a missing login page, then the first missing page |
| `Registry.TemplatesContents` | renderer.go:43-57 | the keys are exactly `{"login.html"}` plus the listed pages; each page holds layout + "\n" + its file; the shared login source survives unless a page is itself named `login.html` |
| `Registry.RenderAfterBuild` | renderer.go:68-83 | on a built registry, a listed page executes its own source once; `login.html` always resolves; any other name gives only a 500 naming it; the envelope's title is prefix + suffix, and brand, links, loggedIn, error and data pass through |
| `Registry.RenderMissSent` | renderer.go:68-72 | an unregistered name reaches a client that has seen no status as a 500 whose body is `"template not found: " + name`; no page is executed |
| `Middleware.WriteJSON` | middleware.go:48-52 | appends the content-type header, then the status, then the encoded value |
| `Middleware.WriteError` | middleware.go:55-59 | appends the content-type header, then the status, then the `{error: msg}` object |
| `Middleware.JsonResponseSent` | middleware.go:55-58 | when no final status has been written, the client receives that status, Content-Type `application/json`, and the JSON body last, with the cookies unchanged; an interim 1xx status (other than 101) is sent as such and the body follows under an implicit 200; under 101, 204 or 304 the body is refused, and under 304 Content-Type is dropped; a code outside 100..999 panics, leaving no status sent and the body unwritten |
| `Middleware.StatusFirstLosesContentType` | middleware.go:49-50 | with a final status written before the header, Content-Type `application/json` never reaches the client, so the source's order is needed |
| `Middleware.RequireAuth` | middleware.go:16-24 | the API gate as a function returning the wrapped handler; its meaning is stated by `RequireAuthGate`, `GatesAgree` and `RequireAuthRejectionSent` |
| `Middleware.RequireWebAuth` | middleware.go:28-36 | the web gate as a function returning the wrapped handler; its meaning is stated by `RequireWebAuthGate` and `GatesAgree` |
| `Middleware.RequireAuthGate` | middleware.go:16-24 | `RequireAuth` calls next iff the request is authenticated; an authenticated request gets next's answer, any other the fixed 401 `{error: "unauthorized"}` |
| `Middleware.RequireWebAuthGate` | middleware.go:28-36 | `RequireWebAuth` calls next iff the request is authenticated; any other request gets only a 303 to `/login` |
| `Middleware.GatesAgree` | middleware.go:16-36 | both gates let exactly the same requests through |
| `Middleware.RequireAuthRejectionSent` | middleware.go:22 | a rejected API request reaches the client as exactly status 401, Content-Type `application/json` and the body `{error: "unauthorized"}` |

## Left out

- `RenderMarkdown` (`markdown.go`): a thin wrapper over the goldmark library, which is not part of this model.
- `LogRequest`: it only measures wall-clock time and logs.
- Template parsing and execution: templates are their source strings. Execution is one opaque `Execute` action. The `funcMap` argument, `template.Must`'s panic on a parse error and logging of execution errors are not modelled.
- The embedded `templates` file system (a package variable in a file not shown) and `projectFS` are finite maps from path to contents. Read errors other than a missing file, `fs.FS` path validation, and bytes-versus-string conversion are not modelled.
- `log.Fatalf` ends the process. It is modelled as a `Failure` result with no effect on the instance.
- JSON encoding (escaping, trailing newline) and the wire format of `http.SetCookie`, `http.Redirect` and `http.Error` are not modelled. Bodies, cookies and redirects are datatype values. The small HTML body `http.Redirect` writes for GET requests and header-name canonicalisation are left out.
- Request parsing: header lookup, cookie parsing and form parsing are reduced to the three `Request` fields.
- Concurrency between requests: the shared state is only read once startup is over.
- `LoginAccepted`, `LogoutClears`: the exact `Sent` equalities hold for a POST request. For GET and HEAD, `http.Redirect` also sets `Content-Type: text/html; charset=utf-8` and writes a short HTML body, which the model does not record.
- `SessionRoundTrip`: holds for secrets made only of bytes allowed in a cookie value. `http.SetCookie` drops other bytes (`"`, `;`, `\`, control and non-ASCII bytes), and the cookie returned then no longer equals the secret. Cookie values are not sanitised in this model.
- `WriteJSON`: the model treats every value as encodable. In the source the error from `Encode` is ignored, so a value that cannot be encoded gives an empty body after the status.
- `JsonResponseSent`: interim 1xx responses are recorded by status code only; the header fields sent with them are not.
- `JsonResponseSent`, `StatusFirstLosesContentType`: net/http's content sniffing is not modelled. When a body is written without a Content-Type, net/http picks one from the first bytes (`text/plain; charset=utf-8` for JSON). The model leaves the field absent, so these lemmas state only that `application/json` is or is not sent.
- `JsonResponseSent`, `RenderMissSent`, `RequireAuthRejectionSent`, `StatusFirstLosesContentType`: a response to a HEAD request carries no body, but the model does not distinguish request methods, so the body these lemmas state is what a client gets for any method other than HEAD.
- `Web.navLinks`: a Dafny sequence value. In Go, `New` and every `PageData.Nav` share the backing array of the caller's `cfg.NavLinks`, so later changes the caller makes to that slice show up in rendered pages. That aliasing is not modelled.
- `Http.Returned` models a compliant client: a cookie with negative MaxAge is dropped. Browser behaviour beyond this is not modelled.
