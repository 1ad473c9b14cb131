# Anonymous identification cookie — Dafny model

This project models the core of an ASP.NET Core middleware that gives
unauthenticated clients a durable anonymous identifier, carried in an
expiring cookie. There are two parts:

- **`AnonymousIdCookieOptionsBuilder`** (module `CookieOptionsBuilder`).
  This is the fluent builder that resolves the cookie configuration. The
  builder is an immutable record of optional overrides, each setter is a
  functional update, and `Build` is a pure function to a `CookieOptions`
  record. It covers the timeout clamp to [1, 63072000] seconds, the `??`
  defaults (`.ASPXANONYMOUS`, `/`, 100000, not secure), and the domain that
  is kept only when it is not null-or-white-space.
- **`AnonymousIdMiddleware.HandleRequest` and `ClearAnonymousId`** (module
  `Middleware`). The per-request decision is a total function from a
  `Request` snapshot to an `Outcome`. The snapshot holds the options, the
  sliding flag, HTTPS, authentication, the request cookies, the decoded
  payload, the two clocks and a fresh id. The outcome is a cookie action
  (`Unchanged | Deleted | Appended(payload)`) and the published identity
  feature (`NoFeature | Feature(None) | Feature(Some(id))`).

`Middleware.Handle` follows the source's branch order, including the second,
unreachable insecure-channel guard. The sliding threshold is a parameter.
`Middleware.HandleRequest` instantiates it with the source's own expression.
`SlidingFindings.HandleRequestCorrected` instantiates it with the corrected
test described under Findings. The whole contract of `Handle` therefore
holds for both.

Integers: the model uses mathematical integers everywhere except where the
source's 32-bit `int` arithmetic can overflow. `Timeout * 60` is computed in
C#'s unchecked 32-bit arithmetic, so it wraps (`DotNet.Wrap32`). The `/ 2`
after it truncates toward zero (`DotNet.HalfTowardZero`). Timeouts are
`DotNet.Int32` values.

Clocks: `now` is the local clock (`DateTime.Now`) and `utcNow` is the UTC
clock (`DateTime.UtcNow`). They are separate inputs, because the source
compares the decoded expiry against the first and computes new expiries from
the second. All times are whole seconds.

Facts about the code the model keeps as they are:

- The default cookie name is `.ASPXANONYMOUS`.
- `??` is the only check on name and path, so an empty name or path passes
  through to the built options.
- The sliding threshold is `(Timeout * 60) / 2`, the source's own
  expression (see Findings).
- The second insecure-channel guard is kept, and is proved to change nothing.
- The insecure-channel guard precedes the authenticated short-circuit. So a
  secure-only configuration over plain HTTP deletes a non-blank cookie even
  for an authenticated request.

## Model

| member | source | states |
|---|---|---|
| `CookieOptionsBuilder.Clamp` | AnonymousId/AnonymousIdCookieOptionsBuilder.cs:34 | the result always lies in [1, 63072000]; it is the identity on in-range values, maps anything below 1 to 1 and anything above 63072000 to 63072000 |
| `CookieOptionsBuilder.ClampIdempotent` | AnonymousId/AnonymousIdCookieOptionsBuilder.cs:34 | clamping twice equals clamping once |
| `CookieOptionsBuilder.SetCustomCookieName` | AnonymousId/AnonymousIdCookieOptionsBuilder.cs:20-24 | stores the given name (null included) and leaves every other field unchanged |
| `CookieOptionsBuilder.SetCustomCookiePath` | AnonymousId/AnonymousIdCookieOptionsBuilder.cs:26-30 | stores the given path (null included) and leaves every other field unchanged |
| `CookieOptionsBuilder.SetCustomCookieTimeout` | AnonymousId/AnonymousIdCookieOptionsBuilder.cs:32-36 | the stored timeout is set and lies in [1, 63072000]; an in-range argument is stored unchanged; no other field changes |
| `CookieOptionsBuilder.SetCustomCookieDomain` | AnonymousId/AnonymousIdCookieOptionsBuilder.cs:38-42 | stores the given domain verbatim (null and blank included) and leaves every other field unchanged |
| `CookieOptionsBuilder.SetCustomCookieRequireSsl` | AnonymousId/AnonymousIdCookieOptionsBuilder.cs:44-48 | stores the flag and leaves every other field unchanged |
| `CookieOptionsBuilder.Build` | AnonymousId/AnonymousIdCookieOptionsBuilder.cs:50-66 | name, path, timeout and secure take the override when one was made and the named default otherwise; the timeout lies in [1, 63072000] for any builder the setters can produce; secure holds exactly when `true` was set; the domain is present exactly when the override is not null-or-white-space, and is then the override verbatim |
| `CookieOptionsBuilder.Apply` | AnonymousId/AnonymousIdCookieOptionsBuilder.cs:20-48 | along any chain of setter calls the timeout invariant is preserved; a field the chain never sets keeps its value; a field the chain sets holds the argument (clamped, for the timeout) of the last call to its setter, wherever in the chain that call is |
| `CookieOptionsBuilder.BuildDefaults` | AnonymousId/AnonymousIdCookieOptionsBuilder.cs:7-12 | with no setter called, `Build` yields name `.ASPXANONYMOUS`, path `/`, timeout 100000, secure false and no domain |
| `CookieOptionsBuilder.BuiltTimeoutInRange` | AnonymousId/AnonymousIdCookieOptionsBuilder.cs:32-58 | after any chain of setter calls on a new builder, the built timeout lies in [1, 63072000] |
| `CookieOptionsBuilder.NullOnlyDefaultsNameAndPath` | AnonymousId/AnonymousIdCookieOptionsBuilder.cs:54-55 | any non-null name or path, the empty string included, reaches the built options unchanged |
| `CookieOptionsBuilder.LastWriteWins` | AnonymousId/AnonymousIdCookieOptionsBuilder.cs:20-48 | calling a setter twice equals calling it once with the later argument, for every setter and every argument, `null` included |
| `Middleware.PriorId` | AnonymousId/AnonymousIdMiddleware.cs:49-54 | the identity a request carries is present exactly when the decode succeeded and its id is not white space, and is then that id |
| `Middleware.Handle` | AnonymousId/AnonymousIdMiddleware.cs:24-101 | secure-only over plain HTTP: nothing appended, deleted exactly when the raw cookie is not null-or-white-space, a feature without an id published; only that guard ever deletes; past it, a prior identity is what is published; authenticated: cookie untouched, a feature published exactly when there is a prior identity; no prior identity: the fresh id is published and appended with expiry UTC now + timeout; prior identity without sliding: cookie untouched; with sliding: untouched exactly when the decoded expiry is after `now` by more than the threshold, otherwise re-appended; any appended payload carries the published id, the prior id when there is one, and expiry UTC now + timeout |
| `Middleware.SlidingThreshold` | AnonymousId/AnonymousIdMiddleware.cs:89 | `(Timeout * 60) / 2` in 32-bit arithmetic is 30 × timeout for timeouts up to 35791394 and negative for timeouts above that up to 63072000 |
| `Middleware.HandleRequest` | AnonymousId/AnonymousIdMiddleware.cs:24-102 | under sliding expiration, a request with a prior identity leaves the cookie alone exactly when the decoded expiry is after the local clock by more than the wrapped `(Timeout * 60) / 2`; for timeouts up to 35791394 that bound is 30 × timeout |
| `Middleware.SecondGuardIsDead` | AnonymousId/AnonymousIdMiddleware.cs:69-73 | the decision equals the restructured one that evaluates the insecure-channel guard once, for every request and threshold |
| `Middleware.ClearAnonymousId` | AnonymousId/AnonymousIdMiddleware.cs:104-110 | adds the configured name to the deleted names exactly when the request carries a non-blank cookie under it; removes nothing, adds no other name, and has no way to append a cookie |
| `Middleware.ClearAnonymousIdIdempotent` | AnonymousId/AnonymousIdMiddleware.cs:104-110 | a second call on the same request leaves the deleted names as the first left them |
| `SlidingFindings.HandleRequestCorrected` | AnonymousId/AnonymousIdMiddleware.cs:86-96 | with the UTC clock and half the timeout, a prior cookie is left alone exactly when twice its remaining lifetime exceeds the timeout |
| `SlidingFindings.CorrectedAgreesOutsideSliding` | AnonymousId/AnonymousIdMiddleware.cs:24-101 | the corrected decision equals the source's on every request that does not reach the sliding test |
| `SlidingFindings.CorrectedSlidesAtHalfLife` | AnonymousId/AnonymousIdMiddleware.cs:89-101 | a cookie issued at UTC time u is left alone while less than half its lifetime has elapsed, and afterwards is rewritten with the same id and expiry UTC now + timeout |
| `SlidingFindings.AsWrittenRewritesEveryRequest` | AnonymousId/AnonymousIdMiddleware.cs:89-101 | as written, with agreeing clocks and a timeout up to 35791394, every cookie the middleware issued is rewritten on every request |
| `SlidingFindings.AsWrittenOverflowNeverRefreshes` | AnonymousId/AnonymousIdMiddleware.cs:89 | as written, for timeouts above 35791394 a cookie whose expiry is ahead of the local clock is never rewritten |
| `SlidingFindings.AsWrittenClockMixNeverRefreshes` | AnonymousId/AnonymousIdMiddleware.cs:28-96 | as written, when the local clock is more than 30 × timeout behind UTC, a cookie not yet expired by UTC is never rewritten |
| `SlidingFindings.Counterexamples` | AnonymousId/AnonymousIdMiddleware.cs:89-96 | concrete requests on which the source and the corrected decision differ, one per finding |

## Left out

- `Invoke` and the asynchronous `RequestDelegate` pipeline are plumbing around `HandleRequest` and are not modelled.
- `AnonymousIdEncoder` is not part of this model. The decoder's result is the request field `decoded`, and it is not tied to the raw cookie value. `Appended` carries the payload before encoding.
- `Guid.NewGuid()` is replaced by the `freshId` input. The model neither assumes nor needs its uniqueness.
- `HttpContext`, the cookie collections and `Features.Set` become record fields. `ClearAnonymousId`'s response is the set of deleted cookie names.
- `Middleware.RequestCookie`: request cookie names are matched exactly. ASP.NET Core's request-cookie collection matches them case-insensitively, so a cookie sent as `.aspxanonymous` under the configured `.ASPXANONYMOUS` is found by the source but not by the model. That matters for the guard's delete decision and for `ClearAnonymousId`. Unicode case folding is outside what this model states.
- The in-place write of the shared `_cookieOptions.Expires` is not modelled, so concurrent requests cannot race on it. The new expiry is a per-request output value. The path, domain and secure attributes passed to `Append` are not part of the outcome.
- `DateTime` is whole seconds, and `TimeSpan.TotalSeconds` is taken as an exact integer, not a double. `AddSeconds` overflowing the `DateTime` range is not modelled.
- `AnonymousIdCookieOptions` is not part of this model. Its `SlidingExpiration` default is not visible and the builder never sets it, so the flag is a request input.
- A decoded payload's id is a `string`. A null id and a blank id are indistinguishable to the code, which only tests `IsNullOrWhiteSpace`.

## Findings

| source | as written | input that shows it | evidently intended | confidence | as-written member | corrected member |
|---|---|---|---|---|---|---|
| AnonymousId/AnonymousIdMiddleware.cs:89 | the threshold `(Timeout * 60) / 2` reads the timeout as minutes, while the expiry is `Timeout` seconds away (:96), so the threshold is 30 times the cookie's lifetime | timeout 100000, clocks agreeing, cookie issued one second ago: rewritten | refresh once less than half of the `Timeout`-second lifetime remains | medium, not executed | `SlidingFindings.AsWrittenRewritesEveryRequest` | `SlidingFindings.CorrectedSlidesAtHalfLife` |
| AnonymousId/AnonymousIdMiddleware.cs:89 | `Timeout * 60` wraps in 32-bit arithmetic for timeouts above 35791394, so the threshold is negative | timeout 63072000, cookie one second from expiry: not rewritten | rewrite a cookie with less than half its lifetime left | high, not executed | `SlidingFindings.AsWrittenOverflowNeverRefreshes` | `SlidingFindings.CorrectedSlidesAtHalfLife` |
| AnonymousId/AnonymousIdMiddleware.cs:28 | the expiry is written from `DateTime.UtcNow` (:96) but compared with `DateTime.Now`, so the remaining lifetime is off by the server's UTC offset | timeout 100, local clock ten hours behind UTC, cookie one second from expiry: not rewritten | compare the expiry with the UTC clock it was computed from | medium, not executed | `SlidingFindings.AsWrittenClockMixNeverRefreshes` | `SlidingFindings.CorrectedSlidesAtHalfLife` |

`SlidingFindings.Counterexamples` evaluates both decisions on the three inputs above.
