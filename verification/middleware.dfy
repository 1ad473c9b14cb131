/** The per-request decision of the anonymous-identification middleware and
    its companion clear operation, as pure functions from a snapshot of the
    request to the cookie action and the identity published to the rest of
    the pipeline. */
module Middleware {
  import opened Wrappers
  import opened DotNet
  import opened CookieOptionsBuilder

  /** The decoded cookie content. Times are whole seconds on some wall clock. */
  datatype Payload = Payload(anonymousId: string, expireDate: int)

  /** What the request handling does to the response's cookie under the
      configured name. */
  datatype CookieAction =
    | Unchanged
    | Deleted
    | Appended(data: Payload)

  /** The request-scoped identity feature: `NoFeature` when none was set,
      `Feature(None)` for a feature with a null id. */
  datatype Publication = NoFeature | Feature(anonymousId: Option<string>)

  datatype Outcome = Outcome(cookie: CookieAction, feature: Publication)

  /** One request as the middleware sees it.
      - `cookies`: the request's cookies by name;
      - `decoded`: what the external decoder returns for the value under the
        configured name (`None` for a missing or malformed value);
      - `now`: the local clock (`DateTime.Now`), `utcNow`: the UTC clock
        (`DateTime.UtcNow`), kept apart because the source reads both;
      - `freshId`: the identifier `Guid.NewGuid()` would produce;
      - `slidingExpiration`: the options object's sliding-expiration flag. */
  datatype Request = Request(
    options: CookieOptions,
    slidingExpiration: bool,
    isHttps: bool,
    isAuthenticated: bool,
    cookies: map<string, string>,
    decoded: Option<Payload>,
    now: int,
    utcNow: int,
    freshId: string)

  /** The request-cookie indexer: `null` for a missing name. */
  function RequestCookie(cookies: map<string, string>, name: string): (r: Option<string>)
    ensures r.Some? <==> name in cookies
    ensures r.Some? ==> r.value == cookies[name]
  {
    if name in cookies then Some(cookies[name]) else None
  }

  /** A secure-only cookie on a plain-HTTP request. */
  predicate Guarded(q: Request) {
    q.options.secure && !q.isHttps
  }

  /** The identity the request's cookie carries: the decoded id, when the
      decode succeeded and that id is not null-or-white-space. */
  function PriorId(q: Request): (r: Option<string>)
    ensures r.Some? <==> q.decoded.Some? && !IsBlank(q.decoded.value.anonymousId)
    ensures r.Some? ==> r.value == q.decoded.value.anonymousId
  {
    if q.decoded.Some? && !IsNullOrWhiteSpace(Some(q.decoded.value.anonymousId)) then Some(q.decoded.value.anonymousId) else None
  }

  /** The decoded expiry is after `now` and more than `threshold` seconds away. */
  predicate FarFromExpiry(q: Request, threshold: int) {
    q.decoded.Some? && q.decoded.value.expireDate > q.now && q.decoded.value.expireDate - q.now > threshold
  }

  /** The cookie (re)issued for `id`: it expires `timeout` seconds after the UTC clock. */
  function Reissue(q: Request, id: string): CookieAction {
    Appended(Payload(id, q.utcNow + q.options.timeout))
  }

  /** The decision of `HandleRequest`, in the source's order, with the
      sliding-expiration threshold (in seconds) left as a parameter.

      The contract is the full case analysis: the insecure-channel guard;
      the authenticated short-circuit; minting when the cookie carries no
      identity; the sliding rule when it does. Across all cases: only the
      guard ever deletes, an appended cookie always carries the published id
      and expires `timeout` seconds after the UTC clock, and a prior identity
      is never replaced. */
  function Handle(q: Request, threshold: int): (r: Outcome)
    // A secure-only cookie over plain HTTP: nothing is issued, a non-blank
    // cookie is deleted, and a feature with no id is published.
    ensures Guarded(q) ==>
              && r.feature == Feature(None)
              && !r.cookie.Appended?
              && (r.cookie.Deleted? <==> !IsNullOrWhiteSpace(RequestCookie(q.cookies, q.options.name)))
    ensures r.cookie.Deleted? ==> Guarded(q)
    // Past the guard, the prior identity (if any) is what is published.
    ensures !Guarded(q) && PriorId(q).Some? ==> r.feature == Feature(PriorId(q))
    // Authenticated: no cookie written or deleted; nothing published without a prior identity.
    ensures !Guarded(q) && q.isAuthenticated ==>
              && r.cookie.Unchanged?
              && (r.feature.Feature? <==> PriorId(q).Some?)
    // No prior identity: the fresh id is published and issued.
    ensures !Guarded(q) && !q.isAuthenticated && PriorId(q).None? ==>
              r == Outcome(Appended(Payload(q.freshId, q.utcNow + q.options.timeout)), Feature(Some(q.freshId)))
    // A prior identity without sliding expiration: the cookie is left alone.
    ensures !Guarded(q) && !q.isAuthenticated && PriorId(q).Some? && !q.slidingExpiration ==>
              r.cookie.Unchanged?
    // A prior identity with sliding expiration: rewritten with the same id
    // unless its expiry is in the future and more than `threshold` seconds away.
    ensures !Guarded(q) && !q.isAuthenticated && PriorId(q).Some? && q.slidingExpiration ==>
              && (r.cookie.Unchanged? <==> FarFromExpiry(q, threshold))
              && (r.cookie.Appended? <==> !FarFromExpiry(q, threshold))
    ensures r.cookie.Appended? ==>
              && !Guarded(q)
              && !q.isAuthenticated
              && r.feature == Feature(Some(r.cookie.data.anonymousId))
              && r.cookie.data.expireDate == q.utcNow + q.options.timeout
              && (PriorId(q).Some? ==> r.cookie.data.anonymousId == PriorId(q).value)
              && (PriorId(q).None? ==> r.cookie.data.anonymousId == q.freshId)
  {
    var options := q.options;
    if options.secure && !q.isHttps then
      var encodedValue := RequestCookie(q.cookies, options.name);
      Outcome(if !IsNullOrWhiteSpace(encodedValue) then Deleted else Unchanged, Feature(None))
    else
      var decodedValue := q.decoded;
      var anonymousId: Option<string> :=
        if decodedValue.Some? && !IsNullOrWhiteSpace(Some(decodedValue.value.anonymousId))
        then Some(decodedValue.value.anonymousId)
        else None;
      var feature := if anonymousId.Some? then Feature(anonymousId) else NoFeature;
      if q.isAuthenticated then
        Outcome(Unchanged, feature)
      else if options.secure && !q.isHttps then
        Outcome(Unchanged, feature)
      else if IsNullOrWhiteSpace(anonymousId) then
        Outcome(Reissue(q, q.freshId), Feature(Some(q.freshId)))
      else if !q.slidingExpiration
              || (decodedValue.Some? && decodedValue.value.expireDate > q.now
                  && decodedValue.value.expireDate - q.now > threshold) then
        Outcome(Unchanged, feature)
      else
        Outcome(Reissue(q, anonymousId.value), feature)
  }

  /** The threshold as the source computes it: `(Timeout * 60) / 2` in C#'s
      32-bit arithmetic, with the product wrapping and the quotient truncated
      toward zero. Up to 35791394 it is thirty times the timeout; above that,
      up to the builder's maximum, the product wraps and the threshold is
      negative. */
  function SlidingThreshold(timeout: Int32): (r: Int32)
    ensures -35791394 <= timeout <= 35791394 ==> r == 30 * timeout
    ensures 35791394 < timeout <= MaximumCookieTimeout ==> r < 0
  {
    HalfTowardZero(Wrap32(timeout * 60))
  }

  /** `HandleRequest` as written. Under sliding expiration a request carrying
      an identity leaves the cookie alone exactly when its decoded expiry is
      later than the local clock by more than `(Timeout * 60) / 2`, computed in
      wrapping 32-bit arithmetic. */
  function HandleRequest(q: Request): (r: Outcome)
    ensures !Guarded(q) && !q.isAuthenticated && PriorId(q).Some? && q.slidingExpiration ==>
              (r.cookie.Unchanged? <==>
                 && q.decoded.value.expireDate > q.now
                 && q.decoded.value.expireDate - q.now > HalfTowardZero(Wrap32(q.options.timeout * 60)))
    ensures !Guarded(q) && !q.isAuthenticated && PriorId(q).Some? && q.slidingExpiration
            && 1 <= q.options.timeout <= 35791394 ==>
              (r.cookie.Unchanged? <==> q.decoded.value.expireDate - q.now > 30 * q.options.timeout)
  {
    Handle(q, SlidingThreshold(q.options.timeout))
  }

  /** The same decision restructured with the insecure-channel guard
      evaluated once: guard, publish, authenticated short-circuit, then mint
      or slide. */
  function HandleSingleGuard(q: Request, threshold: int): Outcome {
    if Guarded(q) then
      Outcome(if IsNullOrWhiteSpace(RequestCookie(q.cookies, q.options.name)) then Unchanged else Deleted, Feature(None))
    else
      match PriorId(q)
      case None =>
        if q.isAuthenticated then Outcome(Unchanged, NoFeature)
        else Outcome(Reissue(q, q.freshId), Feature(Some(q.freshId)))
      case Some(id) =>
        var keep := q.isAuthenticated || !q.slidingExpiration || FarFromExpiry(q, threshold);
        Outcome(if keep then Unchanged else Reissue(q, id), Feature(Some(id)))
  }

  /** The second insecure-channel guard can never fire: its condition is the
      first guard's, which already returned. Dropping it changes no outcome. */
  lemma SecondGuardIsDead(q: Request, threshold: int)
    ensures Handle(q, threshold) == HandleSingleGuard(q, threshold)
  {
  }

  /** `ClearAnonymousId`, with the response modelled as the set of cookie
      names deleted so far: it deletes the configured name exactly when the
      request carries a non-blank cookie under it, and touches nothing else. */
  function ClearAnonymousId(cookies: map<string, string>, options: CookieOptions, deleted: set<string>): (r: set<string>)
    ensures deleted <= r
    ensures r - deleted <= {options.name}
    ensures options.name in r <==> options.name in deleted || !IsNullOrWhiteSpace(RequestCookie(cookies, options.name))
  {
    if !IsNullOrWhiteSpace(RequestCookie(cookies, options.name)) then deleted + {options.name} else deleted
  }

  /** A second `ClearAnonymousId` on the same request leaves the response as the first left it. */
  lemma ClearAnonymousIdIdempotent(cookies: map<string, string>, options: CookieOptions, deleted: set<string>)
    ensures ClearAnonymousId(cookies, options, ClearAnonymousId(cookies, options, deleted))
            == ClearAnonymousId(cookies, options, deleted)
  {
  }
}
