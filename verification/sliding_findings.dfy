/** Three defects in the sliding-expiration test of `HandleRequest`, each shown
    on the decision as written, and a corrected decision that refreshes a
    cookie once half of its lifetime has gone by.

    - The threshold `(Timeout * 60) / 2` treats the timeout as minutes, while
      the expiry is `Timeout` seconds away: the threshold is thirty times the
      cookie's whole lifetime, so every cookie is rewritten on every request.
    - Above 35791394 seconds the product `Timeout * 60` wraps to a negative
      `int`, so a cookie that has not expired is never refreshed.
    - The expiry is written from the UTC clock but compared with the local
      clock, so the remaining lifetime is off by the server's UTC offset. */
module SlidingFindings {
  import opened Wrappers
  import opened DotNet
  import opened CookieOptionsBuilder
  import opened Middleware

  /** The decision with the sliding test corrected: the decoded expiry is
      compared with the UTC clock it was computed from, and the threshold is
      half the timeout in seconds. Every other branch is the one of `Handle`. */
  function HandleRequestCorrected(q: Request): (r: Outcome)
    ensures !Guarded(q) && !q.isAuthenticated && PriorId(q).Some? && q.slidingExpiration && 0 <= q.options.timeout ==>
              (r.cookie.Unchanged? <==> 2 * (q.decoded.value.expireDate - q.utcNow) > q.options.timeout)
  {
    Handle(q.(now := q.utcNow), HalfTowardZero(q.options.timeout))
  }

  /** The corrected decision differs from the source's only in the sliding test. */
  lemma CorrectedAgreesOutsideSliding(q: Request)
    requires Guarded(q) || q.isAuthenticated || PriorId(q).None? || !q.slidingExpiration
    ensures HandleRequestCorrected(q) == HandleRequest(q)
  {
  }

  /** A request carrying an identity whose cookie this middleware issued at UTC
      time `issuedAt`. */
  predicate ReturningCookie(q: Request, issuedAt: int) {
    && !Guarded(q) && !q.isAuthenticated && PriorId(q).Some? && q.slidingExpiration
    && q.decoded.value.expireDate == issuedAt + q.options.timeout
    && issuedAt <= q.utcNow
  }

  /** The intended rule, proved of the corrected decision: a returning cookie
      is left alone while less than half its lifetime has elapsed, and is
      rewritten with the same id and a full new lifetime afterwards. */
  lemma CorrectedSlidesAtHalfLife(q: Request, issuedAt: int)
    requires ReturningCookie(q, issuedAt)
    requires 1 <= q.options.timeout
    ensures HandleRequestCorrected(q).cookie.Unchanged? <==> 2 * (q.utcNow - issuedAt) < q.options.timeout
    ensures !HandleRequestCorrected(q).cookie.Unchanged? ==>
              HandleRequestCorrected(q).cookie == Appended(Payload(PriorId(q).value, q.utcNow + q.options.timeout))
  {
    var t := q.options.timeout;
    var elapsed := q.utcNow - issuedAt;
    assert q.decoded.value.expireDate - q.utcNow == t - elapsed;
    var half := HalfTowardZero(t);
    assert 2 * half <= t <= 2 * half + 1;
    assert FarFromExpiry(q.(now := q.utcNow), half) <==> t - elapsed > half;
    assert t - elapsed > half <==> 2 * elapsed < t;
  }

  /** As written, with the local clock equal to the UTC clock and any timeout
      the product does not wrap for, every returning cookie is rewritten: its
      remaining lifetime never exceeds `Timeout`, let alone `30 * Timeout`. */
  lemma AsWrittenRewritesEveryRequest(q: Request, issuedAt: int)
    requires ReturningCookie(q, issuedAt)
    requires q.now == q.utcNow
    requires 1 <= q.options.timeout <= 35791394
    ensures HandleRequest(q).cookie == Appended(Payload(PriorId(q).value, q.utcNow + q.options.timeout))
  {
  }

  /** As written, with a timeout above 35791394 seconds the threshold is
      negative, so a cookie whose expiry is still ahead of the local clock is
      never refreshed, however close that expiry is. */
  lemma AsWrittenOverflowNeverRefreshes(q: Request)
    requires !Guarded(q) && !q.isAuthenticated && PriorId(q).Some? && q.slidingExpiration
    requires 35791394 < q.options.timeout <= MaximumCookieTimeout
    requires q.decoded.value.expireDate > q.now
    ensures HandleRequest(q).cookie.Unchanged?
  {
  }

  /** As written, on a server whose local clock runs more than `30 * Timeout`
      seconds behind UTC, a cookie that has not expired by the UTC clock is
      never refreshed, even one second before it expires. */
  lemma AsWrittenClockMixNeverRefreshes(q: Request)
    requires !Guarded(q) && !q.isAuthenticated && PriorId(q).Some? && q.slidingExpiration
    requires 1 <= q.options.timeout <= 35791394
    requires q.now < q.utcNow - 30 * q.options.timeout
    requires q.decoded.value.expireDate > q.utcNow
    ensures HandleRequest(q).cookie.Unchanged?
  {
  }

  /** A request on plain HTTP with sliding expiration, carrying the identity
      "id" with the given expiry. */
  function SampleRequest(timeout: Int32, expireDate: int, now: int, utcNow: int): (q: Request)
    ensures !Guarded(q) && !q.isAuthenticated && PriorId(q) == Some("id") && q.slidingExpiration
  {
    var options := CookieOptions(DefaultCookieName, DefaultCookiePath, None, timeout, false);
    assert !IsWhiteSpace("id"[0]);
    Request(options, true, false, false, map[DefaultCookieName := "encoded"],
            Some(Payload("id", expireDate)), now, utcNow, "fresh")
  }

  /** Concrete inputs for the three defects, each paired with the corrected
      outcome:
      - default timeout 100000, cookie issued one second ago, clocks agreeing:
        rewritten as written, left alone when corrected;
      - maximum timeout, one second before expiry: left alone as written,
        rewritten when corrected;
      - timeout 100, local clock ten hours behind UTC, one second before
        expiry: left alone as written, rewritten when corrected. */
  lemma Counterexamples()
    ensures HandleRequest(SampleRequest(100000, 1099999, 1000000, 1000000)).cookie.Appended?
    ensures HandleRequestCorrected(SampleRequest(100000, 1099999, 1000000, 1000000)).cookie.Unchanged?
    ensures HandleRequest(SampleRequest(63072000, 1000001, 1000000, 1000000)).cookie.Unchanged?
    ensures HandleRequestCorrected(SampleRequest(63072000, 1000001, 1000000, 1000000)).cookie.Appended?
    ensures HandleRequest(SampleRequest(100, 1000001, 964000, 1000000)).cookie.Unchanged?
    ensures HandleRequestCorrected(SampleRequest(100, 1000001, 964000, 1000000)).cookie.Appended?
  {
  }
}
