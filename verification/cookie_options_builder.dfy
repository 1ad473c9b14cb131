/** The fluent builder that resolves the anonymous-id cookie configuration:
    every setter records an override, and `Build` falls back to a named default
    for each override that was never made. The builder is a value here and
    each setter returns the updated value instead of mutating `this`. */
module CookieOptionsBuilder {
  import opened Wrappers
  import opened DotNet

  const DefaultCookieName: string := ".ASPXANONYMOUS"
  const DefaultCookiePath: string := "/"
  const DefaultCookieTimeout: Int32 := 100000
  const MinimumCookieTimeout: Int32 := 1
  /** Two years, in seconds. */
  const MaximumCookieTimeout: Int32 := 60 * 60 * 24 * 365 * 2
  const DefaultCookieRequireSsl: bool := false

  /** The options record `Build` produces: the cookie's name, path, optional
      domain, lifetime in seconds and secure-only flag. */
  datatype CookieOptions = CookieOptions(
    name: string,
    path: string,
    domain: Option<string>,
    timeout: Int32,
    secure: bool)

  /** The builder's private fields; `None` is an override never made (or, for
      the reference-typed ones, an explicit `null`). */
  datatype Builder = Builder(
    cookieName: Option<string>,
    cookiePath: Option<string>,
    cookieTimeout: Option<Int32>,
    cookieDomain: Option<string>,
    cookieRequireSsl: Option<bool>)

  /** A freshly constructed builder: no override made. */
  const NewBuilder: Builder := Builder(None, None, None, None, None)

  /** The invariant the setters keep: a stored timeout lies within the clamp bounds. */
  predicate Valid(b: Builder) {
    b.cookieTimeout.Some? ==> MinimumCookieTimeout <= b.cookieTimeout.value <= MaximumCookieTimeout
  }

  /** `Math.Min(Math.Max(MINIMUM, t), MAXIMUM)`: out-of-range timeouts are
      silently corrected, never rejected. */
  function Clamp(t: Int32): (r: Int32)
    ensures MinimumCookieTimeout <= r <= MaximumCookieTimeout
    ensures MinimumCookieTimeout <= t <= MaximumCookieTimeout ==> r == t
    ensures t < MinimumCookieTimeout ==> r == MinimumCookieTimeout
    ensures MaximumCookieTimeout < t ==> r == MaximumCookieTimeout
  {
    var atLeastMinimum := if MinimumCookieTimeout < t then t else MinimumCookieTimeout;
    if atLeastMinimum < MaximumCookieTimeout then atLeastMinimum else MaximumCookieTimeout
  }

  function SetCustomCookieName(b: Builder, cookieName: Option<string>): (r: Builder)
    ensures r.cookieName == cookieName
    ensures r.(cookieName := b.cookieName) == b
  {
    b.(cookieName := cookieName)
  }

  function SetCustomCookiePath(b: Builder, cookiePath: Option<string>): (r: Builder)
    ensures r.cookiePath == cookiePath
    ensures r.(cookiePath := b.cookiePath) == b
  {
    b.(cookiePath := cookiePath)
  }

  function SetCustomCookieTimeout(b: Builder, cookieTimeout: Int32): (r: Builder)
    ensures r.cookieTimeout.Some?
    ensures MinimumCookieTimeout <= r.cookieTimeout.value <= MaximumCookieTimeout
    ensures MinimumCookieTimeout <= cookieTimeout <= MaximumCookieTimeout ==> r.cookieTimeout == Some(cookieTimeout)
    ensures r.(cookieTimeout := b.cookieTimeout) == b
  {
    b.(cookieTimeout := Some(Clamp(cookieTimeout)))
  }

  function SetCustomCookieDomain(b: Builder, cookieDomain: Option<string>): (r: Builder)
    ensures r.cookieDomain == cookieDomain
    ensures r.(cookieDomain := b.cookieDomain) == b
  {
    b.(cookieDomain := cookieDomain)
  }

  function SetCustomCookieRequireSsl(b: Builder, cookieRequireSsl: bool): (r: Builder)
    ensures r.cookieRequireSsl == Some(cookieRequireSsl)
    ensures r.(cookieRequireSsl := b.cookieRequireSsl) == b
  {
    b.(cookieRequireSsl := Some(cookieRequireSsl))
  }

  /** Resolves the configuration: `??` defaults for name, path, timeout and
      secure flag; the domain is carried over only when it is not
      null-or-white-space, and then verbatim. */
  function Build(b: Builder): (r: CookieOptions)
    ensures b.cookieName.Some? ==> r.name == b.cookieName.value
    ensures b.cookieName.None? ==> r.name == DefaultCookieName
    ensures b.cookiePath.Some? ==> r.path == b.cookiePath.value
    ensures b.cookiePath.None? ==> r.path == DefaultCookiePath
    ensures Valid(b) ==> MinimumCookieTimeout <= r.timeout <= MaximumCookieTimeout
    ensures b.cookieTimeout.Some? ==> r.timeout == b.cookieTimeout.value
    ensures b.cookieTimeout.None? ==> r.timeout == DefaultCookieTimeout
    ensures r.secure <==> b.cookieRequireSsl == Some(true)
    ensures r.domain.Some? <==> !IsNullOrWhiteSpace(b.cookieDomain)
    ensures r.domain.Some? ==> r.domain == b.cookieDomain
  {
    var options := CookieOptions(
      b.cookieName.GetOr(DefaultCookieName),
      b.cookiePath.GetOr(DefaultCookiePath),
      None,
      b.cookieTimeout.GetOr(DefaultCookieTimeout),
      b.cookieRequireSsl.GetOr(DefaultCookieRequireSsl));
    if !IsNullOrWhiteSpace(b.cookieDomain) then options.(domain := b.cookieDomain) else options
  }

  /** One call in a fluent chain `new Builder().SetX(..).SetY(..)`. */
  datatype SetterCall =
    | SetName(cookieName: Option<string>)
    | SetPath(cookiePath: Option<string>)
    | SetTimeout(cookieTimeout: Int32)
    | SetDomain(cookieDomain: Option<string>)
    | SetRequireSsl(cookieRequireSsl: bool)

  function Call(b: Builder, c: SetterCall): Builder {
    match c
    case SetName(n) => SetCustomCookieName(b, n)
    case SetPath(p) => SetCustomCookiePath(b, p)
    case SetTimeout(t) => SetCustomCookieTimeout(b, t)
    case SetDomain(d) => SetCustomCookieDomain(b, d)
    case SetRequireSsl(s) => SetCustomCookieRequireSsl(b, s)
  }

  /** Two calls to the same setter. */
  predicate SameSetter(c: SetterCall, d: SetterCall) {
    || (c.SetName? && d.SetName?)
    || (c.SetPath? && d.SetPath?)
    || (c.SetTimeout? && d.SetTimeout?)
    || (c.SetDomain? && d.SetDomain?)
    || (c.SetRequireSsl? && d.SetRequireSsl?)
  }

  /** `calls[i]` is the last call in the chain to its setter. */
  predicate LastOfItsSetter(calls: seq<SetterCall>, i: int) {
    0 <= i < |calls| && forall j :: i < j < |calls| ==> !SameSetter(calls[j], calls[i])
  }

  /** Dropping a chain's first call keeps every later last call the last of
      its setter; and when the first call is the last of its setter, no later
      call uses that setter. */
  lemma LastOfItsSetterShift(calls: seq<SetterCall>)
    requires |calls| > 0
    ensures forall i :: 1 <= i < |calls| && LastOfItsSetter(calls, i) ==> LastOfItsSetter(calls[1..], i - 1)
    ensures LastOfItsSetter(calls, 0) ==> forall j :: 0 <= j < |calls[1..]| ==> !SameSetter(calls[1..][j], calls[0])
  {
    forall i | 1 <= i < |calls| && LastOfItsSetter(calls, i)
      ensures LastOfItsSetter(calls[1..], i - 1)
    {
      forall j | i - 1 < j < |calls[1..]|
        ensures !SameSetter(calls[1..][j], calls[1..][i - 1])
      {
        assert calls[1..][j] == calls[j + 1];
      }
    }
    if LastOfItsSetter(calls, 0) {
      forall j | 0 <= j < |calls[1..]|
        ensures !SameSetter(calls[1..][j], calls[0])
      {
        assert calls[1..][j] == calls[j + 1];
      }
    }
  }

  /** A chain of setter calls, applied left to right. Whatever the chain, the
      builder stays valid; a field the chain never sets keeps its value; and
      a field the chain sets holds the argument of the last call to its setter. */
  function Apply(b: Builder, calls: seq<SetterCall>): (r: Builder)
    ensures Valid(b) ==> Valid(r)
    ensures (forall i :: 0 <= i < |calls| ==> !calls[i].SetName?) ==> r.cookieName == b.cookieName
    ensures (forall i :: 0 <= i < |calls| ==> !calls[i].SetPath?) ==> r.cookiePath == b.cookiePath
    ensures (forall i :: 0 <= i < |calls| ==> !calls[i].SetTimeout?) ==> r.cookieTimeout == b.cookieTimeout
    ensures (forall i :: 0 <= i < |calls| ==> !calls[i].SetDomain?) ==> r.cookieDomain == b.cookieDomain
    ensures (forall i :: 0 <= i < |calls| ==> !calls[i].SetRequireSsl?) ==> r.cookieRequireSsl == b.cookieRequireSsl
    ensures forall i :: LastOfItsSetter(calls, i) && calls[i].SetName? ==> r.cookieName == calls[i].cookieName
    ensures forall i :: LastOfItsSetter(calls, i) && calls[i].SetPath? ==> r.cookiePath == calls[i].cookiePath
    ensures forall i :: LastOfItsSetter(calls, i) && calls[i].SetTimeout? ==> r.cookieTimeout == Some(Clamp(calls[i].cookieTimeout))
    ensures forall i :: LastOfItsSetter(calls, i) && calls[i].SetDomain? ==> r.cookieDomain == calls[i].cookieDomain
    ensures forall i :: LastOfItsSetter(calls, i) && calls[i].SetRequireSsl? ==> r.cookieRequireSsl == Some(calls[i].cookieRequireSsl)
    decreases |calls|
  {
    if |calls| == 0 then b
    else
      LastOfItsSetterShift(calls);
      Apply(Call(b, calls[0]), calls[1..])
  }

  /** With no setter called, `Build` yields every named default and no domain. */
  lemma BuildDefaults()
    ensures Build(NewBuilder) == CookieOptions(".ASPXANONYMOUS", "/", None, 100000, false)
  {
  }

  /** Whatever chain of setters precedes it, `Build` yields a timeout within
      the clamp bounds: the default lies inside them and the clamp is the only
      other source. */
  lemma BuiltTimeoutInRange(calls: seq<SetterCall>)
    ensures 1 <= Build(Apply(NewBuilder, calls)).timeout <= 63072000
  {
  }

  /** The clamp is idempotent. */
  lemma ClampIdempotent(t: Int32)
    ensures Clamp(Clamp(t)) == Clamp(t)
  {
  }

  /** Name and path fall back to their defaults only on `null`: an empty or
      blank string is taken as given. */
  lemma NullOnlyDefaultsNameAndPath(b: Builder, s: string)
    ensures Build(SetCustomCookieName(b, Some(s))).name == s
    ensures Build(SetCustomCookiePath(b, Some(s))).path == s
  {
  }

  /** A later call to a setter overwrites an earlier call to the same setter,
      whatever the two arguments, `null` included. */
  lemma LastWriteWins(b: Builder, s1: Option<string>, s2: Option<string>, t1: Int32, t2: Int32, x1: bool, x2: bool)
    ensures SetCustomCookieName(SetCustomCookieName(b, s1), s2) == SetCustomCookieName(b, s2)
    ensures SetCustomCookiePath(SetCustomCookiePath(b, s1), s2) == SetCustomCookiePath(b, s2)
    ensures SetCustomCookieTimeout(SetCustomCookieTimeout(b, t1), t2) == SetCustomCookieTimeout(b, t2)
    ensures SetCustomCookieDomain(SetCustomCookieDomain(b, s1), s2) == SetCustomCookieDomain(b, s2)
    ensures SetCustomCookieRequireSsl(SetCustomCookieRequireSsl(b, x1), x2) == SetCustomCookieRequireSsl(b, x2)
  {
  }
}
