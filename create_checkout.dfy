/**
 * The checkout-creation endpoint (`POST /api/create-checkout`): the request
 * admission guard (origin allow-list, per-client rate limit, body-size
 * ceiling, price check) and the choice of the safe redirect origin for the
 * session the payment provider is asked to open.  The provider call itself
 * is an input: it either returns a session or fails.
 */
module CreateCheckout {
  import opened Wrappers
  import RL = RateLimiting
  import OnboardingEmail

  const DefaultOrigin: string := "https://zodforge.dev"
  const VercelOrigin: string := "https://zodforge-landing.vercel.app"
  const DevOrigin: string := "http://localhost:4321"

  /** `MAX_BODY_SIZE`: the largest declared body length accepted, 10 KiB. */
  const MaxBodySize: int := 10 * 1024

  /** `ALLOWED_ORIGINS`; the localhost entry is there only in a development build. */
  function AllowedOrigins(dev: bool): (origins: seq<string>)
    ensures |origins| > 0 && origins[0] == DefaultOrigin
  {
    [DefaultOrigin, VercelOrigin] + (if dev then [DevOrigin] else [])
  }

  /** The fields of the JSON body the handler reads. */
  datatype Body = Body(priceId: Option<string>, tier: Option<string>, email: Option<string>)

  /**
   * The parts of a request the handler consults.  `contentLength` is the
   * header after `parseInt`: `None` when the header is absent or not a
   * number.  `body` is `None` when the body is not valid JSON.
   */
  datatype Request = Request(
    origin: Option<string>,
    referer: Option<string>,
    forwardedFor: Option<string>,
    realIp: Option<string>,
    contentLength: Option<int>,
    body: Option<Body>)

  /** What the handler asks the payment provider to create. */
  datatype SessionParams = SessionParams(
    price: string,
    quantity: int,
    successUrl: string,
    cancelUrl: string,
    metadataTier: string,
    subscriptionTier: string,
    customerEmail: Option<string>)

  /** The payment provider's answer to the session request. */
  datatype SessionResult = SessionCreated(url: string, id: string) | SessionFailed(message: string)

  datatype Response =
    | Forbidden                        // 403, origin not allowed
    | TooManyRequests(retryAfter: int) // 429, with a Retry-After header
    | PayloadTooLarge                  // 413
    | MissingPriceId                   // 400
    | CheckoutFailed                   // 500, unparsable body or provider failure
    | CheckoutCreated(url: string, sessionId: string) // 200

  function StatusCode(r: Response): int {
    match r
    case Forbidden => 403
    case TooManyRequests(_) => 429
    case PayloadTooLarge => 413
    case MissingPriceId => 400
    case CheckoutFailed => 500
    case CheckoutCreated(_, _) => 200
  }

  /** The response, the rate table after the request, and the session request made, if any. */
  datatype Outcome = Outcome(response: Response, limits: map<string, RL.Window>, session: Option<SessionParams>)

  /** The origin check: an absent or empty origin passes; any other must be listed exactly. */
  predicate OriginAllowed(origin: Option<string>, dev: bool) {
    !IsPresent(origin) || origin.value in AllowedOrigins(dev)
  }

  /** The rate-limit key: `x-forwarded-for || x-real-ip || 'unknown'`. */
  function ClientKey(req: Request): (key: string)
    ensures key != ""
    ensures IsPresent(req.forwardedFor) ==> key == req.forwardedFor.value
    ensures !IsPresent(req.forwardedFor) && IsPresent(req.realIp) ==> key == req.realIp.value
    ensures !IsPresent(req.forwardedFor) && !IsPresent(req.realIp) ==> key == "unknown"
  {
    OrElse(req.forwardedFor, OrElse(req.realIp, "unknown"))
  }

  /** The size check `contentLength && parseInt(contentLength) > MAX_BODY_SIZE`. */
  predicate TooLarge(contentLength: Option<int>) {
    contentLength.Some? && contentLength.value > MaxBodySize
  }

  /** `candidates.find(c => s.startsWith(c))`. */
  function FindPrefixOf(candidates: seq<string>, s: string): (r: Option<string>)
    ensures r.Some? ==> r.value in candidates && r.value <= s
    ensures r.Some? ==> exists i :: (0 <= i < |candidates| && candidates[i] == r.value &&
      forall j :: 0 <= j < i ==> !(candidates[j] <= s))
    ensures r.None? ==> forall j :: 0 <= j < |candidates| ==> !(candidates[j] <= s)
  {
    if candidates == [] then None
    else if candidates[0] <= s then Some(candidates[0])
    else
      var r := FindPrefixOf(candidates[1..], s);
      if r.Some? then
        var i :| 0 <= i < |candidates[1..]| && candidates[1..][i] == r.value &&
          forall j :: 0 <= j < i ==> !(candidates[1..][j] <= s);
        assert candidates[i + 1] == r.value;
        assert forall j :: 0 <= j < i + 1 ==> !(candidates[j] <= s) by {
          forall j | 0 <= j < i + 1 ensures !(candidates[j] <= s) {
            if j > 0 { assert candidates[j] == candidates[1..][j - 1]; }
          }
        }
        r
      else
        assert forall j :: 0 <= j < |candidates| ==> !(candidates[j] <= s) by {
          forall j | 0 <= j < |candidates| ensures !(candidates[j] <= s) {
            if j > 0 { assert candidates[j] == candidates[1..][j - 1]; }
          }
        }
        r
  }

  /** `origin || referer || ''`, the string the redirect origin is chosen from. */
  function RequestOrigin(req: Request): string {
    OrElse(req.origin, OrElse(req.referer, ""))
  }

  /**
   * `ALLOWED_ORIGINS.find(a => requestOrigin.startsWith(a)) || 'https://zodforge.dev'`:
   * the first allowed origin that is a prefix of the request's origin, else
   * the default origin.  It is always an allowed origin.
   */
  function SafeOrigin(requestOrigin: string, dev: bool): (o: string)
    ensures o in AllowedOrigins(dev)
    ensures o <= requestOrigin || o == DefaultOrigin
    ensures (forall a :: a in AllowedOrigins(dev) ==> !(a <= requestOrigin)) ==> o == DefaultOrigin
    ensures (exists a :: a in AllowedOrigins(dev) && a <= requestOrigin) ==> o <= requestOrigin
  {
    FindPrefixOf(AllowedOrigins(dev), requestOrigin).GetOr(DefaultOrigin)
  }

  function SuccessUrl(safeOrigin: string): string {
    safeOrigin + "/success?session_id={CHECKOUT_SESSION_ID}"
  }

  function CancelUrl(safeOrigin: string): string {
    safeOrigin + "/#pricing"
  }

  /** The session parameters built from an admitted request with a price. */
  function SessionRequest(req: Request, body: Body, dev: bool): SessionParams
    requires IsPresent(body.priceId)
  {
    var safe := SafeOrigin(RequestOrigin(req), dev);
    var tier := OrElse(body.tier, OnboardingEmail.DefaultTier);
    SessionParams(body.priceId.value, 1, SuccessUrl(safe), CancelUrl(safe), tier, tier,
      if IsPresent(body.email) then body.email else None)
  }

  /**
   * The whole handler for one request at time `now`, given the provider's
   * answer: 403, then 429, then the checks of an admitted request.
   */
  function Handle(limits: map<string, RL.Window>, req: Request, now: int, dev: bool,
                  provider: SessionResult): (o: Outcome)
    ensures o.response == Forbidden || o.response.TooManyRequests? ==> o.limits == limits && o.session.None?
    ensures o.session.Some? ==> o.response == CheckoutFailed || o.response.CheckoutCreated?
  {
    if !OriginAllowed(req.origin, dev) then Outcome(Forbidden, limits, None)
    else
      var step := RL.Check(limits, ClientKey(req), now);
      if step.result.Denied? then Outcome(TooManyRequests(step.result.retryAfter), step.limits, None)
      else Admitted(step.limits, req, dev, provider)
  }

  /**
   * The rest of the handler once the rate check allowed the request: 413,
   * then 500 for an unparsable body, then 400, then the session request.
   */
  function Admitted(limits: map<string, RL.Window>, req: Request, dev: bool, provider: SessionResult): (o: Outcome)
    ensures o.limits == limits
    ensures !o.response.Forbidden? && !o.response.TooManyRequests?
    ensures o.response == PayloadTooLarge <==> TooLarge(req.contentLength)
    ensures (o.response == CheckoutFailed && o.session.None?) <==> (!TooLarge(req.contentLength) && req.body.None?)
    ensures o.response == MissingPriceId <==>
      (!TooLarge(req.contentLength) && req.body.Some? && !IsPresent(req.body.value.priceId))
    ensures o.session.Some? <==>
      (!TooLarge(req.contentLength) && req.body.Some? && IsPresent(req.body.value.priceId))
    ensures o.response.CheckoutCreated? <==> (o.session.Some? && provider.SessionCreated?)
    ensures o.session.Some? && provider.SessionFailed? ==> o.response == CheckoutFailed
  {
    if TooLarge(req.contentLength) then Outcome(PayloadTooLarge, limits, None)
    else if req.body.None? then Outcome(CheckoutFailed, limits, None)
    else if !IsPresent(req.body.value.priceId) then Outcome(MissingPriceId, limits, None)
    else
      var params := SessionRequest(req, req.body.value, dev);
      match provider
      case SessionFailed(_) => Outcome(CheckoutFailed, limits, Some(params))
      case SessionCreated(url, id) => Outcome(CheckoutCreated(url, id), limits, Some(params))
  }

  /** The handler as it runs, step by step, against the process's rate limiter. */
  method Post(limiter: RL.RateLimiter, req: Request, now: int, dev: bool, provider: SessionResult)
    returns (response: Response, session: Option<SessionParams>)
    modifies limiter
    ensures Handle(old(limiter.limits), req, now, dev, provider) == Outcome(response, limiter.limits, session)
  {
    if !OriginAllowed(req.origin, dev) {
      return Forbidden, None;
    }
    var clientIp := ClientKey(req);
    var rateCheck := limiter.CheckRateLimit(clientIp, now);
    if rateCheck.Denied? {
      return TooManyRequests(rateCheck.retryAfter), None;
    }
    if TooLarge(req.contentLength) {
      return PayloadTooLarge, None;
    }
    if req.body.None? {
      return CheckoutFailed, None;
    }
    var body := req.body.value;
    if !IsPresent(body.priceId) {
      return MissingPriceId, None;
    }
    session := Some(SessionRequest(req, body, dev));
    match provider {
      case SessionFailed(_) =>
        response := CheckoutFailed;
      case SessionCreated(url, id) =>
        response := CheckoutCreated(url, id);
    }
  }

  /** The localhost origin is allowed exactly in a development build. */
  lemma DevOriginOnlyInDev(dev: bool)
    ensures DevOrigin in AllowedOrigins(dev) <==> dev
  {
    assert DevOrigin != DefaultOrigin by { assert DevOrigin[4] != DefaultOrigin[4]; }
    assert DevOrigin != VercelOrigin by { assert DevOrigin[4] != VercelOrigin[4]; }
  }

  /** Outside a development build a request from the localhost origin is refused with 403. */
  lemma DevOriginForbiddenInProduction(limits: map<string, RL.Window>, req: Request, now: int, provider: SessionResult)
    requires req.origin == Some(DevOrigin)
    ensures Handle(limits, req, now, false, provider).response == Forbidden
  {
    DevOriginOnlyInDev(false);
  }

  /**
   * A present origin that is not exactly an allowed origin is refused with
   * 403, and only such an origin is; the rate table is neither consulted
   * nor changed, and no session is requested.
   */
  lemma ForbiddenFirst(limits: map<string, RL.Window>, req: Request, now: int, dev: bool, provider: SessionResult)
    ensures Handle(limits, req, now, dev, provider).response == Forbidden <==>
      (IsPresent(req.origin) && req.origin.value !in AllowedOrigins(dev))
    ensures StatusCode(Handle(limits, req, now, dev, provider).response) == 403 <==>
      (IsPresent(req.origin) && req.origin.value !in AllowedOrigins(dev))
    ensures Handle(limits, req, now, dev, provider).response == Forbidden ==>
      Handle(limits, req, now, dev, provider).limits == limits &&
      Handle(limits, req, now, dev, provider).session.None?
  {
  }

  /** An absent or empty origin header passes the origin check. */
  lemma AbsentOriginPasses(req: Request, limits: map<string, RL.Window>, now: int, dev: bool, provider: SessionResult)
    requires !IsPresent(req.origin)
    ensures Handle(limits, req, now, dev, provider).response != Forbidden
    ensures Handle(limits, req, now, dev, provider).limits == RL.Check(limits, ClientKey(req), now).limits
  {
  }

  /**
   * Every response after the origin check has gone through the rate check
   * of the client key; a 429 leaves the table as the denial left it
   * (unchanged), and a 413, 400, 500 or 200 has used up one slot.
   */
  lemma RateCheckedSecond(limits: map<string, RL.Window>, req: Request, now: int, dev: bool, provider: SessionResult)
    requires OriginAllowed(req.origin, dev)
    ensures Handle(limits, req, now, dev, provider).limits == RL.Check(limits, ClientKey(req), now).limits
    ensures Handle(limits, req, now, dev, provider).response.TooManyRequests? <==>
      RL.Check(limits, ClientKey(req), now).result.Denied?
    ensures StatusCode(Handle(limits, req, now, dev, provider).response) == 429 <==>
      RL.Check(limits, ClientKey(req), now).result.Denied?
    ensures Handle(limits, req, now, dev, provider).response.TooManyRequests? ==>
      Handle(limits, req, now, dev, provider).limits == limits
    ensures RL.Check(limits, ClientKey(req), now).result.Denied? ==>
      Handle(limits, req, now, dev, provider).response ==
      TooManyRequests(RL.Check(limits, ClientKey(req), now).result.retryAfter)
    ensures !Handle(limits, req, now, dev, provider).response.TooManyRequests? ==>
      RL.Check(limits, ClientKey(req), now).result == RL.Allowed
  {
  }

  /** A missing or non-numeric content length never gives 413. */
  lemma NoContentLengthNever413(limits: map<string, RL.Window>, req: Request, now: int, dev: bool, provider: SessionResult)
    requires req.contentLength.None?
    ensures Handle(limits, req, now, dev, provider).response != PayloadTooLarge
  {
  }

  /**
   * Once origin and rate checks pass, the remaining checks run in order:
   * 413 exactly for a declared length above 10 KiB; then 500 without a
   * session for a body that does not parse; then 400 exactly for a missing
   * or empty price id; and 200 exactly when a session was requested and the
   * provider created it, 500 when the provider failed.
   */
  lemma CheckOrderAfterRate(limits: map<string, RL.Window>, req: Request, now: int, dev: bool, provider: SessionResult)
    requires OriginAllowed(req.origin, dev) && RL.Check(limits, ClientKey(req), now).result == RL.Allowed
    ensures var o := Handle(limits, req, now, dev, provider);
      && (o.response == PayloadTooLarge <==> TooLarge(req.contentLength))
      && ((o.response == CheckoutFailed && o.session.None?) <==> (!TooLarge(req.contentLength) && req.body.None?))
      && (o.response == MissingPriceId <==>
            (!TooLarge(req.contentLength) && req.body.Some? && !IsPresent(req.body.value.priceId)))
      && (o.response.CheckoutCreated? <==> (o.session.Some? && provider.SessionCreated?))
      && (o.session.Some? && provider.SessionFailed? ==> o.response == CheckoutFailed)
      && (o.response.CheckoutCreated? ==> o.response == CheckoutCreated(provider.url, provider.id))
  {
  }

  /**
   * A session is requested exactly when every check passed: allowed origin,
   * a free rate slot, a declared size within 10 KiB, a parsed body and a
   * non-empty price id.  In particular a 400 for a missing price creates no
   * session.
   */
  lemma SessionOnlyWhenAdmitted(limits: map<string, RL.Window>, req: Request, now: int, dev: bool, provider: SessionResult)
    ensures Handle(limits, req, now, dev, provider).session.Some? <==>
      (OriginAllowed(req.origin, dev) &&
       RL.Check(limits, ClientKey(req), now).result == RL.Allowed &&
       !TooLarge(req.contentLength) &&
       req.body.Some? && IsPresent(req.body.value.priceId))
    ensures Handle(limits, req, now, dev, provider).response == MissingPriceId ==>
      Handle(limits, req, now, dev, provider).session.None?
  {
  }

  /**
   * The session request redirects only to an allowed origin: both callback
   * URLs start with the safe origin, the price is the body's, the quantity
   * is 1, and the tier in both metadata blocks defaults to "pro".
   */
  lemma SessionRedirectsToAllowedOrigin(limits: map<string, RL.Window>, req: Request, now: int, dev: bool, provider: SessionResult)
    requires Handle(limits, req, now, dev, provider).session.Some?
    ensures req.body.Some? && IsPresent(req.body.value.priceId)
    ensures var p := Handle(limits, req, now, dev, provider).session.value;
      var safe := SafeOrigin(RequestOrigin(req), dev);
      && safe in AllowedOrigins(dev)
      && safe <= p.successUrl && safe <= p.cancelUrl
      && p.price == req.body.value.priceId.value && p.quantity == 1
      && p.metadataTier == p.subscriptionTier == OrElse(req.body.value.tier, OnboardingEmail.DefaultTier)
      && p.customerEmail == (if IsPresent(req.body.value.email) then req.body.value.email else None)
  {
  }

  /**
   * For an admitted request with a present origin, the safe origin is that
   * very origin: no allowed origin is a proper prefix of another.
   */
  lemma SafeOriginIsDeclaredOrigin(req: Request, dev: bool)
    requires IsPresent(req.origin) && OriginAllowed(req.origin, dev)
    ensures SafeOrigin(RequestOrigin(req), dev) == req.origin.value
  {
    var o := req.origin.value;
    assert RequestOrigin(req) == o;
    assert !(VercelOrigin <= DefaultOrigin) by { assert VercelOrigin[16] != DefaultOrigin[16]; }
    assert !(DefaultOrigin <= VercelOrigin) by { assert VercelOrigin[16] != DefaultOrigin[16]; }
    assert !(DefaultOrigin <= DevOrigin) by { assert DefaultOrigin[4] != DevOrigin[4]; }
    assert !(VercelOrigin <= DevOrigin) by { assert VercelOrigin[4] != DevOrigin[4]; }
  }

  /**
   * The origin check is exact membership but the redirect choice is a prefix
   * test: a referer such as "https://zodforge.dev/pricing" is not an allowed
   * origin, yet a request with no origin header and that referer is
   * redirected to "https://zodforge.dev".
   */
  lemma PrefixNotExact(req: Request, dev: bool)
    requires !IsPresent(req.origin) && req.referer == Some("https://zodforge.dev/pricing")
    ensures !OriginAllowed(req.referer, dev)
    ensures SafeOrigin(RequestOrigin(req), dev) == DefaultOrigin
  {
    var s := "https://zodforge.dev/pricing";
    assert s != DefaultOrigin && s != VercelOrigin && s != DevOrigin by {
      assert |s| != |DefaultOrigin|;
      assert s[16] != VercelOrigin[16];
      assert s[4] != DevOrigin[4];
    }
    assert DefaultOrigin <= s;
  }
}
