/**
 * server/middleware/rate_limit.go: a registry of per-key token-bucket
 * limiters, filled on demand and emptied by the periodic cleanup. The token
 * bucket itself is not modelled: a Limiter records only the rate and burst
 * it was made with, and whether it allows a request is a parameter.
 */
module RateLimit {
  import opened Wrappers
  import opened Response

  /** The parts of a request the key function may read. */
  datatype RateRequest = RateRequest(realIp: string, path: string)

  datatype RateLimiterConfig = RateLimiterConfig(
    rate: real,
    burst: int,
    keyFunc: Option<RateRequest -> string>,
    errorHandler: Option<RateRequest -> Reply>)

  function DefaultKeyFunc(req: RateRequest): string {
    req.realIp
  }

  function DefaultErrorHandler(req: RateRequest): Reply {
    Reply(429, NewErrorResponse(429, "rate limit exceeded"))
  }

  function DefaultRateLimiterConfig(): RateLimiterConfig {
    RateLimiterConfig(10.0, 20, Some(DefaultKeyFunc), Some(DefaultErrorHandler))
  }

  /** NewRateLimiter's defaulting: only a negative rate or burst is replaced, so zero is kept. */
  function RateDefaults(config: RateLimiterConfig): (r: RateLimiterConfig)
    ensures r.rate == (if config.rate < 0.0 then 10.0 else config.rate)
    ensures r.burst == (if config.burst < 0 then 20 else config.burst)
    ensures r.keyFunc == (if config.keyFunc.None? then Some(DefaultKeyFunc) else config.keyFunc)
    ensures r.errorHandler == (if config.errorHandler.None? then Some(DefaultErrorHandler) else config.errorHandler)
  {
    var c := config;
    var c := if c.rate < 0.0 then c.(rate := DefaultRateLimiterConfig().rate) else c;
    var c := if c.burst < 0 then c.(burst := DefaultRateLimiterConfig().burst) else c;
    var c := if c.keyFunc.None? then c.(keyFunc := DefaultRateLimiterConfig().keyFunc) else c;
    if c.errorHandler.None? then c.(errorHandler := DefaultRateLimiterConfig().errorHandler) else c
  }

  predicate Defaulted(c: RateLimiterConfig) {
    c.rate >= 0.0 && c.burst >= 0 && c.keyFunc.Some? && c.errorHandler.Some?
  }

  /** Defaulting leaves a non-negative rate and burst and both functions set, and is idempotent. */
  lemma RateDefaultsIdempotent(config: RateLimiterConfig)
    ensures Defaulted(RateDefaults(config))
    ensures RateDefaults(RateDefaults(config)) == RateDefaults(config)
    ensures config.rate == 0.0 ==> RateDefaults(config).rate == 0.0
    ensures config.burst == 0 ==> RateDefaults(config).burst == 0
  {
  }

  /** A rate.Limiter, identified by reference. */
  class Limiter {
    const rate: real
    const burst: int

    constructor (rate: real, burst: int)
      ensures this.rate == rate && this.burst == burst
    {
      this.rate := rate;
      this.burst := burst;
    }
  }

  datatype Outcome = CallNext | Rejected(reply: Reply)

  class RateLimiter {
    const config: RateLimiterConfig
    var rateLimiters: map<string, Limiter>

    /** Every registered limiter was made with the configured rate and burst. */
    predicate Valid()
      reads this
    {
      Defaulted(config) &&
      forall key :: key in rateLimiters ==> rateLimiters[key].rate == config.rate && rateLimiters[key].burst == config.burst
    }

    /** NewRateLimiter, without the cleanup goroutine. */
    constructor (config: RateLimiterConfig)
      ensures this.config == RateDefaults(config) && rateLimiters == map[]
      ensures Valid()
    {
      this.config := RateDefaults(config);
      rateLimiters := map[];
      new;
      RateDefaultsIdempotent(config);
    }

    /** getLimiter: the key's limiter, made and registered the first time the key is seen. */
    method GetLimiter(key: string) returns (limiter: Limiter)
      requires Valid()
      modifies this`rateLimiters
      ensures Valid()
      ensures key in old(rateLimiters) ==> limiter == old(rateLimiters)[key] && rateLimiters == old(rateLimiters)
      ensures key !in old(rateLimiters) ==> fresh(limiter) && rateLimiters == old(rateLimiters)[key := limiter]
      ensures key in rateLimiters && rateLimiters[key] == limiter
      ensures limiter.rate == config.rate && limiter.burst == config.burst
    {
      if key in rateLimiters {
        limiter := rateLimiters[key];
      } else {
        limiter := new Limiter(config.rate, config.burst);
        rateLimiters := rateLimiters[key := limiter];
      }
    }

    /** cleanup: every limiter is dropped. */
    method Cleanup()
      requires Valid()
      modifies this`rateLimiters
      ensures Valid() && rateLimiters == map[]
    {
      rateLimiters := map[];
    }

    /**
     * The request handler; `allowed` is what the key's limiter answers to
     * Allow() at this moment.
     */
    method Handle(req: RateRequest, allowed: bool) returns (o: Outcome)
      requires Valid()
      modifies this`rateLimiters
      ensures Valid()
      ensures o == Decide(config, req, allowed)
      ensures var key := config.keyFunc.value(req);
        key in rateLimiters && rateLimiters.Keys == old(rateLimiters).Keys + {key} &&
        (key in old(rateLimiters) ==> rateLimiters == old(rateLimiters))
    {
      var key := config.keyFunc.value(req);
      var limiter := GetLimiter(key);
      if !allowed {
        return Rejected(config.errorHandler.value(req));
      }
      return CallNext;
    }
  }

  /** A request reaches next exactly when its limiter allows it. */
  function Decide(config: RateLimiterConfig, req: RateRequest, allowed: bool): (o: Outcome)
    requires Defaulted(config)
    ensures o.CallNext? <==> allowed
    ensures o.Rejected? ==> o.reply == config.errorHandler.value(req)
  {
    if allowed then CallNext else Rejected(config.errorHandler.value(req))
  }

  /** With the default error handler, a rejection is 429 with state 429. */
  lemma DefaultRejectionIs429(config: RateLimiterConfig, req: RateRequest)
    requires config.errorHandler.None?
    ensures Decide(RateDefaults(config), req, false) == Rejected(Reply(429, NewErrorResponse(429, "rate limit exceeded")))
  {
  }
}
