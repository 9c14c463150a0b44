/** The USD to INR rate of apps/web/src/lib/cloud/exchangeRate.ts: a
    module-level cache in front of a chain of two web sources, a stale
    cache and a constant. The sources' settled responses and the clock
    are inputs; `stamp` is the `toISOString()` text of the current time. */
module ExchangeRate {
  import opened Seqs

  /** `ExchangeRateInfo` */
  datatype ExchangeRateInfo = ExchangeRateInfo(rate: real, lastUpdated: string, source: string)

  /** A source's answer: the request threw or was not `ok`, or the body's
      `rates.INR`, None when it is missing or not a number. */
  datatype SourceResponse = Unreachable | Answered(ok: bool, inr: Option<real>)

  /** `CACHE_TTL_MS`: twenty-four hours. */
  const CacheTtlMs := 24 * 60 * 60 * 1000

  const PrimarySource := "open.er-api.com"
  const FallbackSource := "exchangerate-api.com"
  const OfflineSource := "fallback (offline)"
  const OfflineRate := 83.0

  /** The rate a source contributes: only a numeric rate above 0 from an
      `ok` response; anything else counts as that source failing. */
  function Accepted(r: SourceResponse): (rate: Option<real>)
    ensures rate.Some? <==> r.Answered? && r.ok && r.inr.Some? && r.inr.value > 0.0
    ensures rate.Some? ==> rate.value == r.inr.value && rate.value > 0.0
  {
    if r.Answered? && r.ok && r.inr.Some? && r.inr.value > 0.0 then Some(r.inr.value) else None
  }

  /** What a call returns once the cache is found missing or stale: the
      first source that delivers a valid rate, else the stale cache, else
      the offline constant. */
  function Chain(cached: Option<ExchangeRateInfo>, stamp: string, primary: SourceResponse, fallback: SourceResponse)
    : (r: ExchangeRateInfo)
    requires cached.Some? ==> cached.value.rate > 0.0
    ensures r.rate > 0.0
    ensures Accepted(primary).Some? ==> r == ExchangeRateInfo(Accepted(primary).value, stamp, PrimarySource)
    ensures Accepted(primary).None? && Accepted(fallback).Some? ==>
      r == ExchangeRateInfo(Accepted(fallback).value, stamp, FallbackSource)
    ensures Accepted(primary).None? && Accepted(fallback).None? ==>
      r == if cached.Some? then cached.value else ExchangeRateInfo(OfflineRate, stamp, OfflineSource)
  {
    match Accepted(primary)
    case Some(rate) => ExchangeRateInfo(rate, stamp, PrimarySource)
    case None =>
      match Accepted(fallback)
      case Some(rate) => ExchangeRateInfo(rate, stamp, FallbackSource)
      case None => if cached.Some? then cached.value else ExchangeRateInfo(OfflineRate, stamp, OfflineSource)
  }

  /** A source delivered the rate, so the chain stores it. */
  predicate Refreshed(primary: SourceResponse, fallback: SourceResponse)
  {
    Accepted(primary).Some? || Accepted(fallback).Some?
  }

  /** The module-level `cachedInfo` / `cachedAt` pair. */
  class RateCache {
    var cachedInfo: Option<ExchangeRateInfo>
    var cachedAt: int

    /** Only a positive rate is ever cached. */
    predicate Valid()
      reads this
    {
      cachedInfo.Some? ==> cachedInfo.value.rate > 0.0
    }

    constructor()
      ensures Valid() && cachedInfo.None? && cachedAt == 0
    {
      cachedInfo := None;
      cachedAt := 0;
    }

    predicate Fresh(now: int)
      reads this
    {
      cachedInfo.Some? && now - cachedAt < CacheTtlMs
    }

    /** `getExchangeRateInfo` at time `now`; `storedAt` is the clock read
        when a new rate is cached. A fresh cache is returned as it is; a
        rate from either source replaces the cache and its time; when both
        fail the cache is left alone. The rate returned is always above 0. */
    method GetExchangeRateInfo(now: int, storedAt: int, stamp: string, primary: SourceResponse, fallback: SourceResponse)
      returns (info: ExchangeRateInfo)
      requires Valid()
      modifies this
      ensures Valid()
      ensures info.rate > 0.0
      ensures old(Fresh(now)) ==> info == old(cachedInfo).value && unchanged(this)
      ensures !old(Fresh(now)) ==> info == Chain(old(cachedInfo), stamp, primary, fallback)
      ensures !old(Fresh(now)) && Refreshed(primary, fallback) ==> cachedInfo == Some(info) && cachedAt == storedAt
      ensures !old(Fresh(now)) && !Refreshed(primary, fallback) ==> unchanged(this)
    {
      if cachedInfo.Some? && now - cachedAt < CacheTtlMs {
        return cachedInfo.value;
      }
      if primary.Answered? && primary.ok && primary.inr.Some? && primary.inr.value > 0.0 {
        cachedInfo := Some(ExchangeRateInfo(primary.inr.value, stamp, PrimarySource));
        cachedAt := storedAt;
        return cachedInfo.value;
      }
      if fallback.Answered? && fallback.ok && fallback.inr.Some? && fallback.inr.value > 0.0 {
        cachedInfo := Some(ExchangeRateInfo(fallback.inr.value, stamp, FallbackSource));
        cachedAt := storedAt;
        return cachedInfo.value;
      }
      if cachedInfo.Some? {
        return cachedInfo.value;
      }
      return ExchangeRateInfo(OfflineRate, stamp, OfflineSource);
    }

    /** `getUsdToInrRate`: the rate of `getExchangeRateInfo`. */
    method GetUsdToInrRate(now: int, storedAt: int, stamp: string, primary: SourceResponse, fallback: SourceResponse)
      returns (rate: real)
      requires Valid()
      modifies this
      ensures Valid()
      ensures rate > 0.0
      ensures old(Fresh(now)) ==> rate == old(cachedInfo).value.rate && unchanged(this)
      ensures !old(Fresh(now)) ==> rate == Chain(old(cachedInfo), stamp, primary, fallback).rate
    {
      var info := GetExchangeRateInfo(now, storedAt, stamp, primary, fallback);
      rate := info.rate;
    }
  }
}
