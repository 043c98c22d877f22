/**
 * Denar pricing with VAT: a price is multiplied by the USD-to-MKD rate, 18% tax is added, and
 * the rate itself is cached for an hour, with 57 as the fallback when the provider fails.
 */
module CarPricing {
  import opened Wrappers
  import opened Domain

  const VatRate: real := 0.18
  const FallbackMkdRate: real := 57.0
  const PricingCurrency: string := "MKD"

  datatype PriceTransformationResult = PriceTransformationResult(
    originalPrice: real,
    exchangeRate: real,
    priceInMkd: real,
    taxAmount: real,
    totalPriceWithTax: real,
    currency: string)

  /** The priced result for `originalPrice` at `exchangeRate` denars per dollar. */
  function PriceWithTax(originalPrice: real, exchangeRate: real): (r: PriceTransformationResult)
    ensures r.originalPrice == originalPrice && r.exchangeRate == exchangeRate
    ensures r.currency == PricingCurrency
    ensures r.priceInMkd == originalPrice * exchangeRate
    ensures r.taxAmount == r.priceInMkd * 18.0 / 100.0
    ensures r.totalPriceWithTax == r.priceInMkd * 118.0 / 100.0
  {
    var priceInMkd := originalPrice * exchangeRate;
    var taxAmount := priceInMkd * VatRate;
    var totalPriceWithTax := priceInMkd + taxAmount;
    PriceTransformationResult(originalPrice, exchangeRate, priceInMkd, taxAmount, totalPriceWithTax, PricingCurrency)
  }

  /** The `catch` block of the price transformation, written out as it stands. */
  function FallbackPriceWithTax(originalPrice: real): (r: PriceTransformationResult)
    ensures r.originalPrice == originalPrice && r.exchangeRate == FallbackMkdRate && r.currency == PricingCurrency
    ensures r.taxAmount == originalPrice * 10.26 && r.totalPriceWithTax == originalPrice * 67.26
  {
    var fallbackRate := 57.0;
    var priceInMkd := originalPrice * fallbackRate;
    var taxAmount := priceInMkd * VatRate;
    PriceTransformationResult(originalPrice, fallbackRate, priceInMkd, taxAmount, priceInMkd + taxAmount, PricingCurrency)
  }

  /** The exception path computes exactly what the normal path computes at rate 57. */
  lemma FallbackPathIsRate57(originalPrice: real)
    ensures FallbackPriceWithTax(originalPrice) == PriceWithTax(originalPrice, FallbackMkdRate)
  {
  }

  /** Tax and total grow with the price: a dearer car never shows a smaller total. */
  lemma TotalIsMonotone(p: real, q: real, exchangeRate: real)
    requires p <= q && exchangeRate >= 0.0
    ensures PriceWithTax(p, exchangeRate).totalPriceWithTax <= PriceWithTax(q, exchangeRate).totalPriceWithTax
  {
    assert p * exchangeRate <= q * exchangeRate;
  }

  /**
   * The service with its single-rate cache: the cached denar rate and its expiry, both unset
   * until the first successful fetch.
   */
  class CarPricingService {
    var cachedExchangeRate: Option<real>
    var cacheExpiry: Option<DateTime>

    constructor ()
      ensures cachedExchangeRate == None && cacheExpiry == None
    {
      cachedExchangeRate := None;
      cacheExpiry := None;
    }

    /** Both cache fields are set and the expiry lies after `now`. */
    predicate IsFresh(now: DateTime)
      reads this
    {
      cachedExchangeRate.Some? && cacheExpiry.Some? && now < cacheExpiry.value
    }

    /** The rate a lookup at `now` returns, given what a fetch of the rate table would bring. */
    function RateAt(now: DateTime, fetched: Option<map<string, real>>): real
      reads this
    {
      if IsFresh(now) then cachedExchangeRate.value
      else if fetched.Some? && PricingCurrency in fetched.value then fetched.value[PricingCurrency]
      else FallbackMkdRate
    }

    /**
     * `GetExchangeRateAsync`. `fetched` is the provider's `rates` table, or None when the call
     * throws or the table is missing; it is consulted only when the cache is not fresh.
     */
    method GetExchangeRate(now: DateTime, fetched: Option<map<string, real>>) returns (rate: real)
      modifies this
      ensures rate == old(RateAt(now, fetched))
      ensures old(IsFresh(now)) ==> unchanged(this)
      ensures !old(IsFresh(now)) && fetched.Some? && PricingCurrency in fetched.value ==>
        cachedExchangeRate == Some(rate) && cacheExpiry == Some(now + TicksPerHour)
      ensures !old(IsFresh(now)) && !(fetched.Some? && PricingCurrency in fetched.value) ==>
        rate == FallbackMkdRate && unchanged(this)
    {
      if IsFresh(now) {
        return cachedExchangeRate.value;
      }
      if fetched.Some? && PricingCurrency in fetched.value {
        rate := fetched.value[PricingCurrency];
        cachedExchangeRate := Some(rate);
        cacheExpiry := Some(now + TicksPerHour);
        return rate;
      }
      rate := FallbackMkdRate;
    }

    /** `GetTransformedPriceWithTaxAsync`; `fromCurrency` plays no part in the result. */
    method GetTransformedPriceWithTax(originalPrice: real, fromCurrency: string, now: DateTime,
                                      fetched: Option<map<string, real>>) returns (r: PriceTransformationResult)
      modifies this
      ensures r == PriceWithTax(originalPrice, old(RateAt(now, fetched)))
      ensures old(IsFresh(now)) || !(fetched.Some? && PricingCurrency in fetched.value) ==> unchanged(this)
      ensures !old(IsFresh(now)) && fetched.Some? && PricingCurrency in fetched.value ==>
        cachedExchangeRate == Some(r.exchangeRate) && cacheExpiry == Some(now + TicksPerHour)
    {
      var exchangeRate := GetExchangeRate(now, fetched);
      r := PriceWithTax(originalPrice, exchangeRate);
    }

    /** `TransformPriceToMKDAsync`: the denar price of the full transformation. */
    method TransformPriceToMkd(originalPrice: real, fromCurrency: string, now: DateTime,
                               fetched: Option<map<string, real>>) returns (priceInMkd: real)
      modifies this
      ensures priceInMkd == PriceWithTax(originalPrice, old(RateAt(now, fetched))).priceInMkd
      ensures priceInMkd == originalPrice * old(RateAt(now, fetched))
      ensures old(IsFresh(now)) || !(fetched.Some? && PricingCurrency in fetched.value) ==> unchanged(this)
      ensures !old(IsFresh(now)) && fetched.Some? && PricingCurrency in fetched.value ==>
        cachedExchangeRate == Some(fetched.value[PricingCurrency]) && cacheExpiry == Some(now + TicksPerHour)
    {
      var result := GetTransformedPriceWithTax(originalPrice, fromCurrency, now, fetched);
      priceInMkd := result.priceInMkd;
    }
  }

  /** A failed fetch is retried on the next call: the fallback is never cached. */
  method FallbackIsNotCached(service: CarPricingService, t: DateTime, later: DateTime, table: map<string, real>)
    returns (first: real, second: real)
    requires !service.IsFresh(t) && !service.IsFresh(later)
    requires PricingCurrency in table
    modifies service
    ensures first == FallbackMkdRate
    ensures second == table[PricingCurrency]
    ensures service.cachedExchangeRate == Some(second) && service.cacheExpiry == Some(later + TicksPerHour)
  {
    first := service.GetExchangeRate(t, None);
    second := service.GetExchangeRate(later, Some(table));
  }

  /** Within the hour after a successful fetch the cached rate is served, whatever the provider says. */
  method CachedRateWithinTheHour(service: CarPricingService, t: DateTime, table: map<string, real>,
                                 later: DateTime, laterFetch: Option<map<string, real>>)
    returns (first: real, second: real)
    requires !service.IsFresh(t) && PricingCurrency in table
    requires later < t + TicksPerHour
    modifies service
    ensures first == table[PricingCurrency] && second == first
  {
    first := service.GetExchangeRate(t, Some(table));
    second := service.GetExchangeRate(later, laterFetch);
  }
}
