/**
 * Currency conversion through the US dollar. Rates are "units per 1 USD"; the live table comes
 * from the rate provider and is cached for one hour; a static fallback table covers the
 * currencies the provider does not return.
 */
module CurrencyService {
  import opened Wrappers
  import opened Text
  import opened Domain

  const Pivot: string := "USD"

  /** Approximate rates per 1 USD used when the live table lacks a currency. */
  const FallbackRatesVsUsd: map<string, real> := map[
    "MKD" := 57.0,
    "EUR" := 0.92,
    "GBP" := 0.79,
    "CHF" := 0.88,
    "CAD" := 1.36,
    "AUD" := 1.53,
    "JPY" := 149.0,
    "RSD" := 108.0,
    "BGN" := 1.80,
    "ALL" := 95.0]

  const CacheDuration: int := TicksPerHour

  /**
   * The rate of `currency` per 1 USD: 1 for the dollar itself, else the live table's entry for
   * the upper-cased code, else the fallback table's, else unknown.
   */
  function RateVsUsd(currency: string, rates: map<string, real>): (r: Option<real>)
    ensures r.None? <==>
      !EqualsIgnoreCase(currency, Pivot) && Upper(currency) !in rates && Upper(currency) !in FallbackRatesVsUsd
    ensures r.Some? && !EqualsIgnoreCase(currency, Pivot) ==>
      r.value in rates.Values || r.value in FallbackRatesVsUsd.Values
  {
    if EqualsIgnoreCase(currency, Pivot) then Some(1.0)
    else if Upper(currency) in rates then Some(rates[Upper(currency)])
    else if Upper(currency) in FallbackRatesVsUsd then Some(FallbackRatesVsUsd[Upper(currency)])
    else None
  }

  /** `ConvertAsync` once the rate table is known. */
  function ConvertWithRates(amount: real, from: string, to: string, rates: map<string, real>): (r: real)
    ensures r != amount ==> !EqualsIgnoreCase(from, to) && RateVsUsd(from, rates).Some? && RateVsUsd(to, rates).Some?
  {
    if EqualsIgnoreCase(from, to) then amount
    else
      match RateVsUsd(from, rates)
      case None => amount
      case Some(fromRate) =>
        match RateVsUsd(to, rates)
        case None => amount
        case Some(toRate) => if fromRate == 0.0 then 0.0 else amount / fromRate * toRate
  }

  // ---------------------------------------------------------------------------------------
  // Properties of the conversion
  // ---------------------------------------------------------------------------------------

  lemma UpperUsd()
    ensures Upper(Pivot) == Pivot
  {
    assert Pivot[1..] == "SD" && "SD"[1..] == "D" && "D"[1..] == [];
  }

  /** The dollar always has rate 1, whatever either table says. */
  lemma UsdRateIsOne(currency: string, rates: map<string, real>)
    requires EqualsIgnoreCase(currency, Pivot)
    ensures RateVsUsd(currency, rates) == Some(1.0)
  {
  }

  /** The rate depends on the code only up to letter case. */
  lemma RateIgnoresCase(a: string, b: string, rates: map<string, real>)
    requires EqualsIgnoreCase(a, b)
    ensures RateVsUsd(a, rates) == RateVsUsd(b, rates)
  {
  }

  /** So does the conversion, on either side. */
  lemma ConvertIgnoresCase(amount: real, from: string, from': string, to: string, to': string, rates: map<string, real>)
    requires EqualsIgnoreCase(from, from') && EqualsIgnoreCase(to, to')
    ensures ConvertWithRates(amount, from, to, rates) == ConvertWithRates(amount, from', to', rates)
  {
    RateIgnoresCase(from, from', rates);
    RateIgnoresCase(to, to', rates);
  }

  /**
   * For any other currency the live table wins; the fallback table is consulted only when the
   * live table lacks the upper-cased code; a code in neither is unknown.
   */
  lemma LiveRateTakesPrecedence(currency: string, rates: map<string, real>)
    requires !EqualsIgnoreCase(currency, Pivot)
    ensures Upper(currency) in rates ==> RateVsUsd(currency, rates) == Some(rates[Upper(currency)])
    ensures Upper(currency) !in rates && Upper(currency) in FallbackRatesVsUsd ==>
      RateVsUsd(currency, rates) == Some(FallbackRatesVsUsd[Upper(currency)])
    ensures RateVsUsd(currency, rates).None? <==>
      Upper(currency) !in rates && Upper(currency) !in FallbackRatesVsUsd
  {
  }

  /** Converting between spellings of the same code returns the amount, whatever the rates. */
  lemma SameCurrencyIsIdentity(amount: real, from: string, to: string, rates: map<string, real>, other: map<string, real>)
    requires EqualsIgnoreCase(from, to)
    ensures ConvertWithRates(amount, from, to, rates) == amount
    ensures ConvertWithRates(amount, from, to, rates) == ConvertWithRates(amount, from, to, other)
  {
  }

  /** An unknown currency on either side leaves the amount as it is. */
  lemma UnknownCurrencyKeepsAmount(amount: real, from: string, to: string, rates: map<string, real>)
    requires RateVsUsd(from, rates).None? || RateVsUsd(to, rates).None?
    ensures ConvertWithRates(amount, from, to, rates) == amount
  {
  }

  /** A zero source rate gives 0; otherwise the result is `amount / fromRate * toRate`. */
  lemma ConvertFormula(amount: real, from: string, to: string, rates: map<string, real>)
    requires !EqualsIgnoreCase(from, to)
    requires RateVsUsd(from, rates).Some? && RateVsUsd(to, rates).Some?
    ensures var fromRate, toRate := RateVsUsd(from, rates).value, RateVsUsd(to, rates).value;
      ConvertWithRates(amount, from, to, rates) == if fromRate == 0.0 then 0.0 else amount / fromRate * toRate
  {
  }

  /** Dollars to denars with an empty live table use the fallback rate 57. */
  lemma UsdToMkdWithFallback(amount: real)
    ensures ConvertWithRates(amount, "USD", "MKD", map[]) == amount * 57.0
  {
    UpperUsd();
    assert "MKD"[1..] == "KD" && "KD"[1..] == "D" && "D"[1..] == [];
    assert Upper("MKD") == "MKD";
    assert !EqualsIgnoreCase("USD", "MKD");
  }

  /** Converting there and back returns the original amount when both rates are known and non-zero. */
  lemma RoundTrip(amount: real, from: string, to: string, rates: map<string, real>)
    requires RateVsUsd(from, rates).Some? && RateVsUsd(from, rates).value != 0.0
    requires RateVsUsd(to, rates).Some? && RateVsUsd(to, rates).value != 0.0
    ensures ConvertWithRates(ConvertWithRates(amount, from, to, rates), to, from, rates) == amount
  {
    if !EqualsIgnoreCase(from, to) {
      var f, t := RateVsUsd(from, rates).value, RateVsUsd(to, rates).value;
      assert ConvertWithRates(amount, from, to, rates) == amount / f * t;
      MulDivCancel(amount / f, t);
      DivMulCancel(amount, f);
      assert ConvertWithRates(amount / f * t, to, from, rates) == amount / f * t / t * f;
    }
  }

  lemma MulDivCancel(x: real, d: real)
    requires d != 0.0
    ensures x * d / d == x
  {
  }

  lemma DivMulCancel(x: real, d: real)
    requires d != 0.0
    ensures x / d * d == x
  {
  }

  /** Conversion between two non-dollar currencies is conversion to dollars and on from there. */
  lemma ThroughTheDollar(amount: real, from: string, to: string, rates: map<string, real>)
    requires !EqualsIgnoreCase(from, Pivot) && !EqualsIgnoreCase(to, Pivot) && !EqualsIgnoreCase(from, to)
    requires RateVsUsd(from, rates).Some? && RateVsUsd(from, rates).value != 0.0
    requires RateVsUsd(to, rates).Some?
    ensures ConvertWithRates(amount, from, to, rates) ==
            ConvertWithRates(ConvertWithRates(amount, from, Pivot, rates), Pivot, to, rates)
  {
    UpperUsd();
    var f, t := RateVsUsd(from, rates).value, RateVsUsd(to, rates).value;
    assert ConvertWithRates(amount, from, Pivot, rates) == amount / f * 1.0;
    assert ConvertWithRates(amount / f * 1.0, Pivot, to, rates) == amount / f * 1.0 / 1.0 * t;
  }

  // ---------------------------------------------------------------------------------------
  // The service and its rate cache
  // ---------------------------------------------------------------------------------------

  /**
   * The service with its cache: the last table fetched (None before the first success) and
   * when it was fetched (`DateTime.MinValue` before that).
   */
  class FreeCurrencyService {
    var cachedRates: Option<map<string, real>>
    var cacheTime: DateTime

    ghost predicate Valid()
      reads this
    {
      cachedRates.None? ==> cacheTime == MinDateTime
    }

    constructor ()
      ensures Valid()
      ensures cachedRates == None && cacheTime == MinDateTime
    {
      cachedRates := None;
      cacheTime := MinDateTime;
    }

    /** The cache holds a table fetched less than an hour before `now`. */
    predicate IsFresh(now: DateTime)
      reads this
    {
      cachedRates.Some? && now - cacheTime < CacheDuration
    }

    /** The table a rate lookup at `now` hands back, given what a fetch would bring. */
    function RatesAt(now: DateTime, fetched: Option<map<string, real>>): map<string, real>
      reads this
    {
      if IsFresh(now) then cachedRates.value
      else if fetched.Some? then fetched.value
      else cachedRates.GetOr(map[])
    }

    /**
     * `GetExchangeRatesAsync`. `fetched` is what the provider call would yield: None for an
     * exception or a missing `data` member. It is consulted only when the cache is not fresh.
     * `baseCurrency` is ignored: the provider is always asked for dollar rates.
     */
    method GetExchangeRates(now: DateTime, fetched: Option<map<string, real>>, baseCurrency: string) returns (rates: map<string, real>)
      requires Valid()
      modifies this
      ensures Valid()
      ensures rates == old(RatesAt(now, fetched))
      ensures old(IsFresh(now)) ==> rates == old(cachedRates).value && unchanged(this)
      ensures !old(IsFresh(now)) && fetched.Some? ==>
        rates == fetched.value && cachedRates == fetched && cacheTime == now
      ensures !old(IsFresh(now)) && fetched.None? ==>
        rates == old(cachedRates).GetOr(map[]) && unchanged(this)
    {
      if IsFresh(now) {
        return cachedRates.value;
      }
      if fetched.Some? {
        cachedRates := fetched;
        cacheTime := now;
        return cachedRates.value;
      }
      rates := cachedRates.GetOr(map[]);
    }

    /** `ConvertAsync`: the same currency short-circuits before the cache is touched. */
    method Convert(amount: real, from: string, to: string, now: DateTime, fetched: Option<map<string, real>>) returns (r: real)
      requires Valid()
      modifies this
      ensures Valid()
      ensures EqualsIgnoreCase(from, to) ==> r == amount && unchanged(this)
      ensures !EqualsIgnoreCase(from, to) ==>
        && r == ConvertWithRates(amount, from, to, old(RatesAt(now, fetched)))
        && (old(IsFresh(now)) || fetched.None? ==> unchanged(this))
        && (!old(IsFresh(now)) && fetched.Some? ==> cachedRates == fetched && cacheTime == now)
    {
      if EqualsIgnoreCase(from, to) {
        return amount;
      }
      var rates := GetExchangeRates(now, fetched, Pivot);
      var fromRate := LookUpRate(from, rates);
      if fromRate.None? {
        return amount;
      }
      var toRate := LookUpRate(to, rates);
      if toRate.None? {
        return amount;
      }
      if fromRate.value == 0.0 {
        return 0.0;
      }
      r := amount / fromRate.value * toRate.value;
    }
  }

  /**
   * The rate lookup `ConvertAsync` performs once for the source and once for the target code:
   * 1 for the dollar, else the live entry for the upper-cased code, else the fallback entry.
   * None is the branch that logs a warning and returns the amount unconverted.
   */
  method LookUpRate(currency: string, rates: map<string, real>) returns (rate: Option<real>)
    ensures rate == RateVsUsd(currency, rates)
  {
    rate := Some(1.0);
    if !EqualsIgnoreCase(currency, Pivot) {
      var key := Upper(currency);
      if key in rates {
        rate := Some(rates[key]);
      } else if key in FallbackRatesVsUsd {
        rate := Some(FallbackRatesVsUsd[key]);
      } else {
        rate := None;
      }
    }
  }

  /**
   * Within the hour after a successful fetch, a second lookup returns the same table and does
   * not depend on (or cause) another fetch.
   */
  method CachedWithinTheHour(service: FreeCurrencyService, t: DateTime, table: map<string, real>,
                             later: DateTime, laterFetch: Option<map<string, real>>)
    returns (first: map<string, real>, second: map<string, real>)
    requires service.Valid() && !service.IsFresh(t)
    requires t <= later < t + CacheDuration
    modifies service
    ensures first == table && second == table
    ensures service.cachedRates == Some(table) && service.cacheTime == t
  {
    first := service.GetExchangeRates(t, Some(table), Pivot);
    second := service.GetExchangeRates(later, laterFetch, Pivot);
  }

  /** A failed fetch with nothing cached yields an empty table, so a dollar-to-denar conversion uses 57. */
  method FallbackWhenProviderDown(service: FreeCurrencyService, amount: real, now: DateTime)
    returns (r: real)
    requires service.Valid() && service.cachedRates == None
    modifies service
    ensures r == amount * 57.0
    ensures service.cachedRates == None
  {
    UsdToMkdWithFallback(amount);
    UpperUsd();
    assert Upper("MKD") == "MKD" by {
      assert "MKD"[1..] == "KD" && "KD"[1..] == "D" && "D"[1..] == [];
    }
    r := service.Convert(amount, "USD", "MKD", now, None);
  }
}
