/**
 * IP geolocation through ip-api.com: which URL is asked for a client address, and how the
 * country and currency codes are read from the decoded response, with "US" and "MKD" as the
 * defaults when the response is missing or says nothing.
 */
module Geolocation {
  import opened Wrappers

  const BaseUrl: string := "http://ip-api.com/json"
  const DefaultCountryCode: string := "US"
  const DefaultCurrencyCode: string := "MKD"

  /** The nested `currency` object of the older response layout. */
  datatype CurrencyInfo = CurrencyInfo(code: Option<string>)

  /** The decoded JSON body; every member may be absent. */
  datatype GeolocationResponse = GeolocationResponse(
    countryCode: Option<string>,
    countryCode2: Option<string>,
    currencyCode: Option<string>,
    currency: Option<CurrencyInfo>)

  /** What a fetch of a URL yields: the decoded body, or None for an exception or a null body. */
  type Fetch = string -> Option<GeolocationResponse>

  // ---------------------------------------------------------------------------------------
  // The URL choice
  // ---------------------------------------------------------------------------------------

  /** An empty address or a loopback address (IPv6 or IPv4). */
  predicate IsLocalAddress(ip: string) {
    ip == "" || ip == "::1" || ip == "127.0.0.1"
  }

  /** The URL asked for `ip`: the bare base URL for a local address, else the address appended. */
  function GeolocationUrl(ip: string): (url: string)
    ensures |BaseUrl| <= |url| && url[..|BaseUrl|] == BaseUrl
  {
    if IsLocalAddress(ip) then BaseUrl else BaseUrl + "/" + ip
  }

  /** Reads the address back from a URL of the shape `BaseUrl/ip`; None for any other URL. */
  function AddressOfUrl(url: string): Option<string> {
    if |url| >= |BaseUrl| + 1 && url[..|BaseUrl| + 1] == BaseUrl + "/" then Some(url[|BaseUrl| + 1..])
    else None
  }

  /** The bare base URL is asked for exactly the local addresses. */
  lemma BareUrlIffLocal(ip: string)
    ensures GeolocationUrl(ip) == BaseUrl <==> IsLocalAddress(ip)
  {
    if !IsLocalAddress(ip) {
      assert |GeolocationUrl(ip)| == |BaseUrl| + 1 + |ip|;
    }
  }

  /** A remote address can be read back from its URL; a local one leaves no address in it. */
  lemma UrlRoundTrip(ip: string)
    ensures AddressOfUrl(GeolocationUrl(ip)) == if IsLocalAddress(ip) then None else Some(ip)
  {
    var url := GeolocationUrl(ip);
    if !IsLocalAddress(ip) {
      assert url[..|BaseUrl| + 1] == BaseUrl + "/";
      assert url[|BaseUrl| + 1..] == ip;
    }
  }

  /** Different remote addresses are asked for at different URLs. */
  lemma RemoteUrlsAreDistinct(a: string, b: string)
    requires !IsLocalAddress(a) && !IsLocalAddress(b) && a != b
    ensures GeolocationUrl(a) != GeolocationUrl(b)
  {
    UrlRoundTrip(a);
    UrlRoundTrip(b);
  }

  // ---------------------------------------------------------------------------------------
  // Reading the codes: a chain of `??`
  // ---------------------------------------------------------------------------------------

  /** No candidate before index `k` is present. */
  predicate NoneBefore(candidates: seq<Option<string>>, k: int)
    requires 0 <= k <= |candidates|
  {
    forall j :: 0 <= j < k ==> candidates[j].None?
  }

  /** Reference definition of a `??` chain: the first present candidate, else the default. */
  function FirstPresent(candidates: seq<Option<string>>, default: string): string {
    if |candidates| == 0 then default
    else if candidates[0].Some? then candidates[0].value
    else FirstPresent(candidates[1..], default)
  }

  /** `FirstPresent` is the first present candidate when there is one, and the default otherwise. */
  lemma {:induction false} FirstPresentSpec(candidates: seq<Option<string>>, default: string)
    ensures NoneBefore(candidates, |candidates|) ==> FirstPresent(candidates, default) == default
    ensures forall k | 0 <= k < |candidates| && candidates[k].Some? && NoneBefore(candidates, k) ::
      FirstPresent(candidates, default) == candidates[k].value
  {
    if |candidates| > 0 {
      var rest := candidates[1..];
      FirstPresentSpec(rest, default);
      if candidates[0].None? {
        if NoneBefore(candidates, |candidates|) {
          assert NoneBefore(rest, |rest|) by {
            forall j | 0 <= j < |rest| ensures rest[j].None? {
              assert rest[j] == candidates[j + 1];
            }
          }
        }
        forall k | 0 <= k < |candidates| && candidates[k].Some? && NoneBefore(candidates, k)
          ensures FirstPresent(candidates, default) == candidates[k].value
        {
          assert k >= 1;
          assert rest[k - 1] == candidates[k];
          assert NoneBefore(rest, k - 1) by {
            forall j | 0 <= j < k - 1 ensures rest[j].None? {
              assert rest[j] == candidates[j + 1];
            }
          }
        }
      } else {
        forall k | 0 <= k < |candidates| && candidates[k].Some? && NoneBefore(candidates, k)
          ensures k == 0
        {
        }
      }
    }
  }

  /** A two-link chain `a ?? b ?? default`. */
  lemma FirstPresentOfPair(a: Option<string>, b: Option<string>, default: string)
    ensures FirstPresent([a, b], default) == a.GetOr(b.GetOr(default))
  {
    var c := [a, b];
    assert c[1..] == [b];
    assert c[1..][1..] == [];
    assert FirstPresent([b], default) == b.GetOr(FirstPresent([], default));
  }

  /** `data?.Currency?.Code`. */
  function NestedCurrencyCode(currency: Option<CurrencyInfo>): Option<string> {
    match currency
    case None => None
    case Some(info) => info.code
  }

  /** The candidates for the country code, in the order they are tried. */
  function CountryCandidates(data: Option<GeolocationResponse>): seq<Option<string>> {
    match data
    case None => []
    case Some(d) => [d.countryCode2, d.countryCode]
  }

  /** The candidates for the currency code, in the order they are tried. */
  function CurrencyCandidates(data: Option<GeolocationResponse>): seq<Option<string>> {
    match data
    case None => []
    case Some(d) => [d.currencyCode, NestedCurrencyCode(d.currency)]
  }

  /** The country code of a response: `country_code2`, else `countryCode`, else "US". */
  function CountryCode(data: Option<GeolocationResponse>): (r: string)
    ensures r == DefaultCountryCode || Some(r) in CountryCandidates(data)
  {
    match data
    case None => DefaultCountryCode
    case Some(d) => d.countryCode2.GetOr(d.countryCode.GetOr(DefaultCountryCode))
  }

  /** The currency code of a response: `currency`, else `currency.code`, else "MKD". */
  function CurrencyCode(data: Option<GeolocationResponse>): (r: string)
    ensures r == DefaultCurrencyCode || Some(r) in CurrencyCandidates(data)
  {
    match data
    case None => DefaultCurrencyCode
    case Some(d) => d.currencyCode.GetOr(NestedCurrencyCode(d.currency).GetOr(DefaultCurrencyCode))
  }

  /** The country chain is the first present of its candidates. */
  lemma CountryCodeIsFirstPresent(data: Option<GeolocationResponse>)
    ensures CountryCode(data) == FirstPresent(CountryCandidates(data), DefaultCountryCode)
  {
    if data.Some? {
      FirstPresentOfPair(data.value.countryCode2, data.value.countryCode, DefaultCountryCode);
    }
  }

  /** The currency chain is the first present of its candidates. */
  lemma CurrencyCodeIsFirstPresent(data: Option<GeolocationResponse>)
    ensures CurrencyCode(data) == FirstPresent(CurrencyCandidates(data), DefaultCurrencyCode)
  {
    if data.Some? {
      FirstPresentOfPair(data.value.currencyCode, NestedCurrencyCode(data.value.currency), DefaultCurrencyCode);
    }
  }

  /**
   * The field order decides: a present `country_code2` wins over `countryCode`, and the default
   * applies exactly when no candidate is present.
   */
  lemma CountryCodePriority(data: Option<GeolocationResponse>)
    ensures data.Some? && data.value.countryCode2.Some? ==> CountryCode(data) == data.value.countryCode2.value
    ensures data.Some? && data.value.countryCode2.None? && data.value.countryCode.Some? ==>
      CountryCode(data) == data.value.countryCode.value
    ensures NoneBefore(CountryCandidates(data), |CountryCandidates(data)|) ==> CountryCode(data) == DefaultCountryCode
  {
    CountryCodeIsFirstPresent(data);
    FirstPresentSpec(CountryCandidates(data), DefaultCountryCode);
    if data.Some? && data.value.countryCode2.None? {
      assert NoneBefore(CountryCandidates(data), 1);
    }
  }

  /** A present flat `currency` wins over the nested code; the default applies when neither is present. */
  lemma CurrencyCodePriority(data: Option<GeolocationResponse>)
    ensures data.Some? && data.value.currencyCode.Some? ==> CurrencyCode(data) == data.value.currencyCode.value
    ensures data.Some? && data.value.currencyCode.None? && NestedCurrencyCode(data.value.currency).Some? ==>
      CurrencyCode(data) == NestedCurrencyCode(data.value.currency).value
    ensures NoneBefore(CurrencyCandidates(data), |CurrencyCandidates(data)|) ==> CurrencyCode(data) == DefaultCurrencyCode
  {
    CurrencyCodeIsFirstPresent(data);
    FirstPresentSpec(CurrencyCandidates(data), DefaultCurrencyCode);
    if data.Some? && data.value.currencyCode.None? {
      assert NoneBefore(CurrencyCandidates(data), 1);
    }
  }

  // ---------------------------------------------------------------------------------------
  // The service operations
  // ---------------------------------------------------------------------------------------

  /** `GetGeolocationDataAsync`: the fetch of the URL chosen for `ip`. */
  function GetGeolocationData(ip: string, fetch: Fetch): (data: Option<GeolocationResponse>)
    ensures IsLocalAddress(ip) ==> data == fetch(BaseUrl)
    ensures !IsLocalAddress(ip) ==> data == fetch(BaseUrl + "/" + ip)
  {
    fetch(GeolocationUrl(ip))
  }

  /** `GetCountryCodeAsync`. */
  function GetCountryCode(ip: string, fetch: Fetch): (r: string)
    ensures r == FirstPresent(CountryCandidates(fetch(GeolocationUrl(ip))), DefaultCountryCode)
    ensures r == DefaultCountryCode || Some(r) in CountryCandidates(fetch(GeolocationUrl(ip)))
  {
    CountryCodeIsFirstPresent(fetch(GeolocationUrl(ip)));
    CountryCode(GetGeolocationData(ip, fetch))
  }

  /** `GetCurrencyCodeAsync`. */
  function GetCurrencyCode(ip: string, fetch: Fetch): (r: string)
    ensures r == FirstPresent(CurrencyCandidates(fetch(GeolocationUrl(ip))), DefaultCurrencyCode)
    ensures r == DefaultCurrencyCode || Some(r) in CurrencyCandidates(fetch(GeolocationUrl(ip)))
  {
    CurrencyCodeIsFirstPresent(fetch(GeolocationUrl(ip)));
    CurrencyCode(GetGeolocationData(ip, fetch))
  }

  /** A failed fetch leaves both answers at their defaults. */
  lemma FailedFetchGivesDefaults(ip: string, fetch: Fetch)
    requires fetch(GeolocationUrl(ip)).None?
    ensures GetCountryCode(ip, fetch) == DefaultCountryCode
    ensures GetCurrencyCode(ip, fetch) == DefaultCurrencyCode
  {
  }

  /** All local addresses are located alike: as the server's own address. */
  lemma LocalAddressesAgree(a: string, b: string, fetch: Fetch)
    requires IsLocalAddress(a) && IsLocalAddress(b)
    ensures GetCountryCode(a, fetch) == GetCountryCode(b, fetch)
    ensures GetCurrencyCode(a, fetch) == GetCurrencyCode(b, fetch)
  {
  }

  /** A response from a Macedonian address in the ip-api.com layout. */
  lemma MacedonianResponse(ip: string, fetch: Fetch)
    requires fetch(GeolocationUrl(ip)) == Some(GeolocationResponse(Some("MK"), None, Some("MKD"), None))
    ensures GetCountryCode(ip, fetch) == "MK"
    ensures GetCurrencyCode(ip, fetch) == "MKD"
  {
  }
}
