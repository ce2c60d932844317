/**
 * The lookup logic of the geolocation service: normalising the address, the values
 * that are never looked up, the cache, the private ranges answered locally, and
 * the ordered fallback over the HTTP providers.
 *
 * The providers themselves are an oracle `lookup(name, address)`: the location a
 * provider reports, or `None` when it reports nothing or raises.
 */
module Geolocation {
  import opened Wrappers
  import opened Text
  import opened Config

  /** The record `get_location` returns; `lat` and `lon` are floats or `None`. */
  datatype Location = Location(
    country: string, countryCode: string, city: string,
    lat: Option<real>, lon: Option<real>, isp: string, org: string)

  /** The fixed answer for a private or local address. */
  const LOCAL := Location("Local", "LOCAL", "Private Network", None, None, "Local Network", "Private IP Range")

  /** Loopback, the private ranges of section 3 of RFC 1918 written as text
      prefixes, and link-local addresses (RFC 3927). */
  const PRIVATE_PREFIXES: seq<string> := [
    "127.", "192.168.", "10.", "172.16.", "172.17.",
    "172.18.", "172.19.", "172.20.", "172.21.",
    "172.22.", "172.23.", "172.24.", "172.25.",
    "172.26.", "172.27.", "172.28.", "172.29.",
    "172.30.", "172.31.", "169.254."]

  type Lookup = (string, string) -> Option<Location>

  /** The normalised address is empty, "N/A", or a spelling of "nan". */
  predicate Skipped(ip: string) {
    ip == "" || ip == "N/A" || Lower(ip) == "nan"
  }

  /** `ip_address.startswith((...))` over the private prefixes. */
  predicate IsPrivate(ip: string) {
    exists k :: 0 <= k < |PRIVATE_PREFIXES| && StartsWith(ip, PRIVATE_PREFIXES[k])
  }

  /** A text that differs from a prefix at some position does not start with it. */
  lemma Differs(s: string, p: string, i: nat)
    requires i < |p| && i < |s| && s[i] != p[i]
    ensures !StartsWith(s, p)
  {
  }

  /** The prefix test is textual: it covers 172.16 to 172.31 but not the
      neighbouring 172.32, and it accepts text that is no address at all. */
  lemma PrivateExamples()
    ensures IsPrivate("172.16.0.1") && IsPrivate("172.31.255.255") && IsPrivate("10.1.2.3")
    ensures IsPrivate("127.example")
    ensures !IsPrivate("172.32.0.1")
  {
    assert StartsWith("172.16.0.1", PRIVATE_PREFIXES[3]);
    assert StartsWith("172.31.255.255", PRIVATE_PREFIXES[18]);
    assert StartsWith("10.1.2.3", PRIVATE_PREFIXES[2]);
    assert StartsWith("127.example", PRIVATE_PREFIXES[0]);
    var s := "172.32.0.1";
    forall k | 0 <= k < |PRIVATE_PREFIXES| ensures !StartsWith(s, PRIVATE_PREFIXES[k]) {
      if k in {0, 1, 2, 19} {
        Differs(s, PRIVATE_PREFIXES[k], 1);
      } else if k < 17 {
        Differs(s, PRIVATE_PREFIXES[k], 4);
      } else {
        Differs(s, PRIVATE_PREFIXES[k], 5);
      }
    }
  }

  /** `providers_to_try`: the configured provider, then the two fallbacks it is not. */
  function ProvidersToTry(provider: Json): (r: seq<Json>)
    ensures |r| >= 1 && r[0] == provider
    ensures Str("ip-api") in r && Str("ipinfo") in r
    ensures forall i, j :: 0 <= i < j < |r| ==> r[i] != r[j]
    ensures |r| == if provider == Str("ip-api") || provider == Str("ipinfo") then 2 else 3
  {
    [provider]
    + (if provider != Str("ip-api") then [Str("ip-api")] else [])
    + (if provider != Str("ipinfo") then [Str("ipinfo")] else [])
  }

  /** One iteration of the provider loop: providers the service knows are asked,
      any other name leaves `result` without a location. */
  function Query(lookup: Lookup, provider: Json, ip: string): (r: Option<Location>)
    ensures r.Some? ==> provider in {Str("ipapi"), Str("ip-api"), Str("ipinfo")}
  {
    if provider in {Str("ipapi"), Str("ip-api"), Str("ipinfo")} then lookup(provider.s, ip) else None
  }

  /** The answer of the first provider that has one. */
  function FirstFound(providers: seq<Json>, ip: string, lookup: Lookup): Option<Location>
    decreases |providers|
  {
    if |providers| == 0 then None
    else if Query(lookup, providers[0], ip).Some? then Query(lookup, providers[0], ip)
    else FirstFound(providers[1..], ip, lookup)
  }

  /** The first answer wins: it comes from some provider, and every provider before
      it had none; no answer means no provider had one. */
  lemma {:induction false} FirstFoundSpec(providers: seq<Json>, ip: string, lookup: Lookup)
    ensures var r := FirstFound(providers, ip, lookup);
            (r.None? <==> forall j :: 0 <= j < |providers| ==> Query(lookup, providers[j], ip).None?)
            && (r.Some? ==> exists i :: 0 <= i < |providers| && r == Query(lookup, providers[i], ip)
                                       && forall j :: 0 <= j < i ==> Query(lookup, providers[j], ip).None?)
    decreases |providers|
  {
    if |providers| > 0 && Query(lookup, providers[0], ip).None? {
      var rest := providers[1..];
      FirstFoundSpec(rest, ip, lookup);
      assert forall j :: 1 <= j < |providers| ==> providers[j] == rest[j - 1];
      if FirstFound(rest, ip, lookup).Some? {
        var i :| 0 <= i < |rest| && FirstFound(rest, ip, lookup) == Query(lookup, rest[i], ip)
                 && forall j :: 0 <= j < i ==> Query(lookup, rest[j], ip).None?;
        assert providers[i + 1] == rest[i];
      }
    }
  }

  /** `get_location` on a normalised address that is looked up: the cache first,
      then the private ranges, then the providers in order. */
  function Resolve(provider: Json, cache: map<string, Location>, ip: string, lookup: Lookup)
    : (Option<Location>, map<string, Location>)
  {
    if ip in cache then (Some(cache[ip]), cache)
    else if IsPrivate(ip) then (Some(LOCAL), cache[ip := LOCAL])
    else
      var found := FirstFound(ProvidersToTry(provider), ip, lookup);
      (found, if found.Some? then cache[ip := found.value] else cache)
  }

  /** What `get_location` returns, and the cache it leaves behind: nothing, and no
      change, when the service is disabled or the address is skipped. */
  function Locate(enabled: bool, provider: Json, cache: map<string, Location>, raw: string, lookup: Lookup)
    : (Option<Location>, map<string, Location>)
  {
    if !enabled || Skipped(Strip(raw)) then (None, cache)
    else Resolve(provider, cache, Strip(raw), lookup)
  }

  /** The cache only grows, by the normalised address at most, and no entry is ever
      replaced. */
  lemma LocateCacheGrows(enabled: bool, provider: Json, cache: map<string, Location>, raw: string, lookup: Lookup)
    ensures var c := Locate(enabled, provider, cache, raw, lookup).1;
            (forall k :: k in cache ==> k in c && c[k] == cache[k])
            && c.Keys <= cache.Keys + {Strip(raw)}
  {
    var ip := Strip(raw);
    if enabled && !Skipped(ip) && ip !in cache {
      var found := if IsPrivate(ip) then Some(LOCAL) else FirstFound(ProvidersToTry(provider), ip, lookup);
      assert Locate(enabled, provider, cache, raw, lookup).1 == if found.Some? then cache[ip := found.value] else cache;
    }
  }

  /** An answer is remembered: asking again gives it back and consults no provider,
      whatever the providers would now say. */
  lemma LocateRemembers(enabled: bool, provider: Json, cache: map<string, Location>, raw: string,
                        lookup: Lookup, later: Lookup)
    requires Locate(enabled, provider, cache, raw, lookup).0.Some?
    ensures var (r, c) := Locate(enabled, provider, cache, raw, lookup);
            Locate(enabled, provider, c, raw, later) == (r, c)
  {
  }

  /** No answer caches nothing, so the next call asks the providers again. */
  lemma LocateRetries(enabled: bool, provider: Json, cache: map<string, Location>, raw: string,
                      lookup: Lookup, later: Lookup)
    requires Locate(enabled, provider, cache, raw, lookup).0.None?
    ensures Locate(enabled, provider, cache, raw, lookup).1 == cache
  {
  }

  /** When the configured provider has nothing, the fallbacks are asked in order. */
  lemma FallbackOrder(provider: Json, ip: string, lookup: Lookup)
    requires provider == Str("ipapi") && lookup("ipapi", ip).None?
    ensures FirstFound(ProvidersToTry(provider), ip, lookup)
            == if lookup("ip-api", ip).Some? then lookup("ip-api", ip) else lookup("ipinfo", ip)
  {
    var ps := ProvidersToTry(provider);
    assert ps == [Str("ipapi"), Str("ip-api"), Str("ipinfo")];
    assert ps[1..] == [Str("ip-api"), Str("ipinfo")] && ps[1..][1..] == [Str("ipinfo")];
    assert Query(lookup, Str("ipapi"), ip) == lookup("ipapi", ip);
    assert Query(lookup, Str("ip-api"), ip) == lookup("ip-api", ip);
    assert Query(lookup, Str("ipinfo"), ip) == lookup("ipinfo", ip);
    var tail := ps[1..];
    assert FirstFound(ps, ip, lookup) == FirstFound(tail, ip, lookup);
    assert tail[1..] == [Str("ipinfo")] && tail[1..][1..] == [];
    assert FirstFound(tail[1..], ip, lookup) == lookup("ipinfo", ip);
  }

  /** `GeolocationService`: the `geolocation` section's switch and provider, and the
      cache of answers. */
  class GeolocationService {
    const enabled: bool
    const provider: Json
    var cache: map<string, Location>

    /** Only normalised, looked-up addresses are cached, and a private address is
        always cached with the local answer. */
    ghost predicate Valid()
      reads this
    {
      forall k :: k in cache ==> !Skipped(k) && Strip(k) == k && (IsPrivate(k) ==> cache[k] == LOCAL)
    }

    /** `__init__`: `enabled` defaults to true and the provider to "ipapi". */
    constructor (section: Dict)
      ensures Valid()
      ensures enabled == ("enabled" !in section || Truthy(section["enabled"]))
      ensures provider == if "api_provider" in section then section["api_provider"] else Str("ipapi")
      ensures cache == map[]
    {
      enabled := "enabled" !in section || Truthy(section["enabled"]);
      provider := if "api_provider" in section then section["api_provider"] else Str("ipapi");
      cache := map[];
    }

    /** `get_location`. */
    method GetLocation(raw: string, lookup: Lookup) returns (r: Option<Location>)
      requires Valid()
      modifies this
      ensures Valid()
      ensures r == Locate(enabled, provider, old(cache), raw, lookup).0
      ensures cache == Locate(enabled, provider, old(cache), raw, lookup).1
    {
      var ip := Strip(raw);
      if !enabled || Skipped(ip) {
        r := None;
      } else {
        StripTwice(raw);
        r := Find(ip, lookup);
      }
    }

    /** The cache, the private ranges and the providers, for an address that is
        looked up. */
    method Find(ip: string, lookup: Lookup) returns (r: Option<Location>)
      requires Valid() && !Skipped(ip) && Strip(ip) == ip
      modifies this
      ensures Valid()
      ensures r == Resolve(provider, old(cache), ip, lookup).0
      ensures cache == Resolve(provider, old(cache), ip, lookup).1
    {
      if ip in cache {
        return Some(cache[ip]);
      }
      if IsPrivate(ip) {
        cache := cache[ip := LOCAL];
        return Some(LOCAL);
      }
      r := AskProviders(ip, lookup);
    }

    /** The provider loop of `get_location`: the first answer is cached and
        returned, and a provider without one moves on to the next. */
    method AskProviders(ip: string, lookup: Lookup) returns (r: Option<Location>)
      requires Valid() && !Skipped(ip) && Strip(ip) == ip && !IsPrivate(ip)
      modifies this
      ensures Valid()
      ensures r == FirstFound(ProvidersToTry(provider), ip, lookup)
      ensures cache == if r.Some? then old(cache)[ip := r.value] else old(cache)
    {
      var providers := ProvidersToTry(provider);
      var i := 0;
      while i < |providers|
        invariant 0 <= i <= |providers|
        invariant FirstFound(providers[i..], ip, lookup) == FirstFound(providers, ip, lookup)
        invariant cache == old(cache)
      {
        assert providers[i..][0] == providers[i] && providers[i..][1..] == providers[i + 1..];
        var result := Query(lookup, providers[i], ip);
        if result.Some? {
          cache := cache[ip := result.value];
          return result;
        }
        i := i + 1;
      }
      return None;
    }
  }

  /** A private address always gets the local answer, from the cache or not. */
  lemma PrivateIsLocal(s: map<string, Location>, enabled: bool, provider: Json, raw: string, lookup: Lookup)
    requires forall k :: k in s ==> (IsPrivate(k) ==> s[k] == LOCAL)
    requires enabled && !Skipped(Strip(raw)) && IsPrivate(Strip(raw))
    ensures Locate(enabled, provider, s, raw, lookup).0 == Some(LOCAL)
  {
  }

  /** `_geolocation_service` and `get_geolocation_service`. */
  class ServiceRegistry {
    var service: GeolocationService?

    constructor ()
      ensures service == null
    {
      service := null;
    }

    /** The first call creates the service from the `geolocation` section; every
        later call returns that same instance. */
    method GetService(section: Dict) returns (s: GeolocationService)
      modifies this
      ensures old(service) != null ==> s == old(service)
      ensures old(service) == null ==> fresh(s) && s.cache == map[] && s.Valid()
      ensures old(service) == null ==>
                s.enabled == ("enabled" !in section || Truthy(section["enabled"]))
                && s.provider == if "api_provider" in section then section["api_provider"] else Str("ipapi")
      ensures service == s
    {
      if service == null {
        service := new GeolocationService(section);
      }
      s := service;
    }
  }
}
