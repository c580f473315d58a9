/**
 * How `ShowCurrent` classifies an incoming request before any weather is
 * fetched: which address it is attributed to, whether it is a bot probe,
 * and whether it asks for a place or for the requester's own location.
 */
module Routing {
  import opened Strings

  /** The address that forwards requests from the reverse proxy. */
  const Proxy: string := "127.0.0.1"

  datatype Route =
    | NotFound                                  // bot probe: 404
    | Malformed                                 // not /country/city: 400
    | ByPlace(country: string, city: string)    // weather for a named place
    | ByIP(requester: string)                   // weather for the requester

  /**
   * The requester: the remote address up to its first `:`, or the
   * `X-Real-IP` header (empty when absent) when that is the proxy.
   */
  function Requester(remoteAddr: string, realIP: string): string
  {
    var host := Split(remoteAddr, ':')[0];
    if host == Proxy then realIP else host
  }

  /** Paths that mention `.php`, `xml` or `html` are bot probes. */
  predicate IsBotPath(path: string)
  {
    Contains(path, ".php") || Contains(path, "xml") || Contains(path, "html")
  }

  /** The route a request takes, from its remote address, header and path. */
  function RouteOf(remoteAddr: string, realIP: string, path: string): Route
  {
    if IsBotPath(path) then NotFound
    else if |path| > 1 then
      var elems := Split(path[1..], '/');
      if |elems| != 2 then Malformed else ByPlace(elems[0], elems[1])
    else ByIP(Requester(remoteAddr, realIP))
  }

  /**
   * The requester is the proxy's header when the part of the remote address
   * before its first `:` is the proxy, and that part otherwise.
   */
  lemma RequesterIs(remoteAddr: string, realIP: string, host: string)
    requires ':' !in host && host <= remoteAddr
    requires |host| == |remoteAddr| || remoteAddr[|host|] == ':'
    ensures Requester(remoteAddr, realIP) == if host == Proxy then realIP else host
  {
    SplitHead(remoteAddr, ':');
    var h := Split(remoteAddr, ':')[0];
    assert h == remoteAddr[..|h|] && host == remoteAddr[..|host|];
  }

  /** A request is turned away as a bot iff its path holds one of the three markers. */
  lemma NotFoundIff(remoteAddr: string, realIP: string, path: string)
    ensures RouteOf(remoteAddr, realIP, path) == NotFound <==>
      exists i :: OccursAt(path, ".php", i) || OccursAt(path, "xml", i) || OccursAt(path, "html", i)
  {
    ContainsIff(path, ".php");
    ContainsIff(path, "xml");
    ContainsIff(path, "html");
  }

  /**
   * A request that is not a bot probe is malformed iff its path is longer
   * than one character and the rest after the first character does not hold
   * exactly one `/`.
   */
  lemma MalformedIff(remoteAddr: string, realIP: string, path: string)
    ensures RouteOf(remoteAddr, realIP, path) == Malformed <==>
      !IsBotPath(path) && |path| > 1 && Count(path[1..], '/') != 1
  {
    if |path| > 1 {
      SplitLength(path[1..], '/');
    }
  }

  /**
   * A request asks for the place (country, city) iff it is not a bot probe
   * and its path is one character followed by `country/city`, neither of
   * which holds a `/` (either may be empty).
   */
  lemma ByPlaceIff(remoteAddr: string, realIP: string, path: string, country: string, city: string)
    ensures RouteOf(remoteAddr, realIP, path) == ByPlace(country, city) <==>
      !IsBotPath(path) && |path| > 1 && path[1..] == country + "/" + city &&
      '/' !in country && '/' !in city
  {
    if |path| > 1 {
      SplitTwo(path[1..], '/', country, city);
      if RouteOf(remoteAddr, realIP, path) == ByPlace(country, city) {
        assert Split(path[1..], '/') == [country, city];
      }
    }
  }

  /** Only a path of at most one character asks for the requester's own weather. */
  lemma ByIPIff(remoteAddr: string, realIP: string, path: string)
    ensures RouteOf(remoteAddr, realIP, path) == ByIP(Requester(remoteAddr, realIP)) <==>
      !IsBotPath(path) && |path| <= 1
  {
  }
}
