/**
 * The request pipeline of the weather server: the two API limiters, the
 * `resp/` cache directory, and the handlers that consult them in a fixed
 * order. Every network call is replaced by its outcome, given as a
 * parameter. A ghost log records, in order, every outside call, every
 * limiter hit and every cache write, so that the order of the steps can be
 * stated and proved.
 *
 * Each handler is specified by a function from the observable state before
 * the request to the state after it and the result; the lemmas at the end
 * of the module state what a request can and cannot do.
 */
module Wunder {
  import opened Wrappers
  import opened Conditions
  import opened Routing
  import RateLimit

  /** Directory of the cached snapshots; a cache file's name is this plus a key. */
  const CacheDir: string := "resp/"

  /** A cached snapshot is used while it is younger than sixty minutes. */
  const MaxAge: int := 60 * RateLimit.Minute

  /** Budget of the weather API: one call every three minutes. */
  const WunderMaxHits: int := 1
  const WunderPeriod: int := 3 * RateLimit.Minute

  /** Budget of the geocoding API: one call every minute. */
  const MapsMaxHits: int := 1
  const MapsPeriod: int := RateLimit.Minute

  /** What reading a cache file yields. */
  datatype Body = Saved(snapshot: CurrentConditions) | Undecodable | Unreadable

  /** A file under the cache directory: its modification time and contents. */
  datatype File = File(modTime: int, body: Body)

  /** Answer of the IP geolocation service. */
  datatype GeoIP = GeoIP(countryCode: string, city: string, loc: string)

  /** A position returned by the geocoding service. */
  datatype LatLon = LatLon(lat: real, lon: real)

  /** How an HTTP exchange with an upstream service can fail. */
  datatype NetFailure = GetFailed | BodyReadFailed | DecodeFailed

  /** Why a request for weather fails. */
  datatype Error = CacheReadFailed | CacheDecodeFailed | LimitExceeded | Net(cause: NetFailure)

  /** What `Position` ends with; `IndexPanic` is the unguarded access to an empty result list. */
  datatype Located = Found(pos: LatLon) | Unlocated(error: Error) | IndexPanic

  /** What the client receives: a rendered snapshot, an error status, or a dropped connection. */
  datatype Response = Page(snapshot: CurrentConditions) | Status(code: int) | Panic

  datatype Api = Wunder | Maps

  /** Outside effects, in the order they happen. */
  datatype Event =
    | Geolocate(addr: string)          // lookup of an address at ipinfo.io
    | Limit(api: Api, admitted: bool)  // one hit on that API's stamp
    | Geocode(address: string)         // geocoding request for "city,country"
    | WeatherGet(query: string)        // weather request; the URL ends in this query
    | CacheWrite(name: string)         // a cache file is (re)written

  /** The observable state: both limiters, the cache files and the log. */
  datatype World = World(wunder: RateLimit.Window, maps: RateLimit.Window, files: map<string, File>, log: seq<Event>)

  /** A cache file exists and is younger than the maximum age. */
  predicate Fresh(files: map<string, File>, name: string, now: int)
  {
    name in files && now - files[name].modTime < MaxAge
  }

  /** What a fresh cache file gives back. */
  function Cached(body: Body): Result<CurrentConditions, Error>
  {
    match body
    case Saved(c) => Success(c)
    case Undecodable => Failure(CacheDecodeFailed)
    case Unreadable => Failure(CacheReadFailed)
  }

  /** Query for the requester's weather: by coordinates when located, else by the provider's own lookup. */
  function IPQuery(requester: string, geo: Result<GeoIP, NetFailure>): string
  {
    if geo.Failure? then "autoip.json?geo_ip=" + requester else geo.value.loc + ".json"
  }

  /** Cache file name for a position. */
  function PosName(pos: LatLon, fx: Formatting): string
  {
    CacheDir + fx.general(pos.lat) + "," + fx.general(pos.lon)
  }

  /** Query for a position's weather. */
  function PosQuery(pos: LatLon, fx: Formatting): string
  {
    fx.coord2(pos.lat) + "," + fx.coord2(pos.lon) + ".json"
  }

  /**
   * The second half of both weather fetches: one hit on the weather limiter,
   * then the request, then post-processing and the cache write.
   */
  function Fetch(s: World, name: string, query: string, now: int,
                 upstream: Result<CurrentConditions, NetFailure>,
                 fx: Formatting, cacheIcon: string -> string): (World, Result<CurrentConditions, Error>)
  {
    var (w, admitted) := RateLimit.Next(s.wunder, now);
    var s := s.(wunder := w, log := s.log + [Limit(Wunder, admitted)]);
    if !admitted then (s, Failure(LimitExceeded))
    else
      var s := s.(log := s.log + [WeatherGet(query)]);
      match upstream
      case Failure(e) => (s, Failure(Net(e)))
      case Success(c) =>
        var r := Finished(c, fx, cacheIcon);
        (s.(files := s.files[name := File(now, Saved(r))], log := s.log + [CacheWrite(name)]), Success(r))
  }

  /** `GetCurrentByIP`: cache, then geolocation, then the fetch. */
  function CurrentByIP(s: World, requester: string, now: int, geo: Result<GeoIP, NetFailure>,
                       upstream: Result<CurrentConditions, NetFailure>,
                       fx: Formatting, cacheIcon: string -> string): (World, Result<CurrentConditions, Error>)
  {
    var name := CacheDir + requester;
    if Fresh(s.files, name, now) then (s, Cached(s.files[name].body))
    else Fetch(s.(log := s.log + [Geolocate(requester)]), name, IPQuery(requester, geo), now, upstream, fx, cacheIcon)
  }

  /** `GetCurrentByPos`: cache, then the fetch. */
  function CurrentByPos(s: World, pos: LatLon, now: int,
                        upstream: Result<CurrentConditions, NetFailure>,
                        fx: Formatting, cacheIcon: string -> string): (World, Result<CurrentConditions, Error>)
  {
    var name := PosName(pos, fx);
    if Fresh(s.files, name, now) then (s, Cached(s.files[name].body))
    else Fetch(s, name, PosQuery(pos, fx), now, upstream, fx, cacheIcon)
  }

  /** `Position`: one hit on the geocoding limiter, then the geocoding request. */
  function Locate(s: World, country: string, city: string, now: int,
                  geocode: Result<seq<LatLon>, NetFailure>): (World, Located)
  {
    var (m, admitted) := RateLimit.Next(s.maps, now);
    var s := s.(maps := m, log := s.log + [Limit(Maps, admitted)]);
    if !admitted then (s, Unlocated(LimitExceeded))
    else
      var s := s.(log := s.log + [Geocode(city + "," + country)]);
      match geocode
      case Failure(e) => (s, Unlocated(Net(e)))
      case Success(results) => (s, if |results| == 0 then IndexPanic else Found(results[0]))
  }

  /** The response for a fetch result. */
  function Render(r: Result<CurrentConditions, Error>): Response
  {
    if r.Success? then Page(r.value) else Status(503)
  }

  /** `ShowCurrent`: one whole request. */
  function Show(s: World, remoteAddr: string, realIP: string, path: string, now: int,
                geo: Result<GeoIP, NetFailure>, geocode: Result<seq<LatLon>, NetFailure>,
                upstream: Result<CurrentConditions, NetFailure>,
                fx: Formatting, cacheIcon: string -> string): (World, Response)
  {
    match RouteOf(remoteAddr, realIP, path)
    case NotFound => (s, Status(404))
    case Malformed => (s, Status(400))
    case ByPlace(country, city) =>
      var (s, loc) := Locate(s, country, city, now, geocode);
      (match loc
       case Unlocated(_) => (s, Status(503))
       case IndexPanic => (s, Panic)
       case Found(pos) =>
         var (s, r) := CurrentByPos(s, pos, now, upstream, fx, cacheIcon);
         (s, Render(r)))
    case ByIP(requester) =>
      var (s, r) := CurrentByIP(s, requester, now, geo, upstream, fx, cacheIcon);
      (s, Render(r))
  }

  /** Number of hits on the limiter of `api` among `events`. */
  function HitsOn(events: seq<Event>, api: Api): (n: nat)
    ensures n <= |events|
  {
    if events == [] then 0
    else (if events[0].Limit? && events[0].api == api then 1 else 0) + HitsOn(events[1..], api)
  }

  /**
   * Every weather request comes right after an admitted hit on the weather
   * limiter, every geocoding request right after an admitted hit on the
   * geocoding limiter, and every cache write right after a weather request.
   */
  predicate Guarded(log: seq<Event>)
  {
    forall i :: 0 <= i < |log| ==> GuardedAt(log, i)
  }

  /** The event at position `i` has the predecessor it needs. */
  predicate GuardedAt(log: seq<Event>, i: int)
    requires 0 <= i < |log|
  {
    (log[i].WeatherGet? ==> i > 0 && log[i - 1] == Limit(Wunder, true)) &&
    (log[i].Geocode? ==> i > 0 && log[i - 1] == Limit(Maps, true)) &&
    (log[i].CacheWrite? ==> i > 0 && log[i - 1].WeatherGet?)
  }

  /** Bot probes and malformed paths are answered without touching anything. */
  lemma IgnoredRequestsChangeNothing(s: World, remoteAddr: string, realIP: string, path: string, now: int,
                                     geo: Result<GeoIP, NetFailure>, geocode: Result<seq<LatLon>, NetFailure>,
                                     upstream: Result<CurrentConditions, NetFailure>,
                                     fx: Formatting, cacheIcon: string -> string)
    requires IsBotPath(path) || (|path| > 1 && Strings.Count(path[1..], '/') != 1)
    ensures Show(s, remoteAddr, realIP, path, now, geo, geocode, upstream, fx, cacheIcon) ==
      (s, Status(if IsBotPath(path) then 404 else 400))
  {
    MalformedIff(remoteAddr, realIP, path);
  }

  /**
   * A request for the requester's own weather whose cache file is fresh is
   * served from that file: no geolocation, no limiter hit, no request, no
   * write, whatever the outside services would have answered.
   */
  lemma FreshRequesterServedFromCache(s: World, remoteAddr: string, realIP: string, path: string, now: int,
                                      geo: Result<GeoIP, NetFailure>, geocode: Result<seq<LatLon>, NetFailure>,
                                      upstream: Result<CurrentConditions, NetFailure>,
                                      fx: Formatting, cacheIcon: string -> string)
    requires !IsBotPath(path) && |path| <= 1
    requires Fresh(s.files, CacheDir + Requester(remoteAddr, realIP), now)
    ensures var body := s.files[CacheDir + Requester(remoteAddr, realIP)].body;
      Show(s, remoteAddr, realIP, path, now, geo, geocode, upstream, fx, cacheIcon) ==
      (s, if body.Saved? then Page(body.snapshot) else Status(503))
  {
  }

  /**
   * A request for the requester's own weather that misses the cache first
   * asks for the requester's location, then takes exactly one hit on the
   * weather limiter whatever the geolocation gave, and none on the
   * geocoding limiter. When admitted, the single weather request asks for
   * the located coordinates, or for the provider's own lookup of the
   * requester when geolocation failed.
   */
  lemma RequesterMissTakesOneWeatherHit(s: World, remoteAddr: string, realIP: string, path: string, now: int,
                                        geo: Result<GeoIP, NetFailure>, geocode: Result<seq<LatLon>, NetFailure>,
                                        upstream: Result<CurrentConditions, NetFailure>,
                                        fx: Formatting, cacheIcon: string -> string)
    requires !IsBotPath(path) && |path| <= 1
    requires !Fresh(s.files, CacheDir + Requester(remoteAddr, realIP), now)
    ensures var s' := Show(s, remoteAddr, realIP, path, now, geo, geocode, upstream, fx, cacheIcon).0;
      var requester := Requester(remoteAddr, realIP);
      var admitted := RateLimit.Next(s.wunder, now).1;
      s.log <= s'.log && |s'.log| >= |s.log| + 2 &&
      s'.log[|s.log|] == Geolocate(requester) &&
      s'.log[|s.log| + 1] == Limit(Wunder, admitted) &&
      HitsOn(s'.log[|s.log|..], Wunder) == 1 && HitsOn(s'.log[|s.log|..], Maps) == 0 &&
      s'.wunder == RateLimit.Next(s.wunder, now).0 && s'.maps == s.maps &&
      (admitted <==> |s'.log| > |s.log| + 2) &&
      (admitted ==>
         s'.log[|s.log| + 2] ==
         WeatherGet(if geo.Success? then geo.value.loc + ".json" else "autoip.json?geo_ip=" + requester))
  {
    var s' := Show(s, remoteAddr, realIP, path, now, geo, geocode, upstream, fx, cacheIcon).0;
    var e := s'.log[|s.log|..];
    assert s'.log == s.log + e;
    assert HitsOn(e[2..], Wunder) == 0 && HitsOn(e[2..], Maps) == 0;
  }

  /**
   * A request for a place always spends one hit of the geocoding budget
   * first, even when the weather for that place is cached and fresh; when
   * it is, no weather limiter hit and no weather request follow.
   */
  lemma PlaceRequestSpendsGeocodingBudget(s: World, remoteAddr: string, realIP: string, path: string, now: int,
                                          geo: Result<GeoIP, NetFailure>, geocode: Result<seq<LatLon>, NetFailure>,
                                          upstream: Result<CurrentConditions, NetFailure>,
                                          fx: Formatting, cacheIcon: string -> string)
    requires RouteOf(remoteAddr, realIP, path).ByPlace?
    ensures var s' := Show(s, remoteAddr, realIP, path, now, geo, geocode, upstream, fx, cacheIcon).0;
      s.log <= s'.log && |s'.log| > |s.log| &&
      s'.log[|s.log|] == Limit(Maps, RateLimit.Next(s.maps, now).1) &&
      s'.maps == RateLimit.Next(s.maps, now).0
    ensures var (s', resp) := Show(s, remoteAddr, realIP, path, now, geo, geocode, upstream, fx, cacheIcon);
      var route := RouteOf(remoteAddr, realIP, path);
      RateLimit.Next(s.maps, now).1 && geocode.Success? && |geocode.value| > 0 &&
      Fresh(s.files, PosName(geocode.value[0], fx), now) ==>
        s' == s.(maps := RateLimit.Next(s.maps, now).0,
                 log := s.log + [Limit(Maps, true), Geocode(route.city + "," + route.country)]) &&
        resp == Render(Cached(s.files[PosName(geocode.value[0], fx)].body))
  {
  }

  /**
   * When the geocoding limiter refuses, the request fails with 503 at once:
   * no geocoding request, no weather request, no write.
   */
  lemma RefusedPlaceMakesNoRequest(s: World, remoteAddr: string, realIP: string, path: string, now: int,
                                   geo: Result<GeoIP, NetFailure>, geocode: Result<seq<LatLon>, NetFailure>,
                                   upstream: Result<CurrentConditions, NetFailure>,
                                   fx: Formatting, cacheIcon: string -> string)
    requires RouteOf(remoteAddr, realIP, path).ByPlace?
    requires !RateLimit.Next(s.maps, now).1
    ensures Show(s, remoteAddr, realIP, path, now, geo, geocode, upstream, fx, cacheIcon) ==
      (s.(maps := RateLimit.Next(s.maps, now).0, log := s.log + [Limit(Maps, false)]), Status(503))
  {
  }

  /**
   * Whenever `Position` fails (a refused geocoding hit, or a failed request,
   * body read or decoding after an admitted one) the request gets 503 with
   * no weather limiter hit, no weather request and no write.
   */
  lemma UnlocatedPlaceMakesNoWeatherFetch(s: World, remoteAddr: string, realIP: string, path: string, now: int,
                                          geo: Result<GeoIP, NetFailure>, geocode: Result<seq<LatLon>, NetFailure>,
                                          upstream: Result<CurrentConditions, NetFailure>,
                                          fx: Formatting, cacheIcon: string -> string)
    requires RouteOf(remoteAddr, realIP, path).ByPlace?
    requires !RateLimit.Next(s.maps, now).1 || geocode.Failure?
    ensures var (s', resp) := Show(s, remoteAddr, realIP, path, now, geo, geocode, upstream, fx, cacheIcon);
      resp == Status(503) && s'.files == s.files && s'.wunder == s.wunder &&
      s.log <= s'.log && HitsOn(s'.log[|s.log|..], Wunder) == 0 &&
      (forall i :: |s.log| <= i < |s'.log| ==> !s'.log[i].WeatherGet?)
  {
    var route := RouteOf(remoteAddr, realIP, path);
    var s' := Show(s, remoteAddr, realIP, path, now, geo, geocode, upstream, fx, cacheIcon).0;
    var e := if !RateLimit.Next(s.maps, now).1 then [Limit(Maps, false)]
      else [Limit(Maps, true), Geocode(route.city + "," + route.country)];
    assert s'.log == s.log + e;
    assert s'.log[|s.log|..] == e;
  }

  /**
   * A place request whose weather cache misses takes, after its geocoding
   * hit and request, exactly one hit on the weather limiter; when admitted,
   * the single weather request asks for the located coordinates.
   */
  lemma PlaceMissTakesOneWeatherHit(s: World, remoteAddr: string, realIP: string, path: string, now: int,
                                    geo: Result<GeoIP, NetFailure>, geocode: Result<seq<LatLon>, NetFailure>,
                                    upstream: Result<CurrentConditions, NetFailure>,
                                    fx: Formatting, cacheIcon: string -> string)
    requires RouteOf(remoteAddr, realIP, path).ByPlace?
    requires RateLimit.Next(s.maps, now).1
    requires geocode.Success? && |geocode.value| > 0
    requires !Fresh(s.files, PosName(geocode.value[0], fx), now)
    ensures var s' := Show(s, remoteAddr, realIP, path, now, geo, geocode, upstream, fx, cacheIcon).0;
      var route := RouteOf(remoteAddr, realIP, path);
      var admitted := RateLimit.Next(s.wunder, now).1;
      s.log <= s'.log && |s'.log| >= |s.log| + 3 &&
      s'.log[|s.log|..|s.log| + 3] ==
        [Limit(Maps, true), Geocode(route.city + "," + route.country), Limit(Wunder, admitted)] &&
      HitsOn(s'.log[|s.log|..], Wunder) == 1 && HitsOn(s'.log[|s.log|..], Maps) == 1 &&
      s'.wunder == RateLimit.Next(s.wunder, now).0 && s'.maps == RateLimit.Next(s.maps, now).0 &&
      (admitted <==> |s'.log| > |s.log| + 3) &&
      (admitted ==> s'.log[|s.log| + 3] == WeatherGet(PosQuery(geocode.value[0], fx)))
  {
    var s' := Show(s, remoteAddr, realIP, path, now, geo, geocode, upstream, fx, cacheIcon).0;
    var route := RouteOf(remoteAddr, realIP, path);
    var pos := geocode.value[0];
    var admitted := RateLimit.Next(s.wunder, now).1;
    var tail := if !admitted then []
      else if upstream.Failure? then [WeatherGet(PosQuery(pos, fx))]
      else [WeatherGet(PosQuery(pos, fx)), CacheWrite(PosName(pos, fx))];
    var e := [Limit(Maps, true), Geocode(route.city + "," + route.country), Limit(Wunder, admitted)] + tail;
    assert s'.log == s.log + e;
    assert s'.log[|s.log|..] == e;
    assert e[1..] == [Geocode(route.city + "," + route.country), Limit(Wunder, admitted)] + tail;
    assert e[1..][1..] == [Limit(Wunder, admitted)] + tail;
    assert e[1..][1..][1..] == tail;
    assert HitsOn(tail, Wunder) == 0 && HitsOn(tail, Maps) == 0 by {
      if |tail| == 2 {
        assert tail[1..][1..] == [];
      }
    }
    assert HitsOn(e[1..][1..], Wunder) == 1 && HitsOn(e[1..][1..], Maps) == 0;
    assert HitsOn(e, Wunder) == 1 && HitsOn(e, Maps) == 1;
  }

  /**
   * An admitted geocoding request that comes back with no result ends in the
   * unguarded index panic, before any weather request or write.
   */
  lemma EmptyGeocodingPanics(s: World, remoteAddr: string, realIP: string, path: string, now: int,
                             geo: Result<GeoIP, NetFailure>,
                             upstream: Result<CurrentConditions, NetFailure>,
                             fx: Formatting, cacheIcon: string -> string)
    requires RouteOf(remoteAddr, realIP, path).ByPlace?
    requires RateLimit.Next(s.maps, now).1
    ensures var (s', resp) := Show(s, remoteAddr, realIP, path, now, geo, Success([]), upstream, fx, cacheIcon);
      resp == Panic && s'.files == s.files && s'.wunder == s.wunder && |s'.log| == |s.log| + 2
  {
  }

  /**
   * Only a successful request writes, and what it writes is the snapshot it
   * shows: the decoded upstream answer after post-processing, stamped now.
   */
  lemma WritesOnlyShownSnapshot(s: World, remoteAddr: string, realIP: string, path: string, now: int,
                                geo: Result<GeoIP, NetFailure>, geocode: Result<seq<LatLon>, NetFailure>,
                                upstream: Result<CurrentConditions, NetFailure>,
                                fx: Formatting, cacheIcon: string -> string)
    ensures var (s', resp) := Show(s, remoteAddr, realIP, path, now, geo, geocode, upstream, fx, cacheIcon);
      !resp.Page? ==> s'.files == s.files
    ensures var (s', resp) := Show(s, remoteAddr, realIP, path, now, geo, geocode, upstream, fx, cacheIcon);
      s'.files.Keys >= s.files.Keys &&
      forall name :: name in s'.files && (name !in s.files || s'.files[name] != s.files[name]) ==>
        upstream.Success? && resp == Page(Finished(upstream.value, fx, cacheIcon)) &&
        s'.files[name] == File(now, Saved(resp.snapshot))
  {
  }

  /**
   * Every request keeps the log guarded: the limiters stand in front of
   * every upstream request and only a weather answer is ever cached.
   */
  lemma ShowKeepsGuarded(s: World, remoteAddr: string, realIP: string, path: string, now: int,
                         geo: Result<GeoIP, NetFailure>, geocode: Result<seq<LatLon>, NetFailure>,
                         upstream: Result<CurrentConditions, NetFailure>,
                         fx: Formatting, cacheIcon: string -> string)
    requires Guarded(s.log)
    ensures Guarded(Show(s, remoteAddr, realIP, path, now, geo, geocode, upstream, fx, cacheIcon).0.log)
  {
    match RouteOf(remoteAddr, realIP, path)
    case NotFound =>
    case Malformed =>
    case ByPlace(country, city) =>
      LocateKeepsGuarded(s, country, city, now, geocode);
      var (s1, loc) := Locate(s, country, city, now, geocode);
      if loc.Found? {
        var name := PosName(loc.pos, fx);
        if !Fresh(s1.files, name, now) {
          FetchKeepsGuarded(s1, name, PosQuery(loc.pos, fx), now, upstream, fx, cacheIcon);
        }
      }
    case ByIP(requester) =>
      var name := CacheDir + requester;
      if !Fresh(s.files, name, now) {
        GuardedAppend(s.log, [Geolocate(requester)]);
        FetchKeepsGuarded(s.(log := s.log + [Geolocate(requester)]), name, IPQuery(requester, geo),
                          now, upstream, fx, cacheIcon);
      }
  }

  lemma GuardedAppend(a: seq<Event>, b: seq<Event>)
    requires Guarded(a) && Guarded(b)
    ensures Guarded(a + b)
  {
    forall i | 0 <= i < |a + b| ensures GuardedAt(a + b, i) {
      if i < |a| {
        assert GuardedAt(a, i);
      } else {
        assert GuardedAt(b, i - |a|);
        if i > |a| {
          assert (a + b)[i - 1] == b[i - 1 - |a|];
        }
      }
    }
  }

  lemma FetchKeepsGuarded(s: World, name: string, query: string, now: int,
                          upstream: Result<CurrentConditions, NetFailure>,
                          fx: Formatting, cacheIcon: string -> string)
    requires Guarded(s.log)
    ensures Guarded(Fetch(s, name, query, now, upstream, fx, cacheIcon).0.log)
  {
    var admitted := RateLimit.Next(s.wunder, now).1;
    var e := if !admitted then [Limit(Wunder, false)]
      else if upstream.Failure? then [Limit(Wunder, true), WeatherGet(query)]
      else [Limit(Wunder, true), WeatherGet(query), CacheWrite(name)];
    assert Fetch(s, name, query, now, upstream, fx, cacheIcon).0.log == s.log + e;
    GuardedAppend(s.log, e);
  }

  lemma LocateKeepsGuarded(s: World, country: string, city: string, now: int,
                           geocode: Result<seq<LatLon>, NetFailure>)
    requires Guarded(s.log)
    ensures Guarded(Locate(s, country, city, now, geocode).0.log)
  {
    var admitted := RateLimit.Next(s.maps, now).1;
    var e := if !admitted then [Limit(Maps, false)] else [Limit(Maps, true), Geocode(city + "," + country)];
    assert Locate(s, country, city, now, geocode).0.log == s.log + e;
    GuardedAppend(s.log, e);
  }

  /**
   * After a request for the requester's own weather that missed the cache
   * and succeeded, the same request within the next sixty minutes is served
   * from the file just written: the same snapshot, and nothing changes,
   * whatever the outside services would answer the second time.
   */
  lemma CacheRoundTrip(s: World, remoteAddr: string, realIP: string, path: string, now: int, later: int,
                       geo: Result<GeoIP, NetFailure>, geocode: Result<seq<LatLon>, NetFailure>,
                       upstream: Result<CurrentConditions, NetFailure>,
                       geo2: Result<GeoIP, NetFailure>, geocode2: Result<seq<LatLon>, NetFailure>,
                       upstream2: Result<CurrentConditions, NetFailure>,
                       fx: Formatting, cacheIcon: string -> string)
    requires !IsBotPath(path) && |path| <= 1
    requires !Fresh(s.files, CacheDir + Requester(remoteAddr, realIP), now)
    requires Show(s, remoteAddr, realIP, path, now, geo, geocode, upstream, fx, cacheIcon).1.Page?
    requires later - now < MaxAge
    ensures var (s', resp) := Show(s, remoteAddr, realIP, path, now, geo, geocode, upstream, fx, cacheIcon);
      Show(s', remoteAddr, realIP, path, later, geo2, geocode2, upstream2, fx, cacheIcon) == (s', resp)
  {
  }

  /** The server's shared state: the limiters of both APIs and the cache directory. */
  class Server {
    const wunder: RateLimit.Stamp
    const maps: RateLimit.Stamp
    var files: map<string, File>
    ghost var log: seq<Event>

    /** Two distinct limiters, and a log in which they guard every upstream request. */
    ghost predicate Valid()
      reads this
    {
      wunder != maps && Guarded(log)
    }

    ghost function Observed(): World
      reads this, wunder, maps
    {
      World(wunder.State(), maps.State(), files, log)
    }

    /**
     * Start-up: both limiters are loaded from their files with their
     * budgets; a limiter whose file cannot be opened or read starts a
     * fresh window now.
     */
    constructor Start(files: map<string, File>, wunderFile: RateLimit.StampFile,
                      mapsFile: RateLimit.StampFile, now: int)
      ensures Valid() && fresh(wunder) && fresh(maps)
      ensures this.files == files && log == []
      ensures wunder.State() ==
        if wunderFile.Contents? then RateLimit.Overlay(RateLimit.Window(0, 0, 0, 0), wunderFile.json)
        else RateLimit.Initial(WunderMaxHits, WunderPeriod, now)
      ensures maps.State() ==
        if mapsFile.Contents? then RateLimit.Overlay(RateLimit.Window(0, 0, 0, 0), mapsFile.json)
        else RateLimit.Initial(MapsMaxHits, MapsPeriod, now)
    {
      var w := new RateLimit.Stamp();
      var m := new RateLimit.Stamp();
      w.Load(wunderFile, WunderMaxHits, WunderPeriod, now);
      m.Load(mapsFile, MapsMaxHits, MapsPeriod, now);
      wunder := w;
      maps := m;
      this.files := files;
      log := [];
    }

    /** The cache check both fetches start with. */
    method ReadCache(name: string, now: int) returns (isFresh: bool, r: Result<CurrentConditions, Error>)
      ensures isFresh == Fresh(files, name, now)
      ensures isFresh ==> r == Cached(files[name].body)
    {
      isFresh := name in files && now - files[name].modTime < MaxAge;
      r := Failure(CacheReadFailed);
      if isFresh {
        match files[name].body
        case Saved(c) => r := Success(c);
        case Undecodable => r := Failure(CacheDecodeFailed);
        case Unreadable => r := Failure(CacheReadFailed);
      }
    }

    /** Hit on the weather limiter, request, post-processing, cache write. */
    method FetchAndStore(name: string, query: string, now: int,
                         upstream: Result<CurrentConditions, NetFailure>,
                         fx: Formatting, cacheIcon: string -> string)
      returns (r: Result<CurrentConditions, Error>)
      requires Valid()
      modifies this, wunder
      ensures Valid()
      ensures (Observed(), r) == Fetch(old(Observed()), name, query, now, upstream, fx, cacheIcon)
    {
      FetchKeepsGuarded(Observed(), name, query, now, upstream, fx, cacheIcon);
      var ok := wunder.Hit(now);
      log := log + [Limit(Wunder, ok)];
      if !ok {
        return Failure(LimitExceeded);
      }
      log := log + [WeatherGet(query)];
      match upstream
      case Failure(e) =>
        return Failure(Net(e));
      case Success(c) =>
        var cw := Finish(c, fx, cacheIcon);
        files := files[name := File(now, Saved(cw))];
        log := log + [CacheWrite(name)];
        return Success(cw);
    }

    /** `GetCurrentByIP`. */
    method GetCurrentByIP(requester: string, now: int, geo: Result<GeoIP, NetFailure>,
                          upstream: Result<CurrentConditions, NetFailure>,
                          fx: Formatting, cacheIcon: string -> string)
      returns (r: Result<CurrentConditions, Error>)
      requires Valid()
      modifies this, wunder
      ensures Valid()
      ensures (Observed(), r) == CurrentByIP(old(Observed()), requester, now, geo, upstream, fx, cacheIcon)
    {
      var name := CacheDir + requester;
      var isFresh, cached := ReadCache(name, now);
      if isFresh {
        return cached;
      }
      GuardedAppend(log, [Geolocate(requester)]);
      log := log + [Geolocate(requester)];
      r := FetchAndStore(name, IPQuery(requester, geo), now, upstream, fx, cacheIcon);
    }

    /** `GetCurrentByPos`. */
    method GetCurrentByPos(pos: LatLon, now: int, upstream: Result<CurrentConditions, NetFailure>,
                           fx: Formatting, cacheIcon: string -> string)
      returns (r: Result<CurrentConditions, Error>)
      requires Valid()
      modifies this, wunder
      ensures Valid()
      ensures (Observed(), r) == CurrentByPos(old(Observed()), pos, now, upstream, fx, cacheIcon)
    {
      var name := PosName(pos, fx);
      var isFresh, cached := ReadCache(name, now);
      if isFresh {
        return cached;
      }
      r := FetchAndStore(name, PosQuery(pos, fx), now, upstream, fx, cacheIcon);
    }

    /** `Position`. */
    method Position(country: string, city: string, now: int, geocode: Result<seq<LatLon>, NetFailure>)
      returns (loc: Located)
      requires Valid()
      modifies this, maps
      ensures Valid()
      ensures (Observed(), loc) == Locate(old(Observed()), country, city, now, geocode)
    {
      LocateKeepsGuarded(Observed(), country, city, now, geocode);
      var ok := maps.Hit(now);
      log := log + [Limit(Maps, ok)];
      if !ok {
        return Unlocated(LimitExceeded);
      }
      log := log + [Geocode(city + "," + country)];
      match geocode
      case Failure(e) =>
        return Unlocated(Net(e));
      case Success(results) =>
        if |results| == 0 {
          // Go indexes the first result without a check and panics here.
          return IndexPanic;
        }
        return Found(results[0]);
    }

    /** `ShowCurrent`. */
    method ShowCurrent(remoteAddr: string, realIP: string, path: string, now: int,
                       geo: Result<GeoIP, NetFailure>, geocode: Result<seq<LatLon>, NetFailure>,
                       upstream: Result<CurrentConditions, NetFailure>,
                       fx: Formatting, cacheIcon: string -> string)
      returns (resp: Response)
      requires Valid()
      modifies this, wunder, maps
      ensures Valid()
      ensures (Observed(), resp) == Show(old(Observed()), remoteAddr, realIP, path, now, geo, geocode, upstream, fx, cacheIcon)
    {
      match RouteOf(remoteAddr, realIP, path)
      case NotFound =>
        return Status(404);
      case Malformed =>
        return Status(400);
      case ByPlace(country, city) =>
        var loc := Position(country, city, now, geocode);
        match loc {
          case Unlocated(_) =>
            return Status(503);
          case IndexPanic =>
            return Panic;
          case Found(pos) =>
            var r := GetCurrentByPos(pos, now, upstream, fx, cacheIcon);
            return Render(r);
        }
      case ByIP(requester) =>
        var r := GetCurrentByIP(requester, now, geo, upstream, fx, cacheIcon);
        return Render(r);
    }
  }
}
