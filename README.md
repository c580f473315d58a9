# wunder: a verified model of the weather server's request pipeline

The wunder server answers an HTTP request with a weather snapshot for the
requester's location, found from the client IP address, or for a place given
in the path as `/country/city`. Snapshots come from the Weather Underground
API and are cached for sixty minutes as files under `resp/`. The geocoding
API and the weather API are each protected by a `Stamp`, a call-budget
limiter over a hard time window. The weather API allows one call every
three minutes and the geocoding API one every minute. The IP geolocation
service has no limiter.

This project models, in Dafny:

- `ratelimit.dfy` (module `RateLimit`): the `Stamp` limiter as a class with
  `Init`, `Hit`, `Save` and `Load`. `Hit` is specified by the pure step
  `Next`, and series of hits by `Run`. The lemmas cover the reset past the
  period, counting without rollback inside a window, the exact budget after
  `Init`, the poisoned window after a refusal, and the admitted count per
  window.
- `conditions.dfy` (module `Conditions`): the `CurrentConditions` snapshot
  and its post-processing. The three geographic fields are reformatted, then
  the current icon and each forecast day's icon are mirrored. The icon loop
  rewrites the day list one day at a time.
- `strings.dfy` (module `Strings`): Go's `strings.Split` on one separator
  character and `strings.Contains`, each proved against an independent
  characterisation.
- `routing.dfy` (module `Routing`): how `ShowCurrent` classifies a request.
  It decides who the requester is, rejects bot probes with 404 and malformed
  place paths with 400, and sends the rest to the place path or the IP path.
- `server.dfy` (module `Wunder`): the shared state as class `Server`. It
  holds both limiters, the cache files as a map from file name to
  modification time and contents, and a ghost log of outside calls. The
  handlers `Position`, `GetCurrentByPos`, `GetCurrentByIP` and
  `ShowCurrent` are methods. Each one is proved equal to a pure function of
  the state before the request: `Locate`, `CurrentByPos`, `CurrentByIP`,
  `Show`. Lemmas about those functions state the order of the steps: cache,
  then geolocation, then the limiter, then the upstream request, then the
  write.

Every network answer is a parameter of the handler that receives it:
the ipinfo.io lookup (`geo`), the geocoding answer (`geocode`) and the
weather answer (`upstream`). Each is either a decoded value or one of three
failures: the GET, the body read or the decoding. The clock is a
parameter `now`, in nanoseconds. Number formatting is the `Formatting`
parameter and icon mirroring is the `cacheIcon` parameter; both are opaque
functions.

Three behaviours of the code are easy to miss, and the model keeps each of
them as the code has it:

- `Stamp.Load` falls back to `Init` only when the file cannot be opened or
  read (wunder.go:77-88). When the file reads but does not decode, the JSON
  decoding error is ignored. The fields that did not decode keep their old
  values, which for the start-up globals are zero. A zero-period stamp
  admits every later hit (`RateLimit.ZeroPeriodAdmitsAll`).
- A fresh cache file that cannot be read or decoded makes the request fail
  with 503. It is not treated as a cache miss (wunder.go:229-240,
  wunder.go:293-304).
- `Position` takes the first geocoding result without checking that there
  is one (wunder.go:167). An empty list is modelled as the `IndexPanic`
  outcome, which the handler turns into `Panic`: the request gets no
  response. It is not modelled as a graceful failure.

## Model

| member | source | states |
|---|---|---|
| `Strings.Split` | wunder.go:366 | splitting always yields at least one piece, so `Split(...)[0]` is always defined |
| `Strings.JoinSplit` | wunder.go:386 | joining the pieces of a split back with the separator gives the original string |
| `Strings.SplitPiecesFree` | wunder.go:386 | no piece of a split contains the separator |
| `Strings.SplitLength` | wunder.go:386-387 | a split has exactly one more piece than the string has separators |
| `Strings.SplitHead` | wunder.go:366 | the first piece is the prefix before the first separator: separator-free, and followed by a separator or the end of the string |
| `Strings.SplitTwo` | wunder.go:386-392 | a split gives exactly `[a, b]` iff the string is `a`, one separator, then `b`, with no separator in `a` or `b` |
| `Strings.ContainsIff` | wunder.go:376-378 | `Contains(s, sub)` holds iff `sub` occurs at some position of `s` |
| `RateLimit.RunKeepsLimits` | wunder.go:56-69 | any series of hits leaves `MaxHits` and `Period` unchanged |
| `RateLimit.RunInWindow` | wunder.go:64-68 | inside one window every hit raises `Hits` by one with no rollback, the start never moves, and the i-th hit is admitted iff `Hits + i + 1 <= MaxHits` |
| `RateLimit.BudgetAfterInit` | wunder.go:46-69 | after `Init(m, p)`, exactly the first `m` hits of the window are admitted and every later one in it is refused |
| `RateLimit.DenialPersists` | wunder.go:64-68 | once a hit is refused, every later hit in the same window is refused |
| `RateLimit.AdmittedInWindow` | wunder.go:56-69 | inside one window the number admitted is the budget left (never negative), or all hits if fewer arrive |
| `RateLimit.ZeroPeriodAdmitsAll` | wunder.go:59-62 | a stamp with period zero, as a never-initialised one has, admits every strictly later hit |
| `RateLimit.Encode` | wunder.go:71-74 | `Save` writes all four fields |
| `RateLimit.LoadAfterSave` | wunder.go:71-90 | a saved stamp that reads back intact restores exactly the saved fields, whatever the stamp held before |
| `RateLimit.Stamp.constructor` | wunder.go:112-116 | a stamp starts as Go's zero value: all four fields zero |
| `RateLimit.Stamp.Init` | wunder.go:46-51 | `Hits = 0`, `Start = now`, `MaxHits` and `Period` as given |
| `RateLimit.Stamp.Hit` | wunder.go:56-69 | past the period (strictly): `Start := now`, `Hits := 1`, admitted whatever `Hits` was. Otherwise: `Hits` up by one, `Start` kept, admitted iff the new `Hits <= MaxHits`. `MaxHits` and `Period` never change |
| `RateLimit.Stamp.Saved` | wunder.go:71-74 | the saved record restores the stamp exactly even onto a zeroed stamp |
| `RateLimit.Stamp.Load` | wunder.go:77-90 | an open or read failure leaves exactly `Init(MaxHits, Period)` at `now`, with no error. A readable file overwrites only the fields that decode and keeps the others |
| `Conditions.Normalized` | wunder.go:270-275 | latitude, longitude and elevation are each reformatted, and nothing else in the snapshot changes |
| `Conditions.MirrorDayIcons` | wunder.go:278-280 | the loop keeps the number of days, replaces each day's icon by its mirrored URL once, and keeps each title and text |
| `Conditions.Finish` | wunder.go:270-280 | post-processing mirrors the current icon once and each forecast day's icon once, and keeps the number of days and each day's title and text |
| `Routing.RequesterIs` | wunder.go:366-372 | the requester is the remote address before its first `:`, or the `X-Real-IP` header when that prefix is `127.0.0.1` |
| `Routing.NotFoundIff` | wunder.go:376-381 | a request gets 404 iff its path contains `.php`, `xml` or `html` |
| `Routing.MalformedIff` | wunder.go:384-391 | a non-bot request gets 400 iff its path is longer than one character and the rest does not hold exactly one `/` |
| `Routing.ByPlaceIff` | wunder.go:384-392 | a request asks for place (country, city) iff it is not a bot probe and its path is one character, then `country/city`, neither holding a `/` |
| `Routing.ByIPIff` | wunder.go:404-406 | only a non-bot path of at most one character takes the IP path |
| `Wunder.IgnoredRequestsChangeNothing` | wunder.go:375-391 | bot probes get 404 and malformed place paths get 400, with no call, hit or write |
| `Wunder.FreshRequesterServedFromCache` | wunder.go:290-306 | with a fresh cache file, the IP path returns the cached snapshot (or 503 when the file cannot be read or decoded). It makes no geolocation call, no limiter hit, no request and no write, whatever the services would answer |
| `Wunder.RequesterMissTakesOneWeatherHit` | wunder.go:307-326 | on a cache miss, the IP path geolocates first and then takes exactly one weather-limiter hit and no geocoding hit, whether geolocation failed or not. When admitted, the query is `<loc>.json` after a successful lookup and `autoip.json?geo_ip=<requester>` after a failed one |
| `Wunder.PlaceRequestSpendsGeocodingBudget` | wunder.go:392-398 | a place request always takes a geocoding-limiter hit first, even when that place's weather cache is fresh. If it is fresh, the request ends with no weather hit and no weather request |
| `Wunder.RefusedPlaceMakesNoRequest` | wunder.go:144-147 | when the geocoding limiter refuses, the request gets 503 with no geocoding request, weather request or write |
| `Wunder.UnlocatedPlaceMakesNoWeatherFetch` | wunder.go:143-166 | when `Position` fails (a refused geocoding hit, or a failed request, body read or decoding after an admitted one), the request gets 503 with no weather-limiter hit, no weather request and no write |
| `Wunder.PlaceMissTakesOneWeatherHit` | wunder.go:226-253 | on a place request whose weather cache misses, the geocoding hit and request are followed by exactly one weather-limiter hit. When admitted, the single weather request asks for the located coordinates |
| `Wunder.EmptyGeocodingPanics` | wunder.go:161-167 | an admitted geocoding request with no result ends in the index panic, before any weather hit, request or write |
| `Wunder.WritesOnlyShownSnapshot` | wunder.go:249-286 | a request that does not render a page writes nothing. Any file a request changes holds the post-processed upstream answer it renders, stamped with the current time |
| `Wunder.ShowKeepsGuarded` | wunder.go:363-412 | every request keeps the log guarded: each weather request comes right after an admitted weather-limiter hit, each geocoding request right after an admitted geocoding-limiter hit, and each cache write right after a weather request |
| `Wunder.FetchKeepsGuarded` | wunder.go:249-286 | the fetch step keeps the log guarded |
| `Wunder.LocateKeepsGuarded` | wunder.go:143-168 | the geocoding step keeps the log guarded |
| `Wunder.CacheRoundTrip` | wunder.go:290-360 | after an IP-path request that missed the cache and succeeded, the same request within sixty minutes returns the same snapshot and changes nothing, whatever the services would answer |
| `Wunder.Server.Start` | wunder.go:463-466 | each limiter is loaded with its budget (one weather call per three minutes, one geocoding call per minute) and falls back to a fresh window when its file cannot be read |
| `Wunder.Server.ReadCache` | wunder.go:228-242 | the cache is used iff the file exists and is strictly younger than sixty minutes, and then its contents or its read or decode error are returned |
| `Wunder.Server.FetchAndStore` | wunder.go:249-286 | limiter hit, then the weather request, then post-processing and the write, as `Fetch` states. A refusal or any request, read or decode error returns an error with the cache untouched |
| `Wunder.Server.GetCurrentByIP` | wunder.go:290-361 | cache check, then geolocation, then the fetch, as `CurrentByIP` states; the cache file is `resp/` plus the requester |
| `Wunder.Server.GetCurrentByPos` | wunder.go:226-287 | cache check, then the fetch, as `CurrentByPos` states |
| `Wunder.Server.Position` | wunder.go:143-168 | geocoding-limiter hit before any network call. A refusal gives `API limit exceeded`; otherwise one geocoding request and its first result, or the index panic on an empty list |
| `Wunder.Server.ShowCurrent` | wunder.go:363-412 | 404, 400, 503 or a page, as `Show` states, while keeping the log guarded |

## Left out

- HTTP clients and servers (`http.Get`, `ListenAndServe`, `ServeFile`, `Static`, `Robots`): network I/O. Their answers are the handlers' parameters.
- JSON encoding and decoding: library serialisation. Decoded values and decoding failures are parameters; a stamp file is modelled by the fields it decodes.
- File-system calls (`os.Stat`, `ReadFile`, `Create`, `Mkdir`): the cache directory is a map from file name to modification time and contents.
- Floating point: `strconv.ParseFloat` with `%.2f` on the three location fields, `%g,%g` in the position's cache name and `%.2f,%.2f` in its query are the opaque functions of `Formatting`. The model does not say that `123.4567` becomes `123.46` or that an unparseable string becomes `0.00`.
- `CacheIcon` (download and local save of an icon): network and file I/O. It is the opaque `cacheIcon` function.
- Template rendering of the page, the signal handler that saves the stamps on exit, `main`'s argument and log setup, and logging: process setup and UI. `Page` stands for the rendered template.
- Concurrency: requests run one at a time in the model. The unsynchronised sharing of the limiters between request goroutines, and concurrent writers to one cache file, are not modelled.
- RateLimit.Stamp.Hit: uses one `now` for both `time.Since` and the new `Start`, where Go reads the clock twice. It also does not model 64-bit overflow of `Hits` or the saturation of `time.Since` at the limits of `time.Duration`.
- Wunder.Server.FetchAndStore: the cache write always succeeds. A failing `os.Create` or `Write`, which Go ignores, is not modelled.
- Wunder.Server.GetCurrentByIP: cache file names are compared as strings and are not resolved as file-system paths. Behind the proxy the requester is the `X-Real-IP` header verbatim, so it may hold `/`, `.` or `..`. Two names for one file (`./1.2.3.4` and `1.2.3.4`) are therefore distinct in the model, and a requester such as `../pages/forecast.html` names a file outside `resp/` that a successful request overwrites. Neither the aliasing nor the write outside the cache directory is modelled. An empty requester names the directory `resp/` itself, which Go can `Stat` but not read or create; the model treats that name like any other file name.
- Wunder.Show: one instant `now` serves the whole request: the cache age check, the limiter hit and the modification time of the written file. Wunder.Server.ShowCurrent, Wunder.Server.GetCurrentByIP, Wunder.Server.GetCurrentByPos and Wunder.Server.FetchAndStore use it the same way. Go reads the clock separately at each step, and the geolocation, geocoding and weather requests between those steps have no timeout. A slow request can therefore make Go's limiter see an expired window, or stamp the file later, where the model decides at `now`.
