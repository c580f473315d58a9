/**
 * The weather snapshot decoded from the upstream provider and the
 * post-processing applied to it before it is cached and shown: the three
 * geographic fields are reformatted and every icon is mirrored locally.
 */
module Conditions {

  datatype Location = Location(country: string, lat: string, lon: string, alt: string, name: string)

  /** Current observation. Go's `float64` fields are kept as opaque reals. */
  datatype Current = Current(
    temp: real, feelsLike: string, humidity: string, wind: real, icon: string,
    lastUpdate: string, weather: string, obUrl: string, location: Location)

  /** One forecast day. */
  datatype Day = Day(icon: string, title: string, text: string)

  datatype TxtForecast = TxtForecast(date: string, days: seq<Day>)

  /** `CurrentConditions`: what the weather provider returns and what is cached. */
  datatype CurrentConditions = CurrentConditions(cur: Current, forecast: TxtForecast)

  /**
   * Number formatting, which works on floating point and is not modelled:
   * `fixed2` is `strconv.ParseFloat` followed by `%.2f` on a string (a string
   * that does not parse becomes the zero value), `general` is `%g` and
   * `coord2` is `%.2f` on a coordinate.
   */
  datatype Formatting = Formatting(fixed2: string -> string, general: real -> string, coord2: real -> string)

  /**
   * Reformats latitude, longitude and elevation, and touches nothing else.
   */
  function Normalized(c: CurrentConditions, fixed2: string -> string): (r: CurrentConditions)
    ensures r.cur.location.lat == fixed2(c.cur.location.lat)
    ensures r.cur.location.lon == fixed2(c.cur.location.lon)
    ensures r.cur.location.alt == fixed2(c.cur.location.alt)
    ensures r.cur.location.country == c.cur.location.country && r.cur.location.name == c.cur.location.name
    ensures r.cur.(location := c.cur.location) == c.cur
    ensures r.forecast == c.forecast
  {
    var loc := c.cur.location;
    c.(cur := c.cur.(location := loc.(lat := fixed2(loc.lat), lon := fixed2(loc.lon), alt := fixed2(loc.alt))))
  }

  /** The forecast days with each icon replaced by its mirrored location. */
  function MirroredDays(days: seq<Day>, cacheIcon: string -> string): (r: seq<Day>)
  {
    seq(|days|, i requires 0 <= i < |days| => days[i].(icon := cacheIcon(days[i].icon)))
  }

  /**
   * Rewrites the icon of every forecast day in place, one day after the
   * other, calling `cacheIcon` once per day.
   */
  method MirrorDayIcons(days: seq<Day>, cacheIcon: string -> string) returns (r: seq<Day>)
    ensures |r| == |days|
    ensures forall i :: 0 <= i < |days| ==>
      r[i].icon == cacheIcon(days[i].icon) && r[i].title == days[i].title && r[i].text == days[i].text
    ensures r == MirroredDays(days, cacheIcon)
  {
    r := days;
    var i := 0;
    while i < |r|
      invariant 0 <= i <= |r| == |days|
      invariant forall k :: 0 <= k < i ==> r[k] == days[k].(icon := cacheIcon(days[k].icon))
      invariant forall k :: i <= k < |r| ==> r[k] == days[k]
    {
      r := r[i := r[i].(icon := cacheIcon(r[i].icon))];
      i := i + 1;
    }
  }

  /** The snapshot that is cached and shown for a freshly decoded one. */
  function Finished(c: CurrentConditions, fx: Formatting, cacheIcon: string -> string): CurrentConditions
  {
    var n := Normalized(c, fx.fixed2);
    n.(cur := n.cur.(icon := cacheIcon(n.cur.icon)),
       forecast := n.forecast.(days := MirroredDays(n.forecast.days, cacheIcon)))
  }

  /**
   * Post-processing of a decoded snapshot, in the order the fetchers apply
   * it: the geographic fields first, then the current icon, then each
   * forecast day's icon. The number of days and each day's title and text
   * are kept.
   */
  method Finish(c: CurrentConditions, fx: Formatting, cacheIcon: string -> string)
    returns (r: CurrentConditions)
    ensures r == Finished(c, fx, cacheIcon)
    ensures r.cur.icon == cacheIcon(c.cur.icon)
    ensures r.forecast.date == c.forecast.date && |r.forecast.days| == |c.forecast.days|
    ensures forall i :: 0 <= i < |c.forecast.days| ==>
      r.forecast.days[i].title == c.forecast.days[i].title &&
      r.forecast.days[i].text == c.forecast.days[i].text &&
      r.forecast.days[i].icon == cacheIcon(c.forecast.days[i].icon)
  {
    r := Normalized(c, fx.fixed2);
    r := r.(cur := r.cur.(icon := cacheIcon(r.cur.icon)));
    var days := MirrorDayIcons(r.forecast.days, cacheIcon);
    r := r.(forecast := r.forecast.(days := days));
  }
}
