/**
 * Nearest-driver selection of the booking screen: a linear minimum over the
 * driver list (Kotlin's `minByOrNull`), kept only when that minimum is strictly
 * closer than the proximity threshold, and the "Book Now" rule built on it.
 */
module Selection {

  import opened Wrappers

  /** A map coordinate in degrees (`LatLng`: two Doubles). */
  datatype LatLng = LatLng(latitude: real, longitude: real)

  /** A driver shown on the map: a display name and a position. */
  datatype Driver = Driver(name: string, position: LatLng)

  /** Proximity threshold in kilometres; a driver is bookable only strictly below it. */
  const NearbyKm: real := 1.0

  /** The route the "Book Now" button navigates to, before the driver's name. */
  const RoutePrefix: string := "screen_B?driverName="

  // ---------------------------------------------------------------------------
  // minByOrNull

  /**
   * k is the position of the FIRST least element of xs under selector: no
   * element has a smaller value, and every earlier element has a larger one.
   */
  ghost predicate IsFirstMin<T>(xs: seq<T>, selector: T -> real, k: int)
  {
    && 0 <= k < |xs|
    && (forall j :: 0 <= j < |xs| ==> selector(xs[k]) <= selector(xs[j]))
    && (forall j :: 0 <= j < k ==> selector(xs[k]) < selector(xs[j]))
  }

  /** At most one position is the first least element. */
  lemma FirstMinUnique<T>(xs: seq<T>, selector: T -> real, k1: int, k2: int)
    requires IsFirstMin(xs, selector, k1) && IsFirstMin(xs, selector, k2)
    ensures k1 == k2
  {
    var v1, v2 := selector(xs[k1]), selector(xs[k2]);
    assert v1 <= v2 && v2 <= v1;
    assert k1 < k2 ==> v2 < v1;
    assert k2 < k1 ==> v1 < v2;
  }

  /**
   * The scan of `minByOrNull`: `best` is the least element seen among xs[..i];
   * the candidate at i replaces it only when strictly smaller (`minValue > v`),
   * so the first of several equal minima is kept.
   */
  function MinScan<T>(xs: seq<T>, selector: T -> real, best: nat, i: nat): (k: nat)
    requires best < i <= |xs|
    requires IsFirstMin(xs[..i], selector, best)
    ensures IsFirstMin(xs, selector, k)
    decreases |xs| - i
  {
    if i == |xs| then
      assert xs[..i] == xs;
      best
    else if selector(xs[best]) > selector(xs[i]) then
      MinScan(xs, selector, i, i + 1)
    else
      MinScan(xs, selector, best, i + 1)
  }

  /**
   * Kotlin's `minByOrNull`: null on an empty list, else the element at the
   * first least position, which exists and is the only one.
   */
  function MinByOrNull<T>(xs: seq<T>, selector: T -> real): (r: Option<T>)
    ensures r.None? <==> xs == []
    ensures r.Some? ==> exists k :: IsFirstMin(xs, selector, k) && r.value == xs[k]
    ensures forall k :: IsFirstMin(xs, selector, k) ==> r == Some(xs[k])
  {
    if xs == [] then None
    else
      var k := MinScan(xs, selector, 0, 1);
      assert forall k' :: IsFirstMin(xs, selector, k') ==> k' == k by {
        forall k' | IsFirstMin(xs, selector, k') ensures k' == k {
          FirstMinUnique(xs, selector, k', k);
        }
      }
      Some(xs[k])
  }

  // ---------------------------------------------------------------------------
  // Nearest driver

  /**
   * The selector ScreenA passes to `minByOrNull`: distance from the user to a
   * driver, which depends on the driver's position only, never on the name.
   */
  function DistanceFrom(current: LatLng, distance: (LatLng, LatLng) -> real): (selector: Driver -> real)
    ensures forall d1: Driver, d2: Driver :: d1.position == d2.position ==> selector(d1) == selector(d2)
  {
    (d: Driver) => distance(current, d.position)
  }

  /**
   * `nearbyDriver`: the nearest driver, kept only when strictly closer than
   * NearbyKm; the distance function is called again for the kept driver.
   */
  function NearestDriver(current: LatLng, drivers: seq<Driver>, distance: (LatLng, LatLng) -> real)
    : (r: Option<Driver>)
    ensures drivers == [] ==> r == None
    ensures r.Some? ==> r.value in drivers && distance(current, r.value.position) < NearbyKm
    ensures r.Some? ==>
      forall d :: d in drivers ==> distance(current, r.value.position) <= distance(current, d.position)
    ensures r.None? <==> forall d :: d in drivers ==> distance(current, d.position) >= NearbyKm
  {
    var nearest := MinByOrNull(drivers, DistanceFrom(current, distance));
    if nearest.Some? && distance(current, nearest.value.position) < NearbyKm then nearest else None
  }

  /**
   * The selection in terms of positions: if k is the first driver at least
   * distance, the result is exactly drivers[k] when it is under the threshold
   * and none otherwise; an equally distant later driver is never chosen.
   */
  lemma NearestDriverIsFirstMinimum(current: LatLng, drivers: seq<Driver>,
                                     distance: (LatLng, LatLng) -> real, k: int)
    requires IsFirstMin(drivers, DistanceFrom(current, distance), k)
    ensures NearestDriver(current, drivers, distance) ==
      if distance(current, drivers[k].position) < NearbyKm then Some(drivers[k]) else None
  {
  }

  /** With a single driver, that driver is chosen exactly when it is strictly under the threshold. */
  lemma SingleDriver(current: LatLng, d: Driver, distance: (LatLng, LatLng) -> real)
    ensures NearestDriver(current, [d], distance) ==
      if distance(current, d.position) < NearbyKm then Some(d) else None
  {
  }

  // ---------------------------------------------------------------------------
  // Book Now

  /** The "Book Now" button is enabled exactly when a nearby driver was selected. */
  function BookNowEnabled(nearbyDriver: Option<Driver>): (enabled: bool)
    ensures enabled <==> nearbyDriver != None
  {
    nearbyDriver.Some?
  }

  /** The route "Book Now" navigates to: the prefix, then the driver's name or nothing. */
  function BookNowRoute(nearbyDriver: Option<Driver>): (route: string)
    ensures |RoutePrefix| <= |route| && route[..|RoutePrefix|] == RoutePrefix
  {
    RoutePrefix + (if nearbyDriver.Some? then nearbyDriver.value.name else "")
  }

  /** Reads back the driver name a route carries, or none if the route is not a booking route. */
  function RouteDriverName(route: string): (name: Option<string>)
    ensures name.Some? <==> |RoutePrefix| <= |route| && route[..|RoutePrefix|] == RoutePrefix
    ensures name.Some? ==> route == RoutePrefix + name.value
  {
    if |RoutePrefix| <= |route| && route[..|RoutePrefix|] == RoutePrefix
    then Some(route[|RoutePrefix|..]) else None
  }

  /** The route of an enabled button carries exactly the selected driver's name. */
  lemma BookNowRouteRoundTrip(d: Driver)
    ensures RouteDriverName(BookNowRoute(Some(d))) == Some(d.name)
  {
  }

  /** Drivers with different names lead to different routes. */
  lemma BookNowRouteInjective(d1: Driver, d2: Driver)
    requires d1.name != d2.name
    ensures BookNowRoute(Some(d1)) != BookNowRoute(Some(d2))
  {
  }

  /**
   * For every driver list, the empty one included, "Book Now" is enabled after
   * a location update exactly when some driver is strictly within NearbyKm.
   */
  lemma BookNowEnabledIff(current: LatLng, drivers: seq<Driver>, distance: (LatLng, LatLng) -> real)
    ensures BookNowEnabled(NearestDriver(current, drivers, distance)) <==>
      exists d :: d in drivers && distance(current, d.position) < NearbyKm
  {
  }

  /**
   * When "Book Now" is enabled, its route names the first driver at least
   * distance; otherwise the route is the bare prefix.
   */
  lemma BookNowRouteNamesFirstNearest(current: LatLng, drivers: seq<Driver>,
                                      distance: (LatLng, LatLng) -> real, k: int)
    requires IsFirstMin(drivers, DistanceFrom(current, distance), k)
    ensures BookNowRoute(NearestDriver(current, drivers, distance)) ==
      if distance(current, drivers[k].position) < NearbyKm then RoutePrefix + drivers[k].name else RoutePrefix
  {
  }
}
