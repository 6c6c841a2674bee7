/**
 * The screen's live state: the user's current location, overwritten by every
 * location delivered in a batch, and the nearby driver, recomputed by the
 * screen's effect whenever the current location changes.
 */
module Tracking {

  import opened Wrappers
  import opened Selection

  /** Where the current location starts before the first fix arrives. */
  const Origin: LatLng := LatLng(0.0, 0.0)

  /** The current location after each location of a batch, in order, has overwritten it. */
  function AfterBatch(current: LatLng, locations: seq<LatLng>): (r: LatLng)
    ensures r == current || r in locations
    decreases |locations|
  {
    if locations == [] then current else AfterBatch(locations[0], locations[1..])
  }

  /** The last location of a batch wins; an empty batch changes nothing. */
  lemma {:induction false} AfterBatchIsLast(current: LatLng, locations: seq<LatLng>)
    ensures AfterBatch(current, locations) ==
      if locations == [] then current else locations[|locations| - 1]
    decreases |locations|
  {
    if locations != [] {
      AfterBatchIsLast(locations[0], locations[1..]);
    }
  }

  /** Two batches delivered one after the other leave the same location as their concatenation. */
  lemma {:induction false} AfterBatchConcat(current: LatLng, first: seq<LatLng>, second: seq<LatLng>)
    ensures AfterBatch(current, first + second) == AfterBatch(AfterBatch(current, first), second)
    decreases |first|
  {
    if first != [] {
      assert (first + second)[1..] == first[1..] + second;
      AfterBatchConcat(first[0], first[1..], second);
    } else {
      assert first + second == second;
    }
  }

  /**
   * The state of the booking screen: the activity's `currentLocation` and the
   * screen's `nearbyDriver`, over a fixed driver list and distance function.
   */
  class MainScreen {
    const drivers: seq<Driver>
    const distance: (LatLng, LatLng) -> real
    var currentLocation: LatLng
    var nearbyDriver: Option<Driver>

    /** Once the effect has run for the current location, the nearby driver is its selection. */
    ghost predicate Valid()
      reads this
    {
      nearbyDriver == NearestDriver(currentLocation, drivers, distance)
    }

    /**
     * The first composition: the location starts at the origin, the nearby
     * driver at none, and the effect then runs once for that first location.
     */
    constructor (drivers: seq<Driver>, distance: (LatLng, LatLng) -> real)
      ensures this.drivers == drivers && this.distance == distance
      ensures currentLocation == Origin
      ensures Valid()
    {
      this.drivers := drivers;
      this.distance := distance;
      currentLocation := Origin;
      nearbyDriver := None;
      new;
      RefreshNearbyDriver();
    }

    /** The screen's effect keyed on the current location: reselect the nearby driver. */
    method RefreshNearbyDriver()
      modifies this`nearbyDriver
      ensures Valid()
    {
      nearbyDriver := NearestDriver(currentLocation, drivers, distance);
    }

    /**
     * A location callback: every location of the batch overwrites the current
     * one in turn; the effect is then relaunched only if the location changed.
     */
    method OnLocationResult(locations: seq<LatLng>)
      requires Valid()
      modifies this`currentLocation, this`nearbyDriver
      ensures currentLocation == AfterBatch(old(currentLocation), locations)
      ensures locations != [] ==> currentLocation == locations[|locations| - 1]
      ensures locations == [] ==> currentLocation == old(currentLocation) && nearbyDriver == old(nearbyDriver)
      ensures Valid()
      ensures BookNowEnabled(nearbyDriver) <==>
        exists d :: d in drivers && distance(currentLocation, d.position) < NearbyKm
    {
      var previous := currentLocation;
      for i := 0 to |locations|
        invariant AfterBatch(previous, locations) == AfterBatch(currentLocation, locations[i..])
        invariant nearbyDriver == old(nearbyDriver)
      {
        assert locations[i..][1..] == locations[i + 1..];
        currentLocation := locations[i];
      }
      assert locations[|locations|..] == [];
      AfterBatchIsLast(previous, locations);
      if currentLocation != previous {
        RefreshNearbyDriver();
      }
    }
  }
}
