/**
 * The app-wide location store: an address and district filled in by a simulated
 * detection after 800 ms, refreshable, patchable, and a fixed fallback for components
 * rendered outside the provider.
 */
module LocationContext {
  import opened Wrappers

  datatype Location = Location(address: string, district: string, isDetected: bool)

  /** `DEFAULT_LOCATION`: the values detection fills in, not yet marked detected. */
  const DefaultLocation: Location := Location("123 MG Road, Koramangala", "Bangalore Urban", false)

  const EmptyLocation: Location := Location("", "", false)

  /** What a finished detection or refresh stores. */
  const DetectedLocation: Location := DefaultLocation.(isDetected := true)

  /** The fields an `updateLocation` argument may carry; absent ones are None. */
  datatype LocationPatch = LocationPatch(address: Option<string>, district: Option<string>)

  /** `{...prev, ...patch, isDetected: true}`. */
  function Patched(prev: Location, patch: LocationPatch): (r: Location)
    ensures r.isDetected
    ensures r.address == (if patch.address.Some? then patch.address.value else prev.address)
    ensures r.district == (if patch.district.Some? then patch.district.value else prev.district)
  {
    Location(patch.address.GetOr(prev.address), patch.district.GetOr(prev.district), true)
  }

  /** Patching is idempotent, an empty patch only marks the location detected, and a
      patch naming both fields does not depend on what was there before. */
  lemma PatchLaws(prev: Location, patch: LocationPatch, other: Location)
    ensures Patched(Patched(prev, patch), patch) == Patched(prev, patch)
    ensures Patched(prev, LocationPatch(None, None)) == prev.(isDetected := true)
    ensures patch.address.Some? && patch.district.Some? ==> Patched(prev, patch) == Patched(other, patch)
  {
  }

  /** What the hook hands a component: the location and the locating flag. */
  datatype LocationView = LocationView(location: Location, isLocating: bool)

  /** `useLocationContext`: the provider's values, or outside any provider the default
      location, not detected, with locating off (its actions there do nothing). */
  function UseLocationContext(provided: Option<LocationView>): (v: LocationView)
    ensures provided.Some? ==> v == provided.value
    ensures provided.None? ==> v.location == DefaultLocation && !v.location.isDetected && !v.isLocating
  {
    provided.GetOr(LocationView(DefaultLocation, false))
  }

  class LocationProvider {
    var location: Location
    var isLocating: bool
    /** Detection timers still running. */
    var pendingTimers: nat

    /** While locating, a timer is running that will end it. */
    predicate Valid()
      reads this
    {
      isLocating ==> pendingTimers > 0
    }

    /** The first render and the mount effect, which calls `detectLocation`. */
    constructor ()
      ensures Valid() && location == EmptyLocation && isLocating && pendingTimers == 1
    {
      location := EmptyLocation;
      isLocating := true;
      pendingTimers := 1;
    }

    /** `detectLocation`: no guard, it always starts another timer. */
    method DetectLocation()
      modifies this
      ensures Valid() && isLocating && pendingTimers == old(pendingTimers) + 1
      ensures location == old(location)
    {
      isLocating := true;
      pendingTimers := pendingTimers + 1;
    }

    /** `refreshLocation`: does nothing while a detection is running. */
    method RefreshLocation() returns (started: bool)
      requires Valid()
      modifies this
      ensures Valid() && started == !old(isLocating) && location == old(location)
      ensures !started ==> isLocating == old(isLocating) && pendingTimers == old(pendingTimers)
      ensures started ==> isLocating && pendingTimers == old(pendingTimers) + 1
    {
      if isLocating {
        started := false;
        return;
      }
      isLocating := true;
      pendingTimers := pendingTimers + 1;
      started := true;
    }

    /** A detection or refresh timer fires. */
    method TimerFires()
      requires pendingTimers > 0
      modifies this
      ensures Valid() && location == DetectedLocation && !isLocating
      ensures pendingTimers == old(pendingTimers) - 1
    {
      location := DetectedLocation;
      isLocating := false;
      pendingTimers := pendingTimers - 1;
    }

    /** `updateLocation(patch)`. */
    method UpdateLocation(patch: LocationPatch)
      requires Valid()
      modifies this
      ensures Valid() && location == Patched(old(location), patch)
      ensures isLocating == old(isLocating) && pendingTimers == old(pendingTimers)
    {
      location := Patched(location, patch);
    }
  }
}
