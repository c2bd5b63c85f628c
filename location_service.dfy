/**
 * The geolocation-backed location store: a module-level cache shared by every provider,
 * detection through the browser's geolocation API (whose answer arrives later), and a
 * stand-alone helper that fills a form's address fields after two seconds.
 */
module LocationService {
  import opened Wrappers

  datatype Coords = Coords(lat: real, lng: real)

  /** A location descriptor; `coords` is present only after a successful geolocation. */
  datatype LocationData = LocationData(address: string, district: string, isDetected: bool, coords: Option<Coords>)

  const EmptyData: LocationData := LocationData("", "", false, None)

  const MockAddress: string := "123 MG Road, Koramangala"
  const MockDistrict: string := "Bangalore Urban"

  /** What detection stores when the position is known, and when it is not. */
  function DetectedData(coords: Option<Coords>): (d: LocationData)
    ensures d.isDetected && d.address == MockAddress && d.district == MockDistrict && d.coords == coords
  {
    LocationData(MockAddress, MockDistrict, true, coords)
  }

  /** The fields an `updateLocation` argument may carry; absent ones are None. */
  datatype LocationUpdate = LocationUpdate(
    address: Option<string>, district: Option<string>, isDetected: Option<bool>, coords: Option<Option<Coords>>)

  /** `{...cachedLocationData, ...newData}`: named fields are replaced, all others kept. */
  function Overlaid(data: LocationData, update: LocationUpdate): (r: LocationData)
    ensures update.address.None? ==> r.address == data.address
    ensures update.district.None? ==> r.district == data.district
    ensures update.isDetected.None? ==> r.isDetected == data.isDetected
    ensures update.coords.None? ==> r.coords == data.coords
    ensures update.address.Some? ==> r.address == update.address.value
    ensures update.district.Some? ==> r.district == update.district.value
    ensures update.isDetected.Some? ==> r.isDetected == update.isDetected.value
    ensures update.coords.Some? ==> r.coords == update.coords.value
  {
    LocationData(update.address.GetOr(data.address), update.district.GetOr(data.district),
                 update.isDetected.GetOr(data.isDetected), update.coords.GetOr(data.coords))
  }

  /** Overlaying is idempotent, and an update naming no field changes nothing. */
  lemma OverlayLaws(data: LocationData, update: LocationUpdate)
    ensures Overlaid(Overlaid(data, update), update) == Overlaid(data, update)
    ensures Overlaid(data, LocationUpdate(None, None, None, None)) == data
  {
  }

  /** The result of the geolocation request. */
  datatype GeoResult = Position(coords: Coords) | PositionError

  /** How a `detectLocation` call ends: with the cached value at once, with a geolocation
      request whose answer comes later, or with the fallback at once when the browser has
      no geolocation API. */
  datatype DetectOutcome = FromCache(data: LocationData) | Requested | Immediate(data: LocationData)

  /** `cachedLocationData`: one value for the whole page, outliving providers. */
  class LocationCache {
    var data: LocationData

    /** The value at module load. */
    constructor ()
      ensures data == EmptyData
    {
      data := EmptyData;
    }
  }

  class LocationProvider {
    var locationData: LocationData
    var isLocating: bool
    /** Geolocation requests whose callback has not run yet. */
    var pendingRequests: nat
    const cache: LocationCache

    /** Mounting copies the cache as it is at that moment. */
    constructor (cache: LocationCache)
      ensures locationData == cache.data && !isLocating && pendingRequests == 0 && this.cache == cache
    {
      locationData := cache.data;
      isLocating := false;
      pendingRequests := 0;
      this.cache := cache;
    }

    /** `detectLocation`. A cache already marked detected is returned and nothing else
        happens. Otherwise locating starts and, with a geolocation API, a request is made;
        without one the fallback is stored in the cache and the provider at once. */
    method DetectLocation(geolocationAvailable: bool) returns (outcome: DetectOutcome)
      modifies this, cache
      ensures old(cache.data).isDetected ==>
        outcome == FromCache(old(cache.data)) && locationData == old(cache.data)
        && cache.data == old(cache.data) && isLocating == old(isLocating) && pendingRequests == old(pendingRequests)
      ensures !old(cache.data).isDetected && geolocationAvailable ==>
        outcome == Requested && isLocating && pendingRequests == old(pendingRequests) + 1
        && cache.data == old(cache.data) && locationData == old(locationData)
      ensures !old(cache.data).isDetected && !geolocationAvailable ==>
        outcome == Immediate(DetectedData(None)) && cache.data == DetectedData(None)
        && locationData == DetectedData(None) && !isLocating && pendingRequests == old(pendingRequests)
    {
      if cache.data.isDetected {
        locationData := cache.data;
        outcome := FromCache(cache.data);
        return;
      }
      isLocating := true;
      if geolocationAvailable {
        pendingRequests := pendingRequests + 1;
        outcome := Requested;
      } else {
        var data := DetectedData(None);
        cache.data := data;
        locationData := data;
        isLocating := false;
        outcome := Immediate(data);
      }
    }

    /** A geolocation callback runs: a position is stored with its coordinates, an error
        stores the same address and district without coordinates; either way the value is
        marked detected and returned. */
    method GeolocationAnswers(result: GeoResult) returns (resolved: LocationData)
      requires pendingRequests > 0
      modifies this, cache
      ensures resolved == DetectedData(if result.Position? then Some(result.coords) else None)
      ensures cache.data == resolved && locationData == resolved && !isLocating
      ensures pendingRequests == old(pendingRequests) - 1
    {
      resolved := DetectedData(if result.Position? then Some(result.coords) else None);
      cache.data := resolved;
      locationData := resolved;
      isLocating := false;
      pendingRequests := pendingRequests - 1;
    }

    /** `updateLocation`: the overlay of the cache (not of this provider's copy) is stored
        in both. */
    method UpdateLocation(update: LocationUpdate)
      modifies this, cache
      ensures cache.data == Overlaid(old(cache.data), update) && locationData == cache.data
      ensures isLocating == old(isLocating) && pendingRequests == old(pendingRequests)
    {
      var updated := Overlaid(cache.data, update);
      cache.data := updated;
      locationData := updated;
    }

    /** `clearLocation`. */
    method ClearLocation()
      modifies this, cache
      ensures cache.data == EmptyData && locationData == EmptyData
      ensures isLocating == old(isLocating) && pendingRequests == old(pendingRequests)
    {
      cache.data := EmptyData;
      locationData := EmptyData;
    }
  }

  /** What the hook gives a component. */
  datatype LocationView = LocationView(locationData: LocationData, isLocating: bool)

  const OutsideProviderError: string := "useLocation must be used within a LocationProvider"

  /** `useLocation`: the provider's values, or the error it throws outside a provider. */
  function UseLocation(provided: Option<LocationView>): (r: Result<LocationView>)
    ensures provided.None? <==> r.Failure?
    ensures r.Failure? ==> r.error == OutsideProviderError
    ensures r.Success? ==> r.value == provided.value
  {
    match provided
    case None => Failure(OutsideProviderError)
    case Some(view) => Success(view)
  }

  /** The form update `autoPopulateLocation` applies when its timer fires:
      `{...prev, address, district}`; every other field of the form is kept. */
  function AutoPopulated(form: map<string, string>): (r: map<string, string>)
    ensures "address" in r && r["address"] == MockAddress
    ensures "district" in r && r["district"] == MockDistrict
    ensures forall k :: k in form && k != "address" && k != "district" ==> k in r && r[k] == form[k]
    ensures forall k :: k in r ==> k in form || k == "address" || k == "district"
  {
    form["address" := MockAddress]["district" := MockDistrict]
  }

  /** Filling twice is filling once. */
  lemma AutoPopulateIdempotent(form: map<string, string>)
    ensures AutoPopulated(AutoPopulated(form)) == AutoPopulated(form)
  {
    assert AutoPopulated(AutoPopulated(form)).Keys == AutoPopulated(form).Keys;
  }

  /** The helper's effect on the caller's state: locating is switched on at the call and
      off when the timer fires, together with the form update; the value it resolves with
      is the address and district. */
  class AutoPopulateHost {
    var isLocating: bool
    var form: map<string, string>
    var pendingFills: nat

    constructor (form: map<string, string>)
      ensures this.form == form && !isLocating && pendingFills == 0
    {
      this.form := form;
      isLocating := false;
      pendingFills := 0;
    }

    method AutoPopulateLocation()
      modifies this
      ensures isLocating && form == old(form) && pendingFills == old(pendingFills) + 1
    {
      isLocating := true;
      pendingFills := pendingFills + 1;
    }

    method FillTimerFires() returns (resolved: (string, string))
      requires pendingFills > 0
      modifies this
      ensures form == AutoPopulated(old(form)) && !isLocating && pendingFills == old(pendingFills) - 1
      ensures resolved == (MockAddress, MockDistrict)
    {
      form := AutoPopulated(form);
      isLocating := false;
      pendingFills := pendingFills - 1;
      resolved := (MockAddress, MockDistrict);
    }
  }
}
