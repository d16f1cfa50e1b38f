/**
 * The user-location service (`services/LocationService.java`): coordinate
 * validation, a configured default location, and the location the user picked.
 * The configured default coordinates are what `AppConfig.GetDefaultLatitude`
 * and `GetDefaultLongitude` return; they are fixed when the service is made.
 */
module LocationServices {
  import opened Wrappers
  import opened LocationModel

  const DefaultCity: string := "Default Location"
  const DefaultCountry: string := "Use 'Locate Me' to update"
  const CustomCity: string := "Custom Location"
  const CustomCountry: string := "User Selected"

  /** `isValidCoordinates`: the inclusive ranges [-90, 90] for latitude and [-180, 180] for longitude. */
  predicate IsValidCoordinates(latitude: int, longitude: int) {
    latitude >= -90_000_000 && latitude <= 90_000_000
    && longitude >= -180_000_000 && longitude <= 180_000_000
  }

  /** On fixed-point coordinates, which have no NaN, the service's check and the record's validation accept the same pairs. */
  lemma IsValidAgreesWithValidate(latitude: int, longitude: int)
    ensures IsValidCoordinates(latitude, longitude) <==> ValidateCoordinates(latitude, longitude).None?
  {
  }

  /** A boundary value is accepted and the next one out is refused, on every side. */
  lemma BoundsAreInclusive()
    ensures IsValidCoordinates(90_000_000, 180_000_000) && IsValidCoordinates(-90_000_000, -180_000_000)
    ensures !IsValidCoordinates(90_000_001, 0) && !IsValidCoordinates(-90_000_001, 0)
    ensures !IsValidCoordinates(0, 180_000_001) && !IsValidCoordinates(0, -180_000_001)
  {
  }

  class LocationService {
    const defaultLatitude: int
    const defaultLongitude: int
    var userLocation: Option<LocationInfo>

    constructor (defaultLatitude: int, defaultLongitude: int)
      ensures this.defaultLatitude == defaultLatitude && this.defaultLongitude == defaultLongitude
      ensures userLocation.None?
    {
      this.defaultLatitude, this.defaultLongitude := defaultLatitude, defaultLongitude;
      userLocation := None;
    }

    /** The stored user location is always one that passed validation. */
    predicate Valid()
      reads this
    {
      userLocation.Some? ==> userLocation.value.Valid()
    }

    /**
     * `getDefaultLocation`: the configured coordinates named "Default Location";
     * the `Location` constructor throws when the configured pair is out of range.
     */
    function GetDefaultLocation(): (r: Result<LocationInfo, CoordError>)
      reads this
      ensures r.Success? <==> IsValidCoordinates(defaultLatitude, defaultLongitude)
      ensures r.Failure? ==> Some(r.error) == ValidateCoordinates(defaultLatitude, defaultLongitude)
      ensures r.Success? ==> r.value.Valid()
      ensures r.Success? ==> r.value == LocationInfo(defaultLatitude, defaultLongitude, Some(DefaultCity), Some(DefaultCountry), None)
    {
      match ValidateCoordinates(defaultLatitude, defaultLongitude)
      case Some(e) => Failure(e)
      case None => Success(LocationInfo(defaultLatitude, defaultLongitude, Some(DefaultCity), Some(DefaultCountry), None))
    }

    /** `createLocation`: the given coordinates when they are valid, else the default location. */
    function CreateLocation(latitude: int, longitude: int): (r: Result<LocationInfo, CoordError>)
      reads this
      ensures IsValidCoordinates(latitude, longitude) ==> r == Success(LocationInfo(latitude, longitude, None, None, None))
      ensures !IsValidCoordinates(latitude, longitude) ==> r == GetDefaultLocation()
      ensures r.Success? ==> r.value.Valid()
    {
      if !IsValidCoordinates(latitude, longitude) then GetDefaultLocation()
      else Success(LocationInfo(latitude, longitude, None, None, None))
    }

    /**
     * `setUserLocation`: invalid coordinates leave the stored location as it was;
     * valid ones replace it with a location named "Custom Location", "User Selected".
     */
    method SetUserLocation(latitude: int, longitude: int)
      modifies this
      ensures !IsValidCoordinates(latitude, longitude) ==> userLocation == old(userLocation)
      ensures IsValidCoordinates(latitude, longitude) ==>
                userLocation == Some(LocationInfo(latitude, longitude, Some(CustomCity), Some(CustomCountry), None))
      ensures old(Valid()) ==> Valid()
    {
      if !IsValidCoordinates(latitude, longitude) {
        return;
      }
      userLocation := Some(LocationInfo(latitude, longitude, Some(CustomCity), Some(CustomCountry), None));
    }

    /** `getUserLocation`: the stored location once one is set, the default location before. */
    function GetUserLocation(): (r: Result<LocationInfo, CoordError>)
      reads this
      ensures userLocation.Some? ==> r == Success(userLocation.value)
      ensures userLocation.None? ==> r == GetDefaultLocation()
      ensures Valid() && r.Success? ==> r.value.Valid()
    {
      if userLocation.Some? then Success(userLocation.value) else GetDefaultLocation()
    }
  }
}
