/**
 * Geographic locations (`models/Location.java`). Coordinates are fixed-point
 * integers in micro-degrees. Every way of making or changing a `Location`
 * validates the coordinates, so a `Location` always holds a valid pair.
 */
module LocationModel {
  import opened Wrappers

  /** 90 and 180 degrees, in micro-degrees. */
  const MaxLatitude: int := 90_000_000
  const MaxLongitude: int := 180_000_000

  /** The inclusive ranges [-90, 90] and [-180, 180]. */
  predicate LatitudeInRange(lat: int) {
    -MaxLatitude <= lat <= MaxLatitude
  }

  predicate LongitudeInRange(lon: int) {
    -MaxLongitude <= lon <= MaxLongitude
  }

  /** The `IllegalArgumentException`s that `validateCoordinates` throws. */
  datatype CoordError = LatitudeOutOfRange | LongitudeOutOfRange

  /** `validateCoordinates`: the latitude is checked first, then the longitude. */
  function ValidateCoordinates(lat: int, lon: int): (r: Option<CoordError>)
    ensures r.None? <==> LatitudeInRange(lat) && LongitudeInRange(lon)
    ensures r == Some(LatitudeOutOfRange) <==> !LatitudeInRange(lat)
    ensures r == Some(LongitudeOutOfRange) <==> LatitudeInRange(lat) && !LongitudeInRange(lon)
  {
    if lat < -MaxLatitude || lat > MaxLatitude then Some(LatitudeOutOfRange)
    else if lon < -MaxLongitude || lon > MaxLongitude then Some(LongitudeOutOfRange)
    else None
  }

  /** The fields of a `Location`; `None` stands for a null string. */
  datatype LocationInfo = LocationInfo(
    latitude: int,
    longitude: int,
    city: Option<string>,
    country: Option<string>,
    address: Option<string>)
  {
    predicate Valid() {
      LatitudeInRange(latitude) && LongitudeInRange(longitude)
    }

    /** `equals`: the coordinates alone decide. */
    predicate SameCoordinates(other: LocationInfo) {
      latitude == other.latitude && longitude == other.longitude
    }
  }

  /** Coordinate equality is an equivalence that ignores city, country and address. */
  lemma SameCoordinatesIsEquivalence(a: LocationInfo, b: LocationInfo, c: LocationInfo)
    ensures a.SameCoordinates(a)
    ensures a.SameCoordinates(b) ==> b.SameCoordinates(a)
    ensures a.SameCoordinates(b) && b.SameCoordinates(c) ==> a.SameCoordinates(c)
    ensures a.SameCoordinates(a.(city := b.city, country := b.country, address := b.address))
  {
  }

  /** The mutable location record. */
  class Location {
    var latitude: int
    var longitude: int
    var city: Option<string>
    var country: Option<string>
    var address: Option<string>

    function Info(): LocationInfo
      reads this
    {
      LocationInfo(latitude, longitude, city, country, address)
    }

    predicate Valid()
      reads this
      ensures Valid() <==> Info().Valid()
    {
      LatitudeInRange(latitude) && LongitudeInRange(longitude)
    }

    /** `new Location()`: every field at its Java default, coordinates (0, 0). */
    constructor ()
      ensures Info() == LocationInfo(0, 0, None, None, None)
      ensures Valid()
    {
      latitude, longitude := 0, 0;
      city, country, address := None, None, None;
    }

    /** The assignments the validating constructors make once `validateCoordinates` has passed. */
    constructor Unchecked(latitude: int, longitude: int, city: Option<string>, country: Option<string>)
      requires ValidateCoordinates(latitude, longitude).None?
      ensures Info() == LocationInfo(latitude, longitude, city, country, None)
    {
      this.latitude, this.longitude := latitude, longitude;
      this.city, this.country, this.address := city, country, None;
    }

    /**
     * `new Location(latitude, longitude, city, country)` and, with both names null,
     * `new Location(latitude, longitude)`: the object when the coordinates are
     * valid, the exception `validateCoordinates` throws otherwise.
     */
    static method Create(latitude: int, longitude: int, city: Option<string>, country: Option<string>)
      returns (r: Result<Location, CoordError>)
      ensures r.Failure? <==> ValidateCoordinates(latitude, longitude).Some?
      ensures r.Failure? ==> Some(r.error) == ValidateCoordinates(latitude, longitude)
      ensures r.Success? ==> fresh(r.value)
      ensures r.Success? ==> r.value.Info() == LocationInfo(latitude, longitude, city, country, None)
      ensures r.Success? ==> r.value.Valid()
    {
      var check := ValidateCoordinates(latitude, longitude);
      if check.Some? {
        return Failure(check.value);
      }
      var l := new Location.Unchecked(latitude, longitude, city, country);
      return Success(l);
    }

    /**
     * `setLatitude`: the new latitude is validated together with the current
     * longitude; when that throws, nothing changes.
     */
    method SetLatitude(lat: int) returns (r: Option<CoordError>)
      modifies this
      ensures r == ValidateCoordinates(lat, old(longitude))
      ensures r.None? ==> Info() == old(Info()).(latitude := lat) && Valid()
      ensures r.Some? ==> Info() == old(Info())
    {
      r := ValidateCoordinates(lat, longitude);
      if r.None? {
        latitude := lat;
      }
    }

    /** `setLongitude`: validated together with the current latitude; nothing changes when that throws. */
    method SetLongitude(lon: int) returns (r: Option<CoordError>)
      modifies this
      ensures r == ValidateCoordinates(old(latitude), lon)
      ensures r.None? ==> Info() == old(Info()).(longitude := lon) && Valid()
      ensures r.Some? ==> Info() == old(Info())
    {
      r := ValidateCoordinates(latitude, lon);
      if r.None? {
        longitude := lon;
      }
    }

    method SetCity(city: Option<string>)
      modifies this
      ensures Info() == old(Info()).(city := city)
    {
      this.city := city;
    }

    method SetCountry(country: Option<string>)
      modifies this
      ensures Info() == old(Info()).(country := country)
    {
      this.country := country;
    }

    method SetAddress(address: Option<string>)
      modifies this
      ensures Info() == old(Info()).(address := address)
    {
      this.address := address;
    }

    /** `equals`: the same object, or another location with the same coordinates. */
    predicate Equals(o: Location?)
      reads this, o
      ensures Equals(o) <==> o != null && Info().SameCoordinates(o.Info())
    {
      if this == o then true
      else if o == null then false
      else o.latitude == latitude && o.longitude == longitude
    }
  }
}
