/**
 * The pharmacy record (`models/Pharmacy.java`). The mutable record is the class
 * `Pharmacy`; the services pass pharmacies around as `PharmacyInfo` values,
 * which is what a `Pharmacy` object holds at a given moment (`Pharmacy.Info`).
 *
 * Coordinates are fixed-point integers in micro-degrees; the distance from the
 * user is an integer supplied by the caller (the haversine formula is not part
 * of this model), coarse enough to order pharmacies as the Java `double` does.
 */
module PharmacyModel {
  import opened Wrappers
  import opened JavaText

  /** A geometry vertex: latitude and longitude in micro-degrees. */
  type Point = (int, int)

  /** The name shown for a pharmacy that has none. */
  const DefaultName: string := "Pharmacie"

  /**
   * The fields of a `Pharmacy`; `None` stands for a `null` reference, which a
   * setter may store in any of the reference-typed fields.
   */
  datatype PharmacyInfo = PharmacyInfo(
    id: Option<string>,
    name: Option<string>,
    latitude: int,
    longitude: int,
    address: Option<string>,
    phone: Option<string>,
    openingHours: Option<string>,
    distance: int,
    isOpen: bool,
    tags: Option<map<string, string>>,
    geometry: Option<seq<Point>>)
  {
    /** `getName`: the stored name, or "Pharmacie" when it is null. */
    function DisplayName(): (r: string)
      ensures name.Some? ==> r == name.value
      ensures name.None? ==> r == DefaultName
    {
      name.GetOr(DefaultName)
    }

    /** `hasGeometry`: a geometry list is present and not empty. */
    predicate HasGeometry() {
      geometry.Some? && geometry.value != []
    }
  }

  /** What `new Pharmacy(id, name, latitude, longitude)` holds: empty tags and geometry, all else unset. */
  function NewPharmacy(id: Option<string>, name: Option<string>, latitude: int, longitude: int): (r: PharmacyInfo)
    ensures r.id == id && r.name == name && r.latitude == latitude && r.longitude == longitude
    ensures r.tags == Some(map[]) && r.geometry == Some([])
    ensures r.address.None? && r.phone.None? && r.openingHours.None?
    ensures !r.HasGeometry()
  {
    PharmacyInfo(id, name, latitude, longitude, None, None, None, 0, false, Some(map[]), Some([]))
  }

  /** `Objects.hash(id)`: `31 * 1 + hash(id)` in 32-bit arithmetic, with 0 for a null id. */
  function IdHash(id: Option<string>): (h: int)
    ensures IsInt32(h)
    ensures id.None? ==> h == 31
  {
    WrapInt32(31 + (match id case Some(s) => StringHash(s) case None => 0))
  }

  /** The mutable pharmacy record. */
  class Pharmacy {
    var id: Option<string>
    var name: Option<string>
    var latitude: int
    var longitude: int
    var address: Option<string>
    var phone: Option<string>
    var openingHours: Option<string>
    var distance: int
    var isOpen: bool
    var tags: Option<map<string, string>>
    var geometry: Option<seq<Point>>

    /** The record's current contents as a value. */
    function Info(): PharmacyInfo
      reads this
    {
      PharmacyInfo(id, name, latitude, longitude, address, phone, openingHours, distance, isOpen, tags, geometry)
    }

    /** `new Pharmacy()`: empty tag map and geometry list, every other field at its Java default. */
    constructor Empty()
      ensures Info() == NewPharmacy(None, None, 0, 0)
    {
      id, name, latitude, longitude := None, None, 0, 0;
      address, phone, openingHours := None, None, None;
      distance, isOpen := 0, false;
      tags, geometry := Some(map[]), Some([]);
    }

    /** `new Pharmacy(id, name, latitude, longitude)`. */
    constructor (id: Option<string>, name: Option<string>, latitude: int, longitude: int)
      ensures Info() == NewPharmacy(id, name, latitude, longitude)
    {
      this.id, this.name, this.latitude, this.longitude := id, name, latitude, longitude;
      address, phone, openingHours := None, None, None;
      distance, isOpen := 0, false;
      tags, geometry := Some(map[]), Some([]);
    }

    /** `getName`. */
    function GetName(): (r: string)
      reads this
      ensures r == Info().DisplayName()
      ensures name.Some? ==> r == name.value
      ensures name.None? ==> r == DefaultName
    {
      if name.Some? then name.value else DefaultName
    }

    /** `setName`, `setAddress`, `setPhone`, `setOpeningHours` and `setDistance` store their argument. */
    method SetName(name: Option<string>)
      modifies this
      ensures Info() == old(Info()).(name := name)
    {
      this.name := name;
    }

    method SetAddress(address: Option<string>)
      modifies this
      ensures Info() == old(Info()).(address := address)
    {
      this.address := address;
    }

    method SetPhone(phone: Option<string>)
      modifies this
      ensures Info() == old(Info()).(phone := phone)
    {
      this.phone := phone;
    }

    method SetOpeningHours(openingHours: Option<string>)
      modifies this
      ensures Info() == old(Info()).(openingHours := openingHours)
    {
      this.openingHours := openingHours;
    }

    method SetDistance(distance: int)
      modifies this
      ensures Info() == old(Info()).(distance := distance)
    {
      this.distance := distance;
    }

    /** `setTags` and `setGeometry`, which may store `null`. */
    method SetTags(tags: Option<map<string, string>>)
      modifies this
      ensures Info() == old(Info()).(tags := tags)
    {
      this.tags := tags;
    }

    method SetGeometry(geometry: Option<seq<Point>>)
      modifies this
      ensures Info() == old(Info()).(geometry := geometry)
    {
      this.geometry := geometry;
    }

    /**
     * `addTag`: a null tag map is first replaced by an empty one; then `key` maps
     * to `value` and every other tag is kept.
     */
    method AddTag(key: string, value: string)
      modifies this
      ensures tags.Some? && key in tags.value && tags.value[key] == value
      ensures forall k :: k != key ==> GetTag(k) == old(GetTag(k))
      ensures Info() == old(Info()).(tags := tags)
    {
      var current := if tags.Some? then tags.value else map[];
      tags := Some(current[key := value]);
    }

    /** `getTag`: the value under `key`, null for a missing key or a null tag map. */
    function GetTag(key: string): (r: Option<string>)
      reads this
      ensures r.Some? <==> tags.Some? && key in tags.value
      ensures r.Some? ==> r.value == tags.value[key]
    {
      if tags.Some? && key in tags.value then Some(tags.value[key]) else None
    }

    /**
     * `addGeometryPoint`: a null geometry list is first replaced by an empty one;
     * the point is appended at the end.
     */
    method AddGeometryPoint(lat: int, lon: int)
      modifies this
      ensures geometry == Some(old(geometry).GetOr([]) + [(lat, lon)])
      ensures HasGeometry()
      ensures Info() == old(Info()).(geometry := geometry)
    {
      var current := if geometry.Some? then geometry.value else [];
      geometry := Some(current + [(lat, lon)]);
    }

    /** `hasGeometry`. */
    predicate HasGeometry()
      reads this
      ensures HasGeometry() <==> Info().HasGeometry()
    {
      geometry != None && |geometry.value| > 0
    }

    /** `equals`: the same object, or another pharmacy with an equal (possibly null) id. */
    predicate Equals(o: Pharmacy?)
      reads this, o
      ensures Equals(o) <==> o != null && o.id == id
    {
      if this == o then true else if o == null then false else id == o.id
    }

    /** `hashCode`. */
    function HashCode(): (h: int)
      reads this
      ensures h == IdHash(id)
    {
      WrapInt32(31 + (if id.Some? then StringHash(id.value) else 0))
    }
  }

  /** `equals` and `hashCode` agree, and both look at the id alone. */
  lemma EqualsImpliesSameHash(p: Pharmacy, q: Pharmacy)
    requires p.Equals(q)
    ensures p.HashCode() == q.HashCode()
  {
  }

  /** Two pharmacies with the same id are equal whatever else differs. */
  lemma EqualsIgnoresAllButId(p: Pharmacy, q: Pharmacy)
    requires p.id == q.id
    ensures p.Equals(q) && q.Equals(p)
  {
  }
}
