/**
 * Reading pharmacies out of an Overpass answer (`services/ApiService.java`):
 * which elements become pharmacies, the fields and tags copied from each, the
 * order by distance, the cut at the marker limit, and the empty list that a
 * failed request becomes.
 *
 * The HTTP exchange and the JSON text parser are not modelled: the parsed answer
 * is an input, `None` when the request failed or the text was not JSON. So are
 * the distance from the user to a point (`Location.calculateDistance`, the
 * haversine formula), the centre of a building outline (the average of its
 * vertices in `double`) and `Double.parseDouble`.
 */
module Api {
  import opened Wrappers
  import opened JavaText
  import opened Json
  import opened PharmacyModel

  // ---------------------------------------------------------------------------
  // Tags
  // ---------------------------------------------------------------------------

  /** `tags.has(key) ? tags.get(key).getAsString() : fallback`; `None` when the read throws. */
  function TagOr(tags: map<string, Json>, key: string, fallback: string): (r: Option<string>)
    ensures key !in tags ==> r == Some(fallback)
    ensures key in tags ==> r == AsString(tags[key])
  {
    if Has(tags, key) then MemberString(tags, key) else Some(fallback)
  }

  /**
   * `if (tags.has(key)) pharmacy.setX(tags.get(key).getAsString())`: `Some(None)`
   * when the tag is absent and nothing is set, `None` when the read throws.
   */
  function OptionalTag(tags: map<string, Json>, key: string): (r: Option<Option<string>>)
    ensures key !in tags ==> r == Some(None)
    ensures key in tags ==> (r.Some? <==> AsString(tags[key]).Some?)
    ensures key in tags && r.Some? ==> r.value == AsString(tags[key])
  {
    if !Has(tags, key) then Some(None)
    else match MemberString(tags, key)
      case Some(v) => Some(Some(v))
      case None => None
  }

  /** Every tag read as a string, or `None` when one of them is not string-like. */
  function TagStrings(tags: map<string, Json>): (r: Option<map<string, string>>)
    ensures r.Some? <==> forall k :: k in tags ==> AsString(tags[k]).Some?
    ensures r.Some? ==> r.value.Keys == tags.Keys
    ensures r.Some? ==> forall k :: k in tags ==> r.value[k] == AsString(tags[k]).value
  {
    if forall k :: k in tags ==> AsString(tags[k]).Some? then
      Some(map k | k in tags :: AsString(tags[k]).value)
    else None
  }

  /** The `addTag` loop over `tags.keySet()`: each tag in turn, until one cannot be read. */
  method CopyTags(tags: map<string, Json>) returns (r: Option<map<string, string>>)
    ensures r == TagStrings(tags)
  {
    var copied: map<string, string> := map[];
    var rest := tags.Keys;
    while rest != {}
      invariant rest <= tags.Keys
      invariant copied.Keys == tags.Keys - rest
      invariant forall k :: k in copied ==> AsString(tags[k]) == Some(copied[k])
      decreases rest
    {
      var k :| k in rest;
      match AsString(tags[k]) {
        case None =>
          return None;
        case Some(v) =>
          copied := copied[k := v];
      }
      rest := rest - {k};
    }
    assert copied == map k | k in tags :: AsString(tags[k]).value;
    return Some(copied);
  }

  // ---------------------------------------------------------------------------
  // buildAddress
  // ---------------------------------------------------------------------------

  /** The text `buildAddress` assembles: number and street trimmed, then ", city" for a non-empty city. */
  function AddressText(number: string, street: string, city: string): string {
    Trim(number + " " + street) + (if city != "" then ", " + city else "")
  }

  /** The result of `buildAddress` from the three tag values: null exactly when the text is empty. */
  function Address(number: string, street: string, city: string): (r: Option<string>)
    ensures r.None? <==> city == "" && AllBlank(number + " " + street)
    ensures r.Some? ==> r.value == AddressText(number, street, city) && r.value != ""
  {
    TrimEmptyIffAllBlank(number + " " + street);
    var a := AddressText(number, street, city);
    if a == "" then None else Some(a)
  }

  /** `buildAddress`: a missing tag counts as ""; `None` when a present tag cannot be read. */
  function BuildAddress(tags: map<string, Json>): (r: Option<Option<string>>)
    ensures r.Some? <==> TagOr(tags, "addr:housenumber", "").Some? && TagOr(tags, "addr:street", "").Some?
                         && TagOr(tags, "addr:city", "").Some?
    ensures r.Some? ==> r.value == Address(TagOr(tags, "addr:housenumber", "").value, TagOr(tags, "addr:street", "").value,
                                           TagOr(tags, "addr:city", "").value)
  {
    match (TagOr(tags, "addr:housenumber", ""), TagOr(tags, "addr:street", ""), TagOr(tags, "addr:city", ""))
    case (Some(number), Some(street), Some(city)) => Some(Address(number, street, city))
    case _ => None
  }

  /** With only a city, the address is ", " and the city. */
  lemma AddressOnlyCity(city: string)
    requires city != ""
    ensures Address("", "", city) == Some(", " + city)
  {
    var m := "" + " " + "";
    assert m == " " && AllBlank(m);
    TrimEmptyIffAllBlank(m);
    assert Trim(m) == [];
    assert AddressText("", "", city) == Trim(m) + (", " + city);
    assert AddressText("", "", city) == ", " + city;
  }

  /** Number and street, each already trimmed and non-empty, are joined by one space. */
  lemma AddressNumberStreet(number: string, street: string, city: string)
    requires number != "" && Trim(number) == number
    requires street != "" && Trim(street) == street
    ensures Address(number, street, city) == Some(number + " " + street + (if city != "" then ", " + city else ""))
  {
    var m := number + " " + street;
    assert m[0] == number[0] && m[|m| - 1] == street[|street| - 1];
    TrimOfPadded([], m, []);
    assert [] + m + [] == m;
    assert Trim(m) == m;
  }

  /** Without a street the trailing space is trimmed away. */
  lemma AddressNumberOnly(number: string)
    requires number != "" && Trim(number) == number
    ensures Address(number, "", "") == Some(number)
  {
    var m := number + " " + "";
    assert m == [] + number + " ";
    assert AllBlank(" ");
    TrimOfPadded([], number, " ");
    assert Trim(m) == number;
    assert AddressText(number, "", "") == Trim(m) + "";
    assert AddressText(number, "", "") == number;
  }

  /** Without a number the leading space is trimmed away. */
  lemma AddressStreetOnly(street: string)
    requires street != "" && Trim(street) == street
    ensures Address("", street, "") == Some(street)
  {
    var m := "" + " " + street;
    assert m == " " + street + [];
    assert AllBlank(" ");
    TrimOfPadded(" ", street, []);
    assert Trim(m) == street;
    assert AddressText("", street, "") == Trim(m) + "";
    assert AddressText("", street, "") == street;
  }

  /** Without any address tag the address is null. */
  lemma NoAddressTags(tags: map<string, Json>)
    requires "addr:housenumber" !in tags && "addr:street" !in tags && "addr:city" !in tags
    ensures BuildAddress(tags) == Some(None)
  {
    assert AllBlank("" + " " + "");
  }

  // ---------------------------------------------------------------------------
  // parsePharmacy and parsePharmacyWay
  // ---------------------------------------------------------------------------

  /** What both parsers read from the tags after creating the pharmacy. */
  datatype Extras = Extras(address: Option<string>, phone: Option<string>, openingHours: Option<string>, copied: map<string, string>)

  /**
   * The address from `buildAddress`, the "phone" and "opening_hours" tags when
   * present, and every tag as a string; `None` when one of these reads throws.
   */
  function ReadExtras(tags: map<string, Json>): (r: Option<Extras>)
    ensures r.Some? <==> BuildAddress(tags).Some? && OptionalTag(tags, "phone").Some?
                         && OptionalTag(tags, "opening_hours").Some? && TagStrings(tags).Some?
    ensures r.Some? ==> r.value.copied == TagStrings(tags).value
  {
    var address, phone, hours, copied := BuildAddress(tags), OptionalTag(tags, "phone"), OptionalTag(tags, "opening_hours"), TagStrings(tags);
    if address.None? || phone.None? || hours.None? || copied.None? then None
    else Some(Extras(address.value, phone.value, hours.value, copied.value))
  }

  /** `ReadExtras` with the tag loop. */
  method ReadExtrasWithLoop(tags: map<string, Json>) returns (r: Option<Extras>)
    ensures r == ReadExtras(tags)
  {
    var address, phone, hours := BuildAddress(tags), OptionalTag(tags, "phone"), OptionalTag(tags, "opening_hours");
    if address.None? || phone.None? || hours.None? {
      return None;
    }
    var copied := CopyTags(tags);
    if copied.None? {
      return None;
    }
    r := Some(Extras(address.value, phone.value, hours.value, copied.value));
  }

  /** The setters called with what was read: each optional field only when it was found, and every tag added. */
  function Furnish(p: PharmacyInfo, e: Extras): (r: PharmacyInfo)
    ensures r.id == p.id && r.name == p.name && r.geometry == p.geometry
    ensures r.latitude == p.latitude && r.longitude == p.longitude && r.distance == p.distance
    ensures e.address.Some? ==> r.address == e.address
    ensures e.phone.Some? ==> r.phone == e.phone
    ensures e.openingHours.Some? ==> r.openingHours == e.openingHours
    ensures r.tags == Some(p.tags.GetOr(map[]) + e.copied)
    ensures p.tags.GetOr(map[]) == map[] ==> r.tags == Some(e.copied)
  {
    assert map[] + e.copied == e.copied;
    p.(address := if e.address.Some? then e.address else p.address,
       phone := if e.phone.Some? then e.phone else p.phone,
       openingHours := if e.openingHours.Some? then e.openingHours else p.openingHours,
       tags := Some(p.tags.GetOr(map[]) + e.copied))
  }

  /** `parsePharmacy`, for a node: id, lat and lon from the element, the rest from its tags. */
  function NodePharmacy(obj: map<string, Json>, parseDecimal: string -> Option<int>): (r: Option<PharmacyInfo>)
    ensures r.Some? ==> MemberObject(obj, "tags").Some? && ReadExtras(MemberObject(obj, "tags").value).Some?
    ensures r.Some? ==> MemberDecimal(obj, "lat", parseDecimal).Some? && MemberDecimal(obj, "lon", parseDecimal).Some?
    ensures r.Some? ==> r.value.id == MemberString(obj, "id") && r.value.id.Some?
    ensures r.Some? ==> r.value.latitude == MemberDecimal(obj, "lat", parseDecimal).value
                        && r.value.longitude == MemberDecimal(obj, "lon", parseDecimal).value
    ensures r.Some? ==> r.value.name == TagOr(MemberObject(obj, "tags").value, "name", DefaultName)
    ensures r.Some? ==> r.value.tags == TagStrings(MemberObject(obj, "tags").value)
    ensures r.Some? ==> r.value.geometry == Some([])
  {
    var id, lat, lon, tags := MemberString(obj, "id"), MemberDecimal(obj, "lat", parseDecimal), MemberDecimal(obj, "lon", parseDecimal), MemberObject(obj, "tags");
    if id.None? || lat.None? || lon.None? || tags.None? then None
    else
      var name := TagOr(tags.value, "name", DefaultName);
      var extras := ReadExtras(tags.value);
      if name.None? || extras.None? then None
      else
        Some(Furnish(NewPharmacy(id, name, lat.value, lon.value), extras.value))
  }

  /** A node without a "name" tag is called "Pharmacie", and every tag it has is copied. */
  lemma NodeDefaultName(obj: map<string, Json>, parseDecimal: string -> Option<int>)
    requires NodePharmacy(obj, parseDecimal).Some?
    requires "name" !in MemberObject(obj, "tags").value
    ensures NodePharmacy(obj, parseDecimal).value.DisplayName() == DefaultName
    ensures NodePharmacy(obj, parseDecimal).value.tags.value.Keys == MemberObject(obj, "tags").value.Keys
  {
  }

  /** `parsePharmacy` with its tag loop. */
  method ParseNode(obj: map<string, Json>, parseDecimal: string -> Option<int>) returns (r: Option<PharmacyInfo>)
    ensures r == NodePharmacy(obj, parseDecimal)
  {
    var id, lat, lon, tags := MemberString(obj, "id"), MemberDecimal(obj, "lat", parseDecimal), MemberDecimal(obj, "lon", parseDecimal), MemberObject(obj, "tags");
    if id.None? || lat.None? || lon.None? || tags.None? {
      return None;
    }
    var name := TagOr(tags.value, "name", DefaultName);
    if name.None? {
      return None;
    }
    var extras := ReadExtrasWithLoop(tags.value);
    if extras.None? {
      return None;
    }
    r := Some(Furnish(NewPharmacy(id, name, lat.value, lon.value), extras.value));
  }

  /** One vertex of a building outline: an object with a "lat" and a "lon". */
  function VertexOf(j: Json, parseDecimal: string -> Option<int>): (r: Option<Point>)
    ensures r.Some? ==> j.JObject?
  {
    match ElementObject(j)
    case None => None
    case Some(o) =>
      var lat, lon := MemberDecimal(o, "lat", parseDecimal), MemberDecimal(o, "lon", parseDecimal);
      if lat.None? || lon.None? then None else Some((lat.value, lon.value))
  }

  /** Every vertex of the outline, in order, or `None` when one cannot be read. */
  function Outline(items: seq<Json>, parseDecimal: string -> Option<int>): (r: Option<seq<Point>>)
    ensures r.Some? ==> |r.value| == |items|
    ensures r.Some? ==> forall i :: 0 <= i < |items| ==> VertexOf(items[i], parseDecimal) == Some(r.value[i])
    ensures r.None? ==> exists i :: 0 <= i < |items| && VertexOf(items[i], parseDecimal).None?
  {
    if |items| == 0 then Some([])
    else
      var front, v := Outline(items[..|items| - 1], parseDecimal), VertexOf(items[|items| - 1], parseDecimal);
      if front.None? || v.None? then None else Some(front.value + [v.value])
  }

  /** The `addGeometryPoint` loop: each vertex appended in turn. */
  method ReadOutline(items: seq<Json>, parseDecimal: string -> Option<int>) returns (r: Option<seq<Point>>)
    ensures r == Outline(items, parseDecimal)
  {
    var points: seq<Point> := [];
    var i := 0;
    while i < |items|
      invariant 0 <= i <= |items|
      invariant Outline(items[..i], parseDecimal) == Some(points)
    {
      assert items[..i + 1][..i] == items[..i];
      var v := VertexOf(items[i], parseDecimal);
      if v.None? {
        return None;
      }
      points := points + [v.value];
      i := i + 1;
    }
    assert items[..i] == items;
    return Some(points);
  }

  /** A way's pharmacy, once its outline is read: placed at the outline's centre, keeping the outline. */
  function WayAt(id: Option<string>, name: Option<string>, outline: seq<Point>, centre: seq<Point> -> Point,
                 tags: map<string, Json>): (r: Option<PharmacyInfo>)
    ensures r.Some? <==> ReadExtras(tags).Some?
    ensures r.Some? ==> r.value.geometry == Some(outline) && r.value.id == id && r.value.name == name
    ensures r.Some? ==> r.value.tags == TagStrings(tags)
  {
    var c := centre(outline);
    var extras := ReadExtras(tags);
    if extras.None? then None
    else
      Some(Furnish(NewPharmacy(id, name, c.0, c.1).(geometry := Some(outline)), extras.value))
  }

  /**
   * `parsePharmacyWay`: a way becomes a pharmacy only with a non-empty "geometry"
   * array, all of whose vertices can be read; it is placed at `centre(outline)`
   * and keeps the outline in order.
   */
  function WayPharmacy(obj: map<string, Json>, parseDecimal: string -> Option<int>, centre: seq<Point> -> Point): (r: Option<PharmacyInfo>)
    ensures r.Some? ==> MemberArray(obj, "geometry").Some? && MemberArray(obj, "geometry").value != []
    ensures r.Some? ==> r.value.geometry == Outline(MemberArray(obj, "geometry").value, parseDecimal)
    ensures r.Some? ==> r.value.HasGeometry()
    ensures r.Some? ==> r.value.id == MemberString(obj, "id") && r.value.id.Some?
    ensures r.Some? ==> MemberObject(obj, "tags").Some? && r.value.name == TagOr(MemberObject(obj, "tags").value, "name", DefaultName)
    ensures r.Some? ==> r.value.tags == TagStrings(MemberObject(obj, "tags").value)
  {
    var id, tags := MemberString(obj, "id"), MemberObject(obj, "tags");
    if id.None? || tags.None? then None
    else
      var name := TagOr(tags.value, "name", DefaultName);
      if name.None? || !Has(obj, "geometry") then None
      else
        var items := MemberArray(obj, "geometry");
        if items.None? || |items.value| == 0 then None
        else
          var outline := Outline(items.value, parseDecimal);
          if outline.None? then None
          else WayAt(id, name, outline.value, centre, tags.value)
  }

  /** A way with no geometry, or an empty one, gives no pharmacy. */
  lemma WayWithoutGeometry(obj: map<string, Json>, parseDecimal: string -> Option<int>, centre: seq<Point> -> Point)
    requires "geometry" !in obj || obj["geometry"] == JArray([])
    ensures WayPharmacy(obj, parseDecimal, centre).None?
  {
  }

  /** `parsePharmacyWay` with its vertex and tag loops. */
  method ParseWay(obj: map<string, Json>, parseDecimal: string -> Option<int>, centre: seq<Point> -> Point) returns (r: Option<PharmacyInfo>)
    ensures r == WayPharmacy(obj, parseDecimal, centre)
  {
    var id, tags := MemberString(obj, "id"), MemberObject(obj, "tags");
    if id.None? || tags.None? {
      return None;
    }
    var name := TagOr(tags.value, "name", DefaultName);
    if name.None? || !Has(obj, "geometry") {
      return None;
    }
    var items := MemberArray(obj, "geometry");
    if items.None? || |items.value| == 0 {
      return None;
    }
    var outline := ReadOutline(items.value, parseDecimal);
    if outline.None? {
      return None;
    }
    var c := centre(outline.value);
    var extras := ReadExtrasWithLoop(tags.value);
    if extras.None? {
      return None;
    }
    r := Some(Furnish(NewPharmacy(id, name, c.0, c.1).(geometry := outline), extras.value));
  }

  // ---------------------------------------------------------------------------
  // Order by distance
  // ---------------------------------------------------------------------------

  /** The sort key of `pharmacies.sort(...)`. */
  function Distance(p: PharmacyInfo): int {
    p.distance
  }

  predicate SortedBy<T>(s: seq<T>, key: T -> int) {
    forall i, j :: 0 <= i < j < |s| ==> key(s[i]) <= key(s[j])
  }

  /** The elements of `s` whose key is `k`, in order. */
  function WithKey<T>(s: seq<T>, key: T -> int, k: int): seq<T> {
    if |s| == 0 then []
    else (if key(s[0]) == k then [s[0]] else []) + WithKey(s[1..], key, k)
  }

  /** `x` placed after every element whose key is not greater. */
  function Insert<T>(s: seq<T>, x: T, key: T -> int): seq<T> {
    if |s| == 0 then [x]
    else if key(x) < key(s[0]) then [x] + s
    else [s[0]] + Insert(s[1..], x, key)
  }

  /** `List.sort` with a comparator on `key`: a stable insertion sort. */
  function SortBy<T>(s: seq<T>, key: T -> int): seq<T> {
    if |s| == 0 then [] else Insert(SortBy(s[..|s| - 1], key), s[|s| - 1], key)
  }

  /** `pharmacies.sort` by distance. */
  function SortByDistance(ps: seq<PharmacyInfo>): seq<PharmacyInfo> {
    SortBy(ps, Distance)
  }

  lemma {:induction false} InsertMultiset<T>(s: seq<T>, x: T, key: T -> int)
    ensures multiset(Insert(s, x, key)) == multiset(s) + multiset{x}
    decreases |s|
  {
    if |s| > 0 && key(x) >= key(s[0]) {
      InsertMultiset(s[1..], x, key);
      assert s == [s[0]] + s[1..];
    }
  }

  /** Insertion adds no key below a bound that `s` and `x` respect. */
  lemma {:induction false} InsertAbove<T>(s: seq<T>, x: T, key: T -> int, bound: int)
    requires forall i :: 0 <= i < |s| ==> bound <= key(s[i])
    requires bound <= key(x)
    ensures forall i :: 0 <= i < |Insert(s, x, key)| ==> bound <= key(Insert(s, x, key)[i])
    decreases |s|
  {
    if |s| > 0 && key(x) >= key(s[0]) {
      InsertAbove(s[1..], x, key, bound);
    }
  }

  lemma {:induction false} InsertSorted<T>(s: seq<T>, x: T, key: T -> int)
    requires SortedBy(s, key)
    ensures SortedBy(Insert(s, x, key), key)
    decreases |s|
  {
    if |s| > 0 && key(x) >= key(s[0]) {
      var rest := Insert(s[1..], x, key);
      InsertSorted(s[1..], x, key);
      InsertAbove(s[1..], x, key, key(s[0]));
      var r := [s[0]] + rest;
      forall i, j | 0 <= i < j < |r| ensures key(r[i]) <= key(r[j]) {
        assert r[j] == rest[j - 1];
        if i > 0 {
          assert r[i] == rest[i - 1];
        }
      }
    }
  }

  lemma {:induction false} WithKeyAppend<T>(a: seq<T>, b: seq<T>, key: T -> int, k: int)
    ensures WithKey(a + b, key, k) == WithKey(a, key, k) + WithKey(b, key, k)
    decreases |a|
  {
    if |a| == 0 {
      assert a + b == b;
    } else {
      var ab := a + b;
      assert ab[0] == a[0] && ab[1..] == a[1..] + b;
      WithKeyAppend(a[1..], b, key, k);
    }
  }

  lemma {:induction false} WithKeyOfGreater<T>(s: seq<T>, key: T -> int, k: int)
    requires forall i :: 0 <= i < |s| ==> k < key(s[i])
    ensures WithKey(s, key, k) == []
    decreases |s|
  {
    if |s| > 0 {
      assert k < key(s[0]);
      WithKeyOfGreater(s[1..], key, k);
    }
  }

  /** When `x` goes in front, it comes before every element of greater key. */
  lemma InsertInFront<T>(s: seq<T>, x: T, key: T -> int, k: int)
    requires SortedBy(s, key) && |s| > 0 && key(x) < key(s[0])
    ensures WithKey([x] + s, key, k) == WithKey(s, key, k) + WithKey([x], key, k)
  {
    WithKeyAppend([x], s, key, k);
    if key(x) == k {
      forall i | 0 <= i < |s| ensures k < key(s[i]) {
        if i > 0 {
          assert key(s[0]) <= key(s[i]);
        }
      }
      WithKeyOfGreater(s, key, k);
    } else {
      assert WithKey([x], key, k) == [] + WithKey([x][1..], key, k);
    }
  }

  /** Insertion keeps the order among elements of equal key, `x` coming after its equals. */
  lemma {:induction false} InsertStable<T>(s: seq<T>, x: T, key: T -> int, k: int)
    requires SortedBy(s, key)
    ensures WithKey(Insert(s, x, key), key, k) == WithKey(s, key, k) + WithKey([x], key, k)
    decreases |s|
  {
    if |s| == 0 {
      assert WithKey([x], key, k) == [] + WithKey([x], key, k);
    } else if key(x) < key(s[0]) {
      InsertInFront(s, x, key, k);
    } else {
      var tail := s[1..];
      assert SortedBy(tail, key) by {
        forall i, j | 0 <= i < j < |tail| ensures key(tail[i]) <= key(tail[j]) {
          assert tail[i] == s[i + 1] && tail[j] == s[j + 1];
        }
      }
      InsertStable(tail, x, key, k);
      var head := [s[0]];
      WithKeyAppend(head, Insert(tail, x, key), key, k);
      WithKeyAppend(head, tail, key, k);
      assert head + tail == s;
    }
  }

  /** The sort puts the elements in order of key, loses and adds none, and keeps ties in input order. */
  lemma {:induction false} SortFacts<T>(s: seq<T>, key: T -> int)
    ensures SortedBy(SortBy(s, key), key)
    ensures multiset(SortBy(s, key)) == multiset(s)
    ensures forall k :: WithKey(SortBy(s, key), key, k) == WithKey(s, key, k)
    decreases |s|
  {
    if |s| > 0 {
      var front, last := s[..|s| - 1], s[|s| - 1];
      var sorted := SortBy(front, key);
      SortFacts(front, key);
      InsertMultiset(sorted, last, key);
      InsertSorted(sorted, last, key);
      assert s == front + [last];
      forall k ensures WithKey(SortBy(s, key), key, k) == WithKey(s, key, k) {
        InsertStable(sorted, last, key, k);
        WithKeyAppend(front, [last], key, k);
      }
    }
  }

  /**
   * The cut at `getMaxMarkers()`: the first `max` when there are more. A negative
   * limit makes `subList` throw; the catch then returns the whole sorted list.
   */
  function Truncate(ps: seq<PharmacyInfo>, max: int): (r: seq<PharmacyInfo>)
    ensures r <= ps
    ensures max >= 0 ==> |r| == if |ps| > max then max else |ps|
    ensures max < 0 ==> r == ps
  {
    if max >= 0 && |ps| > max then ps[..max] else ps
  }

  /** Of a list in order of distance, the cut keeps the nearest: none dropped is nearer than one kept. */
  lemma TruncateKeepsNearest(ps: seq<PharmacyInfo>, max: int)
    requires SortedBy(ps, Distance)
    ensures SortedBy(Truncate(ps, max), Distance)
    ensures forall i, j :: 0 <= i < |Truncate(ps, max)| <= j < |ps| ==> ps[i].distance <= ps[j].distance
  {
  }

  // ---------------------------------------------------------------------------
  // parsePharmacies
  // ---------------------------------------------------------------------------

  /** The list built so far, and whether an exception has ended the loop. */
  datatype Collected = Collected(found: seq<PharmacyInfo>, aborted: bool)

  /** The parsing context: `Double.parseDouble`, the outline centre, and the distance from the user to a point. */
  datatype Context = Context(parseDecimal: string -> Option<int>, centre: seq<Point> -> Point, distanceFrom: (int, int) -> int)

  /** `calculateDistanceFrom(userLat, userLon)`. */
  function WithDistance(p: PharmacyInfo, ctx: Context): (r: PharmacyInfo)
    ensures r == p.(distance := ctx.distanceFrom(p.latitude, p.longitude))
  {
    p.(distance := ctx.distanceFrom(p.latitude, p.longitude))
  }

  /**
   * One pass of the element loop: a non-object element or an unreadable "type"
   * throws, ending the loop; an element without "type" or "tags" is skipped; a
   * node or a way that parses is added with its distance; anything else is skipped.
   */
  function Visit(found: seq<PharmacyInfo>, e: Json, ctx: Context): (r: Collected)
    ensures !e.JObject? ==> r == Collected(found, true)
    ensures e.JObject? && !("type" in e.members && "tags" in e.members) ==> r == Collected(found, false)
    ensures !r.aborted ==> found <= r.found && |r.found| <= |found| + 1
    ensures r.aborted ==> r.found == found
    ensures |r.found| == |found| + 1 ==> e.JObject? && (MemberString(e.members, "type") == Some("node") || MemberString(e.members, "type") == Some("way"))
    ensures e.JObject? && "type" in e.members && "tags" in e.members ==>
              (r.aborted <==> MemberString(e.members, "type").None?)
    ensures e.JObject? && "type" in e.members && "tags" in e.members && MemberString(e.members, "type") == Some("node") ==>
              r == match NodePharmacy(e.members, ctx.parseDecimal)
                   case Some(p) => Collected(found + [WithDistance(p, ctx)], false)
                   case None => Collected(found, false)
    ensures e.JObject? && "type" in e.members && "tags" in e.members && MemberString(e.members, "type") == Some("way") ==>
              r == match WayPharmacy(e.members, ctx.parseDecimal, ctx.centre)
                   case Some(p) => Collected(found + [WithDistance(p, ctx)], false)
                   case None => Collected(found, false)
    ensures r == if Throws(e) then Collected(found, true) else Collected(found + Yielded(e, ctx), false)
  {
    match ElementObject(e)
    case None => Collected(found, true)
    case Some(obj) =>
      if !Has(obj, "type") || !Has(obj, "tags") then Collected(found, false)
      else match MemberString(obj, "type")
        case None => Collected(found, true)
        case Some(kind) =>
          var parsed :=
            if kind == "node" then NodePharmacy(obj, ctx.parseDecimal)
            else if kind == "way" then WayPharmacy(obj, ctx.parseDecimal, ctx.centre)
            else None;
          match parsed
          case Some(p) => Collected(found + [WithDistance(p, ctx)], false)
          case None => Collected(found, false)
  }

  /** An element the loop throws on: not an object, or a "type" beside "tags" that `getAsString` cannot read. */
  predicate Throws(e: Json) {
    !e.JObject? || ("type" in e.members && "tags" in e.members && MemberString(e.members, "type").None?)
  }

  /** The pharmacy one element gives, with its distance: a "node" or a "way" (with "tags") that parses. */
  function ElementPharmacy(e: Json, ctx: Context): (r: Option<PharmacyInfo>)
    ensures r.Some? ==> e.JObject? && "tags" in e.members
    ensures r.Some? ==> ctx.distanceFrom(r.value.latitude, r.value.longitude) == r.value.distance
  {
    if !e.JObject? || !("type" in e.members && "tags" in e.members) then None
    else match MemberString(e.members, "type")
      case Some("node") =>
        (match NodePharmacy(e.members, ctx.parseDecimal) case Some(p) => Some(WithDistance(p, ctx)) case None => None)
      case Some("way") =>
        (match WayPharmacy(e.members, ctx.parseDecimal, ctx.centre) case Some(p) => Some(WithDistance(p, ctx)) case None => None)
      case _ => None
  }

  /** What one element contributes to the list: its pharmacy, or nothing. */
  function Yielded(e: Json, ctx: Context): (r: seq<PharmacyInfo>)
    ensures |r| <= 1
  {
    match ElementPharmacy(e, ctx) case Some(p) => [p] case None => []
  }

  /** The pharmacies of the elements, in order: the filter-map of `ElementPharmacy`. */
  function Harvest(es: seq<Json>, ctx: Context): (r: seq<PharmacyInfo>)
    ensures |r| <= |es|
  {
    if es == [] then [] else Yielded(es[0], ctx) + Harvest(es[1..], ctx)
  }

  /** How many elements the loop reads before one throws: the index of the first throwing element, or all of them. */
  function Reached(es: seq<Json>): (n: nat)
    ensures n <= |es|
    ensures forall j :: 0 <= j < n ==> !Throws(es[j])
    ensures n < |es| ==> Throws(es[n])
  {
    if es == [] || Throws(es[0]) then 0 else 1 + Reached(es[1..])
  }

  /** The element loop over `es`, in order. */
  function Scan(es: seq<Json>, ctx: Context): (r: Collected)
    ensures |r.found| <= |es|
  {
    if |es| == 0 then Collected([], false)
    else
      var before := Scan(es[..|es| - 1], ctx);
      if before.aborted then before else Visit(before.found, es[|es| - 1], ctx)
  }

  lemma {:induction false} HarvestAppend(a: seq<Json>, b: seq<Json>, ctx: Context)
    ensures Harvest(a + b, ctx) == Harvest(a, ctx) + Harvest(b, ctx)
  {
    if a == [] {
      assert a + b == b;
    } else {
      assert (a + b)[0] == a[0] && (a + b)[1..] == a[1..] + b;
      HarvestAppend(a[1..], b, ctx);
      var y := Yielded(a[0], ctx);
      assert Harvest(a + b, ctx) == y + Harvest(a[1..] + b, ctx);
      assert y + (Harvest(a[1..], ctx) + Harvest(b, ctx)) == (y + Harvest(a[1..], ctx)) + Harvest(b, ctx);
    }
  }

  lemma {:induction false} ReachedSnoc(es: seq<Json>, e: Json)
    ensures Reached(es + [e]) == if Reached(es) < |es| then Reached(es) else if Throws(e) then |es| else |es| + 1
  {
    if es != [] {
      assert (es + [e])[1..] == es[1..] + [e];
      ReachedSnoc(es[1..], e);
    }
  }

  lemma HarvestSnoc(es: seq<Json>, e: Json, ctx: Context)
    ensures Harvest(es + [e], ctx) == Harvest(es, ctx) + Yielded(e, ctx)
  {
    HarvestAppend(es, [e], ctx);
    assert [e][1..] == [];
    assert Harvest([e], ctx) == Yielded(e, ctx) + [];
  }

  /** One more element: the loop either has already thrown, throws now, or adds what the element yields. */
  lemma ScanSnoc(es: seq<Json>, ctx: Context)
    requires es != []
    ensures var before, last := Scan(es[..|es| - 1], ctx), es[|es| - 1];
            Scan(es, ctx) == if before.aborted then before
                             else if Throws(last) then Collected(before.found, true)
                             else Collected(before.found + Yielded(last, ctx), false)
  {
  }

  /**
   * The loop throws exactly when some element throws (`Reached(es)`, the index of
   * the first, lies inside the answer); it has then collected the pharmacies of
   * the elements before that one, and otherwise those of every element, in the
   * answer's order.
   */
  lemma {:induction false} ScanIsHarvest(es: seq<Json>, ctx: Context)
    ensures Scan(es, ctx).aborted <==> Reached(es) < |es|
    ensures Scan(es, ctx).found == Harvest(es[..Reached(es)], ctx)
  {
    if |es| == 0 {
      return;
    }
    var front, last := es[..|es| - 1], es[|es| - 1];
    assert es == front + [last];
    ScanIsHarvest(front, ctx);
    ReachedSnoc(front, last);
    ScanSnoc(es, ctx);
    var n := Reached(front);
    if n < |front| {
      assert es[..n] == front[..n];
    } else {
      assert front[..n] == front;
      if Throws(last) {
        assert es[..|front|] == front;
      } else {
        HarvestSnoc(front, last, ctx);
        assert es[..|es|] == es;
      }
    }
  }

  /** The same, with the first throwing element spelled out. */
  lemma ScanOfElements(es: seq<Json>, ctx: Context)
    ensures Scan(es, ctx).aborted <==> exists j :: 0 <= j < |es| && Throws(es[j])
    ensures !Scan(es, ctx).aborted ==> Scan(es, ctx).found == Harvest(es, ctx)
    ensures Scan(es, ctx).aborted ==> Scan(es, ctx).found == Harvest(es[..Reached(es)], ctx)
  {
    ScanIsHarvest(es, ctx);
    var n := Reached(es);
    if n == |es| {
      assert es[..n] == es;
    } else {
      assert Throws(es[n]);
    }
  }

  /**
   * `parsePharmacies` on a parsed answer: no "elements" array gives the empty
   * list; a loop ended by an exception gives what it had collected, unsorted;
   * otherwise the pharmacies in order of distance, cut at the marker limit.
   */
  function Parsed(answer: Json, ctx: Context, maxMarkers: int): (r: seq<PharmacyInfo>)
  {
    match ElementObject(answer)
    case None => []
    case Some(root) =>
      match MemberArray(root, "elements")
      case None => []
      case Some(es) =>
        var c := Scan(es, ctx);
        if c.aborted then c.found else Truncate(SortByDistance(c.found), maxMarkers)
  }

  /**
   * Sorting and then cutting keeps at most `max` of the pharmacies found, in
   * order of distance, and every one left out is at least as far as every one kept.
   */
  lemma NearestFirst(found: seq<PharmacyInfo>, max: int)
    ensures |SortByDistance(found)| == |found|
    ensures SortedBy(Truncate(SortByDistance(found), max), Distance)
    ensures max >= 0 ==> |Truncate(SortByDistance(found), max)| <= max
    ensures |Truncate(SortByDistance(found), max)| <= |found|
    ensures multiset(Truncate(SortByDistance(found), max)) <= multiset(found)
    ensures forall p, q :: p in found && p !in Truncate(SortByDistance(found), max) && q in Truncate(SortByDistance(found), max)
                           ==> q.distance <= p.distance
  {
    var sorted := SortByDistance(found);
    SortFacts(found, Distance);
    assert |sorted| == |found| by {
      assert |multiset(sorted)| == |multiset(found)|;
    }
    var r := Truncate(sorted, max);
    PrefixMultiset(sorted, |r|);
    forall p, q | p in found && p !in r && q in r ensures q.distance <= p.distance {
      assert p in multiset(sorted);
      DroppedNotNearer(sorted, |r|, Distance, p, q);
    }
  }

  lemma PrefixMultiset<T>(s: seq<T>, n: nat)
    requires n <= |s|
    ensures multiset(s[..n]) <= multiset(s)
  {
    assert s == s[..n] + s[n..];
  }

  /** In a sorted sequence, an element outside the first `n` has a key no smaller than any of them. */
  lemma DroppedNotNearer<T>(s: seq<T>, n: nat, key: T -> int, p: T, q: T)
    requires SortedBy(s, key) && n <= |s|
    requires p in s && p !in s[..n] && q in s[..n]
    ensures key(q) <= key(p)
  {
    var j :| 0 <= j < |s| && s[j] == p;
    var i :| 0 <= i < n && s[..n][i] == q;
    assert s[i] == q;
  }

  /** A loop that runs to the end yields at most `maxMarkers` pharmacies, nearest first, from at most one per element. */
  lemma ParsedInOrder(answer: Json, ctx: Context, maxMarkers: int)
    requires answer.JObject? && MemberArray(answer.members, "elements").Some?
    requires !Scan(MemberArray(answer.members, "elements").value, ctx).aborted
    ensures SortedBy(Parsed(answer, ctx, maxMarkers), Distance)
    ensures maxMarkers >= 0 ==> |Parsed(answer, ctx, maxMarkers)| <= maxMarkers
    ensures |Parsed(answer, ctx, maxMarkers)| <= |MemberArray(answer.members, "elements").value|
    ensures multiset(Parsed(answer, ctx, maxMarkers)) <= multiset(Scan(MemberArray(answer.members, "elements").value, ctx).found)
  {
    var es := MemberArray(answer.members, "elements").value;
    var found := Scan(es, ctx).found;
    assert Parsed(answer, ctx, maxMarkers) == Truncate(SortByDistance(found), maxMarkers);
    NearestFirst(found, maxMarkers);
  }

  /**
   * `parsePharmacies` in terms of the elements: when none throws, the pharmacies
   * of all of them sorted by distance and cut at `maxMarkers`; otherwise those of
   * the elements before the first that throws, in the answer's order.
   */
  lemma ParsedOfElements(answer: Json, ctx: Context, maxMarkers: int)
    requires answer.JObject? && MemberArray(answer.members, "elements").Some?
    ensures var es := MemberArray(answer.members, "elements").value;
            (forall j :: 0 <= j < |es| ==> !Throws(es[j])) ==>
              Parsed(answer, ctx, maxMarkers) == Truncate(SortByDistance(Harvest(es, ctx)), maxMarkers)
    ensures var es := MemberArray(answer.members, "elements").value;
            (exists j :: 0 <= j < |es| && Throws(es[j])) ==>
              Parsed(answer, ctx, maxMarkers) == Harvest(es[..Reached(es)], ctx)
  {
    ScanOfElements(MemberArray(answer.members, "elements").value, ctx);
  }

  /** One pass of the element loop, calling the parsers with their loops. */
  method VisitElement(found: seq<PharmacyInfo>, e: Json, ctx: Context) returns (r: Collected)
    ensures r == Visit(found, e, ctx)
  {
    if !e.JObject? {
      return Collected(found, true);
    }
    var obj := e.members;
    if !Has(obj, "type") || !Has(obj, "tags") {
      return Collected(found, false);
    }
    var kind := MemberString(obj, "type");
    if kind.None? {
      return Collected(found, true);
    }
    var parsed: Option<PharmacyInfo> := None;
    if kind.value == "node" {
      parsed := ParseNode(obj, ctx.parseDecimal);
    } else if kind.value == "way" {
      parsed := ParseWay(obj, ctx.parseDecimal, ctx.centre);
    }
    if parsed.Some? {
      return Collected(found + [WithDistance(parsed.value, ctx)], false);
    }
    return Collected(found, false);
  }

  /** `parsePharmacies` with its element loop, on an answer that parsed as JSON. */
  method ParsePharmacies(answer: Json, ctx: Context, maxMarkers: int) returns (r: seq<PharmacyInfo>)
    ensures r == Parsed(answer, ctx, maxMarkers)
  {
    if !answer.JObject? {
      return [];
    }
    var elements := MemberArray(answer.members, "elements");
    if elements.None? {
      return [];
    }
    var es := elements.value;
    var found: seq<PharmacyInfo> := [];
    var i := 0;
    while i < |es|
      invariant 0 <= i <= |es|
      invariant Scan(es[..i], ctx) == Collected(found, false)
    {
      assert es[..i + 1][..i] == es[..i];
      var c := VisitElement(found, es[i], ctx);
      if c.aborted {
        ScanStaysAborted(es, i + 1, ctx);
        return found;
      }
      found := c.found;
      i := i + 1;
    }
    assert es[..i] == es;
    r := Truncate(SortByDistance(found), maxMarkers);
  }

  /** Once the loop has thrown, the rest of the elements change nothing. */
  lemma {:induction false} ScanStaysAborted(es: seq<Json>, n: nat, ctx: Context)
    requires 0 < n <= |es| && Scan(es[..n], ctx).aborted
    ensures Scan(es, ctx) == Scan(es[..n], ctx)
    decreases |es| - n
  {
    if n < |es| {
      assert es[..n + 1][..n] == es[..n];
      ScanStaysAborted(es, n + 1, ctx);
    } else {
      assert es[..n] == es;
    }
  }

  /**
   * `getNearbyPharmacies`: never null; a failed request or an answer that is not
   * JSON gives the empty list.
   */
  method GetNearbyPharmacies(answer: Option<Json>, ctx: Context, maxMarkers: int) returns (r: seq<PharmacyInfo>)
    ensures answer.None? ==> r == []
    ensures answer.Some? ==> r == Parsed(answer.value, ctx, maxMarkers)
  {
    if answer.None? {
      return [];
    }
    r := ParsePharmacies(answer.value, ctx, maxMarkers);
  }
}
