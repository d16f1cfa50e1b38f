/**
 * Reading addresses and places out of Nominatim answers
 * (`services/GeocodingService.java`): the address assembled from its
 * components, the short "city, country" form, the choice between the display
 * name and the components, and the first result of a search.
 *
 * The HTTP exchange and the JSON text parser are not modelled: each operation is
 * given the parsed answer, `None` when the request failed, the status was not a
 * success, there was no body or the text was not JSON. All four catch every
 * exception, so a read that throws makes the result null.
 */
module Geocoding {
  import opened Wrappers
  import opened JavaText
  import opened Json
  import opened LocationModel

  /** A `java.lang.StringBuilder` as these methods use it: appending, and asking the length. */
  class StringBuilder {
    var text: string

    constructor ()
      ensures text == ""
    {
      text := "";
    }

    method Append(s: string)
      modifies this
      ensures text == old(text) + s
    {
      text := text + s;
    }

    function Length(): (n: nat)
      reads this
      ensures n == |text|
    {
      |text|
    }
  }

  /** The place keys, in order of preference, and the country key. */
  const PlaceKeys: seq<string> := ["city", "town", "village"]
  const CountryKeys: seq<string> := ["country"]

  /** The first of `keys` that `address` has. */
  function FirstPresent(address: map<string, Json>, keys: seq<string>): (r: Option<string>)
    ensures r.Some? ==> r.value in keys && r.value in address
    ensures r.None? ==> forall i :: 0 <= i < |keys| ==> keys[i] !in address
  {
    if |keys| == 0 then None
    else if Has(address, keys[0]) then Some(keys[0])
    else FirstPresent(address, keys[1..])
  }

  /** ", " before a value, unless nothing has been written yet. */
  function Separator(text: string): (r: string)
    ensures r == ", " <==> |text| > 0
    ensures r == "" <==> |text| == 0
  {
    if |text| > 0 then ", " else ""
  }

  /**
   * The text after `appendLocation(builder, address, keys)`: the value of the
   * first key present, after a separator, and nothing when no key is present;
   * `None` when that value cannot be read as a string.
   */
  function WithLocation(text: string, address: map<string, Json>, keys: seq<string>): (r: Option<string>)
    ensures r.Some? ==> text <= r.value
  {
    match FirstPresent(address, keys)
    case None => Some(text)
    case Some(k) =>
      match AsString(address[k])
      case Some(v) => Some(text + Separator(text) + v)
      case None => None
  }

  /** `FirstPresent` finds the first listed key that is present, and only it. */
  lemma {:induction false} FirstPresentAt(address: map<string, Json>, keys: seq<string>, i: nat)
    requires i < |keys| && keys[i] in address
    requires forall j :: 0 <= j < i ==> keys[j] !in address
    ensures FirstPresent(address, keys) == Some(keys[i])
    decreases i
  {
    if i > 0 {
      assert keys[0] !in address;
      var rest := keys[1..];
      assert rest[i - 1] == keys[i];
      forall j | 0 <= j < i - 1 ensures rest[j] !in address {
        assert rest[j] == keys[j + 1];
      }
      FirstPresentAt(address, rest, i - 1);
    }
  }

  /** Only the value of the first listed key present is appended, after ", " when the text is not empty. */
  lemma AppendsFirstPresent(text: string, address: map<string, Json>, keys: seq<string>, i: nat, v: string)
    requires i < |keys| && keys[i] in address && AsString(address[keys[i]]) == Some(v)
    requires forall j :: 0 <= j < i ==> keys[j] !in address
    ensures WithLocation(text, address, keys) == Some(text + Separator(text) + v)
    ensures text == "" ==> WithLocation(text, address, keys) == Some(v)
  {
    FirstPresentAt(address, keys, i);
    assert "" + "" + v == v;
  }

  /** With none of the keys present, nothing is appended. */
  lemma AppendsNothing(text: string, address: map<string, Json>, keys: seq<string>)
    requires forall i :: 0 <= i < |keys| ==> keys[i] !in address
    ensures WithLocation(text, address, keys) == Some(text)
  {
  }

  /**
   * `appendLocation`: the loop over the keys that stops at the first one present.
   * When reading it throws, the separator is already written.
   */
  method AppendLocation(builder: StringBuilder, address: map<string, Json>, keys: seq<string>) returns (ok: bool)
    modifies builder
    ensures ok <==> WithLocation(old(builder.text), address, keys).Some?
    ensures ok ==> builder.text == WithLocation(old(builder.text), address, keys).value
    ensures !ok ==> builder.text == old(builder.text) + Separator(old(builder.text))
  {
    var i := 0;
    while i < |keys|
      invariant 0 <= i <= |keys|
      invariant builder.text == old(builder.text)
      invariant FirstPresent(address, keys[i..]) == FirstPresent(address, keys)
    {
      assert keys[i..][1..] == keys[i + 1..];
      if Has(address, keys[i]) {
        var text := builder.text;
        if builder.Length() > 0 {
          builder.Append(", ");
        } else {
          assert text + Separator(text) == text;
        }
        var v := AsString(address[keys[i]]);
        if v.None? {
          return false;
        }
        builder.Append(v.value);
        return true;
      }
      i := i + 1;
    }
    return true;
  }

  // ---------------------------------------------------------------------------
  // buildAddressFromComponents
  // ---------------------------------------------------------------------------

  /**
   * The start of the address: the house number and a space when there is one,
   * then the road or, without a road, the pedestrian way; `None` when a value
   * present cannot be read.
   */
  function Street(address: map<string, Json>): (r: Option<string>)
  {
    var number :=
      if !Has(address, "house_number") then Some("")
      else match AsString(address["house_number"]) case Some(n) => Some(n + " ") case None => None;
    var way :=
      if Has(address, "road") then AsString(address["road"])
      else if Has(address, "pedestrian") then AsString(address["pedestrian"])
      else Some("");
    if number.None? || way.None? then None else Some(number.value + way.value)
  }

  /** The house number comes first, and the road is taken in preference to the pedestrian way. */
  lemma StreetOrder(address: map<string, Json>, n: string, w: string)
    requires "house_number" in address && AsString(address["house_number"]) == Some(n)
    ensures "road" in address && AsString(address["road"]) == Some(w) ==> Street(address) == Some(n + " " + w)
    ensures "road" !in address && "pedestrian" in address && AsString(address["pedestrian"]) == Some(w)
            ==> Street(address) == Some(n + " " + w)
    ensures "road" !in address && "pedestrian" !in address ==> Street(address) == Some(n + " ")
  {
    assert n + " " + "" == n + " ";
  }

  /** The builder's text before trimming: the street part, then the place, then the country. */
  function ComponentsText(address: map<string, Json>): (r: Option<string>)
    ensures r.Some? ==> Street(address).Some? && Street(address).value <= r.value
  {
    match Street(address)
    case None => None
    case Some(s) =>
      match WithLocation(s, address, PlaceKeys)
      case None => None
      case Some(t) => WithLocation(t, address, CountryKeys)
  }

  /**
   * `buildAddressFromComponents`: the trimmed text, or null (`Some(None)`) when
   * that is empty; `None` when a read throws.
   */
  function FromComponents(address: map<string, Json>): (r: Option<Option<string>>)
    ensures r.Some? <==> ComponentsText(address).Some?
    ensures r == Some(None) <==> ComponentsText(address).Some? && AllBlank(ComponentsText(address).value)
    ensures r.Some? && r.value.Some? ==> r.value.value == Trim(ComponentsText(address).value) && r.value.value != ""
  {
    match ComponentsText(address)
    case None => None
    case Some(t) =>
      TrimEmptyIffAllBlank(t);
      var f := Trim(t);
      Some(if f == "" then None else Some(f))
  }

  /** Number, road, city and country, each a plain string, make "number road, city, country" before trimming. */
  lemma FullComponents(address: map<string, Json>, n: string, w: string, c: string, k: string)
    requires "house_number" in address && address["house_number"] == JString(n)
    requires "road" in address && address["road"] == JString(w)
    requires "city" in address && address["city"] == JString(c)
    requires "country" in address && address["country"] == JString(k)
    ensures ComponentsText(address) == Some(n + " " + w + ", " + c + ", " + k)
  {
    StreetOrder(address, n, w);
    var s := n + " " + w;
    assert |s| > 0;
    AppendsFirstPresent(s, address, PlaceKeys, 0, c);
    var t := s + ", " + c;
    AppendsFirstPresent(t, address, CountryKeys, 0, k);
  }

  /** `buildAddressFromComponents` with its `StringBuilder`. */
  method BuildAddressFromComponents(address: map<string, Json>) returns (r: Option<Option<string>>)
    ensures r == FromComponents(address)
  {
    var result := new StringBuilder();
    ghost var number := "";
    if Has(address, "house_number") {
      var n := AsString(address["house_number"]);
      if n.None? {
        return None;
      }
      result.Append(n.value);
      result.Append(" ");
      number := n.value + " ";
      assert result.text == number;
    }
    var way: Option<string> := Some("");
    if Has(address, "road") {
      way := AsString(address["road"]);
    } else if Has(address, "pedestrian") {
      way := AsString(address["pedestrian"]);
    }
    if way.None? {
      return None;
    }
    result.Append(way.value);
    assert result.text == number + way.value;
    assert Street(address) == Some(result.text);
    var ok := AppendLocation(result, address, PlaceKeys);
    if !ok {
      return None;
    }
    ok := AppendLocation(result, address, CountryKeys);
    if !ok {
      return None;
    }
    var f := Trim(result.text);
    r := Some(if f == "" then None else Some(f));
  }

  // ---------------------------------------------------------------------------
  // The three requests
  // ---------------------------------------------------------------------------

  /**
   * `getAddressFromCoordinates` on the parsed answer: "display_name" when the
   * answer has one; otherwise the address built from "address"; null without either.
   */
  function AddressFromCoordinates(answer: Option<Json>): (r: Option<string>)
  {
    match answer
    case None => None
    case Some(j) =>
      match ElementObject(j)
      case None => None
      case Some(json) =>
        if Has(json, "display_name") then AsString(json["display_name"])
        else if Has(json, "address") then
          match MemberObject(json, "address")
          case None => None
          case Some(a) => (match FromComponents(a) case Some(built) => built case None => None)
        else None
  }

  /** The display name wins whenever it is present, and the components are read only without it. */
  lemma DisplayNamePreferred(json: map<string, Json>)
    ensures "display_name" in json ==> AddressFromCoordinates(Some(JObject(json))) == AsString(json["display_name"])
    ensures "display_name" !in json && "address" in json && json["address"].JObject? ==>
              AddressFromCoordinates(Some(JObject(json))) == FromComponents(json["address"].members).GetOr(None)
    ensures "display_name" !in json && "address" !in json ==> AddressFromCoordinates(Some(JObject(json))).None?
  {
  }

  /** `getAddressFromCoordinates`, building from the components with a `StringBuilder`. */
  method GetAddressFromCoordinates(answer: Option<Json>) returns (r: Option<string>)
    ensures r == AddressFromCoordinates(answer)
  {
    if answer.None? || !answer.value.JObject? {
      return None;
    }
    var json := answer.value.members;
    if Has(json, "display_name") {
      return AsString(json["display_name"]);
    }
    if !Has(json, "address") {
      return None;
    }
    var a := MemberObject(json, "address");
    if a.None? {
      return None;
    }
    var built := BuildAddressFromComponents(a.value);
    r := if built.Some? then built.value else None;
  }

  /** The text `getShortAddress` builds: the place, then the country. */
  function ShortText(address: map<string, Json>): (r: Option<string>)
  {
    match WithLocation("", address, PlaceKeys)
    case None => None
    case Some(t) => WithLocation(t, address, CountryKeys)
  }

  /** `getShortAddress` on the parsed answer: null without an "address" object, otherwise the text, possibly "". */
  function ShortAddress(answer: Option<Json>): (r: Option<string>)
  {
    match answer
    case None => None
    case Some(j) =>
      match ElementObject(j)
      case None => None
      case Some(json) =>
        if !Has(json, "address") then None
        else match MemberObject(json, "address")
          case None => None
          case Some(a) => ShortText(a)
  }

  /**
   * With an "address" object whose place and country are plain strings, the
   * short address is never null: "city, country", the country alone, or "".
   */
  lemma ShortAddressOfPlaces(json: map<string, Json>, place: string, country: string)
    requires "address" in json && json["address"].JObject?
    ensures var a := json["address"].members;
            "city" in a && a["city"] == JString(place) && "country" in a && a["country"] == JString(country) && place != ""
            ==> ShortAddress(Some(JObject(json))) == Some(place + ", " + country)
    ensures var a := json["address"].members;
            (forall i :: 0 <= i < |PlaceKeys| ==> PlaceKeys[i] !in a) && "country" in a && a["country"] == JString(country)
            ==> ShortAddress(Some(JObject(json))) == Some(country)
    ensures var a := json["address"].members;
            (forall i :: 0 <= i < |PlaceKeys| ==> PlaceKeys[i] !in a) && "country" !in a
            ==> ShortAddress(Some(JObject(json))) == Some("")
  {
    var a := json["address"].members;
    if "city" in a && a["city"] == JString(place) && "country" in a && a["country"] == JString(country) && place != "" {
      AppendsFirstPresent("", a, PlaceKeys, 0, place);
      AppendsFirstPresent(place, a, CountryKeys, 0, country);
    }
    if forall i :: 0 <= i < |PlaceKeys| ==> PlaceKeys[i] !in a {
      AppendsNothing("", a, PlaceKeys);
      if "country" in a && a["country"] == JString(country) {
        AppendsFirstPresent("", a, CountryKeys, 0, country);
      }
      if "country" !in a {
        AppendsNothing("", a, CountryKeys);
      }
    }
  }

  /** `getShortAddress` with its `StringBuilder`. */
  method GetShortAddress(answer: Option<Json>) returns (r: Option<string>)
    ensures r == ShortAddress(answer)
  {
    if answer.None? || !answer.value.JObject? {
      return None;
    }
    var json := answer.value.members;
    if !Has(json, "address") {
      return None;
    }
    var a := MemberObject(json, "address");
    if a.None? {
      return None;
    }
    var shortAddress := new StringBuilder();
    var ok := AppendLocation(shortAddress, a.value, PlaceKeys);
    if !ok {
      return None;
    }
    ok := AppendLocation(shortAddress, a.value, CountryKeys);
    if !ok {
      return None;
    }
    return Some(shortAddress.text);
  }

  /**
   * `geocode` on the parsed answer: null for an empty result array; otherwise the
   * location of the first result, null when its coordinates cannot be read or
   * `new Location` rejects them.
   */
  function GeocodeResult(answer: Option<Json>, parseDecimal: string -> Option<int>): (r: Option<LocationInfo>)
    ensures r.Some? ==> r.value.Valid() && r.value.city.None? && r.value.country.None? && r.value.address.None?
  {
    match answer
    case None => None
    case Some(j) =>
      if !j.JArray? || |j.items| == 0 then None
      else
        match ElementObject(j.items[0])
        case None => None
        case Some(obj) =>
          var lat, lon := MemberDecimal(obj, "lat", parseDecimal), MemberDecimal(obj, "lon", parseDecimal);
          if lat.None? || lon.None? || ValidateCoordinates(lat.value, lon.value).Some? then None
          else Some(LocationInfo(lat.value, lon.value, None, None, None))
  }

  /** Only the first result counts: whatever follows it changes nothing, and no result gives null. */
  lemma GeocodeFirstOnly(first: Json, rest: seq<Json>, parseDecimal: string -> Option<int>)
    ensures GeocodeResult(Some(JArray([first] + rest)), parseDecimal) == GeocodeResult(Some(JArray([first])), parseDecimal)
    ensures GeocodeResult(Some(JArray([])), parseDecimal).None?
  {
  }

  /** `geocode`, creating the `Location`. */
  method Geocode(answer: Option<Json>, parseDecimal: string -> Option<int>) returns (r: Option<Location>)
    ensures r.Some? <==> GeocodeResult(answer, parseDecimal).Some?
    ensures r.Some? ==> fresh(r.value) && r.value.Info() == GeocodeResult(answer, parseDecimal).value
  {
    if answer.None? || !answer.value.JArray? || |answer.value.items| == 0 {
      return None;
    }
    var obj := ElementObject(answer.value.items[0]);
    if obj.None? {
      return None;
    }
    var lat, lon := MemberDecimal(obj.value, "lat", parseDecimal), MemberDecimal(obj.value, "lon", parseDecimal);
    if lat.None? || lon.None? {
      return None;
    }
    var created := Location.Create(lat.value, lon.value, None, None);
    if created.Failure? {
      return None;
    }
    return Some(created.value);
  }
}
