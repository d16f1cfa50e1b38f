/**
 * The expiring cache (`services/CacheService.java`): pharmacy lists keyed by
 * the rounded coordinates they were fetched for, the user location under one
 * fixed key, and one map-state slot, each entry stamped with the time it was
 * stored. Time is an integer number of milliseconds given by the caller; the
 * three snapshot files are ghost fields, rewritten by every put, read once at
 * start-up and deleted by `ClearAllCaches`.
 */
module Cache {
  import opened Wrappers
  import opened JavaText
  import opened PharmacyModel
  import opened LocationModel

  // ---------------------------------------------------------------------------
  // The location key: `String.format("%.3f,%.3f", lat, lon)`
  // ---------------------------------------------------------------------------

  function Abs(v: int): nat {
    if v < 0 then -v else v
  }

  /** `|v|` micro-units rounded HALF_UP to thousandths, as `%.3f` rounds. */
  function Thousandths(v: int): nat {
    (Abs(v) + 500) / 1000
  }

  /** The rounding is to the nearest thousandth, a half going away from zero. */
  lemma ThousandthsRounds(v: int)
    ensures Thousandths(v) * 1000 - 500 <= Abs(v) < Thousandths(v) * 1000 + 500
  {
  }

  /** Three zero-padded fraction digits. */
  function Fraction3(f: nat): (r: string)
    requires f < 1000
    ensures |r| == 3 && AllDigits(r)
  {
    [DigitChar(f / 100), DigitChar(f / 10 % 10), DigitChar(f % 10)]
  }

  /**
   * `%.3f` of a value in micro-units: a '-' exactly when the value is negative
   * (so -0.0004 prints as "-0.000"), the integer part, the default locale's
   * decimal separator, and three fraction digits.
   */
  function FormatThousandths(v: int, decimalSeparator: char): (r: string)
    ensures |r| >= 5
  {
    var m := Thousandths(v);
    (if v < 0 then "-" else "") + NatToString(m / 1000) + [decimalSeparator] + Fraction3(m % 1000)
  }

  /** `generateLocationKey`. */
  function LocationKey(lat: int, lon: int, decimalSeparator: char): string {
    FormatThousandths(lat, decimalSeparator) + "," + FormatThousandths(lon, decimalSeparator)
  }

  /** What a printed component keeps of a coordinate: its sign and its rounded thousandths. */
  datatype Cell = Cell(negative: bool, whole: nat, fraction: nat)

  function CellOf(v: int): Cell {
    Cell(v < 0, Thousandths(v) / 1000, Thousandths(v) % 1000)
  }

  /** The cell keeps exactly the sign and the rounded thousandths. */
  lemma CellOfIff(v: int, w: int)
    ensures CellOf(v) == CellOf(w) <==> (v < 0 <==> w < 0) && Thousandths(v) == Thousandths(w)
  {
    var a, b := Thousandths(v), Thousandths(w);
    assert a == a / 1000 * 1000 + a % 1000;
    assert b == b / 1000 * 1000 + b % 1000;
  }

  /** The longest all-digit suffix of `s`, and what precedes it. */
  function TrailingDigits(s: string): (r: (string, string))
    ensures r.0 + r.1 == s && AllDigits(r.1)
    ensures r.0 == [] || !IsDigit(r.0[|r.0| - 1])
  {
    if s != [] && IsDigit(s[|s| - 1]) then
      var (p, d) := TrailingDigits(s[..|s| - 1]);
      (p, d + [s[|s| - 1]])
    else (s, [])
  }

  /**
   * Reads one printed component off the end of `s`: the text before it and the
   * cell it prints. Used only to show that the key loses nothing but the cell.
   */
  function ReadComponent(s: string, decimalSeparator: char): Option<(string, Cell)> {
    if |s| < 5 || s[|s| - 4] != decimalSeparator || !AllDigits(s[|s| - 3..]) then None
    else ReadWhole(s[..|s| - 4], ParseDigits(s[|s| - 3..]))
  }

  /** Reads the integer part and the optional sign that end `s`, given the fraction already read. */
  function ReadWhole(s: string, fraction: nat): Option<(string, Cell)> {
    var t := TrailingDigits(s);
    if t.1 == [] then None else Some(ReadSign(t.0, ParseDigits(t.1), fraction))
  }

  function ReadSign(p: string, whole: nat, fraction: nat): (string, Cell) {
    if p != [] && p[|p| - 1] == '-' then (p[..|p| - 1], Cell(true, whole, fraction))
    else (p, Cell(false, whole, fraction))
  }

  /** Reads both cells back from a key. */
  function ReadKey(key: string, decimalSeparator: char): Option<(Cell, Cell)> {
    match ReadComponent(key, decimalSeparator)
    case None => None
    case Some((rest, lonCell)) =>
      if rest == [] || rest[|rest| - 1] != ',' then None
      else
        match ReadComponent(rest[..|rest| - 1], decimalSeparator)
        case None => None
        case Some((front, latCell)) => if front == [] then Some((latCell, lonCell)) else None
  }

  lemma {:induction false} TrailingDigitsOf(p: string, d: string)
    requires AllDigits(d)
    requires p == [] || !IsDigit(p[|p| - 1])
    ensures TrailingDigits(p + d) == (p, d)
    decreases |d|
  {
    if d == [] {
      assert p + d == p;
    } else {
      var s := p + d;
      assert s[..|s| - 1] == p + d[..|d| - 1];
      TrailingDigitsOf(p, d[..|d| - 1]);
      assert d[..|d| - 1] + [d[|d| - 1]] == d;
    }
  }

  lemma ParseFraction3(f: nat)
    requires f < 1000
    ensures ParseDigits(Fraction3(f)) == f
  {
    var r := Fraction3(f);
    var a, b, c := f / 100, f / 10 % 10, f % 10;
    assert r[..2][..1][..0] == [];
    assert ParseDigits(r[..2][..1]) == a;
    assert r[..2] == [r[0], r[1]] && r[..2][..1] == [r[0]];
    assert ParseDigits(r[..2]) == a * 10 + b;
    assert a * 10 + b == f / 10;
    assert r[..3] == r && r[..3][..2] == r[..2];
    assert ParseDigits(r) == (f / 10) * 10 + c;
  }

  lemma ReadWholeOf(a: string, q: string, n: string, fraction: nat)
    requires n != [] && AllDigits(n) && TrailingDigits(a) == (q, n)
    ensures ReadWhole(a, fraction) == Some(ReadSign(q, ParseDigits(n), fraction))
  {
  }

  lemma ReadComponentSplit(s: string, sep: char, a: string, frac: string)
    requires |s| >= 5 && s[|s| - 4] == sep && s[..|s| - 4] == a && s[|s| - 3..] == frac && AllDigits(frac)
    ensures ReadComponent(s, sep) == ReadWhole(a, ParseDigits(frac))
  {
  }

  lemma LastFour(a: string, sep: char, frac: string)
    requires |frac| == 3
    ensures var s := a + [sep] + frac; s[|s| - 4] == sep && s[..|s| - 4] == a && s[|s| - 3..] == frac
  {
    var s := a + [sep] + frac;
    assert s[..|s| - 4] == a;
    assert s[|s| - 3..] == frac;
  }

  /** A component read off the end: an integer part ending `a`, the separator, three digits. */
  lemma ReadComponentOfParts(a: string, q: string, n: string, sep: char, frac: string)
    requires TrailingDigits(a) == (q, n) && n != [] && AllDigits(n)
    requires |frac| == 3 && AllDigits(frac) && |a| >= 1
    ensures ReadComponent(a + [sep] + frac, sep) == Some(ReadSign(q, ParseDigits(n), ParseDigits(frac)))
  {
    LastFour(a, sep, frac);
    ReadComponentSplit(a + [sep] + frac, sep, a, frac);
    ReadWholeOf(a, q, n, ParseDigits(frac));
  }

  lemma Associate(r: string, sign: string, n: string, sep: char, frac: string)
    ensures r + (sign + n + [sep] + frac) == (r + sign + n) + [sep] + frac
  {
  }

  /** A sign, an integer part, the separator and three fraction digits, read back off the end of a string. */
  lemma ReadComponentOfPrinted(r: string, negative: bool, whole: nat, fraction: nat, sep: char)
    requires fraction < 1000
    requires r == [] || (!IsDigit(r[|r| - 1]) && r[|r| - 1] != '-')
    ensures ReadComponent(r + ((if negative then "-" else "") + NatToString(whole) + [sep] + Fraction3(fraction)), sep)
            == Some((r, Cell(negative, whole, fraction)))
  {
    var sign: string := if negative then "-" else "";
    var n := NatToString(whole);
    var frac := Fraction3(fraction);
    var q := r + sign;
    assert q == [] || !IsDigit(q[|q| - 1]);
    Associate(r, sign, n, sep, frac);
    TrailingDigitsOf(q, n);
    ReadComponentOfParts(q + n, q, n, sep, frac);
    ParseDigitsOfNatToString(whole);
    ParseFraction3(fraction);
    if negative {
      assert q[|q| - 1] == '-' && q[..|q| - 1] == r;
    } else {
      assert q == r;
    }
  }

  /** A printed component read back off the end of a string gives the prefix and the component's cell. */
  lemma ReadComponentOfFormat(r: string, v: int, sep: char)
    requires r == [] || (!IsDigit(r[|r| - 1]) && r[|r| - 1] != '-')
    ensures ReadComponent(r + FormatThousandths(v, sep), sep) == Some((r, CellOf(v)))
  {
    var m := Thousandths(v);
    ReadComponentOfPrinted(r, v < 0, m / 1000, m % 1000, sep);
  }

  /** A key reads back as the two cells it was made from. */
  lemma ReadKeyOfLocationKey(lat: int, lon: int, sep: char)
    ensures ReadKey(LocationKey(lat, lon, sep), sep) == Some((CellOf(lat), CellOf(lon)))
  {
    var a := FormatThousandths(lat, sep);
    var rest := a + ",";
    ReadComponentOfFormat(rest, lon, sep);
    assert rest[..|rest| - 1] == [] + a;
    ReadComponentOfFormat([], lat, sep);
  }

  /**
   * Two coordinate pairs share a cache key exactly when both coordinates round
   * to the same thousandths with the same sign, whatever the decimal separator.
   */
  lemma LocationKeyIffSameCells(lat1: int, lon1: int, lat2: int, lon2: int, sep: char)
    ensures LocationKey(lat1, lon1, sep) == LocationKey(lat2, lon2, sep)
            <==> CellOf(lat1) == CellOf(lat2) && CellOf(lon1) == CellOf(lon2)
    ensures LocationKey(lat1, lon1, sep) == LocationKey(lat2, lon2, sep)
            <==> (lat1 < 0 <==> lat2 < 0) && Thousandths(lat1) == Thousandths(lat2)
                 && (lon1 < 0 <==> lon2 < 0) && Thousandths(lon1) == Thousandths(lon2)
  {
    ReadKeyOfLocationKey(lat1, lon1, sep);
    ReadKeyOfLocationKey(lat2, lon2, sep);
    CellOfIff(lat1, lat2);
    CellOfIff(lon1, lon2);
  }

  /**
   * 0.0004 and -0.0004 degrees both round to 0.000, yet the second prints as
   * "-0.000": points a few metres apart across the equator get different keys.
   */
  lemma SignedZeroKeysDiffer(lon: int, sep: char)
    ensures LocationKey(400, lon, sep) != LocationKey(-400, lon, sep)
    ensures Thousandths(400) == Thousandths(-400) == 0
  {
    LocationKeyIffSameCells(400, lon, -400, lon, sep);
  }

  // ---------------------------------------------------------------------------
  // Entries and expiry
  // ---------------------------------------------------------------------------

  const HourMillis: int := 3_600_000

  /** `CACHE_EXPIRATION`, for pharmacy lists and the user location: 24 hours. */
  const CacheExpiration: int := 24 * HourMillis

  /** The map-state lifetime: 7 days. */
  const MapStateExpiration: int := 7 * 24 * HourMillis

  /** The one key under which the user location is stored. */
  const UserLocationKey: string := "user_location"

  /** An entry and the instant it was made. */
  datatype CacheEntry<T> = CacheEntry(data: T, timestamp: int) {
    /** `isExpired`: the age is strictly greater than `maxAge`. */
    predicate IsExpired(maxAge: int, now: int) {
      now - timestamp > maxAge
    }
  }

  /** An entry aged exactly `maxAge` is still fresh; one millisecond later it has expired, and it stays expired. */
  lemma ExpiryIsStrict<T>(e: CacheEntry<T>, maxAge: int, now: int, later: int)
    ensures !e.IsExpired(maxAge, e.timestamp + maxAge)
    ensures e.IsExpired(maxAge, e.timestamp + maxAge + 1)
    ensures e.IsExpired(maxAge, now) && now <= later ==> e.IsExpired(maxAge, later)
  {
  }

  /** The map view last saved. */
  datatype MapState = MapState(latitude: int, longitude: int, zoomLevel: int, lastSearchQuery: Option<string>)

  datatype CacheStats = CacheStats(pharmacyCacheEntries: nat, locationCacheEntries: nat, hasMapState: bool)

  /** A snapshot file: absent, present but not deserialisable, or holding what was written. */
  datatype Snapshot<T> = NoFile | Unreadable | Stored(content: T)

  /** What `removeIf(isExpired)` leaves of a map. */
  function Unexpired<T>(m: map<string, CacheEntry<T>>, maxAge: int, now: int): (r: map<string, CacheEntry<T>>)
    ensures forall k :: k in r <==> k in m && !m[k].IsExpired(maxAge, now)
    ensures forall k :: k in r ==> r[k] == m[k]
  {
    map k | k in m && !m[k].IsExpired(maxAge, now) :: m[k]
  }

  /** What a get returns: the data of a present, unexpired entry. */
  function Lookup<T>(m: map<string, CacheEntry<T>>, key: string, maxAge: int, now: int): (r: Option<T>)
    ensures r.Some? <==> key in m && !m[key].IsExpired(maxAge, now)
    ensures r.Some? ==> r.value == m[key].data
  {
    if key in m && !m[key].IsExpired(maxAge, now) then Some(m[key].data) else None
  }

  /** What a get leaves: the entry under `key` removed if it has expired, every other entry as it was. */
  function AfterLookup<T>(m: map<string, CacheEntry<T>>, key: string, maxAge: int, now: int): (r: map<string, CacheEntry<T>>)
    ensures key in m && m[key].IsExpired(maxAge, now) ==> r == m - {key}
    ensures !(key in m && m[key].IsExpired(maxAge, now)) ==> r == m
  {
    if key in m && m[key].IsExpired(maxAge, now) then m - {key} else m
  }

  /** A stored value is returned for as long as it has not expired, and never after. */
  lemma PutThenLookup<T>(m: map<string, CacheEntry<T>>, key: string, data: T, storedAt: int, maxAge: int, now: int)
    ensures Lookup(m[key := CacheEntry(data, storedAt)], key, maxAge, now)
            == if now - storedAt <= maxAge then Some(data) else None
  {
  }

  /**
   * A list cached for one coordinate pair is returned for every pair with the
   * same key, i.e. the same rounded cells, until it expires.
   */
  lemma CachedListFoundFromSameCell(m: map<string, CacheEntry<seq<PharmacyInfo>>>, sep: char,
                                    lat: int, lon: int, lat2: int, lon2: int,
                                    list: seq<PharmacyInfo>, storedAt: int, now: int)
    requires CellOf(lat) == CellOf(lat2) && CellOf(lon) == CellOf(lon2)
    ensures Lookup(m[LocationKey(lat, lon, sep) := CacheEntry(list, storedAt)], LocationKey(lat2, lon2, sep), CacheExpiration, now)
            == if now - storedAt <= CacheExpiration then Some(list) else None
  {
    LocationKeyIffSameCells(lat, lon, lat2, lon2, sep);
  }

  /** Sweeping never changes what a get at the same instant returns, and a second sweep removes nothing. */
  lemma SweepIsInvisibleToReads<T>(m: map<string, CacheEntry<T>>, key: string, maxAge: int, now: int)
    ensures Lookup(Unexpired(m, maxAge, now), key, maxAge, now) == Lookup(m, key, maxAge, now)
    ensures Unexpired(Unexpired(m, maxAge, now), maxAge, now) == Unexpired(m, maxAge, now)
  {
  }

  lemma AtMostOneKey<T>(m: map<string, T>, k: string)
    requires m.Keys <= {k}
    ensures |m| <= 1
  {
    if k in m {
      assert m.Keys == {k};
    } else {
      assert m.Keys == {};
    }
  }

  class CacheStore {
    /** The default locale's decimal separator, which `%.3f` prints. */
    const decimalSeparator: char
    var pharmacyCache: map<string, CacheEntry<seq<PharmacyInfo>>>
    var locationCache: map<string, CacheEntry<LocationInfo>>
    var mapStateCache: Option<CacheEntry<MapState>>
    ghost var pharmacyFile: Snapshot<map<string, CacheEntry<seq<PharmacyInfo>>>>
    ghost var locationFile: Snapshot<map<string, CacheEntry<LocationInfo>>>
    ghost var mapStateFile: Snapshot<CacheEntry<MapState>>

    /** Only the user-location key is ever used, in memory and in the file this program writes. */
    ghost predicate Valid()
      reads this
    {
      locationCache.Keys <= {UserLocationKey}
      && (locationFile.Stored? ==> locationFile.content.Keys <= {UserLocationKey})
    }

    /**
     * The constructor and `loadCachesFromDisk`: each readable snapshot is loaded
     * without its expired entries; a missing or unreadable one leaves that
     * store empty. Loading writes nothing back.
     */
    constructor (pharmacyDisk: Snapshot<map<string, CacheEntry<seq<PharmacyInfo>>>>,
                 locationDisk: Snapshot<map<string, CacheEntry<LocationInfo>>>,
                 mapStateDisk: Snapshot<CacheEntry<MapState>>,
                 now: int, decimalSeparator: char)
      ensures this.decimalSeparator == decimalSeparator
      ensures pharmacyCache == (if pharmacyDisk.Stored? then Unexpired(pharmacyDisk.content, CacheExpiration, now) else map[])
      ensures locationCache == (if locationDisk.Stored? then Unexpired(locationDisk.content, CacheExpiration, now) else map[])
      ensures mapStateCache == (if mapStateDisk.Stored? && !mapStateDisk.content.IsExpired(MapStateExpiration, now)
                                then Some(mapStateDisk.content) else None)
      ensures pharmacyFile == pharmacyDisk && locationFile == locationDisk && mapStateFile == mapStateDisk
      ensures (locationDisk.Stored? ==> locationDisk.content.Keys <= {UserLocationKey}) ==> Valid()
    {
      this.decimalSeparator := decimalSeparator;
      pharmacyFile, locationFile, mapStateFile := pharmacyDisk, locationDisk, mapStateDisk;
      pharmacyCache := if pharmacyDisk.Stored? then Unexpired(pharmacyDisk.content, CacheExpiration, now) else map[];
      locationCache := if locationDisk.Stored? then Unexpired(locationDisk.content, CacheExpiration, now) else map[];
      mapStateCache := None;
      if mapStateDisk.Stored? {
        mapStateCache := Some(mapStateDisk.content);
        if mapStateDisk.content.IsExpired(MapStateExpiration, now) {
          mapStateCache := None;
        }
      }
    }

    /** `cachePharmacies`: the list is stored under its key, stamped `now`, and the pharmacy file is rewritten. */
    method CachePharmacies(lat: int, lon: int, pharmacies: seq<PharmacyInfo>, now: int)
      modifies this
      ensures pharmacyCache == old(pharmacyCache)[LocationKey(lat, lon, decimalSeparator) := CacheEntry(pharmacies, now)]
      ensures pharmacyFile == Stored(pharmacyCache)
      ensures locationCache == old(locationCache) && mapStateCache == old(mapStateCache)
      ensures locationFile == old(locationFile) && mapStateFile == old(mapStateFile)
    {
      var key := LocationKey(lat, lon, decimalSeparator);
      pharmacyCache := pharmacyCache[key := CacheEntry(pharmacies, now)];
      pharmacyFile := Stored(pharmacyCache);
    }

    /**
     * `getCachedPharmacies`: the stored list while it is fresh; null when there is
     * none or it has expired, and in the second case that one entry is evicted
     * from memory (the file keeps it).
     */
    method GetCachedPharmacies(lat: int, lon: int, now: int) returns (r: Option<seq<PharmacyInfo>>)
      modifies this
      ensures r == Lookup(old(pharmacyCache), LocationKey(lat, lon, decimalSeparator), CacheExpiration, now)
      ensures pharmacyCache == AfterLookup(old(pharmacyCache), LocationKey(lat, lon, decimalSeparator), CacheExpiration, now)
      ensures locationCache == old(locationCache) && mapStateCache == old(mapStateCache)
      ensures pharmacyFile == old(pharmacyFile) && locationFile == old(locationFile) && mapStateFile == old(mapStateFile)
    {
      var key := LocationKey(lat, lon, decimalSeparator);
      if key !in pharmacyCache {
        return None;
      }
      var entry := pharmacyCache[key];
      if entry.IsExpired(CacheExpiration, now) {
        pharmacyCache := pharmacyCache - {key};
        return None;
      }
      return Some(entry.data);
    }

    /** `cacheUserLocation`. */
    method CacheUserLocation(location: LocationInfo, now: int)
      modifies this
      ensures locationCache == old(locationCache)[UserLocationKey := CacheEntry(location, now)]
      ensures locationFile == Stored(locationCache)
      ensures pharmacyCache == old(pharmacyCache) && mapStateCache == old(mapStateCache)
      ensures pharmacyFile == old(pharmacyFile) && mapStateFile == old(mapStateFile)
      ensures old(Valid()) ==> Valid()
    {
      locationCache := locationCache[UserLocationKey := CacheEntry(location, now)];
      locationFile := Stored(locationCache);
    }

    /** `getCachedUserLocation`: as for pharmacy lists, with the one fixed key. */
    method GetCachedUserLocation(now: int) returns (r: Option<LocationInfo>)
      modifies this
      ensures r == Lookup(old(locationCache), UserLocationKey, CacheExpiration, now)
      ensures locationCache == AfterLookup(old(locationCache), UserLocationKey, CacheExpiration, now)
      ensures pharmacyCache == old(pharmacyCache) && mapStateCache == old(mapStateCache)
      ensures pharmacyFile == old(pharmacyFile) && locationFile == old(locationFile) && mapStateFile == old(mapStateFile)
      ensures old(Valid()) ==> Valid()
    {
      if UserLocationKey !in locationCache {
        return None;
      }
      var entry := locationCache[UserLocationKey];
      if entry.IsExpired(CacheExpiration, now) {
        locationCache := locationCache - {UserLocationKey};
        return None;
      }
      return Some(entry.data);
    }

    /** `cacheMapState`. */
    method CacheMapState(lat: int, lon: int, zoom: int, lastSearch: Option<string>, now: int)
      modifies this
      ensures mapStateCache == Some(CacheEntry(MapState(lat, lon, zoom, lastSearch), now))
      ensures mapStateFile == Stored(mapStateCache.value)
      ensures pharmacyCache == old(pharmacyCache) && locationCache == old(locationCache)
      ensures pharmacyFile == old(pharmacyFile) && locationFile == old(locationFile)
    {
      mapStateCache := Some(CacheEntry(MapState(lat, lon, zoom, lastSearch), now));
      mapStateFile := Stored(mapStateCache.value);
    }

    /** `getCachedMapState`: the state while younger than 7 days; an expired one is dropped. */
    method GetCachedMapState(now: int) returns (r: Option<MapState>)
      modifies this
      ensures old(mapStateCache).Some? && !old(mapStateCache).value.IsExpired(MapStateExpiration, now)
              ==> r == Some(old(mapStateCache).value.data) && mapStateCache == old(mapStateCache)
      ensures old(mapStateCache).Some? && old(mapStateCache).value.IsExpired(MapStateExpiration, now)
              ==> r.None? && mapStateCache.None?
      ensures old(mapStateCache).None? ==> r.None? && mapStateCache.None?
      ensures pharmacyCache == old(pharmacyCache) && locationCache == old(locationCache)
      ensures pharmacyFile == old(pharmacyFile) && locationFile == old(locationFile) && mapStateFile == old(mapStateFile)
    {
      if mapStateCache.None? {
        return None;
      }
      if mapStateCache.value.IsExpired(MapStateExpiration, now) {
        mapStateCache := None;
        return None;
      }
      return Some(mapStateCache.value.data);
    }

    /** `clearAllCaches`: every store emptied and every file deleted. */
    method ClearAllCaches()
      modifies this
      ensures pharmacyCache == map[] && locationCache == map[] && mapStateCache.None?
      ensures pharmacyFile.NoFile? && locationFile.NoFile? && mapStateFile.NoFile?
      ensures Stats() == CacheStats(0, 0, false)
      ensures Valid()
    {
      pharmacyCache := map[];
      locationCache := map[];
      mapStateCache := None;
      pharmacyFile, locationFile, mapStateFile := NoFile, NoFile, NoFile;
    }

    /**
     * `clearExpiredCaches`: exactly the unexpired entries stay, in all three
     * stores; the files are not rewritten.
     */
    method ClearExpiredCaches(now: int)
      modifies this
      ensures pharmacyCache == Unexpired(old(pharmacyCache), CacheExpiration, now)
      ensures locationCache == Unexpired(old(locationCache), CacheExpiration, now)
      ensures mapStateCache == (if old(mapStateCache).Some? && old(mapStateCache).value.IsExpired(MapStateExpiration, now)
                                then None else old(mapStateCache))
      ensures pharmacyFile == old(pharmacyFile) && locationFile == old(locationFile) && mapStateFile == old(mapStateFile)
      ensures old(Valid()) ==> Valid()
    {
      pharmacyCache := Unexpired(pharmacyCache, CacheExpiration, now);
      locationCache := Unexpired(locationCache, CacheExpiration, now);
      if mapStateCache.Some? && mapStateCache.value.IsExpired(MapStateExpiration, now) {
        mapStateCache := None;
      }
    }

    /** `getStats`: the store sizes; the location store never holds more than one entry. */
    function Stats(): (r: CacheStats)
      reads this
      ensures r.pharmacyCacheEntries == |pharmacyCache| && r.locationCacheEntries == |locationCache|
      ensures r.hasMapState <==> mapStateCache.Some?
      ensures Valid() ==> r.locationCacheEntries <= 1
    {
      assert Valid() ==> |locationCache| <= 1 by {
        if Valid() { AtMostOneKey(locationCache, UserLocationKey); }
      }
      CacheStats(|pharmacyCache|, |locationCache|, mapStateCache.Some?)
    }
  }
}
