/**
 * Application configuration (`config/AppConfig.java`): a properties table read
 * once from `application.properties`, seven built-in defaults when that
 * resource is missing or unreadable, and lookups in which an environment
 * variable named after the key wins over the table.
 *
 * The environment is a fixed map; the resource is given to the constructor
 * as what `Properties.load` would produce. `Double.parseDouble` is supplied by
 * the caller as `parseDecimal`, reading a numeral into micro-units.
 */
module Config {
  import opened Wrappers
  import opened JavaText

  /** What reading `application.properties` from the class path gives. */
  datatype PropertiesResource =
    | Missing
      /** `load` threw after filling part of the table. */
    | Unreadable(loadedBeforeError: map<string, string>)
    | Loaded(table: map<string, string>)

  /** The table `loadProperties` leaves: the defaults are written only when there is no table to read. */
  function ReadTable(resource: PropertiesResource): (t: map<string, string>)
    ensures resource.Missing? ==> t == DefaultTable()
    ensures resource.Unreadable? ==> t == resource.loadedBeforeError + DefaultTable()
    ensures resource.Loaded? ==> t == resource.table
  {
    match resource
    case Missing => DefaultTable()
    case Unreadable(partial) => partial + DefaultTable()
    case Loaded(table) => table
  }

  /** The seven properties `setDefaults` writes. */
  function DefaultTable(): map<string, string> {
    map[
      "app.name" := "GeoPharFinder",
      "app.version" := "1.0.0",
      "app.window.width" := "1400",
      "app.window.height" := "900",
      "search.default.radius" := "5000",
      "map.default.zoom" := "13",
      "db.path" := "geopharfinder.db"]
  }

  /** The environment variable consulted for `key`: upper case, with '.' turned into '_'. */
  function EnvironmentKey(key: string): (r: string)
    ensures |r| == |key|
    ensures forall i :: 0 <= i < |key| ==> r[i] == (if key[i] == '.' then '_' else UpperChar(key[i]))
  {
    ReplaceChar(ToUpper(key), '.', '_')
  }

  /** `Boolean.parseBoolean`: true exactly for "true" in any mix of cases. */
  predicate ParseBoolean(s: string) {
    EqualsIgnoreCase(s, "true")
  }

  class AppConfig {
    const environment: map<string, string>
    var properties: map<string, string>

    /** The private constructor: an empty table filled by `loadProperties`. */
    constructor (environment: map<string, string>, resource: PropertiesResource)
      ensures this.environment == environment
      ensures properties == ReadTable(resource)
    {
      this.environment := environment;
      properties := map[];
      new;
      LoadProperties(resource);
    }

    /** `loadProperties`. */
    method LoadProperties(resource: PropertiesResource)
      modifies this
      ensures resource.Missing? ==> properties == old(properties) + DefaultTable()
      ensures resource.Unreadable? ==> properties == old(properties) + resource.loadedBeforeError + DefaultTable()
      ensures resource.Loaded? ==> properties == old(properties) + resource.table
    {
      match resource
      case Missing =>
        SetDefaults();
      case Unreadable(partial) =>
        properties := properties + partial;
        SetDefaults();
      case Loaded(table) =>
        properties := properties + table;
    }

    /** `setDefaults`: the seven keys get their built-in values; every other entry is kept. */
    method SetDefaults()
      modifies this
      ensures properties == old(properties) + DefaultTable()
    {
      properties := properties + DefaultTable();
    }

    /**
     * `getProperty(key, defaultValue)`: the environment value when there is one,
     * else the table's value, else the default.
     */
    function GetProperty(key: string, defaultValue: Option<string>): (r: Option<string>)
      reads this
      ensures EnvironmentKey(key) in environment ==> r == Some(environment[EnvironmentKey(key)])
      ensures EnvironmentKey(key) !in environment && key in properties ==> r == Some(properties[key])
      ensures EnvironmentKey(key) !in environment && key !in properties ==> r == defaultValue
    {
      var envKey := EnvironmentKey(key);
      if envKey in environment then Some(environment[envKey])
      else if key in properties then Some(properties[key])
      else defaultValue
    }

    /** `getIntProperty`: the default when the value is absent or not an `int` numeral. */
    function GetIntProperty(key: string, defaultValue: int): (r: int)
      reads this
      ensures GetProperty(key, None).None? ==> r == defaultValue
      ensures GetProperty(key, None).Some? && ParseInt(GetProperty(key, None).value).None? ==> r == defaultValue
      ensures GetProperty(key, None).Some? && ParseInt(GetProperty(key, None).value).Some? ==>
                r == ParseInt(GetProperty(key, None).value).value
    {
      match GetProperty(key, None)
      case None => defaultValue
      case Some(v) => ParseInt(v).GetOr(defaultValue)
    }

    /** `getDoubleProperty`, in micro-units. */
    function GetDecimalProperty(key: string, defaultValue: int, parseDecimal: string -> Option<int>): (r: int)
      reads this
      ensures GetProperty(key, None).None? ==> r == defaultValue
      ensures GetProperty(key, None).Some? ==> r == parseDecimal(GetProperty(key, None).value).GetOr(defaultValue)
    {
      match GetProperty(key, None)
      case None => defaultValue
      case Some(v) => parseDecimal(v).GetOr(defaultValue)
    }

    /** `getBooleanProperty`: the default when absent, else whether the value is "true" ignoring case. */
    function GetBooleanProperty(key: string, defaultValue: bool): (r: bool)
      reads this
      ensures GetProperty(key, None).None? ==> r == defaultValue
      ensures GetProperty(key, None).Some? ==> (r <==> ParseBoolean(GetProperty(key, None).value))
    {
      match GetProperty(key, None)
      case None => defaultValue
      case Some(v) => ParseBoolean(v)
    }

    /** Neither an environment variable nor a table entry configures `key`. */
    predicate Unset(key: string)
      reads this
    {
      EnvironmentKey(key) !in environment && key !in properties
    }

    // The convenience getters: each is a lookup whose result, when nothing
    // configures its key, is the built-in fallback.

    function GetAppName(): (r: string)
      reads this
      ensures Unset("app.name") ==> r == "GeoPharFinder"
    {
      GetProperty("app.name", Some("GeoPharFinder")).value
    }

    function GetAppVersion(): (r: string)
      reads this
      ensures Unset("app.version") ==> r == "1.0.0"
    {
      GetProperty("app.version", Some("1.0.0")).value
    }

    function GetWindowWidth(): (r: int)
      reads this
      ensures Unset("app.window.width") ==> r == 1400
    {
      GetIntProperty("app.window.width", 1400)
    }

    function GetWindowHeight(): (r: int)
      reads this
      ensures Unset("app.window.height") ==> r == 900
    {
      GetIntProperty("app.window.height", 900)
    }

    function GetDefaultSearchRadius(): (r: int)
      reads this
      ensures Unset("search.default.radius") ==> r == 5000
    {
      GetIntProperty("search.default.radius", 5000)
    }

    function GetMaxSearchRadius(): (r: int)
      reads this
      ensures Unset("search.max.radius") ==> r == 20000
    {
      GetIntProperty("search.max.radius", 20000)
    }

    function GetDefaultMapZoom(): (r: int)
      reads this
      ensures Unset("map.default.zoom") ==> r == 13
    {
      GetIntProperty("map.default.zoom", 13)
    }

    function GetMaxMarkers(): (r: int)
      reads this
      ensures Unset("map.max.markers") ==> r == 100
    {
      GetIntProperty("map.max.markers", 100)
    }

    function GetDatabasePath(): (r: string)
      reads this
      ensures Unset("db.path") ==> r == "geopharfinder.db"
    {
      GetProperty("db.path", Some("geopharfinder.db")).value
    }

    predicate IsCacheEnabled()
      reads this
      ensures Unset("db.cache.enabled") ==> IsCacheEnabled()
    {
      GetBooleanProperty("db.cache.enabled", true)
    }

    function GetCacheExpiryHours(): (r: int)
      reads this
      ensures Unset("db.cache.expiry.hours") ==> r == 24
    {
      GetIntProperty("db.cache.expiry.hours", 24)
    }

    /** 33.5731 and -7.5898 degrees (Casablanca), in micro-degrees. */
    function GetDefaultLatitude(parseDecimal: string -> Option<int>): (r: int)
      reads this
      ensures Unset("location.default.latitude") ==> r == 33_573_100
    {
      GetDecimalProperty("location.default.latitude", 33_573_100, parseDecimal)
    }

    function GetDefaultLongitude(parseDecimal: string -> Option<int>): (r: int)
      reads this
      ensures Unset("location.default.longitude") ==> r == -7_589_800
    {
      GetDecimalProperty("location.default.longitude", -7_589_800, parseDecimal)
    }
  }

  /** An environment variable overrides the table, whatever the table holds. */
  lemma EnvironmentWins(c: AppConfig, key: string, value: string, defaultValue: Option<string>)
    requires EnvironmentKey(key) in c.environment && c.environment[EnvironmentKey(key)] == value
    ensures c.GetProperty(key, defaultValue) == Some(value)
    ensures c.GetIntProperty(key, 0) == ParseInt(value).GetOr(0)
  {
  }

  /** A table entry written by `String.valueOf` reads back as the same `int` when no environment variable shadows it. */
  lemma IntPropertyRoundTrip(c: AppConfig, key: string, n: int, defaultValue: int)
    requires IsInt32(n)
    requires EnvironmentKey(key) !in c.environment
    requires key in c.properties && c.properties[key] == IntToString(n)
    ensures c.GetIntProperty(key, defaultValue) == n
  {
    IntToStringRoundTrip(n);
  }

  /** `parseBoolean` accepts "true" in any mix of cases and rejects other words, padding included. */
  lemma ParseBooleanCases()
    ensures ParseBoolean("true") && ParseBoolean("TRUE") && ParseBoolean("True")
    ensures !ParseBoolean("yes") && !ParseBoolean("1") && !ParseBoolean("") && !ParseBoolean("true ")
  {
    assert ToLower("TRUE") == "true";
    assert ToLower("True") == "true";
  }
}
