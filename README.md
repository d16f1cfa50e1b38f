# GeoPharFinder data layer in Dafny

GeoPharFinder is a JavaFX desktop application that finds nearby pharmacies. It
queries OpenStreetMap's Overpass API and Nominatim, and keeps working offline.
This project models the part of it that decides what the user sees and what is
stored. Every piece is proved correct against its own specification.

- **Expiring cache store** (`CacheService`), module `Cache`, file `cache_service.dfy`.
  - Three timestamped stores:
    - pharmacy lists, keyed by the position rounded to thousandths of a degree;
    - the user location, under a single key;
    - one map-state slot.
  - Expiry is strict, and an expired entry is evicted when it is read.
  - A sweep keeps exactly the fresh entries, and a clear-all empties every store.
  - The disk snapshots are ghost copies, rewritten on each put.
- **Connectivity monitor** (`OfflineManager`), module `Connectivity`, file `offline_manager.dfy`.
  - A check probes three hosts in order and stops at the first that answers.
  - Listeners hear about a change only when the reading differs from the last one.
  - Every listener is called in order, even when one of them throws.
- **Offline tile store and prefetch** (`OfflineTileCache`), module `OfflineTiles`.
  - The store is a map from (z, x, y) to bytes.
  - The prefetch job walks zooms 12 to 16, a shrinking square around a centre tile.
  - It skips tiles that are on disk or outside the grid.
- **Local tile responder** (`LocalTileServer`), module `TileServer`.
  - It parses `/tiles/z/x/y.png` with the rules of Java's `split("/")` and `Integer.parseInt`.
  - It answers 200 with the bytes, or 404.
- **Bounded retry protocol** (`MainViewController`, load, retry, fetch and display handlers), module `Controller`.
  - At most three fetches are issued per load.
  - The display limit and the search-suggestion filter are also modelled.
- **Overpass parsing** (`ApiService`), module `Api`.
  - Element selection, the node and way parsers with their defaults and tag copying.
  - `buildAddress`, the stable sort by distance, and the cut at the marker limit.
- **Nominatim results** (`GeocodingService`), module `Geocoding`.
  - `appendLocation` and the address builders over a `StringBuilder`.
  - The choice of result in reverse geocoding and in `geocode`.
- **Records and settings.**
  - `Pharmacy` (module `PharmacyModel`) and `Location` (module `LocationModel`) are classes whose setters change fields in place.
  - `LocationService` (module `LocationServices`): validation and the default location.
  - `AppConfig` (module `Config`): properties, environment override, and parse-with-default.

Supporting modules:
- `Wrappers` holds `Option` and `Result`, which stand for Java's null and thrown exceptions.
- `JavaText` holds the Java string operations the code relies on: `trim`, `split`, `replace`, `Integer.parseInt`, `String.valueOf`, `toUpperCase`, `toLowerCase`, and the UTF-16 view of a string behind `length()` and `hashCode`.
- `Json` holds the Gson tree and its accessors. Accessors that throw give `None`.

Representation choices:
- Coordinates are integers in micro-degrees.
- Time is an integer number of milliseconds, passed in as `now`.
- Several things are parameters or inputs, never computed here:
  - probe results (`string -> bool`);
  - HTTP answers (`Option<Json>`, `Tile -> Download`);
  - decimal parsing (`string -> Option<int>`);
  - the distance function;
  - the Mercator centre tile.
- Timer firings and fetch completions are separate method calls, or events in `Controller.Run`.

## Model

| member | source | states |
|---|---|---|
| Cache.ThousandthsRounds | src/main/java/com/pharmalocator/services/CacheService.java:380-383 | the key's `%.3f` rounding of a coordinate is to the nearest thousandth, a half going away from zero |
| Cache.CellOfIff | src/main/java/com/pharmalocator/services/CacheService.java:380-383 | a printed component keeps exactly the sign and the rounded thousandths, both directions |
| Cache.ReadKeyOfLocationKey | src/main/java/com/pharmalocator/services/CacheService.java:380-383 | a key "lat,lon" parses back to the two cells it was printed from (the key loses nothing more than the rounding) |
| Cache.LocationKeyIffSameCells | src/main/java/com/pharmalocator/services/CacheService.java:380-383 | two positions get the same key if and only if both coordinates have the same sign and the same rounded thousandths |
| Cache.SignedZeroKeysDiffer | src/main/java/com/pharmalocator/services/CacheService.java:380-383 | 0.0004 and -0.0004 both round to 0 thousandths yet get different keys ("0.000" vs "-0.000") |
| Cache.CacheEntry.IsExpired | src/main/java/com/pharmalocator/services/CacheService.java:64-66 | an entry has expired when its age is strictly greater than the maximum age |
| Cache.ExpiryIsStrict | src/main/java/com/pharmalocator/services/CacheService.java:64-66 | an entry aged exactly `maxAge` is fresh, one millisecond later it has expired, and it stays expired |
| Cache.Unexpired | src/main/java/com/pharmalocator/services/CacheService.java:402-417 | `removeIf(isExpired)` keeps exactly the unexpired keys, each with its entry unchanged |
| Cache.Lookup | src/main/java/com/pharmalocator/services/CacheService.java:162-180 | a get returns a value if and only if the key is present and unexpired, and then that entry's data |
| Cache.AfterLookup | src/main/java/com/pharmalocator/services/CacheService.java:171-175 | a get on an expired entry removes that key only; otherwise the map is unchanged |
| Cache.PutThenLookup | src/main/java/com/pharmalocator/services/CacheService.java:146-180 | a stored value is returned while its age is at most `maxAge`, and never after |
| Cache.CachedListFoundFromSameCell | src/main/java/com/pharmalocator/services/CacheService.java:146-180 | a list stored for one position is returned for any position with the same key, until it expires |
| Cache.SweepIsInvisibleToReads | src/main/java/com/pharmalocator/services/CacheService.java:402-417 | sweeping never changes what a get at the same instant returns, and a second sweep removes nothing |
| Cache.CacheStore.constructor | src/main/java/com/pharmalocator/services/CacheService.java:101-137 | startup loads each snapshot and keeps only its unexpired entries; a missing or unreadable file gives an empty store |
| Cache.CacheStore.CachePharmacies | src/main/java/com/pharmalocator/services/CacheService.java:146-157 | the list is stored under the position's key stamped `now`, the pharmacy file is rewritten, and nothing else changes |
| Cache.CacheStore.GetCachedPharmacies | src/main/java/com/pharmalocator/services/CacheService.java:162-180 | the result is `Lookup` under the position's key, the store becomes `AfterLookup`, and no file is touched |
| Cache.CacheStore.CacheUserLocation | src/main/java/com/pharmalocator/services/CacheService.java:230-235 | the location is stored under "user_location", the file rewritten, and the one-key invariant kept |
| Cache.CacheStore.GetCachedUserLocation | src/main/java/com/pharmalocator/services/CacheService.java:240-256 | as for pharmacy lists, with the fixed key and the 24-hour lifetime |
| Cache.CacheStore.CacheMapState | src/main/java/com/pharmalocator/services/CacheService.java:306-311 | the slot holds the new state stamped `now`, and its file is rewritten |
| Cache.CacheStore.GetCachedMapState | src/main/java/com/pharmalocator/services/CacheService.java:316-330 | the state is returned while at most 7 days old; an expired one is dropped and null returned |
| Cache.CacheStore.ClearAllCaches | src/main/java/com/pharmalocator/services/CacheService.java:388-397 | every store is emptied and every file deleted; the stats are then (0, 0, false) |
| Cache.CacheStore.ClearExpiredCaches | src/main/java/com/pharmalocator/services/CacheService.java:402-417 | each store keeps exactly its unexpired entries, with the 24 h and 7 day lifetimes; the files are not rewritten |
| Cache.CacheStore.Stats | src/main/java/com/pharmalocator/services/CacheService.java:436-442 | the counts are the store sizes and the location count is at most 1 |
| Connectivity.ProbesMade | src/main/java/com/pharmalocator/services/OfflineManager.java:102-110 | a check probes hosts up to and including the first that answers, all of them when none does |
| Connectivity.Deliveries | src/main/java/com/pharmalocator/services/OfflineManager.java:148-169 | one callback per listener, in registration order, of the right kind, whether or not earlier ones threw |
| Connectivity.TransitionsEndAtLastReading | src/main/java/com/pharmalocator/services/OfflineManager.java:113-126 | the last change of a series, if any, is to the current reading; with no change the reading is still the start value |
| Connectivity.TransitionsAlternate | src/main/java/com/pharmalocator/services/OfflineManager.java:113-126 | the changes alternate between offline and online, beginning with the opposite of the start reading, and number at most the readings |
| Connectivity.RepeatedReadingIsSilent | src/main/java/com/pharmalocator/services/OfflineManager.java:113-126 | repeating the current reading produces no change and no callback |
| Connectivity.TwoChangesFromOnlineStart | src/main/java/com/pharmalocator/services/OfflineManager.java:32-33 | from the start value "online", readings up, up, up, down, down, up give exactly two changes: offline, then online |
| Connectivity.RemoveFirstRemovesFirst | src/main/java/com/pharmalocator/services/OfflineManager.java:67-69 | `remove` takes out the first registration of the listener only, the rest keep their order |
| Connectivity.OfflineManager.constructor | src/main/java/com/pharmalocator/services/OfflineManager.java:32-55 | both flags start at "online", the first check runs before any listener exists, and the periodic check is scheduled |
| Connectivity.OfflineManager.IsOffline | src/main/java/com/pharmalocator/services/OfflineManager.java:74-83 | `isOffline` is always the negation of `isOnline` |
| Connectivity.OfflineManager.AddListener | src/main/java/com/pharmalocator/services/OfflineManager.java:60-62 | the listener is appended (duplicates allowed) and nothing else changes |
| Connectivity.OfflineManager.RemoveListener | src/main/java/com/pharmalocator/services/OfflineManager.java:67-69 | the first registration of the listener is withdrawn and nothing else changes |
| Connectivity.OfflineManager.Notify | src/main/java/com/pharmalocator/services/OfflineManager.java:148-169 | the callbacks logged are exactly `Deliveries` of the current listeners |
| Connectivity.OfflineManager.ProbeHosts | src/main/java/com/pharmalocator/services/OfflineManager.java:102-110 | online if and only if some host answers; the hosts probed are the prefix up to the first that answers |
| Connectivity.OfflineManager.CheckConnectivity | src/main/java/com/pharmalocator/services/OfflineManager.java:101-127 | both flags take the reading; a change is logged and reaches every listener; a repeated reading changes nothing else |
| Connectivity.OfflineManager.CheckNow | src/main/java/com/pharmalocator/services/OfflineManager.java:174-176 | exactly one check is made |
| Connectivity.OfflineManager.Tick | src/main/java/com/pharmalocator/services/OfflineManager.java:88-96 | a periodic firing makes one check while scheduled, and changes nothing after shutdown |
| Connectivity.OfflineManager.Shutdown | src/main/java/com/pharmalocator/services/OfflineManager.java:181-208 | the listener list is emptied and the scheduler stopped, so no later firing reaches anyone |
| Connectivity.OfflineManager.RunChecks | src/main/java/com/pharmalocator/services/OfflineManager.java:101-127 | over a series of checks the changes logged are exactly the transitions of the readings, each reaches every listener, and the hosts probed are those of each check in turn (`ProbeLog`) |
| Connectivity.ReadingsOfFive | src/main/java/com/pharmalocator/services/OfflineManager.java:102-110 | probes where some host / no host answers read up, up, down, down, up |
| Connectivity.OnlineStartScenario | src/main/java/com/pharmalocator/services/OfflineManager.java:32-55 | a manager whose first check succeeds, with one listener, then reads up, up, down, down, up: that listener gets `onOffline` then `onOnline`, nothing more |
| OfflineTiles.Radius | src/main/java/com/pharmalocator/services/OfflineTileCache.java:109 | the square's radius is never below 1 |
| OfflineTiles.RadiusPerZoom | src/main/java/com/pharmalocator/services/OfflineTileCache.java:109 | the radii are 6, 5, 4, 3, 2 for zooms 12 to 16, 1 from zoom 17, and never grow with the zoom |
| OfflineTiles.TilePathInjective | src/main/java/com/pharmalocator/services/OfflineTileCache.java:182-184 | different tiles are stored in different files `z/x/y.png` |
| OfflineTiles.DownloadTileOutcomes | src/main/java/com/pharmalocator/services/OfflineTileCache.java:131-177 | a cached tile costs no request and changes nothing; otherwise one request; only a complete copy stores the bytes and raises the counter by 1; a refused or failed request changes nothing else; a broken copy leaves a partial file |
| OfflineTiles.StepsKeep | src/main/java/com/pharmalocator/services/OfflineTileCache.java:135-137 | over a run, a tile already on disk is never fetched again or overwritten |
| OfflineTiles.StepsFiles | src/main/java/com/pharmalocator/services/OfflineTileCache.java:131-177 | every new file follows a request, and the counter grows by the complete copies among the requests |
| OfflineTiles.ZoomTilesMembers | src/main/java/com/pharmalocator/services/OfflineTileCache.java:109-125 | one zoom visits exactly the in-grid tiles within the radius of the centre tile on both axes |
| OfflineTiles.ZoomTilesFacts | src/main/java/com/pharmalocator/services/OfflineTileCache.java:109-125 | one zoom visits its tiles ordered by x, then y, at most (2r + 1)² of them |
| OfflineTiles.BatchMembers | src/main/java/com/pharmalocator/services/OfflineTileCache.java:84-86 | a job visits each zoom's square from 12 up, and nothing else |
| OfflineTiles.BatchAscending | src/main/java/com/pharmalocator/services/OfflineTileCache.java:84-86 | a job visits zoom after zoom in increasing order, each zoom ordered by x, then y |
| OfflineTiles.BatchInGrid | src/main/java/com/pharmalocator/services/OfflineTileCache.java:111-113 | every tile a job visits has a zoom from 12 to 16 and `0 <= x, y < 2^zoom` |
| OfflineTiles.BatchSize | src/main/java/com/pharmalocator/services/OfflineTileCache.java:84-125 | a job visits at most 13² + 11² + 9² + 7² + 5² = 445 tiles |
| OfflineTiles.BatchRequests | src/main/java/com/pharmalocator/services/OfflineTileCache.java:84-177 | one job makes at most 445 requests, each for a distinct in-grid tile not on disk when it began, and raises the counter by at most the requests |
| OfflineTiles.TileCache.StartPreCache | src/main/java/com/pharmalocator/services/OfflineTileCache.java:71-81 | nothing while a job runs; otherwise the flag is raised and the counter reset; a shut-down executor refuses the job with the flag left up |
| OfflineTiles.TileCache.RunBatch | src/main/java/com/pharmalocator/services/OfflineTileCache.java:81-94 | the store after the job is the downloads of the whole visiting order, one by one; the flag comes down at the end |
| OfflineTiles.TileCache.DownloadTilesForZoom | src/main/java/com/pharmalocator/services/OfflineTileCache.java:100-126 | the two loops download the columns of the zoom's square, left to right, each top to bottom |
| OfflineTiles.TileCache.DownloadTile | src/main/java/com/pharmalocator/services/OfflineTileCache.java:131-177 | the new state is one `Step` of the store for that tile |
| OfflineTiles.TileCache.GetCachedTile | src/main/java/com/pharmalocator/services/OfflineTileCache.java:189-208 | the bytes are returned if and only if `isTileCached`, and they are the stored bytes; else null (a failing read is not modelled) |
| OfflineTiles.TileCache.GetCachedTileCount | src/main/java/com/pharmalocator/services/OfflineTileCache.java:213-223 | the count is the number of stored tiles, 0 exactly when the store is empty |
| OfflineTiles.TileCache.ClearCache | src/main/java/com/pharmalocator/services/OfflineTileCache.java:250-265 | no tile remains, no tile is cached and the count is 0 |
| OfflineTiles.TileCache.Shutdown | src/main/java/com/pharmalocator/services/OfflineTileCache.java:270-286 | the flag comes down and the executor stops taking jobs; the tiles stay |
| TileServer.NotFound | src/main/java/com/pharmalocator/services/LocalTileServer.java:132-138 | status 404, no header, the bytes of "Tile not found" |
| TileServer.RequestedTile | src/main/java/com/pharmalocator/services/LocalTileServer.java:99-108 | a tile is named only by a path of five '/'-parts whose last ends in ".png", with three `int` numerals |
| TileServer.Respond | src/main/java/com/pharmalocator/services/LocalTileServer.java:95-130 | 200 if and only if the path names a cached tile, then with PNG and one-day cache headers and the tile's bytes; otherwise exactly the 404 answer |
| TileServer.RequestedTileOfPath | src/main/java/com/pharmalocator/services/LocalTileServer.java:99-108 | the path of any `int` tile, with or without a trailing '/', reads back as that tile, whatever the (never inspected) context part |
| TileServer.RespondToTilePath | src/main/java/com/pharmalocator/services/LocalTileServer.java:111-125 | a cached tile asked for by its path is served with its bytes, an uncached one gets 404 |
| TileServer.WrongShapeNotFound | src/main/java/com/pharmalocator/services/LocalTileServer.java:99-103 | a path without five parts or without ".png" at the end gets 404 without the cache being asked |
| TileServer.LocalTileServer.Start | src/main/java/com/pharmalocator/services/LocalTileServer.java:36-52 | a no-op while running; a successful bind creates and starts the server; a bind failure leaves it stopped |
| TileServer.LocalTileServer.Stop | src/main/java/com/pharmalocator/services/LocalTileServer.java:57-74 | with no server nothing happens; otherwise it is no longer running |
| TileServer.LocalTileServer.GetTileUrl | src/main/java/com/pharmalocator/services/LocalTileServer.java:86-88 | the constant "http://localhost:8765/tiles/{z}/{x}/{y}.png" |
| TileServer.LocalTileServer.Handle | src/main/java/com/pharmalocator/services/LocalTileServer.java:95-130 | the handler's answer is `Respond` over the tile cache's current tiles |
| Controller.DisplayListFacts | src/main/java/com/pharmalocator/controllers/MainViewController.java:946-955 | min(n, limit) items are shown; a list within the limit is shown as it is; a longer one as its `limit` nearest in order of distance, none dropped nearer than one shown |
| Controller.Suggestions | src/main/java/com/pharmalocator/controllers/MainViewController.java:595-610 | none for a null text or one shorter than 2 UTF-16 units; at most 5 distinct history entries, each starting with the text ignoring case, and every match when fewer than 5 |
| Controller.Measured | src/main/java/com/pharmalocator/controllers/MainViewController.java:892 | each pharmacy gets its distance from the user's position, and nothing else changes |
| Controller.AddNames | src/main/java/com/pharmalocator/controllers/MainViewController.java:964 | the history gains exactly the names of the shown pharmacies |
| Controller.OfflineLoad | src/main/java/com/pharmalocator/controllers/MainViewController.java:770-798 | offline, no fetch and no timer; loading ends; a cached non-empty list is shown, otherwise the items stay |
| Controller.OnlineCacheHit | src/main/java/com/pharmalocator/controllers/MainViewController.java:809-821 | the cached list is shown, loading ends, one refresh fetch goes out and no timer is armed |
| Controller.OnlineCacheMiss | src/main/java/com/pharmalocator/controllers/MainViewController.java:822-829 | one fetch goes out; a timer is armed exactly while the counter is below 2, otherwise loading ends |
| Controller.TimerRetriesOnlyWhileEmpty | src/main/java/com/pharmalocator/controllers/MainViewController.java:750-763 | a timer raises the counter and reloads only while loading with an empty list; otherwise it only stops being pending |
| Controller.EmptyResult | src/main/java/com/pharmalocator/controllers/MainViewController.java:854-890 | an empty result keeps loading while the counter is below 2; at the last attempt loading ends and the timer is cancelled |
| Controller.InternalKeepsValid | src/main/java/com/pharmalocator/controllers/MainViewController.java:766-841 | the internal load keeps the protocol invariant (counter in 0..2, at most one timer, none at the last attempt, fetches at most counter + 1) |
| Controller.LoadEstablishesValid | src/main/java/com/pharmalocator/controllers/MainViewController.java:707-732 | a load resets the count, so the invariant holds after it whatever came before |
| Controller.FiredKeepsValid | src/main/java/com/pharmalocator/controllers/MainViewController.java:750-763 | a timer firing keeps the invariant |
| Controller.CompletedKeepsValid | src/main/java/com/pharmalocator/controllers/MainViewController.java:846-917 | a fetch completing (empty, non-empty or thrown) keeps the invariant |
| Controller.RunKeepsValid | src/main/java/com/pharmalocator/controllers/MainViewController.java:707-917 | after any sequence of loads, timer firings and completions the invariant holds, so a load issues at most 3 fetches |
| Controller.ThreeAttempts | src/main/java/com/pharmalocator/controllers/MainViewController.java:734-764 | online with no cached list and no answer, a load and two timer firings make 3 fetches, reach counter 2, end loading and leave no timer |
| Controller.MainViewController.constructor | src/main/java/com/pharmalocator/controllers/MainViewController.java:114-116 | display limit 50, counter 0, not loading, no timer, nothing shown, no fetch |
| Controller.MainViewController.MoveTo | src/main/java/com/pharmalocator/controllers/MainViewController.java:681-682 | `setUserLocation` replaces the user location and leaves the load protocol's state and the display limit as they were |
| Controller.MainViewController.DisplayPharmacies | src/main/java/com/pharmalocator/controllers/MainViewController.java:937-971 | the timer is cancelled, loading ends, the limited list is shown and its names added to the history |
| Controller.MainViewController.ScheduleRetryIfNeeded | src/main/java/com/pharmalocator/controllers/MainViewController.java:734-764 | at counter 2 loading ends, otherwise one timer is armed |
| Controller.MainViewController.FetchAndUpdateCache | src/main/java/com/pharmalocator/controllers/MainViewController.java:846-847 | one more fetch is in flight |
| Controller.MainViewController.LoadNearbyPharmaciesInternal | src/main/java/com/pharmalocator/controllers/MainViewController.java:766-841 | the connectivity reading and the cache lookup for the user's key decide the branch; the cache map becomes `AfterLookup` |
| Controller.MainViewController.LoadNearbyPharmacies | src/main/java/com/pharmalocator/controllers/MainViewController.java:707-732 | nothing without a location; otherwise the timer is cancelled, loading on, the list cleared, the counter reset, then the internal load; the invariant holds after |
| Controller.MainViewController.RetryTimerFires | src/main/java/com/pharmalocator/controllers/MainViewController.java:750-763 | the timer is consumed; it raises the counter and reloads only while loading with an empty list; the invariant is kept |
| Controller.MainViewController.StoreAndDisplay | src/main/java/com/pharmalocator/controllers/MainViewController.java:892-907 | a fetched list is measured from the user's position, cached under its key along with the user location, and shown |
| Controller.MainViewController.FetchCompletes | src/main/java/com/pharmalocator/controllers/MainViewController.java:846-917 | the state is `Completed`: an error stops the spinner, an empty list retries or gives up, a list is stored and shown; the cache changes only for a non-empty list; the invariant is kept |
| Api.TagStrings | src/main/java/com/pharmalocator/services/ApiService.java:213-218 | every tag is read as a string, with the same keys, or `None` exactly when one tag is not string-like |
| Api.CopyTags | src/main/java/com/pharmalocator/services/ApiService.java:213-218 | the tag loop gives `TagStrings` |
| Api.Address | src/main/java/com/pharmalocator/services/ApiService.java:294-311 | null exactly when the city is empty and number + " " + street is blank; otherwise trim(number + " " + street) plus ", city" |
| Api.BuildAddress | src/main/java/com/pharmalocator/services/ApiService.java:294-311 | a missing tag counts as ""; the result is `Address` of the three tag values, or an error when a present tag cannot be read |
| Api.AddressOnlyCity | src/main/java/com/pharmalocator/services/ApiService.java:305-310 | with only a city the address is ", " followed by the city |
| Api.AddressNumberStreet | src/main/java/com/pharmalocator/services/ApiService.java:294-308 | a trimmed number and street are joined by one space, then ", city" when there is a city |
| Api.NoAddressTags | src/main/java/com/pharmalocator/services/ApiService.java:294-311 | without any address tag the address is null |
| Api.ReadExtras | src/main/java/com/pharmalocator/services/ApiService.java:204-218 | the address, phone, hours and tags read after creating the pharmacy; fails exactly when one of those reads throws |
| Api.NodePharmacy | src/main/java/com/pharmalocator/services/ApiService.java:189-226 | a node's pharmacy has the element's id, lat and lon, the "name" tag or "Pharmacie", every tag copied, and no geometry |
| Api.NodeDefaultName | src/main/java/com/pharmalocator/services/ApiService.java:197-218 | a node without a "name" tag is shown as "Pharmacie" and keeps every one of its tags |
| Api.ParseNode | src/main/java/com/pharmalocator/services/ApiService.java:189-226 | `parsePharmacy` with its tag loop gives `NodePharmacy` |
| Api.Outline | src/main/java/com/pharmalocator/services/ApiService.java:244-262 | every vertex of the outline in input order, or `None` exactly when one cannot be read |
| Api.WayPharmacy | src/main/java/com/pharmalocator/services/ApiService.java:231-292 | a way needs a non-empty geometry; its pharmacy keeps the outline in order, has the way's id, the name or "Pharmacie" and every tag |
| Api.WayWithoutGeometry | src/main/java/com/pharmalocator/services/ApiService.java:244-250 | a way with no geometry, or an empty one, gives no pharmacy |
| Api.ParseWay | src/main/java/com/pharmalocator/services/ApiService.java:231-292 | `parsePharmacyWay` with its loops gives `WayPharmacy` |
| Api.SortFacts | src/main/java/com/pharmalocator/services/ApiService.java:175 | the sort orders by distance, is a permutation, and keeps equal distances in input order |
| Api.Truncate | src/main/java/com/pharmalocator/services/ApiService.java:177-180 | the cut is a prefix of length min(n, max) |
| Api.TruncateKeepsNearest | src/main/java/com/pharmalocator/services/ApiService.java:175-180 | of a sorted list the cut keeps the nearest: none dropped is nearer than one kept |
| Api.NearestFirst | src/main/java/com/pharmalocator/services/ApiService.java:175-180 | sort-then-cut is sorted, at most `max` long, a sub-multiset of the input, and nothing dropped is nearer than anything kept |
| Api.Visit | src/main/java/com/pharmalocator/services/ApiService.java:150-173 | a non-object ends the loop; an element without "type" or "tags" is skipped; an unreadable "type" ends the loop; a "node" or a "way" that parses is appended with its distance, one that does not is skipped, and so is any other type |
| Api.ScanIsHarvest | src/main/java/com/pharmalocator/services/ApiService.java:150-173 | the loop throws exactly when the first throwing element (`Reached`) lies inside the answer, and it holds the pharmacies of the elements before that point, in order |
| Api.ScanOfElements | src/main/java/com/pharmalocator/services/ApiService.java:150-173 | the loop throws exactly when some element throws; it then holds the pharmacies of the elements before the first such one, and otherwise those of every element, in order |
| Api.ParsedOfElements | src/main/java/com/pharmalocator/services/ApiService.java:144-186 | with no throwing element, the pharmacies of all elements sorted by distance and cut at `maxMarkers`; otherwise those read before the first throwing element, unsorted |
| Api.ParsedInOrder | src/main/java/com/pharmalocator/services/ApiService.java:150-180 | a loop that runs to the end yields at most `maxMarkers` pharmacies, nearest first, at most one per element |
| Api.ScanStaysAborted | src/main/java/com/pharmalocator/services/ApiService.java:144-186 | once an exception ends the loop, the remaining elements change nothing |
| Api.ParsePharmacies | src/main/java/com/pharmalocator/services/ApiService.java:139-187 | the element loop, sort and cut give `Parsed` |
| Api.GetNearbyPharmacies | src/main/java/com/pharmalocator/services/ApiService.java:49-67 | never null: a failed request gives the empty list, otherwise the parsed list |
| Geocoding.FirstPresent | src/main/java/com/pharmalocator/services/GeocodingService.java:111-119 | the key found is a listed key that is present; none is found only when no listed key is present |
| Geocoding.Separator | src/main/java/com/pharmalocator/services/GeocodingService.java:114 | ", " exactly when the builder is not empty |
| Geocoding.AppendsFirstPresent | src/main/java/com/pharmalocator/services/GeocodingService.java:111-119 | only the value of the first listed key present is appended, after ", " when the text is not empty |
| Geocoding.AppendsNothing | src/main/java/com/pharmalocator/services/GeocodingService.java:111-119 | with none of the keys present nothing is appended |
| Geocoding.AppendLocation | src/main/java/com/pharmalocator/services/GeocodingService.java:111-119 | the builder ends as `WithLocation`, or fails after the separator when the value cannot be read |
| Geocoding.StreetOrder | src/main/java/com/pharmalocator/services/GeocodingService.java:91-99 | the house number and a space come first, then the road in preference to the pedestrian way |
| Geocoding.FromComponents | src/main/java/com/pharmalocator/services/GeocodingService.java:88-106 | the trimmed text, null exactly when it is blank |
| Geocoding.FullComponents | src/main/java/com/pharmalocator/services/GeocodingService.java:88-106 | number, road, city and country give "number road, city, country" |
| Geocoding.BuildAddressFromComponents | src/main/java/com/pharmalocator/services/GeocodingService.java:88-106 | the method with its `StringBuilder` gives `FromComponents` |
| Geocoding.DisplayNamePreferred | src/main/java/com/pharmalocator/services/GeocodingService.java:62-82 | the display name wins whenever present; the components are used only without it; with neither the result is null |
| Geocoding.GetAddressFromCoordinates | src/main/java/com/pharmalocator/services/GeocodingService.java:43-83 | the method gives the reverse-geocoding result |
| Geocoding.ShortAddressOfPlaces | src/main/java/com/pharmalocator/services/GeocodingService.java:190-198 | with an "address" object: "city, country", or the country alone, or "" — never null |
| Geocoding.GetShortAddress | src/main/java/com/pharmalocator/services/GeocodingService.java:170-204 | null without an "address" object, otherwise the place then the country |
| Geocoding.GeocodeResult | src/main/java/com/pharmalocator/services/GeocodingService.java:140-164 | a result is a valid location with no city, country or address |
| Geocoding.GeocodeFirstOnly | src/main/java/com/pharmalocator/services/GeocodingService.java:144-156 | an empty result array gives null; otherwise only the first result counts |
| Geocoding.Geocode | src/main/java/com/pharmalocator/services/GeocodingService.java:121-165 | a fresh `Location` exactly when `GeocodeResult` has one, with its contents |
| PharmacyModel.PharmacyInfo.DisplayName | src/main/java/com/pharmalocator/models/Pharmacy.java:97-99 | the name, or "Pharmacie" when it is null |
| PharmacyModel.NewPharmacy | src/main/java/com/pharmalocator/models/Pharmacy.java:28-39 | a new pharmacy has the given id, name and position, empty tags and geometry, so no geometry |
| PharmacyModel.IdHash | src/main/java/com/pharmalocator/models/Pharmacy.java:197-199 | `Objects.hash(id)` is a 32-bit value, 31 for a null id, with the id hashed over its UTF-16 units |
| JavaText.StringHashSnoc | src/main/java/com/pharmalocator/models/Pharmacy.java:197-199 | `String.hashCode` folds `31 * h + u` over UTF-16 units: one step per character of the Basic Multilingual Plane, two (high, then low surrogate) for a character above U+FFFF |
| JavaText.Utf16RoundTrip | src/main/java/com/pharmalocator/models/Pharmacy.java:197-199 | the UTF-16 units a string is hashed over decode back to the string |
| JavaText.LengthOfBmp | src/main/java/com/pharmalocator/controllers/MainViewController.java:596 | `length()` equals the number of characters exactly when none lies above U+FFFF |
| PharmacyModel.Pharmacy.GetName | src/main/java/com/pharmalocator/models/Pharmacy.java:97-99 | the stored name, or "Pharmacie" when it is null |
| PharmacyModel.Pharmacy.AddTag | src/main/java/com/pharmalocator/models/Pharmacy.java:74-79 | afterwards `getTag(key)` is the value and every other tag is unchanged |
| PharmacyModel.Pharmacy.GetTag | src/main/java/com/pharmalocator/models/Pharmacy.java:84-86 | the value under the key, null for a missing key or a null map |
| PharmacyModel.Pharmacy.AddGeometryPoint | src/main/java/com/pharmalocator/models/Pharmacy.java:177-182 | exactly one point is appended at the end, after which `hasGeometry` holds |
| PharmacyModel.Pharmacy.HasGeometry | src/main/java/com/pharmalocator/models/Pharmacy.java:184-186 | a geometry list is present and not empty |
| PharmacyModel.Pharmacy.Equals | src/main/java/com/pharmalocator/models/Pharmacy.java:189-194 | equal exactly to a non-null pharmacy with the same id |
| PharmacyModel.Pharmacy.HashCode | src/main/java/com/pharmalocator/models/Pharmacy.java:197-199 | the hash of the id alone |
| PharmacyModel.EqualsImpliesSameHash | src/main/java/com/pharmalocator/models/Pharmacy.java:189-199 | equal pharmacies have equal hash codes |
| PharmacyModel.EqualsIgnoresAllButId | src/main/java/com/pharmalocator/models/Pharmacy.java:189-194 | two pharmacies with the same id are equal, in both directions, whatever else differs |
| PharmacyModel.Pharmacy.Empty | src/main/java/com/pharmalocator/models/Pharmacy.java:28-31 | `new Pharmacy()`: an empty tag map and an empty geometry list, every other field at its Java default |
| PharmacyModel.Pharmacy.constructor | src/main/java/com/pharmalocator/models/Pharmacy.java:33-39 | the id, name and coordinates given, with empty tags and geometry |
| PharmacyModel.Pharmacy.SetName | src/main/java/com/pharmalocator/models/Pharmacy.java:101-103 | the name is replaced, null included, and no other field changes |
| PharmacyModel.Pharmacy.SetAddress | src/main/java/com/pharmalocator/models/Pharmacy.java:125-127 | the address is replaced and no other field changes |
| PharmacyModel.Pharmacy.SetPhone | src/main/java/com/pharmalocator/models/Pharmacy.java:133-135 | the phone is replaced and no other field changes |
| PharmacyModel.Pharmacy.SetOpeningHours | src/main/java/com/pharmalocator/models/Pharmacy.java:141-143 | the opening hours are replaced and no other field changes |
| PharmacyModel.Pharmacy.SetDistance | src/main/java/com/pharmalocator/models/Pharmacy.java:149-151 | the distance is replaced and no other field changes |
| PharmacyModel.Pharmacy.SetTags | src/main/java/com/pharmalocator/models/Pharmacy.java:165-167 | the tag map is replaced, possibly by null, and no other field changes |
| PharmacyModel.Pharmacy.SetGeometry | src/main/java/com/pharmalocator/models/Pharmacy.java:173-175 | the geometry list is replaced, possibly by null, and no other field changes |
| LocationModel.ValidateCoordinates | src/main/java/com/pharmalocator/models/Location.java:41-48 | no error exactly within [-90, 90] × [-180, 180]; the latitude is checked first |
| LocationModel.SameCoordinatesIsEquivalence | src/main/java/com/pharmalocator/models/Location.java:124-130 | coordinate equality is reflexive, symmetric and transitive and ignores city, country and address |
| LocationModel.Location.Create | src/main/java/com/pharmalocator/models/Location.java:24-36 | the validating constructors throw exactly when `validateCoordinates` does, else hold the given values |
| LocationModel.Location.SetLatitude | src/main/java/com/pharmalocator/models/Location.java:85-88 | validated against the current longitude; stored when valid, nothing changes when it throws |
| LocationModel.Location.SetLongitude | src/main/java/com/pharmalocator/models/Location.java:94-97 | validated against the current latitude; stored when valid, nothing changes when it throws |
| LocationModel.Location.Equals | src/main/java/com/pharmalocator/models/Location.java:124-130 | equal exactly to a non-null location with the same coordinates |
| LocationModel.Location.constructor | src/main/java/com/pharmalocator/models/Location.java:21-22 | `new Location()`: coordinates (0, 0), which are valid, and no names |
| LocationModel.Location.SetCity | src/main/java/com/pharmalocator/models/Location.java:103-105 | the city is replaced and no other field changes |
| LocationModel.Location.SetCountry | src/main/java/com/pharmalocator/models/Location.java:111-113 | the country is replaced and no other field changes |
| LocationModel.Location.SetAddress | src/main/java/com/pharmalocator/models/Location.java:119-121 | the address is replaced and no other field changes; no validation runs |
| LocationServices.IsValidAgreesWithValidate | src/main/java/com/pharmalocator/services/LocationService.java:104-107 | on the model's fixed-point coordinates, the service's check accepts exactly the pairs the record's validation accepts (NaN, where the two differ, is not a model value) |
| LocationServices.BoundsAreInclusive | src/main/java/com/pharmalocator/services/LocationService.java:104-107 | the boundary values are accepted and the next ones out refused, on every side |
| LocationServices.LocationService.GetDefaultLocation | src/main/java/com/pharmalocator/services/LocationService.java:84-95 | the configured default position with city "Default Location", or the exception for invalid defaults |
| LocationServices.LocationService.CreateLocation | src/main/java/com/pharmalocator/services/LocationService.java:53-63 | the given coordinates when valid, else the default location |
| LocationServices.LocationService.SetUserLocation | src/main/java/com/pharmalocator/services/LocationService.java:65-77 | invalid coordinates change nothing; valid ones are stored with "Custom Location" and "User Selected" |
| LocationServices.LocationService.GetUserLocation | src/main/java/com/pharmalocator/services/LocationService.java:34-43 | the stored location once set, the default location before |
| Config.ReadTable | src/main/java/com/pharmalocator/config/AppConfig.java:31-45 | the defaults are written only when the file is missing or unreadable, on top of what was read |
| Config.EnvironmentKey | src/main/java/com/pharmalocator/config/AppConfig.java:57-63 | the variable name is the key upper-cased with '.' turned into '_', character by character |
| Config.AppConfig.LoadProperties | src/main/java/com/pharmalocator/config/AppConfig.java:31-45 | a readable file's table is loaded; a missing or failing one leaves the defaults on top |
| Config.AppConfig.SetDefaults | src/main/java/com/pharmalocator/config/AppConfig.java:47-55 | exactly the seven keys are set, every other entry kept |
| Config.AppConfig.GetProperty | src/main/java/com/pharmalocator/config/AppConfig.java:57-69 | the environment wins, then the table, then the default |
| Config.AppConfig.GetIntProperty | src/main/java/com/pharmalocator/config/AppConfig.java:71-79 | the default when absent or not an `int` numeral, else its value |
| Config.AppConfig.GetDecimalProperty | src/main/java/com/pharmalocator/config/AppConfig.java:81-89 | the default when absent or unparsable, else the parsed value |
| Config.AppConfig.GetBooleanProperty | src/main/java/com/pharmalocator/config/AppConfig.java:91-94 | the default when absent, else whether the value is "true" ignoring case |
| Config.AppConfig.GetAppName | src/main/java/com/pharmalocator/config/AppConfig.java:97-99 | "GeoPharFinder" when neither the environment nor the table sets "app.name" |
| Config.AppConfig.GetAppVersion | src/main/java/com/pharmalocator/config/AppConfig.java:101-103 | "1.0.0" when "app.version" is unset |
| Config.AppConfig.GetWindowWidth | src/main/java/com/pharmalocator/config/AppConfig.java:105-107 | 1400 when "app.window.width" is unset |
| Config.AppConfig.GetWindowHeight | src/main/java/com/pharmalocator/config/AppConfig.java:109-111 | 900 when "app.window.height" is unset |
| Config.AppConfig.GetMaxSearchRadius | src/main/java/com/pharmalocator/config/AppConfig.java:129-131 | 20000 when "search.max.radius" is unset |
| Config.AppConfig.GetDefaultMapZoom | src/main/java/com/pharmalocator/config/AppConfig.java:133-135 | 13 when "map.default.zoom" is unset |
| Config.AppConfig.GetDatabasePath | src/main/java/com/pharmalocator/config/AppConfig.java:141-143 | "geopharfinder.db" when "db.path" is unset |
| Config.AppConfig.IsCacheEnabled | src/main/java/com/pharmalocator/config/AppConfig.java:145-147 | true when "db.cache.enabled" is unset |
| Config.AppConfig.GetMaxMarkers | src/main/java/com/pharmalocator/config/AppConfig.java:137-139 | 100 when unconfigured |
| Config.AppConfig.GetDefaultSearchRadius | src/main/java/com/pharmalocator/config/AppConfig.java:125-127 | 5000 when unconfigured |
| Config.AppConfig.GetCacheExpiryHours | src/main/java/com/pharmalocator/config/AppConfig.java:149-151 | 24 when unconfigured |
| Config.AppConfig.GetDefaultLatitude | src/main/java/com/pharmalocator/config/AppConfig.java:153-156 | 33.5731 degrees when unconfigured |
| Config.AppConfig.GetDefaultLongitude | src/main/java/com/pharmalocator/config/AppConfig.java:158-161 | -7.5898 degrees when unconfigured |
| Config.EnvironmentWins | src/main/java/com/pharmalocator/config/AppConfig.java:57-63 | an environment variable overrides the table whatever it holds, for strings and for `int`s |
| Config.IntPropertyRoundTrip | src/main/java/com/pharmalocator/config/AppConfig.java:71-79 | a table entry written by `String.valueOf(n)` reads back as `n` |
| Config.ParseBooleanCases | src/main/java/com/pharmalocator/config/AppConfig.java:91-94 | "true" in any case is accepted; "yes", "1", "" and "true " are not |

Some functions model a Java method but are specification functions without a contract of their own. Their properties are stated by the rows named here:
- `Cache.LocationKey` (`generateLocationKey`, CacheService.java:380-383): `Cache.ReadKeyOfLocationKey`, `Cache.LocationKeyIffSameCells`, `Cache.SignedZeroKeysDiffer`.
- `LocationServices.IsValidCoordinates` (`isValidCoordinates`, LocationService.java:104-107): `LocationServices.IsValidAgreesWithValidate`, `LocationServices.BoundsAreInclusive`.
- `Controller.DisplayList` (the limit in `displayPharmacies`): `Controller.DisplayListFacts`.
- `Api.SortBy` and `Api.SortByDistance` (`pharmacies.sort`, ApiService.java:175): `Api.SortFacts`, `Api.NearestFirst`.
- `Geocoding.AddressFromCoordinates` (`getAddressFromCoordinates`): `Geocoding.DisplayNamePreferred`, `Geocoding.GetAddressFromCoordinates`.
- `Geocoding.ShortAddress` (`getShortAddress`): `Geocoding.ShortAddressOfPlaces`, `Geocoding.GetShortAddress`.
- `Connectivity.OfflineManager.IsOnline` (`isOnline`, OfflineManager.java:74-76): `Connectivity.OfflineManager.IsOffline` and the `isOnline` clauses of `CheckConnectivity` and `RunChecks`.
- `OfflineTiles.TileCache.IsTileCached` (`isTileCached`, OfflineTileCache.java:189-191): `OfflineTiles.TileCache.GetCachedTile`, `OfflineTiles.TileCache.DownloadTile`.
- `TileServer.LocalTileServer.IsRunning` (`isRunning`, LocalTileServer.java:79-81): `TileServer.LocalTileServer.Start`, `TileServer.LocalTileServer.Stop`.

## Left out

- Floating point. Coordinates, distances and configured decimals are fixed-point integers.
  - NaN is not a model value. In Java `validateCoordinates` lets NaN through while `isValidCoordinates` refuses it, and `getDoubleProperty` can produce it from "NaN"; LocationServices.IsValidAgreesWithValidate holds only for the numbers the model has.
  - The haversine distance is a parameter.
  - So is `Double.parseDouble`, as `parseDecimal`.
  - The Mercator centre tile of each zoom is an input to the prefetch job.
  - A way's centroid is an input function `centre`.
  - `%.6f` URL formatting, `getFormattedDistance`, `getCacheSizeMB` and `getDownloadProgress` are not modelled.
- HTTP, sockets and the JSON text.
  - Network answers are inputs: `Option<Json>` for Overpass and Nominatim, `Tile -> Download` for the tile server, and a reachability predicate per host.
  - The Overpass query text, URL building and `query.replace(" ", "%20")` are not modelled.
  - The HTTP server's percent-decoding of the request path is taken as given: the handler starts from the decoded path.
- Disk I/O. Java serialisation of the cache files is a ghost snapshot per store in `Cache.CacheStore`. The tile directory is the map `tiles`. Three failures that the Java catches and logs are not modelled:
  - a file that fails to delete;
  - a cache file that fails to be written (`savePharmacyCacheToDisk` and the other two savers). `Cache.CacheStore.CachePharmacies`, `CacheUserLocation` and `CacheMapState` always rewrite their snapshot, where Java would keep the old file;
  - a tile file that exists but fails to be read. Java's `getCachedTile` then returns null although `isTileCached` holds, while `OfflineTiles.TileCache.GetCachedTile` returns the bytes whenever the file exists.
- Concurrency: executors, `Platform.runLater`, volatile flags, the 2-second and 10-second schedules, `Thread.sleep` between tiles, and the interrupt that stops a zoom early.
  - Each background task and each UI callback is one atomic method or event.
  - The fetch reads the live user location, as the Java does; nothing here says a late result is discarded.
- The freeze watchdog of the controller is never started, so it is not modelled.
- UI work is not modelled: labels, status texts, placeholders, map markers, `updateActivity`, and the popup's show and hide.
- Controller.MainViewController.LoadNearbyPharmaciesInternal: the catch branch of the online task (lines 831-838) is not modelled. It shows an error and calls `scheduleRetryIfNeeded`. In the model, the cache lookup before it cannot throw.
- Controller.Suggestions: the history set's iteration order is a parameter (`entries`). `HashSet` order is not something the model can know.
- The controller's in-place distance update is modelled on values. `calculateDistanceFrom` mutates `Pharmacy` objects that the cache may share, and that aliasing is not followed.
- Api.SortBy: `List.sort` with a comparator is modelled as a stable insertion sort. This is what TimSort computes, but not how.
- The node and way parsers build pharmacies as values. The setter calls are modelled separately on `PharmacyModel.Pharmacy`.
- JavaText.ToLower, JavaText.ToUpper: only ASCII letters change case, as under a default locale without special rules. Java's mapping beyond ASCII is not modelled, nor the Turkish and Azerbaijani default locales, where `toUpperCase` maps 'i' to 'İ' and `toLowerCase` maps 'I' to 'ı'.
- Config.EnvironmentKey: under a Turkish default locale "app.window.width" upper-cases to "APP.WİNDOW.WİDTH", so Java reads a different environment variable; the model gives "APP_WINDOW_WIDTH" whatever the locale.
- Controller.Suggestions: the case-insensitive match uses the ASCII-only case mapping above, so under a Turkish default locale the model can match an entry Java does not, or miss one it does.
- JavaText.ParseInt: only ASCII digits are read. `Integer.parseInt` also reads any other Unicode decimal digit through `Character.digit` (for instance "١٢" gives 12); the table of those digits depends on the Java version and is not modelled.
- TileServer.RequestedTile: reads its three numbers with JavaText.ParseInt, so a path whose numerals use non-ASCII decimal digits gets 404 in the model where Java would serve the tile.
- Config.AppConfig.GetIntProperty: reads the value with JavaText.ParseInt, so a property written in non-ASCII decimal digits gives the default in the model where Java would give its value.
- JavaText.AsciiBytes: `String.getBytes` is modelled as the low byte of each character. This matches the platform encoding only for ASCII text, which is all the 404 body contains.
- Cache.FormatThousandths: the decimal separator of the default locale is a parameter. Locale-specific digits are not modelled.
- TileServer.LocalTileServer.Stop: an exception thrown while stopping, and the shutdown of the server's thread pool, are not modelled.
- TileServer.Respond: the stream-level failure of writing a partial body is not modelled, nor the chunked encoding HttpServer uses for a zero-length tile.
- OfflineTiles.TileCache.RunBatch: an exception in the middle of a job is not modelled; the flag still comes down at the end. The `totalTilesToDownload` counter is never updated by the job and is left out.
- `DatabaseService`, `IpGeolocationService`, `RouteService`, `MapService`, `RouteInfo`, `MainApp` and `Launcher` are not part of this model. Nor is the `AppConfig` singleton accessor.
