/**
 * The pharmacy loading protocol of the main window
 * (`controllers/MainViewController.java`): a load, the retry timer that re-issues
 * it while nothing has arrived, and the completions of the background fetches;
 * and two pure pieces of the same screen, the display limit and the search
 * suggestions.
 *
 * Threads are not modelled. Each handler runs at once and to its end, together
 * with the work it hands to the UI thread; a retry timer firing and a fetch
 * completing are events, methods called in whatever order they happen. What a
 * fetch returns, the clock and the distance between two points are inputs.
 */
module Controller {
  import opened Wrappers
  import opened JavaText
  import opened PharmacyModel
  import opened LocationModel
  import opened Cache
  import opened Connectivity
  import Api

  /** Two retries after the first attempt: three attempts in all. */
  const MaxRetries: int := 2

  /** The search suggestions shown at most. */
  const MaxSuggestions: nat := 5

  // ---------------------------------------------------------------------------
  // The display limit
  // ---------------------------------------------------------------------------

  /** The list `displayPharmacies` shows: above the limit, the `limit` nearest in order of distance. */
  function DisplayList(ps: seq<PharmacyInfo>, limit: nat): seq<PharmacyInfo> {
    if |ps| > limit then Api.Truncate(Api.SortByDistance(ps), limit) else ps
  }

  /**
   * The display shows `min(n, limit)` pharmacies: the list itself when it fits;
   * otherwise the nearest, nearest first, none left out nearer than one shown.
   */
  lemma DisplayListFacts(ps: seq<PharmacyInfo>, limit: nat)
    ensures |DisplayList(ps, limit)| == if |ps| > limit then limit else |ps|
    ensures |ps| <= limit ==> DisplayList(ps, limit) == ps
    ensures |ps| > limit ==> Api.SortedBy(DisplayList(ps, limit), Api.Distance)
    ensures multiset(DisplayList(ps, limit)) <= multiset(ps)
    ensures forall p, q :: p in ps && p !in DisplayList(ps, limit) && q in DisplayList(ps, limit) ==> q.distance <= p.distance
  {
    if |ps| > limit {
      Api.NearestFirst(ps, limit);
    }
  }

  // ---------------------------------------------------------------------------
  // Search suggestions
  // ---------------------------------------------------------------------------

  /** The entries that start with `text`, ignoring case, in order. */
  function Matching(entries: seq<string>, text: string): (r: seq<string>)
    ensures forall s :: s in r <==> s in entries && StartsWithIgnoreCase(s, text)
  {
    if |entries| == 0 then []
    else (if StartsWithIgnoreCase(entries[0], text) then [entries[0]] else []) + Matching(entries[1..], text)
  }

  /** `Stream.distinct`: the first occurrence of each entry, in order. */
  function Distinct(s: seq<string>): (r: seq<string>)
    ensures forall x :: x in r <==> x in s
    ensures forall i, j :: 0 <= i < j < |r| ==> r[i] != r[j]
  {
    if |s| == 0 then []
    else
      var front, last := s[..|s| - 1], s[|s| - 1];
      assert s == front + [last];
      var d := Distinct(front);
      if last in d then d else d + [last]
  }

  /** `Stream.limit(n)`. */
  function Limit(s: seq<string>, n: nat): (r: seq<string>)
    ensures r <= s && |r| == if |s| <= n then |s| else n
  {
    if |s| <= n then s else s[..n]
  }

  /**
   * The autocomplete list for the search text, over the search history listed in
   * its iteration order: nothing for a null text or one shorter than 2 UTF-16 units; otherwise
   * at most 5 different entries, each starting with the text ignoring case, and
   * every such entry whenever fewer than 5 are shown.
   */
  function Suggestions(text: Option<string>, entries: seq<string>): (r: seq<string>)
    ensures text.None? || Utf16Length(text.value) < 2 ==> r == []
    ensures |r| <= MaxSuggestions
    ensures forall s :: s in r ==> text.Some? && s in entries && StartsWithIgnoreCase(s, text.value)
    ensures forall i, j :: 0 <= i < j < |r| ==> r[i] != r[j]
    ensures text.Some? && Utf16Length(text.value) >= 2 && |r| < MaxSuggestions ==>
              forall s :: s in entries && StartsWithIgnoreCase(s, text.value) ==> s in r
  {
    if text.None? || Utf16Length(text.value) < 2 then []
    else
      var d := Distinct(Matching(entries, text.value));
      var r := Limit(d, MaxSuggestions);
      assert forall i :: 0 <= i < |r| ==> r[i] == d[i];
      r
  }

  // ---------------------------------------------------------------------------
  // The load protocol, on values
  // ---------------------------------------------------------------------------

  /**
   * The fields the load handlers change: the retry counter, the
   * `isLoadingPharmacies` flag, whether the loading indicator is shown, the
   * retry timers not yet fired or cancelled, the list's items, the fetches not
   * yet completed, the search history, and the fetches issued since the last load.
   */
  datatype Ui = Ui(retryCount: int, loading: bool, spinner: bool, pendingTimers: nat, items: seq<PharmacyInfo>,
                   inFlight: nat, history: set<string>, fetches: nat)

  /**
   * The protocol's invariant: the counter stays within [0, 2]; at most one timer
   * is armed, and only while a retry is left; and no more fetches have been
   * issued since the load than the attempts counted.
   */
  predicate ValidUi(u: Ui) {
    0 <= u.retryCount <= MaxRetries
    && u.pendingTimers <= 1
    && (u.pendingTimers > 0 ==> u.retryCount < MaxRetries)
    && u.fetches <= u.retryCount + 1
  }

  /** `calculateDistanceFrom(from)` on each pharmacy of the list. */
  function Measured(ps: seq<PharmacyInfo>, from: LocationInfo, distance: (int, int, int, int) -> int): (r: seq<PharmacyInfo>)
    ensures |r| == |ps|
    ensures forall i :: 0 <= i < |ps| ==> r[i] == ps[i].(distance := distance(from.latitude, from.longitude, ps[i].latitude, ps[i].longitude))
  {
    if |ps| == 0 then []
    else
      var p := ps[|ps| - 1];
      Measured(ps[..|ps| - 1], from, distance) + [p.(distance := distance(from.latitude, from.longitude, p.latitude, p.longitude))]
  }

  /** The names each shown pharmacy adds to the search history. */
  function Names(ps: seq<PharmacyInfo>): set<string> {
    set i | 0 <= i < |ps| :: ps[i].DisplayName()
  }

  /** The loop of `displayPharmacies` that adds the name of each shown pharmacy to the search history. */
  method AddNames(history: set<string>, shown: seq<PharmacyInfo>) returns (r: set<string>)
    ensures r == history + Names(shown)
  {
    r := history;
    var i := 0;
    while i < |shown|
      invariant 0 <= i <= |shown|
      invariant r == history + Names(shown[..i])
    {
      assert Names(shown[..i + 1]) == Names(shown[..i]) + {shown[i].DisplayName()} by {
        assert forall j :: 0 <= j < i ==> shown[..i + 1][j] == shown[..i][j];
      }
      r := r + {shown[i].DisplayName()};
      i := i + 1;
    }
    assert shown[..i] == shown;
  }

  /** `displayPharmacies`: the timer cancelled, loading over, the limited list shown and its names remembered. */
  function Displayed(u: Ui, list: seq<PharmacyInfo>, limit: nat): Ui {
    var shown := DisplayList(list, limit);
    u.(pendingTimers := 0, loading := false, items := shown, history := u.history + Names(shown), spinner := false)
  }

  /** `scheduleRetryIfNeeded`: with no retry left, loading ends; otherwise a timer is armed. */
  function Scheduled(u: Ui): Ui {
    if u.retryCount >= MaxRetries then u.(loading := false, spinner := false)
    else u.(pendingTimers := u.pendingTimers + 1)
  }

  /** `fetchAndUpdateCache`: one more fetch in flight. */
  function Issued(u: Ui): Ui {
    u.(inFlight := u.inFlight + 1, fetches := u.fetches + 1)
  }

  /**
   * `loadNearbyPharmaciesInternal`, given the connectivity reading and what the
   * cache holds for the user's position. Offline, the cached list is shown when
   * there is one, and nothing is fetched or armed. Online, a cached list is shown
   * and refreshed by one fetch; without one, a fetch is issued and a retry scheduled.
   */
  function Internal(u: Ui, offline: bool, cached: Option<seq<PharmacyInfo>>, from: LocationInfo,
                    distance: (int, int, int, int) -> int, limit: nat): Ui
  {
    var hit := cached.Some? && cached.value != [];
    if offline then
      if hit then Displayed(u, Measured(cached.value, from, distance), limit) else u.(loading := false, spinner := false)
    else if hit then Issued(Displayed(u, Measured(cached.value, from, distance), limit))
    else Scheduled(Issued(u))
  }

  /** The start of `loadNearbyPharmacies`: the timer cancelled, loading on, the list cleared, the counter reset. */
  function Begun(u: Ui): Ui {
    u.(pendingTimers := 0, spinner := true, loading := true, items := [], retryCount := 0, fetches := 0)
  }

  /** A timer fires: it is no longer pending, and it retries only while loading with nothing shown. */
  function Fired(u: Ui, offline: bool, cached: Option<seq<PharmacyInfo>>, from: LocationInfo,
                 distance: (int, int, int, int) -> int, limit: nat): Ui
    requires u.pendingTimers > 0
  {
    var v := u.(pendingTimers := u.pendingTimers - 1);
    if v.loading && v.items == [] then Internal(v.(retryCount := v.retryCount + 1), offline, cached, from, distance, limit)
    else v
  }

  /**
   * A fetch completes with the list it got, or `None` when its task threw. The
   * error only hides the loading indicator. An empty list keeps loading while a
   * retry is left, and otherwise ends it and cancels the timer. A list is shown.
   */
  function Completed(u: Ui, result: Option<seq<PharmacyInfo>>, from: LocationInfo,
                     distance: (int, int, int, int) -> int, limit: nat): Ui
    requires u.inFlight > 0
  {
    var v := u.(inFlight := u.inFlight - 1);
    match result
    case None => v.(spinner := false)
    case Some(list) =>
      if list == [] then
        if v.retryCount < MaxRetries then v else v.(loading := false, spinner := false, pendingTimers := 0)
      else Displayed(v, Measured(list, from, distance), limit)
  }

  // The properties of each handler

  /** Offline, nothing is fetched and no timer is armed, and loading ends; a cached list is shown. */
  lemma OfflineLoad(u: Ui, cached: Option<seq<PharmacyInfo>>, from: LocationInfo, distance: (int, int, int, int) -> int, limit: nat)
    ensures var w := Internal(u, true, cached, from, distance, limit);
            w.inFlight == u.inFlight && w.fetches == u.fetches && w.pendingTimers <= u.pendingTimers && !w.loading
            && w.retryCount == u.retryCount
    ensures cached.Some? && cached.value != [] ==>
              Internal(u, true, cached, from, distance, limit).items == DisplayList(Measured(cached.value, from, distance), limit)
    ensures cached.None? || cached.value == [] ==> Internal(u, true, cached, from, distance, limit).items == u.items
  {
  }

  /** Online with a cached list: it is shown, loading ends, one refresh fetch goes out and no timer is left. */
  lemma OnlineCacheHit(u: Ui, list: seq<PharmacyInfo>, from: LocationInfo, distance: (int, int, int, int) -> int, limit: nat)
    requires list != []
    ensures var w := Internal(u, false, Some(list), from, distance, limit);
            w.items == DisplayList(Measured(list, from, distance), limit) && !w.loading && w.pendingTimers == 0
            && w.inFlight == u.inFlight + 1 && w.fetches == u.fetches + 1 && w.retryCount == u.retryCount
  {
  }

  /** Online without a cached list: one fetch goes out, and a timer is armed exactly while a retry is left. */
  lemma OnlineCacheMiss(u: Ui, cached: Option<seq<PharmacyInfo>>, from: LocationInfo, distance: (int, int, int, int) -> int, limit: nat)
    requires cached.None? || cached.value == []
    ensures var w := Internal(u, false, cached, from, distance, limit);
            w.inFlight == u.inFlight + 1 && w.fetches == u.fetches + 1 && w.items == u.items && w.retryCount == u.retryCount
            && (u.retryCount < MaxRetries ==> w.pendingTimers == u.pendingTimers + 1 && w.loading == u.loading)
            && (u.retryCount >= MaxRetries ==> w.pendingTimers == u.pendingTimers && !w.loading)
  {
  }

  /** A timer raises the counter and reloads only while loading with an empty list; otherwise it does nothing more. */
  lemma TimerRetriesOnlyWhileEmpty(u: Ui, offline: bool, cached: Option<seq<PharmacyInfo>>, from: LocationInfo,
                                   distance: (int, int, int, int) -> int, limit: nat)
    requires u.pendingTimers > 0
    ensures !(u.loading && u.items == []) ==> Fired(u, offline, cached, from, distance, limit) == u.(pendingTimers := u.pendingTimers - 1)
    ensures u.loading && u.items == [] ==> Fired(u, offline, cached, from, distance, limit).retryCount == u.retryCount + 1
  {
  }

  /** An empty result keeps loading while a retry is left; at the last attempt it ends loading and cancels the timer. */
  lemma EmptyResult(u: Ui, from: LocationInfo, distance: (int, int, int, int) -> int, limit: nat)
    requires u.inFlight > 0
    ensures var w := Completed(u, Some([]), from, distance, limit);
            w.items == u.items && w.retryCount == u.retryCount && w.inFlight == u.inFlight - 1
            && (u.retryCount < MaxRetries ==> w.loading == u.loading && w.pendingTimers == u.pendingTimers)
            && (u.retryCount >= MaxRetries ==> !w.loading && w.pendingTimers == 0)
  {
  }

  // The invariant

  lemma InternalKeepsValid(u: Ui, offline: bool, cached: Option<seq<PharmacyInfo>>, from: LocationInfo,
                           distance: (int, int, int, int) -> int, limit: nat)
    requires ValidUi(u) && u.fetches <= u.retryCount && u.pendingTimers == 0
    ensures ValidUi(Internal(u, offline, cached, from, distance, limit))
  {
  }

  /** A load starts a fresh count, so the invariant holds after it whatever came before. */
  lemma LoadEstablishesValid(u: Ui, offline: bool, cached: Option<seq<PharmacyInfo>>, from: LocationInfo,
                             distance: (int, int, int, int) -> int, limit: nat)
    ensures ValidUi(Internal(Begun(u), offline, cached, from, distance, limit))
  {
    InternalKeepsValid(Begun(u), offline, cached, from, distance, limit);
  }

  lemma FiredKeepsValid(u: Ui, offline: bool, cached: Option<seq<PharmacyInfo>>, from: LocationInfo,
                        distance: (int, int, int, int) -> int, limit: nat)
    requires ValidUi(u) && u.pendingTimers > 0
    ensures ValidUi(Fired(u, offline, cached, from, distance, limit))
  {
    var v := u.(pendingTimers := u.pendingTimers - 1);
    if v.loading && v.items == [] {
      InternalKeepsValid(v.(retryCount := v.retryCount + 1), offline, cached, from, distance, limit);
    }
  }

  lemma CompletedKeepsValid(u: Ui, result: Option<seq<PharmacyInfo>>, from: LocationInfo,
                            distance: (int, int, int, int) -> int, limit: nat)
    requires ValidUi(u) && u.inFlight > 0
    ensures ValidUi(Completed(u, result, from, distance, limit))
  {
  }

  // Runs of events

  /** What can happen: a load, a retry timer firing, a fetch completing. */
  datatype Event =
    | Load(offline: bool, cached: Option<seq<PharmacyInfo>>)
    | Timer(offline: bool, cached: Option<seq<PharmacyInfo>>)
    | Fetch(result: Option<seq<PharmacyInfo>>)

  /** One event; a timer with none armed, or a completion with no fetch in flight, cannot happen and changes nothing. */
  function Apply(u: Ui, e: Event, from: LocationInfo, distance: (int, int, int, int) -> int, limit: nat): Ui {
    match e
    case Load(offline, cached) => Internal(Begun(u), offline, cached, from, distance, limit)
    case Timer(offline, cached) => if u.pendingTimers > 0 then Fired(u, offline, cached, from, distance, limit) else u
    case Fetch(result) => if u.inFlight > 0 then Completed(u, result, from, distance, limit) else u
  }

  function Run(u: Ui, es: seq<Event>, from: LocationInfo, distance: (int, int, int, int) -> int, limit: nat): Ui {
    if |es| == 0 then u else Apply(Run(u, es[..|es| - 1], from, distance, limit), es[|es| - 1], from, distance, limit)
  }

  /**
   * Whatever the events and whatever the fetches return, the invariant holds
   * throughout; so no load ever issues more than MAX_RETRIES + 1 = 3 fetches.
   */
  lemma {:induction false} RunKeepsValid(u: Ui, es: seq<Event>, from: LocationInfo, distance: (int, int, int, int) -> int, limit: nat)
    requires ValidUi(u)
    ensures ValidUi(Run(u, es, from, distance, limit))
    ensures Run(u, es, from, distance, limit).fetches <= MaxRetries + 1
    decreases |es|
  {
    if |es| > 0 {
      var before := Run(u, es[..|es| - 1], from, distance, limit);
      RunKeepsValid(u, es[..|es| - 1], from, distance, limit);
      match es[|es| - 1]
      case Load(offline, cached) => LoadEstablishesValid(before, offline, cached, from, distance, limit);
      case Timer(offline, cached) =>
        if before.pendingTimers > 0 {
          FiredKeepsValid(before, offline, cached, from, distance, limit);
        }
      case Fetch(result) =>
        if before.inFlight > 0 {
          CompletedKeepsValid(before, result, from, distance, limit);
        }
    }
  }

  /**
   * The bound is reached: online, with nothing cached, a load and the two timers
   * it arms issue exactly three fetches, after which loading is over and no
   * timer is left to fire.
   */
  lemma ThreeAttempts(u: Ui, from: LocationInfo, distance: (int, int, int, int) -> int, limit: nat)
    ensures var w := Run(u, [Load(false, None), Timer(false, None), Timer(false, None)], from, distance, limit);
            w.fetches == MaxRetries + 1 && w.retryCount == MaxRetries && !w.loading && w.pendingTimers == 0
  {
    var es := [Load(false, None), Timer(false, None), Timer(false, None)];
    var w1 := Internal(Begun(u), false, None, from, distance, limit);
    assert w1.fetches == 1 && w1.retryCount == 0 && w1.pendingTimers == 1 && w1.loading && w1.items == [];
    assert Run(u, es[..1], from, distance, limit) == w1 by {
      assert es[..1][..0] == [];
    }
    var w2 := Fired(w1, false, None, from, distance, limit);
    assert w2.fetches == 2 && w2.retryCount == 1 && w2.pendingTimers == 1 && w2.loading && w2.items == [];
    assert Run(u, es[..2], from, distance, limit) == w2 by {
      assert es[..2][..1] == es[..1];
    }
    var w3 := Fired(w2, false, None, from, distance, limit);
    assert w3.fetches == 3 && w3.retryCount == 2 && w3.pendingTimers == 0 && !w3.loading;
    assert Run(u, es, from, distance, limit) == w3 by {
      assert es[..|es| - 1] == es[..2];
    }
  }

  // ---------------------------------------------------------------------------
  // The controller
  // ---------------------------------------------------------------------------

  /** The load-related fields of `MainViewController` and the handlers that change them. */
  class MainViewController {
    const cache: CacheStore
    const offlineManager: OfflineManager
    /** `Location.calculateDistance` from the first point to the second. */
    const distance: (int, int, int, int) -> int
    var userLocation: Option<LocationInfo>
    var pharmacyDisplayLimit: nat
    var pharmacyLoadRetryCount: int
    var isLoadingPharmacies: bool
    /** Whether `setLoading` last showed the loading indicator. */
    var loadingShown: bool
    /** Retry tasks scheduled and neither run nor cancelled. */
    var pendingRetryTasks: nat
    /** `pharmacyListView.getItems()`. */
    var items: seq<PharmacyInfo>
    var searchHistory: set<string>
    /** Fetch tasks submitted and not yet finished. */
    var fetchesInFlight: nat
    ghost var fetchesThisLoad: nat

    ghost function State(): Ui
      reads this
    {
      Ui(pharmacyLoadRetryCount, isLoadingPharmacies, loadingShown, pendingRetryTasks, items, fetchesInFlight,
         searchHistory, fetchesThisLoad)
    }

    /** The protocol's invariant, and a location whenever a timer or a fetch is outstanding. */
    ghost predicate Valid()
      reads this
    {
      ValidUi(State()) && (pendingRetryTasks > 0 || fetchesInFlight > 0 ==> userLocation.Some?)
    }

    /** The cache key for a location. */
    function KeyOf(location: LocationInfo): string {
      LocationKey(location.latitude, location.longitude, cache.decimalSeparator)
    }

    constructor (cache: CacheStore, offlineManager: OfflineManager, distance: (int, int, int, int) -> int,
                 userLocation: Option<LocationInfo>)
      ensures this.cache == cache && this.offlineManager == offlineManager && this.distance == distance
      ensures this.userLocation == userLocation && pharmacyDisplayLimit == 50
      ensures State() == Ui(0, false, false, 0, [], 0, {}, 0)
      ensures Valid()
    {
      this.cache := cache;
      this.offlineManager := offlineManager;
      this.distance := distance;
      this.userLocation := userLocation;
      pharmacyDisplayLimit := 50;
      pharmacyLoadRetryCount := 0;
      isLoadingPharmacies, loadingShown := false, false;
      pendingRetryTasks := 0;
      items := [];
      searchHistory := {};
      fetchesInFlight := 0;
      fetchesThisLoad := 0;
    }

    /** The assignment of `userLocation` that the location handlers make. */
    method MoveTo(location: LocationInfo)
      requires Valid()
      modifies this
      ensures userLocation == Some(location) && State() == old(State()) && pharmacyDisplayLimit == old(pharmacyDisplayLimit)
      ensures Valid()
    {
      userLocation := Some(location);
    }

    /** `displayPharmacies`. */
    method DisplayPharmacies(list: seq<PharmacyInfo>)
      modifies this
      ensures State() == Displayed(old(State()), list, pharmacyDisplayLimit)
      ensures userLocation == old(userLocation) && pharmacyDisplayLimit == old(pharmacyDisplayLimit)
    {
      pendingRetryTasks := 0;
      isLoadingPharmacies := false;
      var shown := DisplayList(list, pharmacyDisplayLimit);
      items := shown;
      searchHistory := AddNames(searchHistory, shown);
      loadingShown := false;
    }

    /** `scheduleRetryIfNeeded`. */
    method ScheduleRetryIfNeeded()
      modifies this
      ensures State() == Scheduled(old(State()))
      ensures userLocation == old(userLocation) && pharmacyDisplayLimit == old(pharmacyDisplayLimit)
    {
      if pharmacyLoadRetryCount >= MaxRetries {
        isLoadingPharmacies := false;
        loadingShown := false;
        return;
      }
      pendingRetryTasks := pendingRetryTasks + 1;
    }

    /** `fetchAndUpdateCache`: the fetch task is submitted. */
    method FetchAndUpdateCache()
      modifies this
      ensures State() == Issued(old(State()))
      ensures userLocation == old(userLocation) && pharmacyDisplayLimit == old(pharmacyDisplayLimit)
    {
      fetchesInFlight := fetchesInFlight + 1;
      fetchesThisLoad := fetchesThisLoad + 1;
    }

    /** `loadNearbyPharmaciesInternal`: the connectivity reading, then the cache lookup for the user's position. */
    method LoadNearbyPharmaciesInternal(now: int)
      requires userLocation.Some?
      modifies this, cache
      ensures userLocation == old(userLocation) && pharmacyDisplayLimit == old(pharmacyDisplayLimit)
      ensures State() == Internal(old(State()), offlineManager.IsOffline(),
                                  Lookup(old(cache.pharmacyCache), KeyOf(userLocation.value), CacheExpiration, now),
                                  userLocation.value, distance, pharmacyDisplayLimit)
      ensures cache.pharmacyCache == AfterLookup(old(cache.pharmacyCache), KeyOf(userLocation.value), CacheExpiration, now)
      ensures cache.locationCache == old(cache.locationCache) && cache.mapStateCache == old(cache.mapStateCache)
    {
      var location := userLocation.value;
      var cached := cache.GetCachedPharmacies(location.latitude, location.longitude, now);
      var hit := cached.Some? && cached.value != [];
      if offlineManager.IsOffline() {
        if hit {
          DisplayPharmacies(Measured(cached.value, location, distance));
        } else {
          isLoadingPharmacies := false;
          loadingShown := false;
        }
        return;
      }
      if hit {
        DisplayPharmacies(Measured(cached.value, location, distance));
        FetchAndUpdateCache();
      } else {
        FetchAndUpdateCache();
        ScheduleRetryIfNeeded();
      }
    }

    /** The start of `loadNearbyPharmacies`, before the internal load. */
    method BeginLoad()
      modifies this
      ensures userLocation == old(userLocation) && pharmacyDisplayLimit == old(pharmacyDisplayLimit)
      ensures State() == Begun(old(State()))
    {
      pendingRetryTasks := 0;
      loadingShown := true;
      isLoadingPharmacies := true;
      items := [];
      pharmacyLoadRetryCount := 0;
      fetchesThisLoad := 0;
    }

    /**
     * `loadNearbyPharmacies`: nothing without a location; otherwise the pending
     * timer is cancelled, loading starts with an empty list and the counter at 0,
     * and the internal load runs.
     */
    method LoadNearbyPharmacies(now: int)
      requires Valid()
      modifies this, cache
      ensures userLocation == old(userLocation) && pharmacyDisplayLimit == old(pharmacyDisplayLimit)
      ensures Valid()
      ensures old(userLocation).None? ==> State() == old(State()) && cache.pharmacyCache == old(cache.pharmacyCache)
      ensures old(userLocation).Some? ==>
                State() == Internal(Begun(old(State())), offlineManager.IsOffline(),
                                    Lookup(old(cache.pharmacyCache), KeyOf(userLocation.value), CacheExpiration, now),
                                    userLocation.value, distance, pharmacyDisplayLimit)
      ensures cache.locationCache == old(cache.locationCache) && cache.mapStateCache == old(cache.mapStateCache)
    {
      if userLocation.None? {
        return;
      }
      BeginLoad();
      ghost var begun := State();
      ghost var lookup := Lookup(cache.pharmacyCache, KeyOf(userLocation.value), CacheExpiration, now);
      LoadNearbyPharmaciesInternal(now);
      assert State() == Internal(begun, offlineManager.IsOffline(), lookup, userLocation.value, distance, pharmacyDisplayLimit);
      InternalKeepsValid(begun, offlineManager.IsOffline(), lookup, userLocation.value, distance, pharmacyDisplayLimit);
    }

    /** The retry task's reload: the counter goes up and the internal load runs. */
    method Retry(now: int)
      requires userLocation.Some?
      modifies this, cache
      ensures userLocation == old(userLocation) && pharmacyDisplayLimit == old(pharmacyDisplayLimit)
      ensures State() == Internal(old(State()).(retryCount := old(pharmacyLoadRetryCount) + 1), offlineManager.IsOffline(),
                                  Lookup(old(cache.pharmacyCache), KeyOf(userLocation.value), CacheExpiration, now),
                                  userLocation.value, distance, pharmacyDisplayLimit)
      ensures cache.pharmacyCache == AfterLookup(old(cache.pharmacyCache), KeyOf(userLocation.value), CacheExpiration, now)
      ensures cache.locationCache == old(cache.locationCache) && cache.mapStateCache == old(cache.mapStateCache)
    {
      pharmacyLoadRetryCount := pharmacyLoadRetryCount + 1;
      LoadNearbyPharmaciesInternal(now);
    }

    /** The retry task runs: it retries only while loading with an empty list. */
    method RetryTimerFires(now: int)
      requires Valid() && pendingRetryTasks > 0
      modifies this, cache
      ensures userLocation == old(userLocation) && pharmacyDisplayLimit == old(pharmacyDisplayLimit)
      ensures Valid()
      ensures State() == Fired(old(State()), offlineManager.IsOffline(),
                               Lookup(old(cache.pharmacyCache), KeyOf(userLocation.value), CacheExpiration, now),
                               userLocation.value, distance, pharmacyDisplayLimit)
      ensures old(isLoadingPharmacies && items == []) ==>
                cache.pharmacyCache == AfterLookup(old(cache.pharmacyCache), KeyOf(userLocation.value), CacheExpiration, now)
      ensures !old(isLoadingPharmacies && items == []) ==> cache.pharmacyCache == old(cache.pharmacyCache)
      ensures cache.locationCache == old(cache.locationCache) && cache.mapStateCache == old(cache.mapStateCache)
    {
      ghost var u := State();
      ghost var lookup := Lookup(cache.pharmacyCache, KeyOf(userLocation.value), CacheExpiration, now);
      pendingRetryTasks := pendingRetryTasks - 1;
      ghost var v := u.(pendingTimers := u.pendingTimers - 1);
      assert State() == v;
      if isLoadingPharmacies && items == [] {
        Retry(now);
        assert State() == Internal(v.(retryCount := v.retryCount + 1), offlineManager.IsOffline(), lookup,
                                   userLocation.value, distance, pharmacyDisplayLimit);
      }
      assert State() == Fired(u, offlineManager.IsOffline(), lookup, userLocation.value, distance, pharmacyDisplayLimit);
      FiredKeepsValid(u, offlineManager.IsOffline(), lookup, userLocation.value, distance, pharmacyDisplayLimit);
    }

    /** A non-empty fetched list: measured from the user's position, cached with that position, and shown. */
    method StoreAndDisplay(list: seq<PharmacyInfo>, now: int)
      requires userLocation.Some?
      modifies this, cache
      ensures userLocation == old(userLocation) && pharmacyDisplayLimit == old(pharmacyDisplayLimit)
      ensures State() == Displayed(old(State()), Measured(list, userLocation.value, distance), pharmacyDisplayLimit)
      ensures cache.pharmacyCache == old(cache.pharmacyCache)[KeyOf(userLocation.value) :=
                                                               CacheEntry(Measured(list, userLocation.value, distance), now)]
      ensures cache.locationCache == old(cache.locationCache)[UserLocationKey := CacheEntry(userLocation.value, now)]
      ensures cache.mapStateCache == old(cache.mapStateCache)
    {
      var location := userLocation.value;
      var measured := Measured(list, location, distance);
      cache.CachePharmacies(location.latitude, location.longitude, measured, now);
      cache.CacheUserLocation(location, now);
      DisplayPharmacies(measured);
    }

    /**
     * A fetch task finishes with the list `getNearbyPharmacies` returned for the
     * user's position at that moment, or `None` when the task threw. A list with
     * pharmacies is measured, stored in the cache under that position together
     * with the position itself, and shown.
     */
    method FetchCompletes(result: Option<seq<PharmacyInfo>>, now: int)
      requires Valid() && fetchesInFlight > 0
      modifies this, cache
      ensures userLocation == old(userLocation) && pharmacyDisplayLimit == old(pharmacyDisplayLimit)
      ensures Valid()
      ensures State() == Completed(old(State()), result, userLocation.value, distance, pharmacyDisplayLimit)
      ensures result.Some? && result.value != [] ==>
                cache.pharmacyCache == old(cache.pharmacyCache)[KeyOf(userLocation.value) :=
                                                                 CacheEntry(Measured(result.value, userLocation.value, distance), now)]
                && cache.locationCache == old(cache.locationCache)[UserLocationKey := CacheEntry(userLocation.value, now)]
      ensures !(result.Some? && result.value != []) ==>
                cache.pharmacyCache == old(cache.pharmacyCache) && cache.locationCache == old(cache.locationCache)
      ensures cache.mapStateCache == old(cache.mapStateCache)
    {
      ghost var u := State();
      fetchesInFlight := fetchesInFlight - 1;
      ghost var v := u.(inFlight := u.inFlight - 1);
      assert State() == v;
      if result.None? {
        loadingShown := false;
        assert State() == v.(spinner := false);
      } else if result.value == [] {
        if pharmacyLoadRetryCount >= MaxRetries {
          isLoadingPharmacies := false;
          loadingShown := false;
          pendingRetryTasks := 0;
          assert State() == v.(loading := false, spinner := false, pendingTimers := 0);
        }
      } else {
        StoreAndDisplay(result.value, now);
      }
      assert State() == Completed(u, result, userLocation.value, distance, pharmacyDisplayLimit);
      CompletedKeepsValid(u, result, userLocation.value, distance, pharmacyDisplayLimit);
    }
  }
}
