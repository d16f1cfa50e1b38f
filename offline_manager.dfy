/**
 * Connectivity detection (`services/OfflineManager.java`): a check probes an
 * ordered list of hosts, stopping at the first that answers; the manager is
 * online when one does. Listeners hear about a change of reading, never about
 * a repeated one. Which hosts answer during a check is an input (`reach`), as
 * is the set of listeners whose callback throws; the callbacks themselves are
 * recorded in the `deliveries` log and the readings each change moved to in
 * `transitions`.
 */
module Connectivity {
  /** The hosts probed, in order. */
  const CheckHosts: seq<string> := ["8.8.8.8", "1.1.1.1", "208.67.222.222"]

  /** A registered listener, compared by identity as `CopyOnWriteArrayList.remove` does. */
  type ListenerId = int

  /** One callback: `onOnline` when `online`, else `onOffline`; `threw` when the listener raised. */
  datatype Delivery = Delivery(listener: ListenerId, online: bool, threw: bool)

  /** Some host answers. */
  predicate AnyReachable(hosts: seq<string>, reach: string -> bool) {
    exists i :: 0 <= i < |hosts| && reach(hosts[i])
  }

  /** How many hosts one check probes: up to and including the first that answers, else all of them. */
  function ProbesMade(hosts: seq<string>, reach: string -> bool): (n: nat)
    ensures n <= |hosts|
    ensures AnyReachable(hosts, reach) ==>
              n >= 1 && reach(hosts[n - 1]) && forall i :: 0 <= i < n - 1 ==> !reach(hosts[i])
    ensures !AnyReachable(hosts, reach) ==> n == |hosts|
  {
    if hosts == [] then 0
    else if reach(hosts[0]) then 1
    else
      var n := 1 + ProbesMade(hosts[1..], reach);
      assert AnyReachable(hosts, reach) ==> AnyReachable(hosts[1..], reach) by {
        if AnyReachable(hosts, reach) {
          var i :| 0 <= i < |hosts| && reach(hosts[i]);
          assert hosts[1..][i - 1] == hosts[i];
        }
      }
      assert forall i :: 1 <= i < |hosts| ==> hosts[1..][i - 1] == hosts[i];
      n
  }

  /** `notifyOnline` / `notifyOffline`: one callback per listener, in registration order, whatever the others did. */
  function Deliveries(listeners: seq<ListenerId>, online: bool, failing: set<ListenerId>): (r: seq<Delivery>)
    ensures |r| == |listeners|
    ensures forall i :: 0 <= i < |r| ==> r[i] == Delivery(listeners[i], online, listeners[i] in failing)
  {
    if listeners == [] then []
    else
      var last := listeners[|listeners| - 1];
      Deliveries(listeners[..|listeners| - 1], online, failing) + [Delivery(last, online, last in failing)]
  }

  /** The reading a series of checks ends on, starting from `start`. */
  function LastReading(start: bool, readings: seq<bool>): bool {
    if readings == [] then start else readings[|readings| - 1]
  }

  /** The readings a series of checks changes to: each one that differs from the reading before it. */
  function Transitions(start: bool, readings: seq<bool>): seq<bool>
    decreases |readings|
  {
    if readings == [] then []
    else
      var earlier := readings[..|readings| - 1];
      var x := readings[|readings| - 1];
      Transitions(start, earlier) + (if x != LastReading(start, earlier) then [x] else [])
  }

  /** The callbacks a series of changes makes, for a fixed list of listeners. */
  function DeliveriesFor(listeners: seq<ListenerId>, changes: seq<bool>, failing: set<ListenerId>): seq<Delivery> {
    if changes == [] then []
    else
      DeliveriesFor(listeners, changes[..|changes| - 1], failing)
      + Deliveries(listeners, changes[|changes| - 1], failing)
  }

  /** One more reading: it is the new last reading, and a change when it differs from the one before. */
  lemma TransitionsSnoc(start: bool, readings: seq<bool>, x: bool)
    ensures LastReading(start, readings + [x]) == x
    ensures Transitions(start, readings + [x])
            == Transitions(start, readings) + (if x != LastReading(start, readings) then [x] else [])
  {
    assert (readings + [x])[..|readings|] == readings;
  }

  lemma DeliveriesForSnoc(listeners: seq<ListenerId>, changes: seq<bool>, x: bool, failing: set<ListenerId>)
    ensures DeliveriesFor(listeners, changes + [x], failing) == DeliveriesFor(listeners, changes, failing) + Deliveries(listeners, x, failing)
    ensures DeliveriesFor(listeners, changes + [], failing) == DeliveriesFor(listeners, changes, failing)
  {
    assert (changes + [x])[..|changes|] == changes;
    assert changes + [] == changes;
  }

  lemma Associative<T>(a: seq<T>, b: seq<T>, c: seq<T>)
    ensures (a + b) + c == a + (b + c)
  {
  }

  /** The last change, if any, is to the current reading; with no change the reading is still the start. */
  lemma {:induction false} TransitionsEndAtLastReading(start: bool, readings: seq<bool>)
    ensures Transitions(start, readings) == [] ==> LastReading(start, readings) == start
    ensures Transitions(start, readings) != [] ==>
              Transitions(start, readings)[|Transitions(start, readings)| - 1] == LastReading(start, readings)
    decreases |readings|
  {
    if readings != [] {
      TransitionsEndAtLastReading(start, readings[..|readings| - 1]);
    }
  }

  /**
   * Changes alternate, beginning with the opposite of the start reading, so each
   * change is one `onOnline` or one `onOffline` and the two kinds interleave;
   * there are never more changes than checks.
   */
  lemma {:induction false} TransitionsAlternate(start: bool, readings: seq<bool>)
    ensures |Transitions(start, readings)| <= |readings|
    ensures Transitions(start, readings) != [] ==> Transitions(start, readings)[0] != start
    ensures forall i :: 0 <= i < |Transitions(start, readings)| - 1 ==>
              Transitions(start, readings)[i] != Transitions(start, readings)[i + 1]
    decreases |readings|
  {
    if readings != [] {
      var earlier := readings[..|readings| - 1];
      TransitionsAlternate(start, earlier);
      TransitionsEndAtLastReading(start, earlier);
    }
  }

  /** Repeating the current reading notifies no one. */
  lemma RepeatedReadingIsSilent(start: bool, readings: seq<bool>)
    ensures Transitions(start, readings + [LastReading(start, readings)]) == Transitions(start, readings)
  {
    assert (readings + [LastReading(start, readings)])[..|readings|] == readings;
  }

  /** From the start reading "online", the readings up, up, up, down, down, up change twice: to offline, then back. */
  lemma TwoChangesFromOnlineStart()
    ensures Transitions(true, [true, true, true, false, false, true]) == [false, true]
    ensures Transitions(true, [true, true, false, false, true]) == [false, true]
  {
    assert [true][..0] == [];
    assert [true, true][..1] == [true];
    assert Transitions(true, [true, true]) == [];
    assert [true, true, true][..2] == [true, true];
    assert Transitions(true, [true, true, true]) == [];
    assert [true, true, true, false][..3] == [true, true, true];
    assert Transitions(true, [true, true, true, false]) == [false];
    assert [true, true, true, false, false][..4] == [true, true, true, false];
    assert Transitions(true, [true, true, true, false, false]) == [false];
    assert [true, true, true, false, false, true][..5] == [true, true, true, false, false];
    assert [true, true, false][..2] == [true, true];
    assert Transitions(true, [true, true, false]) == [false];
    assert [true, true, false, false][..3] == [true, true, false];
    assert Transitions(true, [true, true, false, false]) == [false];
    assert [true, true, false, false, true][..4] == [true, true, false, false];
  }

  /** Where `x` first occurs in `s`. */
  function FirstIndex(s: seq<ListenerId>, x: ListenerId): (i: nat)
    requires x in s
    ensures i < |s| && s[i] == x && x !in s[..i]
  {
    if s[0] == x then 0
    else
      var j := FirstIndex(s[1..], x);
      assert s[..j + 1] == [s[0]] + s[1..][..j];
      j + 1
  }

  /** `CopyOnWriteArrayList.remove`: the first occurrence of `x` goes. */
  function RemoveFirst(s: seq<ListenerId>, x: ListenerId): (r: seq<ListenerId>)
    ensures x !in s ==> r == s
  {
    if s == [] then []
    else if s[0] == x then s[1..]
    else [s[0]] + RemoveFirst(s[1..], x)
  }

  /** Removing the first occurrence cuts it out of the sequence. */
  lemma {:induction false} RemoveFirstCutsFirst(s: seq<ListenerId>, x: ListenerId)
    requires x in s
    ensures RemoveFirst(s, x) == s[..FirstIndex(s, x)] + s[FirstIndex(s, x) + 1..]
  {
    if s[0] != x {
      var t := s[1..];
      RemoveFirstCutsFirst(t, x);
      var j := FirstIndex(t, x);
      assert s[..j + 1] == [s[0]] + t[..j];
      assert s[j + 2..] == t[j + 1..];
    }
  }

  lemma {:induction false} RemoveFirstMultiset(s: seq<ListenerId>, x: ListenerId)
    requires x in s
    ensures multiset(RemoveFirst(s, x)) == multiset(s) - multiset{x}
  {
    assert s == [s[0]] + s[1..];
    if s[0] != x {
      RemoveFirstMultiset(s[1..], x);
    }
  }

  /** Exactly the first occurrence goes, and the others keep their order. */
  lemma {:induction false} RemoveFirstRemovesFirst(s: seq<ListenerId>, x: ListenerId)
    requires x in s
    ensures RemoveFirst(s, x) == s[..FirstIndex(s, x)] + s[FirstIndex(s, x) + 1..]
    ensures multiset(RemoveFirst(s, x)) == multiset(s) - multiset{x}
  {
    RemoveFirstCutsFirst(s, x);
    RemoveFirstMultiset(s, x);
  }

  class OfflineManager {
    var isOnline: bool
    var lastKnownState: bool
    var listeners: seq<ListenerId>
    /** Whether the periodic check is still scheduled. */
    var schedulerRunning: bool
    /** Every host probed so far, in order. */
    var probed: seq<string>
    /** The reading each change moved to. */
    var transitions: seq<bool>
    /** Every listener callback made, in order. */
    var deliveries: seq<Delivery>

    /**
     * What a check does once it has its reading: both flags take it; a change is
     * logged and reaches every listener; a repeated reading changes nothing else.
     */
    twostate predicate Reacted(online: bool, failing: set<ListenerId>)
      reads this
    {
      && isOnline == online && lastKnownState == online
      && (online != old(lastKnownState) ==>
            transitions == old(transitions) + [online]
            && deliveries == old(deliveries) + Deliveries(listeners, online, failing))
      && (online == old(lastKnownState) ==> transitions == old(transitions) && deliveries == old(deliveries))
      && listeners == old(listeners) && schedulerRunning == old(schedulerRunning)
    }

    /**
     * The constructor: both flags start at "online", the first check runs before
     * anyone can listen, and the periodic check is scheduled.
     */
    constructor (reach: string -> bool)
      ensures isOnline == lastKnownState == AnyReachable(CheckHosts, reach)
      ensures transitions == (if AnyReachable(CheckHosts, reach) then [] else [false])
      ensures probed == CheckHosts[..ProbesMade(CheckHosts, reach)]
      ensures listeners == [] && deliveries == [] && schedulerRunning
    {
      isOnline, lastKnownState := true, true;
      listeners, probed, transitions, deliveries := [], [], [], [];
      schedulerRunning := false;
      new;
      CheckConnectivity(reach, {});
      schedulerRunning := true;
    }

    /** `isOnline`. */
    function IsOnline(): bool
      reads this
    {
      isOnline
    }

    /** `isOffline`: always the negation of `IsOnline`. */
    function IsOffline(): (r: bool)
      reads this
      ensures r <==> !IsOnline()
    {
      !isOnline
    }

    /** `addListener`: appended, duplicates allowed. */
    method AddListener(l: ListenerId)
      modifies this
      ensures listeners == old(listeners) + [l]
      ensures isOnline == old(isOnline) && lastKnownState == old(lastKnownState)
      ensures transitions == old(transitions) && deliveries == old(deliveries)
      ensures probed == old(probed) && schedulerRunning == old(schedulerRunning)
    {
      listeners := listeners + [l];
    }

    /** `removeListener`: the first registration of `l` is withdrawn. */
    method RemoveListener(l: ListenerId)
      modifies this
      ensures listeners == RemoveFirst(old(listeners), l)
      ensures isOnline == old(isOnline) && lastKnownState == old(lastKnownState)
      ensures transitions == old(transitions) && deliveries == old(deliveries)
      ensures probed == old(probed) && schedulerRunning == old(schedulerRunning)
    {
      listeners := RemoveFirst(listeners, l);
    }

    /** The notify loops: every listener is called in order; one that throws is logged and the loop goes on. */
    method Notify(online: bool, failing: set<ListenerId>)
      modifies this
      ensures deliveries == old(deliveries) + Deliveries(listeners, online, failing)
      ensures isOnline == old(isOnline) && lastKnownState == old(lastKnownState) && listeners == old(listeners)
      ensures transitions == old(transitions) && probed == old(probed) && schedulerRunning == old(schedulerRunning)
    {
      var i := 0;
      while i < |listeners|
        invariant 0 <= i <= |listeners|
        invariant deliveries == old(deliveries) + Deliveries(listeners[..i], online, failing)
        invariant isOnline == old(isOnline) && lastKnownState == old(lastKnownState) && listeners == old(listeners)
        invariant transitions == old(transitions) && probed == old(probed) && schedulerRunning == old(schedulerRunning)
      {
        var l := listeners[i];
        deliveries := deliveries + [Delivery(l, online, l in failing)];
        assert listeners[..i + 1][..i] == listeners[..i];
        i := i + 1;
      }
      assert listeners[..i] == listeners;
    }

    /** The host loop of `checkConnectivity`: probes in order, stops at the first host that answers. */
    method ProbeHosts(hosts: seq<string>, reach: string -> bool) returns (online: bool)
      modifies this
      ensures online <==> AnyReachable(hosts, reach)
      ensures probed == old(probed) + hosts[..ProbesMade(hosts, reach)]
      ensures isOnline == old(isOnline) && lastKnownState == old(lastKnownState) && listeners == old(listeners)
      ensures transitions == old(transitions) && deliveries == old(deliveries) && schedulerRunning == old(schedulerRunning)
    {
      online := false;
      var k := 0;
      while k < |hosts|
        invariant 0 <= k <= |hosts|
        invariant probed == old(probed) + hosts[..k]
        invariant forall i :: 0 <= i < k ==> !reach(hosts[i])
        invariant !online
        invariant isOnline == old(isOnline) && lastKnownState == old(lastKnownState) && listeners == old(listeners)
        invariant transitions == old(transitions) && deliveries == old(deliveries) && schedulerRunning == old(schedulerRunning)
      {
        probed := probed + [hosts[k]];
        assert hosts[..k + 1] == hosts[..k] + [hosts[k]];
        if reach(hosts[k]) {
          online := true;
          break;
        }
        k := k + 1;
      }
      assert hosts[..|hosts|] == hosts;
    }

    /**
     * `checkConnectivity`: the hosts are probed in order until one answers; both
     * flags take the reading; the listeners are told only when it differs from
     * the previous one.
     */
    method CheckConnectivity(reach: string -> bool, failing: set<ListenerId>)
      modifies this
      ensures probed == old(probed) + CheckHosts[..ProbesMade(CheckHosts, reach)]
      ensures Reacted(AnyReachable(CheckHosts, reach), failing)
    {
      var online := ProbeHosts(CheckHosts, reach);
      var stateChanged := online != lastKnownState;
      lastKnownState := online;
      isOnline := online;
      if stateChanged {
        transitions := transitions + [online];
        Notify(online, failing);
      }
    }

    /** `checkNow`: exactly one check. */
    method CheckNow(reach: string -> bool, failing: set<ListenerId>)
      modifies this
      ensures probed == old(probed) + CheckHosts[..ProbesMade(CheckHosts, reach)]
      ensures Reacted(AnyReachable(CheckHosts, reach), failing)
    {
      CheckConnectivity(reach, failing);
    }

    /** A firing of the periodic task: one check while the scheduler runs, nothing after `shutdown`. */
    method Tick(reach: string -> bool, failing: set<ListenerId>)
      modifies this
      ensures old(schedulerRunning) ==> probed == old(probed) + CheckHosts[..ProbesMade(CheckHosts, reach)]
      ensures old(schedulerRunning) ==> Reacted(AnyReachable(CheckHosts, reach), failing)
      ensures !old(schedulerRunning) ==> unchanged(this)
    {
      if schedulerRunning {
        CheckConnectivity(reach, failing);
      }
    }

    /** `shutdown`: the listeners are cleared first, then the scheduler stops. */
    method Shutdown()
      modifies this
      ensures listeners == [] && !schedulerRunning
      ensures isOnline == old(isOnline) && lastKnownState == old(lastKnownState)
      ensures transitions == old(transitions) && deliveries == old(deliveries) && probed == old(probed)
    {
      listeners := [];
      schedulerRunning := false;
    }

    /** After the readings `seen` of a series that began at `start`, with `t0` and `d0` recorded before it. */
    ghost predicate InSeries(start: bool, seen: seq<bool>, t0: seq<bool>, d0: seq<Delivery>, failing: set<ListenerId>)
      reads this
    {
      lastKnownState == LastReading(start, seen)
      && transitions == t0 + Transitions(start, seen)
      && deliveries == d0 + DeliveriesFor(listeners, Transitions(start, seen), failing)
    }

    /** One check of a series: its reading extends the series' readings, changes and callbacks. */
    method CheckInSeries(reach: string -> bool, failing: set<ListenerId>,
                         ghost start: bool, ghost seen: seq<bool>, ghost t0: seq<bool>, ghost d0: seq<Delivery>)
      requires InSeries(start, seen, t0, d0, failing)
      modifies this
      ensures InSeries(start, seen + [AnyReachable(CheckHosts, reach)], t0, d0, failing)
      ensures isOnline == lastKnownState
      ensures probed == old(probed) + CheckHosts[..ProbesMade(CheckHosts, reach)]
      ensures listeners == old(listeners) && schedulerRunning == old(schedulerRunning)
    {
      var x := AnyReachable(CheckHosts, reach);
      var t := Transitions(start, seen);
      TransitionsSnoc(start, seen, x);
      DeliveriesForSnoc(listeners, t, x, failing);
      ghost var d1 := DeliveriesFor(listeners, t, failing);
      CheckConnectivity(reach, failing);
      if x != LastReading(start, seen) {
        Associative(t0, t, [x]);
        Associative(d0, d1, Deliveries(listeners, x, failing));
      } else {
        assert t + [] == t;
      }
    }

    /**
     * A series of checks with a fixed set of listeners: the changes are exactly
     * the transitions of the series' readings, every change reaches every
     * listener, and the hosts each check probes are logged one check after another.
     */
    method RunChecks(probes: seq<string -> bool>, failing: set<ListenerId>)
      modifies this
      ensures transitions == old(transitions) + Transitions(old(lastKnownState), Readings(probes))
      ensures deliveries == old(deliveries) + DeliveriesFor(listeners, Transitions(old(lastKnownState), Readings(probes)), failing)
      ensures lastKnownState == LastReading(old(lastKnownState), Readings(probes))
      ensures probes != [] ==> isOnline == lastKnownState
      ensures probed == old(probed) + ProbeLog(probes)
      ensures listeners == old(listeners) && schedulerRunning == old(schedulerRunning)
    {
      ghost var start, t0, d0, p0 := lastKnownState, transitions, deliveries, probed;
      assert Readings(probes[..0]) == [] && ProbeLog(probes[..0]) == [];
      var j := 0;
      while j < |probes|
        invariant 0 <= j <= |probes|
        invariant InSeries(start, Readings(probes[..j]), t0, d0, failing)
        invariant j > 0 ==> isOnline == lastKnownState
        invariant probed == p0 + ProbeLog(probes[..j])
        invariant listeners == old(listeners) && schedulerRunning == old(schedulerRunning)
      {
        CheckInSeries(probes[j], failing, start, Readings(probes[..j]), t0, d0);
        ReadingsOfPrefix(probes, j);
        ProbeLogOfPrefix(probes, j);
        Associative(p0, ProbeLog(probes[..j]), CheckHosts[..ProbesMade(CheckHosts, probes[j])]);
        j := j + 1;
      }
      assert probes[..j] == probes;
    }
  }

  /** The reading each probe of a series gives. */
  function Readings(probes: seq<string -> bool>): (r: seq<bool>)
    ensures |r| == |probes|
  {
    if probes == [] then []
    else Readings(probes[..|probes| - 1]) + [AnyReachable(CheckHosts, probes[|probes| - 1])]
  }

  /** The hosts a series of checks probes: each check's probes, one check after another. */
  function ProbeLog(probes: seq<string -> bool>): (r: seq<string>)
    ensures |r| <= |CheckHosts| * |probes|
  {
    if probes == [] then []
    else
      var last := probes[|probes| - 1];
      ProbeLog(probes[..|probes| - 1]) + CheckHosts[..ProbesMade(CheckHosts, last)]
  }

  lemma ProbeLogOfPrefix(probes: seq<string -> bool>, j: nat)
    requires j < |probes|
    ensures ProbeLog(probes[..j + 1]) == ProbeLog(probes[..j]) + CheckHosts[..ProbesMade(CheckHosts, probes[j])]
  {
    assert probes[..j + 1][..j] == probes[..j];
  }

  lemma ReadingsOfPrefix(probes: seq<string -> bool>, j: nat)
    requires j < |probes|
    ensures Readings(probes[..j + 1]) == Readings(probes[..j]) + [AnyReachable(CheckHosts, probes[j])]
  {
    assert probes[..j + 1][..j] == probes[..j];
  }

  lemma ReadingsOfFive(up: string -> bool, down: string -> bool)
    requires AnyReachable(CheckHosts, up) && !AnyReachable(CheckHosts, down)
    ensures Readings([up, up, down, down, up]) == [true, true, false, false, true]
  {
    assert [up][..0] == [];
    assert Readings([up]) == [true];
    assert [up, up][..1] == [up];
    assert Readings([up, up]) == [true, true];
    assert [up, up, down][..2] == [up, up];
    assert Readings([up, up, down]) == [true, true, false];
    assert [up, up, down, down][..3] == [up, up, down];
    assert Readings([up, up, down, down]) == [true, true, false, false];
    assert [up, up, down, down, up][..4] == [up, up, down, down];
  }

  lemma DeliveriesToOne(l: ListenerId)
    ensures DeliveriesFor([l], [false, true], {}) == [Delivery(l, false, false), Delivery(l, true, false)]
  {
    assert [l][..0] == [];
    assert Deliveries([l], false, {}) == [Delivery(l, false, false)];
    assert Deliveries([l], true, {}) == [Delivery(l, true, false)];
    assert [false][..0] == [];
    assert DeliveriesFor([l], [false], {}) == [Delivery(l, false, false)];
    assert [false, true][..1] == [false];
  }

  /**
   * From a reachable first check, with one listener registered after it, the
   * further readings up, up, down, down, up reach that listener exactly twice:
   * once going offline, once coming back.
   */
  method OnlineStartScenario(l: ListenerId) returns (changes: seq<bool>, calls: seq<Delivery>)
    ensures changes == [false, true]
    ensures calls == [Delivery(l, false, false), Delivery(l, true, false)]
  {
    var up: string -> bool := h => true;
    var down: string -> bool := h => false;
    assert up(CheckHosts[0]);
    var m := new OfflineManager(up);
    m.AddListener(l);
    ReadingsOfFive(up, down);
    TwoChangesFromOnlineStart();
    m.RunChecks([up, up, down, down, up], {});
    DeliveriesToOne(l);
    changes, calls := m.transitions, m.deliveries;
  }
}
