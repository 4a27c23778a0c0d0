/**
 * A run in which a cache hit is not the latest successful fetch for its key: the location is evicted
 * while its refresh runs, comes back under a new object, and the old refresh finishes last.
 */
module WeatherDetached {
  import opened Common
  import opened RecencyList
  import opened WeatherCache
  import opened WeatherRuns
  import opened WeatherTheorems

  const KIND := "current"
  const POLICIES: map<string, Policy> := map[KIND := Policy(10, 20)]
  const HERE := Point("1.00,1.00", "")
  const THERE := Point("2.00,2.00", "")

  function KeyOf(point: Point): Key {
    Key(point.cacheKey, KIND)
  }

  lemma RunExtends(w: World, events: seq<Event>, event: Event)
    requires Run(w, events).Some? && Enabled(Run(w, events).value, event)
    ensures Run(w, events + [event]) == Some(Next(Run(w, events).value, event))
  {
    assert (events + [event])[..|events|] == events;
  }

  /** From w to u: a request for a place that replaces whatever was cached, and starts a fetch. */
  ghost predicate Replaced(w: World, u: World, point: Point) {
    && u.maximum == w.maximum && u.policies == w.policies && u.log == w.log
    && u.cache.keys == [point.cacheKey] && u.cache.entries == map[KeyOf(point) := |w.cache.objects|]
    && u.cache.objects == w.cache.objects +
         [NewEntry(KeyOf(point)).(refreshing := true, wait := Some(w.cache.channels))]
    && u.launched == w.launched + 1
    && u.flights == w.flights[w.launched := Flight(|w.cache.objects|, KIND, Some(|w.callers|))]
    && |u.callers| == |w.callers| + 1
  }

  /** A first request for an uncached location, with room for one. */
  lemma Visit(w: World, point: Point)
    requires w.maximum == 1 && w.policies == POLICIES && Indexed(w.cache)
    requires |w.cache.keys| <= 1 && point.cacheKey !in w.cache.keys
    ensures var c, v := |w.callers|, Next(w, Call(KIND, point));
            Enabled(v, Turn(c, 0)) && Replaced(w, Next(v, Turn(c, 0)), point)
  {
    var v := Next(w, Call(KIND, point));
    var c := |w.callers|;
    var key := KeyOf(point);
    assert CallerKey(v.callers[c]) == key;
    var gone := Evicted(w.cache.keys, point.cacheKey, 1);
    assert gone == w.cache.keys;
    assert Touched(w.cache.keys, point.cacheKey, 1) == [point.cacheKey];
    assert Surviving(w.cache.entries, gone) == map[];
    var a := Arrive(v, c);
    assert a.cache.entries == map[key := |w.cache.objects|];
    assert a.cache.objects == w.cache.objects + [NewEntry(key)];
    assert Judge(NewEntry(key), 0) == Lead;
  }

  /** Here, there, and here again. */
  function Place(n: nat): Point {
    if n == 1 then THERE else HERE
  }

  /** After n visits: n objects, each with its own running fetch, and only the last one resident. */
  ghost predicate Visited(w: World, n: nat)
    requires n <= 3
  {
    && w.maximum == 1 && w.policies == POLICIES && w.log == [] && Indexed(w.cache)
    && |w.callers| == |w.cache.objects| == w.launched == n
    && w.cache.keys == (if n == 0 then [] else [Place(n - 1).cacheKey])
    && (n > 0 ==> w.cache.entries == map[KeyOf(Place(n - 1)) := n - 1])
    && (forall m :: 0 <= m < n ==> m in w.flights && w.flights[m] == Flight(m, KIND, Some(m)))
    && (forall m :: 0 <= m < n ==> w.cache.objects[m].key == KeyOf(Place(m)))
  }

  lemma VisitedGrows(w: World, u: World, n: nat)
    requires n < 3 && Visited(w, n) && Replaced(w, u, Place(n))
    ensures Visited(u, n + 1)
  {
    assert Place(n).cacheKey == u.cache.keys[0];
    FlightAdded(w.flights, u.flights, n);
    ObjectAdded(w.cache.objects, u.cache.objects, n);
  }

  lemma FlightAdded(before: map<nat, Flight>, after: map<nat, Flight>, n: nat)
    requires forall m :: 0 <= m < n ==> m in before && before[m] == Flight(m, KIND, Some(m))
    requires after == before[n := Flight(n, KIND, Some(n))]
    ensures forall m :: 0 <= m < n + 1 ==> m in after && after[m] == Flight(m, KIND, Some(m))
  {
  }

  lemma ObjectAdded(before: seq<Entry>, after: seq<Entry>, n: nat)
    requires n < 3 && |before| == n && |after| == n + 1 && after[..n] == before && after[n].key == KeyOf(Place(n))
    requires forall m :: 0 <= m < n ==> before[m].key == KeyOf(Place(m))
    ensures forall m :: 0 <= m < n + 1 ==> after[m].key == KeyOf(Place(m))
  {
    forall m | 0 <= m < n ensures after[m].key == KeyOf(Place(m)) {
      assert after[..n][m] == before[m];
    }
  }

  lemma NextVisit(w: World, n: nat)
    requires n < 3 && Visited(w, n)
    ensures var v := Next(w, Call(KIND, Place(n))); Enabled(v, Turn(n, 0)) && Visited(Next(v, Turn(n, 0)), n + 1)
  {
    assert HERE.cacheKey[0] != THERE.cacheKey[0];
    Visit(w, Place(n));
    VisitedGrows(w, Next(Next(w, Call(KIND, Place(n))), Turn(n, 0)), n);
  }

  lemma {:induction false} Visits(n: nat) returns (events: seq<Event>, w: World)
    requires n <= 3
    ensures Run(Fresh(POLICIES, 1), events) == Some(w) && Visited(w, n)
  {
    if n == 0 {
      return [], Fresh(POLICIES, 1);
    }
    events, w := Visits(n - 1);
    NextVisit(w, n - 1);
    var call, turn := Call(KIND, Place(n - 1)), Turn(n - 1, 0);
    RunExtends(Fresh(POLICIES, 1), events, call);
    RunExtends(Fresh(POLICIES, 1), events + [call], turn);
    events, w := events + [call] + [turn], Next(Next(w, call), turn);
  }

  /** The newest object finishes first, then the oldest, which is detached. */
  ghost predicate BothFinished(w: World) {
    && w.policies == POLICIES && w.maximum == 1 && Indexed(w.cache)
    && |w.callers| == |w.cache.objects| == 3
    && w.cache.keys == [HERE.cacheKey] && w.cache.entries == map[KeyOf(HERE) := 2]
    && w.cache.objects[2].hasValue && w.cache.objects[2].validUntil == 11
    && |w.log| == 2 && w.log[0].entry == 2 && w.log[1].entry == 0
    && w.log[0].outcome.Fetched? && w.log[1].outcome.Fetched? && w.log[1].key == KeyOf(HERE)
  }

  const EARLY := Complete(2, 1, Fetched(ProviderResult(1, "early")), None)
  const LATE := Complete(0, 2, Fetched(ProviderResult(2, "late")), None)

  lemma FinishBoth(w: World)
    requires Visited(w, 3)
    ensures Enabled(w, EARLY) && Enabled(Next(w, EARLY), LATE) && BothFinished(Next(Next(w, EARLY), LATE))
  {
    var v := Next(w, EARLY);
    assert v.cache.objects[2].hasValue && v.cache.objects[2].validUntil == 11;
    assert forall j :: 0 <= j < 3 ==> v.cache.objects[j].key == w.cache.objects[j].key;
    assert v.flights == w.flights - {2} && v.flights[0] == w.flights[0];
  }

  /** Another caller arrives and finds the object of the older fetch. */
  lemma NextCallerHits(w: World)
    requires BothFinished(w)
    ensures var u := Next(w, Call(KIND, HERE));
            && Enabled(u, Turn(3, 3)) && CallerKey(u.callers[3]) == KeyOf(HERE)
            && Arrive(u, 3).cache.entries == u.cache.entries && Target(Arrive(u, 3), 3) == 2
            && u.log == w.log && Hit(u, 3, 3)
  {
    var u := Next(w, Call(KIND, HERE));
    assert u.callers[3] == Caller(KIND, HERE, Looping);
    assert HERE.cacheKey in u.cache.keys;
    assert Surviving(u.cache.entries, []) == u.cache.entries;
    assert Arrive(u, 3).cache.objects == u.cache.objects;
  }

  lemma BothRun() returns (events: seq<Event>, w: World)
    ensures Run(Fresh(POLICIES, 1), events) == Some(w) && BothFinished(w)
  {
    events, w := Visits(3);
    FinishBoth(w);
    RunExtends(Fresh(POLICIES, 1), events, EARLY);
    RunExtends(Fresh(POLICIES, 1), events + [EARLY], LATE);
    events, w := events + [EARLY] + [LATE], Next(Next(w, EARLY), LATE);
  }

  /** The served data is the older of two successful fetches recorded for the key. */
  lemma DetachedRefreshOvertakes() returns (w: World, c: nat, now: Time)
    ensures Reachable(w) && Hit(w, c, now)
    ensures LastSuccess(w.log, Target(Arrive(w, c), c)) < LastSuccessForKey(w.log, CallerKey(w.callers[c]))
  {
    var events, v := BothRun();
    NextCallerHits(v);
    RunExtends(Fresh(POLICIES, 1), events, Call(KIND, HERE));
    events, w := events + [Call(KIND, HERE)], Next(v, Call(KIND, HERE));
    c, now := 3, 3;
    OlderOfTwo(w.log);
    assert Reachable(w);
  }

  lemma OlderOfTwo(log: seq<Completion>)
    requires |log| == 2 && log[0].entry == 2 && log[1].entry == 0
    requires log[0].outcome.Fetched? && log[1].outcome.Fetched? && log[1].key == KeyOf(HERE)
    ensures LastSuccess(log, 2) == 0 && LastSuccessForKey(log, KeyOf(HERE)) == 1
  {
    assert log[..1] == [log[0]];
  }
}
