/**
 * The stale-while-revalidate cache of internal/modules/weather/service.go: the data behind the
 * service mutex and what each lock-held region does to it.
 */
module WeatherCache {
  import opened Common
  import opened RecencyList
  import opened Backoff

  /** Nanoseconds since the zero time; the zero time itself is 0. */
  type Time = nat

  datatype Policy = Policy(freshFor: nat, staleFor: nat)
  datatype Key = Key(location: string, kind: string)
  datatype Point = Point(cacheKey: string, display: string)
  datatype ProviderResult = ProviderResult(updatedAt: int, data: string)
  datatype Outcome = Fetched(result: ProviderResult) | Failed(failure: Failure)

  datatype Envelope = Envelope(
    point: Point, fetchedAt: Time, updatedAt: int, validUntil: Time, stale: bool, data: string)

  /** A cache entry object; key is the key it was created for. */
  datatype Entry = Entry(
    key: Key, result: ProviderResult, fetchedAt: Time, validUntil: Time, staleUntil: Time,
    hasValue: bool, refreshing: bool, wait: Option<nat>, lastError: Option<Failure>,
    retryAfter: Time, failures: nat)

  /**
   * entries maps a key to an entry object, named by its position in objects: an evicted object
   * stays in objects because a refresh may still hold it. keys is the recency list. Wait channels
   * are numbered in the order they are made, and closed lists the calls of close.
   */
  datatype Cache = Cache(
    entries: map<Key, nat>, objects: seq<Entry>, keys: seq<string>, channels: nat, closed: seq<nat>)

  function NewEntry(key: Key): Entry {
    Entry(key, ProviderResult(0, ""), 0, 0, 0, false, false, None, None, 0, 0)
  }

  function EnvelopeFrom(e: Entry, point: Point, stale: bool): Envelope {
    Envelope(point, e.fetchedAt, e.result.updatedAt, e.validUntil, stale, e.result.data)
  }

  /** The entries left once the given locations are gone. */
  function Surviving(entries: map<Key, nat>, gone: seq<string>): map<Key, nat> {
    map k | k in entries && k.location !in gone :: entries[k]
  }

  function TouchLocation(c: Cache, location: string, maximum: int): Cache {
    c.(keys := Touched(c.keys, location, maximum),
       entries := Surviving(c.entries, Evicted(c.keys, location, maximum)))
  }

  /** Touch the location, then find or create the entry. */
  function Locate(c: Cache, key: Key, maximum: int): Cache {
    var t := TouchLocation(c, key.location, maximum);
    if key in t.entries then t
    else t.(entries := t.entries[key := |t.objects|], objects := t.objects + [NewEntry(key)])
  }

  datatype Verdict = FreshHit | StaleHit(refresh: bool) | BackingOff | Join | Lead

  /** What one turn of the loop in Get decides about an entry. */
  function Judge(e: Entry, now: Time): Verdict {
    if e.hasValue && now < e.validUntil then FreshHit
    else if e.hasValue && now < e.staleUntil then StaleHit(!e.refreshing && now >= e.retryAfter)
    else if !e.refreshing && now < e.retryAfter then BackingOff
    else if e.refreshing then Join
    else Lead
  }

  predicate Starts(v: Verdict) {
    v == Lead || v == StaleHit(true)
  }

  function BeginRefresh(c: Cache, i: nat): Cache
    requires i < |c.objects|
  {
    c.(objects := c.objects[i := c.objects[i].(refreshing := true, wait := Some(c.channels))],
       channels := c.channels + 1)
  }

  /** The value, error and backoff fields an outcome leaves behind. */
  function Record(e: Entry, policy: Policy, now: Time, outcome: Outcome, draw: Option<Word>): Entry {
    match outcome
    case Fetched(result) =>
      e.(result := result, fetchedAt := now, validUntil := now + policy.freshFor,
         staleUntil := now + policy.staleFor, hasValue := true, lastError := None,
         retryAfter := 0, failures := 0)
    case Failed(failure) =>
      var failures := (e.failures + 1) % WORD;
      RetryDelayPositive(failure, failures, draw);
      e.(lastError := Some(failure), failures := failures,
         retryAfter := now + RetryDelay(failure, failures, draw))
  }

  function FinishRefresh(c: Cache, i: nat, policy: Policy, now: Time, outcome: Outcome,
                         draw: Option<Word>): Cache
    requires i < |c.objects|
  {
    var e := Record(c.objects[i], policy, now, outcome, draw);
    c.(objects := c.objects[i := e.(refreshing := false, wait := None)],
       closed := if e.wait.Some? then c.closed + [e.wait.value] else c.closed)
  }

  /** Is this the object the map holds for its key? */
  ghost predicate Resident(c: Cache, i: nat)
    requires i < |c.objects|
  {
    c.objects[i].key in c.entries && c.entries[c.objects[i].key] == i
  }

  /** The map names objects by the key they were created for, and every location is in the list. */
  ghost predicate Indexed(c: Cache) {
    forall k :: k in c.entries ==>
      c.entries[k] < |c.objects| && c.objects[c.entries[k]].key == k && k.location in c.keys
  }

  lemma LocateIndexed(c: Cache, key: Key, maximum: int)
    requires Indexed(c) && maximum >= 1
    ensures var d := Locate(c, key, maximum);
            && Indexed(d) && key in d.entries
            && |c.objects| <= |d.objects| && d.objects[..|c.objects|] == c.objects
            && (d.entries[key] == |c.objects| ==> d.objects == c.objects + [NewEntry(key)])
            && (d.entries[key] != |c.objects| ==> d.objects == c.objects)
            && forall i :: 0 <= i < |c.objects| && Resident(d, i) ==> Resident(c, i)
  {
    TouchedKeepsNewest(c.keys, key.location, maximum);
  }

  /** An element of the linked list: made once, moved, removed, and never reused. */
  datatype Element = Element(serial: nat, key: string)

  function ElementKeys(s: seq<Element>): (r: seq<string>)
    ensures |r| == |s| && forall i :: 0 <= i < |s| ==> r[i] == s[i].key
  {
    seq(|s|, i requires 0 <= i < |s| => s[i].key)
  }

  lemma {:induction false} RemovedElementKeys(s: seq<Element>, el: Element)
    requires Distinct(ElementKeys(s)) && el in s
    ensures ElementKeys(Without(s, el)) == Without(ElementKeys(s), el.key)
    ensures Distinct(ElementKeys(Without(s, el)))
  {
    assert ElementKeys(s)[1..] == ElementKeys(s[1..]);
    WithoutDistinct(ElementKeys(s), el.key);
    if s[0] == el {
      assert el !in s[1..] by {
        assert forall i :: 0 < i < |s| ==> ElementKeys(s)[0] != ElementKeys(s)[i];
      }
      WithoutAbsent(s[1..], el);
      assert el.key !in ElementKeys(s)[1..];
      WithoutAbsent(ElementKeys(s)[1..], el.key);
    } else {
      assert s[0].key != el.key by {
        var i :| 0 < i < |s| && s[i] == el;
        assert ElementKeys(s)[0] != ElementKeys(s)[i];
      }
      RemovedElementKeys(s[1..], el);
      assert Without(s, el) == [s[0]] + Without(s[1..], el);
    }
  }

  /** The map of locations and the linked list hold the same elements. */
  ghost predicate SameElements(locations: map<string, Element>, lru: seq<Element>) {
    && Distinct(ElementKeys(lru))
    && (forall k :: k in locations ==> locations[k] in lru && locations[k].key == k)
    && (forall i :: 0 <= i < |lru| ==> lru[i].key in locations && locations[lru[i].key] == lru[i])
  }

  lemma BackRemoved(locations: map<string, Element>, lru: seq<Element>, n: nat)
    requires SameElements(locations, lru) && |lru| == n + 1
    ensures SameElements(locations - {lru[n].key}, lru[..n])
    ensures ElementKeys(lru) == ElementKeys(lru[..n]) + [lru[n].key]
  {
    var keys := ElementKeys(lru);
    assert forall i :: 0 <= i < n ==> keys[i] != keys[n];
    var rest := locations - {lru[n].key};
    forall k | k in rest ensures rest[k] in lru[..n] {
      var i :| 0 <= i < |lru| && lru[i] == locations[k];
      assert i < n;
      assert lru[..n][i] == locations[k];
    }
    forall i, j | 0 <= i < j < n ensures ElementKeys(lru[..n])[i] != ElementKeys(lru[..n])[j] {
      assert keys[i] != keys[j];
    }
  }

  lemma FrontAdded(locations: map<string, Element>, lru: seq<Element>, element: Element)
    requires SameElements(locations, lru) && element.key !in locations
    ensures SameElements(locations[element.key := element], [element] + lru)
    ensures ElementKeys([element] + lru) == [element.key] + ElementKeys(lru)
  {
    var more, all := locations[element.key := element], [element] + lru;
    assert forall i :: 0 < i < |all| ==> all[i] == lru[i - 1] && ElementKeys(all)[i] == lru[i - 1].key;
    forall k | k in more ensures more[k] in all {
      assert all[0] == element;
      assert k != element.key ==> locations[k] in lru;
    }
  }

  lemma FrontMoved(locations: map<string, Element>, lru: seq<Element>, element: Element)
    requires SameElements(locations, lru) && element in lru
    ensures SameElements(locations, [element] + Without(lru, element))
    ensures ElementKeys([element] + Without(lru, element)) == [element.key] + Without(ElementKeys(lru), element.key)
  {
    RemovedElementKeys(lru, element);
    WithoutMembers(lru, element);
    WithoutMembers(ElementKeys(lru), element.key);
    var rest := Without(lru, element);
    assert ElementKeys([element] + rest) == [element.key] + ElementKeys(rest);
    forall k | k in locations ensures locations[k] in [element] + rest {
      assert locations[k] == element || locations[k] in rest;
    }
  }

  lemma SameElementsCount(locations: map<string, Element>, lru: seq<Element>)
    requires SameElements(locations, lru)
    ensures |locations| == |lru|
    ensures locations.Keys == set k | k in ElementKeys(lru)
  {
    forall k ensures k in locations.Keys <==> k in ElementKeys(lru) {
      if k in locations {
        var i :| 0 <= i < |lru| && lru[i] == locations[k];
        assert ElementKeys(lru)[i] == k;
      }
    }
    DistinctCount(ElementKeys(lru), locations.Keys);
    assert |locations| == |locations.Keys|;
  }

  lemma EvictionStep(first: map<Key, nat>, all: seq<string>, n: nat)
    requires n < |all|
    ensures Surviving(Surviving(first, all[n + 1..]), [all[n]]) == Surviving(first, all[n..])
  {
    assert all[n..] == [all[n]] + all[n + 1..];
  }

  lemma EvictedSplit(keys: seq<string>, key: string, maximum: int)
    requires key !in keys
    ensures var all := [key] + keys;
            && Touched(keys, key, maximum) == Take(all, Max(maximum, 0))
            && Evicted(keys, key, maximum) == all[|Take(all, Max(maximum, 0))|..]
  {
  }

  /** The fields of Service that its mutex guards, updated in place. */
  class Service {
    const policies: map<string, Policy>
    const maximum: int
    var entries: map<Key, nat>
    var objects: seq<Entry>
    var locations: map<string, Element>
    var lru: seq<Element>
    var elements: nat
    var channels: nat
    var closed: seq<nat>

    ghost predicate Linked()
      reads this
    {
      SameElements(locations, lru)
    }

    ghost function View(): Cache
      reads this
    {
      Cache(entries, objects, ElementKeys(lru), channels, closed)
    }

    ghost predicate Valid()
      reads this
    {
      Linked() && Indexed(View())
    }

    constructor (policies: map<string, Policy>, maximum: int)
      ensures Valid() && this.policies == policies && this.maximum == maximum
      ensures View() == Cache(map[], [], [], 0, [])
    {
      this.policies, this.maximum := policies, maximum;
      entries, objects, locations, lru, elements := map[], [], map[], [], 0;
      channels, closed := 0, [];
    }

    /** Delete every entry of one location, key by key. */
    method DropLocation(location: string)
      modifies this`entries
      ensures entries == Surviving(old(entries), [location])
    {
      var pending := entries.Keys;
      while pending != {}
        invariant forall k :: k in entries <==>
                    k in old(entries) && (k.location != location || k in pending)
        invariant forall k :: k in entries ==> entries[k] == old(entries)[k]
        decreases pending
      {
        var k :| k in pending;
        pending := pending - {k};
        if k.location == location {
          entries := entries - {k};
        }
      }
    }

    method MoveToFront(element: Element)
      requires Linked() && element in lru
      modifies this`lru
      ensures Linked()
      ensures ElementKeys(lru) == [element.key] + Without(old(ElementKeys(lru)), element.key)
    {
      FrontMoved(locations, lru, element);
      lru := [element] + Without(lru, element);
    }

    method PushFront(location: string)
      requires Linked() && location !in locations
      modifies this`lru, this`locations, this`elements
      ensures Linked()
      ensures ElementKeys(lru) == [location] + old(ElementKeys(lru))
    {
      var element := Element(elements, location);
      FrontAdded(locations, lru, element);
      elements := elements + 1;
      lru := [element] + lru;
      locations := locations[location := element];
    }

    /** Unlink the back element from both structures. */
    method RemoveBack() returns (location: string)
      requires Linked() && lru != []
      modifies this`locations, this`lru
      ensures Linked()
      ensures ElementKeys(lru) + [location] == old(ElementKeys(lru))
    {
      BackRemoved(locations, lru, |lru| - 1);
      location := lru[|lru| - 1].key;
      locations := locations - {location};
      lru := lru[..|lru| - 1];
    }

    /** One round of the eviction loop. */
    method EvictOldest(ghost first: map<Key, nat>, ghost all: seq<string>)
      requires Linked() && lru != [] && |lru| <= |all|
      requires ElementKeys(lru) == all[..|lru|] && entries == Surviving(first, all[|lru|..])
      modifies this`entries, this`locations, this`lru
      ensures Linked() && |lru| == old(|lru|) - 1
      ensures ElementKeys(lru) == all[..|lru|] && entries == Surviving(first, all[|lru|..])
    {
      EvictionStep(first, all, |lru| - 1);
      var location := RemoveBack();
      DropLocation(location);
    }

    /** The eviction loop: drop from the back while there are more locations than the maximum. */
    method Evict()
      requires Linked()
      modifies this`entries, this`locations, this`lru
      ensures Linked()
      ensures ElementKeys(lru) == Take(old(ElementKeys(lru)), Max(maximum, 0))
      ensures entries == Surviving(old(entries), old(ElementKeys(lru))[|lru|..])
    {
      ghost var all, first := ElementKeys(lru), entries;
      assert all[..|lru|] == all && all[|lru|..] == [];
      var count := Count();
      while count > maximum
        invariant Linked() && count == |lru| <= |all|
        invariant |lru| == |all| || |lru| >= maximum
        invariant ElementKeys(lru) == all[..|lru|] && entries == Surviving(first, all[|lru|..])
        decreases |lru|
      {
        if count == 0 {
          break;
        }
        EvictOldest(first, all);
        count := Count();
      }
      assert all[..|lru|] == Take(all, Max(maximum, 0));
    }

    /** len(s.locations), which is also the length of the list. */
    method Count() returns (n: nat)
      requires Linked()
      ensures n == |lru|
    {
      SameElementsCount(locations, lru);
      n := |locations|;
    }

    /** touchLocationLocked: move the element to the front, or push one and evict from the back. */
    method Touch(location: string)
      requires Linked()
      modifies this`entries, this`locations, this`lru, this`elements
      ensures Linked()
      ensures View() == TouchLocation(old(View()), location, maximum)
    {
      ghost var before, kept := ElementKeys(lru), entries;
      assert location in locations <==> location in before by {
        SameElementsCount(locations, lru);
      }
      if location in locations {
        MoveToFront(locations[location]);
        assert entries == Surviving(kept, []);
      } else {
        PushFront(location);
        Evict();
        EvictedSplit(before, location, maximum);
      }
    }

    /** Touch the location, then find or create the entry. */
    method Find(key: Key) returns (index: nat)
      requires Valid() && maximum >= 1
      modifies this`entries, this`locations, this`lru, this`elements, this`objects
      ensures Valid() && key in entries && index == entries[key] && index < |objects|
      ensures View() == Locate(old(View()), key, maximum)
    {
      LocateIndexed(View(), key, maximum);
      Touch(key.location);
      if key !in entries {
        entries := entries[key := |objects|];
        objects := objects + [NewEntry(key)];
      }
      index := entries[key];
    }

    /** beginRefreshLocked. */
    method Begin(index: nat)
      requires Valid() && index < |objects|
      modifies this`objects, this`channels
      ensures Valid() && View() == BeginRefresh(old(View()), index)
    {
      objects := objects[index := objects[index].(refreshing := true, wait := Some(channels))];
      channels := channels + 1;
    }

    /** One turn of the loop in Get, under the mutex. */
    method Turn(key: Key, point: Point, now: Time)
      returns (index: nat, verdict: Verdict, envelope: Envelope)
      requires Valid() && maximum >= 1
      modifies this
      ensures Valid() && index < |objects|
      ensures var c := Locate(old(View()), key, maximum);
              && key in c.entries && index == c.entries[key] && index < |c.objects|
              && verdict == Judge(c.objects[index], now)
              && envelope == EnvelopeFrom(c.objects[index], point, verdict.StaleHit?)
              && View() == if Starts(verdict) then BeginRefresh(c, index) else c
    {
      index := Find(key);
      var entry := objects[index];
      verdict := Judge(entry, now);
      envelope := EnvelopeFrom(entry, point, verdict.StaleHit?);
      if Starts(verdict) {
        Begin(index);
      }
    }

    /** finishRefresh, under the mutex. */
    method Finish(index: nat, policy: Policy, now: Time, outcome: Outcome, draw: Option<Word>)
      requires Valid() && index < |objects|
      modifies this`objects, this`closed
      ensures Valid()
      ensures View() == FinishRefresh(old(View()), index, policy, now, outcome, draw)
    {
      var entry: Entry;
      if outcome.Fetched? {
        entry := Succeeded(objects[index], policy, now, outcome.result, draw);
      } else {
        entry := FailedOnce(objects[index], policy, now, outcome.failure, draw);
      }
      entry := entry.(refreshing := false);
      if entry.wait.Some? {
        closed := closed + [entry.wait.value];
        entry := entry.(wait := None);
      }
      objects := objects[index := entry];
    }
  }

  /** The successful branch of finishRefresh. */
  method Succeeded(e: Entry, policy: Policy, now: Time, result: ProviderResult, ghost draw: Option<Word>)
    returns (entry: Entry)
    ensures entry == Record(e, policy, now, Fetched(result), draw) && entry.key == e.key && entry.wait == e.wait
  {
    entry := e.(result := result, fetchedAt := now, hasValue := true);
    entry := entry.(validUntil := now + policy.freshFor, staleUntil := now + policy.staleFor);
    entry := entry.(lastError := None, retryAfter := 0, failures := 0);
  }

  /** The failing branch of finishRefresh, with retryDelay. */
  method FailedOnce(e: Entry, ghost policy: Policy, now: Time, failure: Failure, draw: Option<Word>)
    returns (entry: Entry)
    ensures entry == Record(e, policy, now, Failed(failure), draw) && entry.key == e.key && entry.wait == e.wait
  {
    var failures := (e.failures + 1) % WORD;
    RetryDelayPositive(failure, failures, draw);
    var delay: int;
    if failure.providerDelay.Some? && failure.providerDelay.value > 0 {
      delay := failure.providerDelay.value;
    } else {
      var base := BackoffBase(failures as Word);
      BaseProgression(failures);
      var jittered := JitterDelay(base, draw);
      delay := jittered as int;
    }
    entry := e.(lastError := Some(failure), failures := failures);
    entry := entry.(retryAfter := now + delay);
  }
}
