/**
 * Who is served what: the answer of every turn, told from the log of completions and the running fetches
 * alone, and how long an entry stays in the map.
 */
module WeatherServing {
  import opened Common
  import opened RecencyList
  import opened Backoff
  import opened WeatherCache
  import opened WeatherRuns
  import opened WeatherTheorems

  /** There is a success on object i that is less old than the given age. */
  ghost predicate HasWithin(w: World, i: nat, age: nat, now: Time) {
    var n := LastSuccess(w.log, i);
    n >= 0 && now < w.log[n].at + age
  }

  /** Some running fetch works for object i. */
  ghost predicate Busy(w: World, i: nat) {
    exists f :: f in w.flights && w.flights[f].entry == i
  }

  /** The latest completion on object i failed, and its retry delay is not over. */
  ghost predicate Penalized(w: World, i: nat, now: Time) {
    var last := Latest(w.log, i);
    last.Some? && last.value.outcome.Failed?
    && now < last.value.at + RetryDelay(last.value.outcome.failure, Streak(w.log, i) % WORD, last.value.draw)
  }

  /** What the latest success on object i gives a caller. */
  function LatestEnvelope(w: World, c: nat, i: nat, policy: Policy, stale: bool): Envelope
    requires c < |w.callers| && LastSuccess(w.log, i) >= 0
  {
    var done := w.log[LastSuccess(w.log, i)];
    Envelope(w.callers[c].point, done.at, done.outcome.result.updatedAt, done.at + policy.freshFor, stale,
             done.outcome.result.data)
  }

  /** What the entry object says of all this, in every reachable world. */
  lemma EntryReflects(a: World, i: nat, policy: Policy, now: Time)
    requires i < |a.cache.objects| && FlightsMatch(a.cache, a.flights)
    requires Reflects(a.cache.objects[i], a.policies, a.log, i)
    requires a.cache.objects[i].key.kind in a.policies && policy == a.policies[a.cache.objects[i].key.kind]
    ensures var e := a.cache.objects[i];
            && (e.hasValue && now < e.validUntil <==> HasWithin(a, i, policy.freshFor, now))
            && (e.hasValue && now < e.staleUntil <==> HasWithin(a, i, policy.staleFor, now))
            && (e.refreshing <==> Busy(a, i)) && (now < e.retryAfter <==> Penalized(a, i, now))
            && (Penalized(a, i, now) ==> e.lastError == Some(Latest(a.log, i).value.outcome.failure))
  {
    var e := a.cache.objects[i];
    if e.refreshing {
      assert a.flights[e.wait.value].entry == i;
    }
  }

  lemma EnvelopeReflects(a: World, c: nat, i: nat, policy: Policy, stale: bool)
    requires c < |a.callers| && i < |a.cache.objects| && Reflects(a.cache.objects[i], a.policies, a.log, i)
    requires a.cache.objects[i].key.kind in a.policies && policy == a.policies[a.cache.objects[i].key.kind]
    requires a.cache.objects[i].hasValue
    ensures EnvelopeFrom(a.cache.objects[i], a.callers[c].point, stale) == LatestEnvelope(a, c, i, policy, stale)
  {
  }

  /** The answer to a caller in the loop. */
  ghost predicate Decided(w: World, v: World, c: nat, i: nat, policy: Policy, now: Time)
    requires c < |w.callers| && c < |v.callers|
  {
    var phase, kind := v.callers[c].phase, w.callers[c].kind;
    var recent, usable := HasWithin(w, i, policy.freshFor, now), HasWithin(w, i, policy.staleFor, now);
    if recent then
      phase == Returned(Served(LatestEnvelope(w, c, i, policy, false))) && v.flights == w.flights
    else if usable then
      && phase == Returned(Served(LatestEnvelope(w, c, i, policy, true)))
      && v.flights == if Busy(w, i) || Penalized(w, i, now) then w.flights
                      else w.flights[w.launched := Flight(i, kind, None)]
    else if Busy(w, i) then
      && phase.Waiting? && phase.channel.Some? && phase.channel.value in w.flights
      && w.flights[phase.channel.value].entry == i && v.flights == w.flights
    else if Penalized(w, i, now) then
      phase == Returned(Refused(Some(Latest(w.log, i).value.outcome.failure))) && v.flights == w.flights
    else phase == Fetching(w.launched) && v.flights == w.flights[w.launched := Flight(i, kind, Some(c))]
  }

  lemma ArrivedTurnDecides(a: World, c: nat, now: Time)
    requires Inv(a) && c < |a.callers| && a.callers[c].phase == Looping
    requires CallerKey(a.callers[c]) in a.cache.entries && Target(a, c) < |a.cache.objects|
    ensures a.callers[c].kind in a.policies
    ensures Decided(a, TurnStep(a, c, now), c, Target(a, c), a.policies[a.callers[c].kind], now)
  {
    var i := Target(a, c);
    var e := a.cache.objects[i];
    assert PhaseFits(a, c, Looping);
    assert Reflects(e, a.policies, a.log, i);
    assert e.key == CallerKey(a.callers[c]);
    var policy := a.policies[a.callers[c].kind];
    EntryReflects(a, i, policy, now);
    if e.hasValue {
      EnvelopeReflects(a, c, i, policy, false);
      EnvelopeReflects(a, c, i, policy, true);
    }
    JudgedTurn(a, c, now, i, policy);
  }

  lemma JudgedTurn(a: World, c: nat, now: Time, i: nat, policy: Policy)
    requires c < |a.callers| && CallerKey(a.callers[c]) in a.cache.entries
    requires Target(a, c) == i < |a.cache.objects| && FlightsMatch(a.cache, a.flights)
    requires var e := a.cache.objects[i];
             && (e.hasValue && now < e.validUntil <==> HasWithin(a, i, policy.freshFor, now))
             && (e.hasValue && now < e.staleUntil <==> HasWithin(a, i, policy.staleFor, now))
             && (e.refreshing <==> Busy(a, i)) && (now < e.retryAfter <==> Penalized(a, i, now))
             && (Penalized(a, i, now) ==> e.lastError == Some(Latest(a.log, i).value.outcome.failure))
             && (e.hasValue ==>
                   && LastSuccess(a.log, i) >= 0
                   && EnvelopeFrom(e, a.callers[c].point, false) == LatestEnvelope(a, c, i, policy, false)
                   && EnvelopeFrom(e, a.callers[c].point, true) == LatestEnvelope(a, c, i, policy, true))
    ensures Decided(a, TurnStep(a, c, now), c, i, policy, now)
  {
  }

  /**
   * Stale while revalidate, in every reachable world: a caller is served at once if the latest success on
   * its object is fresh, and still served, as stale, while it is usable; then a background fetch starts
   * unless one is running or the last failure's delay is not over. With nothing usable the caller waits for
   * the running fetch, is refused with the last failure during its delay, or else fetches itself.
   */
  lemma TurnDecides(w: World, c: nat, now: Time) returns (i: nat, v: World)
    requires Reachable(w) && Enabled(w, Turn(c, now))
    ensures CallerKey(w.callers[c]) in Arrive(w, c).cache.entries && i == Target(Arrive(w, c), c)
    ensures v == Next(w, Turn(c, now)) && |v.callers| == |w.callers| && w.callers[c].kind in w.policies
    ensures Decided(w, v, c, i, w.policies[w.callers[c].kind], now)
  {
    ReachableInv(w);
    ArriveKeeps(w, c);
    var a := Arrive(w, c);
    i, v := Target(a, c), TurnStep(a, c, now);
    ArrivalDecides(w, a, c, now);
  }

  lemma TurnKeepsCallers(a: World, c: nat, now: Time)
    requires c < |a.callers| && CallerKey(a.callers[c]) in a.cache.entries && Target(a, c) < |a.cache.objects|
    ensures |TurnStep(a, c, now).callers| == |a.callers|
  {
  }

  lemma ArrivalDecides(w: World, a: World, c: nat, now: Time)
    requires Inv(a) && c < |a.callers| && a.callers[c].phase == Looping
    requires CallerKey(a.callers[c]) in a.cache.entries && Target(a, c) < |a.cache.objects|
    requires a.log == w.log && a.flights == w.flights && a.callers == w.callers && a.launched == w.launched
    requires a.policies == w.policies
    ensures w.callers[c].kind in w.policies && |TurnStep(a, c, now).callers| == |w.callers|
    ensures Decided(w, TurnStep(a, c, now), c, Target(a, c), w.policies[w.callers[c].kind], now)
  {
    TurnKeepsCallers(a, c, now);
    ArrivedTurnDecides(a, c, now);
    SameDecision(w, a, TurnStep(a, c, now), c, Target(a, c), a.policies[a.callers[c].kind], now);
  }

  /** Decisions are told from the log, the flights and the callers alone. */
  lemma SameDecision(w: World, a: World, v: World, c: nat, i: nat, policy: Policy, now: Time)
    requires a.log == w.log && a.flights == w.flights && a.callers == w.callers && a.launched == w.launched
    requires c < |w.callers| && c < |v.callers| && Decided(a, v, c, i, policy, now)
    ensures Decided(w, v, c, i, policy, now)
  {
  }

  /** When a fetch ends, its owner, and nobody else, learns the outcome. */
  lemma OwnerLearnsOutcome(w: World, f: nat, now: Time, outcome: Outcome, draw: Option<Word>)
    requires Reachable(w) && Enabled(w, Complete(f, now, outcome, draw))
    ensures var v, flight := Next(w, Complete(f, now, outcome, draw)), w.flights[f];
            && |v.callers| == |w.callers|
            && forall c :: 0 <= c < |w.callers| ==>
                 v.callers[c] ==
                 if flight.owner != Some(c) then w.callers[c]
                 else w.callers[c].(phase := match outcome
                                             case Fetched(_) => Delivering(flight.entry)
                                             case Failed(failure) => Returned(Refused(Some(failure))))
  {
    ReachableInv(w);
  }

  // ----- How long an entry stays -----

  lemma {:induction false} DistinctTail(s: seq<string>, n: nat, k: string)
    requires Distinct(s) && n <= |s| && k in s
    ensures k in s[n..] <==> k !in s[..n]
  {
    var i :| 0 <= i < |s| && s[i] == k;
    if i < n {
      assert s[..n][i] == k;
    } else {
      assert s[n..][i - n] == k;
    }
  }

  lemma EvictedIffNotKept(keys: seq<string>, key: string, maximum: int, k: string)
    requires Distinct(keys) && maximum >= 1 && k in keys
    ensures k in Evicted(keys, key, maximum) <==> k !in Touched(keys, key, maximum)
  {
    TouchedKeepsNewest(keys, key, maximum);
    if key !in keys && |keys| + 1 > maximum {
      var all := [key] + keys;
      assert Distinct(all) by {
        assert forall i :: 0 < i < |all| ==> all[i] == keys[i - 1];
      }
      assert all[0] == key && k in all;
      DistinctTail(all, maximum, k);
    }
  }

  /** One step keeps the entry of a key exactly when it keeps the key's location. */
  lemma EntryStaysIffLocationStays(w: World, event: Event, key: Key)
    requires Reachable(w) && Enabled(w, event) && key in w.cache.entries
    ensures var d := Next(w, event).cache;
            key in d.entries && d.entries[key] == w.cache.entries[key] <==> key.location in d.keys
  {
    ReachableInv(w);
    assert key.location in w.cache.keys;
    if event.Turn? {
      var touched := CallerKey(w.callers[event.caller]).location;
      LruRefinesHistory(w.touches, w.maximum);
      EvictedIffNotKept(w.cache.keys, touched, w.maximum, key.location);
      ArrivedEntries(w, event.caller, event.now);
    }
  }

  lemma ArrivedEntries(w: World, c: nat, now: Time)
    requires Enabled(w, Turn(c, now))
    ensures var d, key := Next(w, Turn(c, now)).cache, CallerKey(w.callers[c]);
            && d.keys == Touched(w.cache.keys, key.location, w.maximum)
            && (d.entries == Surviving(w.cache.entries, Evicted(w.cache.keys, key.location, w.maximum))
                || (key !in Surviving(w.cache.entries, Evicted(w.cache.keys, key.location, w.maximum))
                    && d.entries == Surviving(w.cache.entries, Evicted(w.cache.keys, key.location, w.maximum))
                                    [key := |w.cache.objects|]))
  {
  }

  /** The location is among the most recent ones after every event of the run. */
  predicate LocationStays(w: World, events: seq<Event>, location: string)
    requires Run(w, events).Some?
  {
    events == [] ||
    (location in Run(w, events).value.cache.keys && LocationStays(w, events[..|events| - 1], location))
  }

  /** An entry object stays the one its key names for as long as its location is never dropped. */
  lemma {:induction false} EntryStaysWithLocation(w: World, events: seq<Event>, key: Key)
    requires Reachable(w) && Run(w, events).Some? && key in w.cache.entries
    requires LocationStays(w, events, key.location)
    ensures var d := Run(w, events).value.cache; key in d.entries && d.entries[key] == w.cache.entries[key]
    ensures Reachable(Run(w, events).value)
  {
    if events != [] {
      var n := |events| - 1;
      EntryStaysWithLocation(w, events[..n], key);
      ReachableStep(Run(w, events[..n]).value, events[n]);
      EntryStaysIffLocationStays(Run(w, events[..n]).value, events[n], key);
    }
  }

  lemma ReachableStep(w: World, event: Event)
    requires Reachable(w) && Enabled(w, event)
    ensures Reachable(Next(w, event))
  {
    var past :| w.maximum >= 1 && Run(Fresh(w.policies, w.maximum), past) == Some(w);
    var more := past + [event];
    assert more[..|past|] == past;
    assert Run(Fresh(w.policies, w.maximum), more) == Some(Next(w, event));
    ReachableInv(w);
    StepIsLater(w, event);
  }
}
