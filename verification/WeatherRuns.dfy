/**
 * Every interleaving of the weather service. Concurrent calls of Get and background refreshes
 * take lock-held steps in any order; the clock, the provider's answers, the random draws and
 * cancellations are free.
 */
module WeatherRuns {
  import opened Common
  import opened RecencyList
  import opened Backoff
  import opened WeatherCache

  /** A running call of Provider.Fetch. owner is the caller that waits for it; none in background. */
  datatype Flight = Flight(entry: nat, kind: string, owner: Option<nat>)

  datatype Answer = Served(envelope: Envelope) | Refused(error: Option<Failure>) | Unsupported | Cancelled

  datatype Phase =
    | Looping
    | Waiting(channel: Option<nat>)
    | Fetching(flight: nat)
    | Delivering(entry: nat)
    | Returned(answer: Answer)

  datatype Caller = Caller(kind: string, point: Point, phase: Phase)

  /** One call of finishRefresh; attached says whether the map still held the object then. */
  datatype Completion = Completion(
    entry: nat, key: Key, at: Time, outcome: Outcome, draw: Option<Word>, attached: bool)

  datatype World = World(
    policies: map<string, Policy>, maximum: int, cache: Cache, flights: map<nat, Flight>,
    launched: nat, callers: seq<Caller>, touches: seq<string>, log: seq<Completion>)

  datatype Event =
    | Call(kind: string, point: Point)
    | Turn(caller: nat, now: Time)
    | Wake(caller: nat)
    | Cancel(caller: nat)
    | Complete(flight: nat, now: Time, outcome: Outcome, draw: Option<Word>)
    | Deliver(caller: nat)

  function Fresh(policies: map<string, Policy>, maximum: int): World {
    World(policies, maximum, Cache(map[], [], [], 0, []), map[], 0, [], [], [])
  }

  function CallerKey(c: Caller): Key {
    Key(c.point.cacheKey, c.kind)
  }

  function SetPhase(w: World, c: nat, phase: Phase): World
    requires c < |w.callers|
  {
    w.(callers := w.callers[c := w.callers[c].(phase := phase)])
  }

  /** beginRefreshLocked and the start of the fetch it announces. */
  function Launch(w: World, i: nat, kind: string, owner: Option<nat>): World
    requires i < |w.cache.objects|
  {
    w.(cache := BeginRefresh(w.cache, i),
       flights := w.flights[w.launched := Flight(i, kind, owner)], launched := w.launched + 1)
  }

  /** The touch and lookup that begin every turn. */
  function Arrive(w: World, c: nat): World
    requires c < |w.callers|
  {
    var key := CallerKey(w.callers[c]);
    w.(cache := Locate(w.cache, key, w.maximum), touches := w.touches + [key.location])
  }

  /** The entry object a caller's key now names. */
  function Target(w: World, c: nat): nat
    requires c < |w.callers| && CallerKey(w.callers[c]) in w.cache.entries
  {
    w.cache.entries[CallerKey(w.callers[c])]
  }

  function TurnStep(w: World, c: nat, now: Time): World
    requires c < |w.callers| && CallerKey(w.callers[c]) in w.cache.entries
    requires Target(w, c) < |w.cache.objects|
  {
    var i := Target(w, c);
    var e := w.cache.objects[i];
    var caller := w.callers[c];
    match Judge(e, now)
    case FreshHit => SetPhase(w, c, Returned(Served(EnvelopeFrom(e, caller.point, false))))
    case StaleHit(refresh) =>
      SetPhase(if refresh then Launch(w, i, caller.kind, None) else w, c,
               Returned(Served(EnvelopeFrom(e, caller.point, true))))
    case BackingOff => SetPhase(w, c, Returned(Refused(e.lastError)))
    case Join => SetPhase(w, c, Waiting(e.wait))
    case Lead => SetPhase(Launch(w, i, caller.kind, Some(c)), c, Fetching(w.launched))
  }

  function CompleteStep(w: World, f: nat, now: Time, outcome: Outcome, draw: Option<Word>): World
    requires f in w.flights && w.flights[f].entry < |w.cache.objects|
    requires w.flights[f].kind in w.policies
  {
    var flight := w.flights[f];
    var i := flight.entry;
    var key := w.cache.objects[i].key;
    var attached := key in w.cache.entries && w.cache.entries[key] == i;
    var done := w.(
      cache := FinishRefresh(w.cache, i, w.policies[flight.kind], now, outcome, draw),
      flights := w.flights - {f},
      log := w.log + [Completion(i, key, now, outcome, draw, attached)]);
    if flight.owner.Some? && flight.owner.value < |w.callers| then
      SetPhase(done, flight.owner.value,
               match outcome
               case Fetched(_) => Delivering(i)
               case Failed(failure) => Returned(Refused(Some(failure))))
    else done
  }

  predicate Enabled(w: World, event: Event) {
    match event
    case Call(_, _) => true
    case Turn(c, _) =>
      && c < |w.callers| && w.callers[c].phase == Looping
      && var a := Arrive(w, c);
         CallerKey(a.callers[c]) in a.cache.entries && Target(a, c) < |a.cache.objects|
    case Wake(c) =>
      && c < |w.callers| && w.callers[c].phase.Waiting?
      && w.callers[c].phase.channel.Some? && w.callers[c].phase.channel.value in w.cache.closed
    case Cancel(c) => c < |w.callers| && w.callers[c].phase.Waiting?
    case Complete(f, _, _, _) =>
      f in w.flights && w.flights[f].entry < |w.cache.objects| && w.flights[f].kind in w.policies
    case Deliver(c) =>
      && c < |w.callers| && w.callers[c].phase.Delivering?
      && w.callers[c].phase.entry < |w.cache.objects|
  }

  function Next(w: World, event: Event): World
    requires Enabled(w, event)
  {
    match event
    case Call(kind, point) =>
      w.(callers := w.callers + [Caller(kind, point,
           if kind in w.policies then Looping else Returned(Unsupported))])
    case Turn(c, now) => TurnStep(Arrive(w, c), c, now)
    case Wake(c) => SetPhase(w, c, Looping)
    case Cancel(c) => SetPhase(w, c, Returned(Cancelled))
    case Complete(f, now, outcome, draw) => CompleteStep(w, f, now, outcome, draw)
    case Deliver(c) =>
      SetPhase(w, c, Returned(Served(
        EnvelopeFrom(w.cache.objects[w.callers[c].phase.entry], w.callers[c].point, false))))
  }

  /** The world after a run, when every event of it was possible at its turn. */
  function Run(w: World, events: seq<Event>): Option<World> {
    if events == [] then Some(w)
    else
      var n := |events| - 1;
      var before := Run(w, events[..n]);
      if before.Some? && Enabled(before.value, events[n]) then Some(Next(before.value, events[n])) else None
  }

  // ----- Invariant, part 1: who refreshes what -----

  /**
   * Flight f is the one that made channel f; it is unfinished exactly while that channel is open,
   * and exactly then the entry it works for is refreshing and waits on it.
   */
  ghost predicate FlightsMatch(c: Cache, flights: map<nat, Flight>) {
    && (forall f :: f in flights ==>
          && f < c.channels && flights[f].entry < |c.objects|
          && c.objects[flights[f].entry].wait == Some(f))
    && (forall i :: 0 <= i < |c.objects| ==>
          && (c.objects[i].refreshing <==> c.objects[i].wait.Some?)
          && (c.objects[i].wait.Some? ==>
                c.objects[i].wait.value in flights && flights[c.objects[i].wait.value].entry == i))
  }

  ghost predicate ClosedOnce(channels: nat, closed: seq<nat>, flights: map<nat, Flight>) {
    && Distinct(closed)
    && (forall n :: 0 <= n < |closed| ==> closed[n] < channels && closed[n] !in flights)
    && (forall ch: nat :: ch < channels && ch !in flights ==> ch in closed)
  }

  /** Flights carry the kind of their entry, and an owner that is waiting for them. */
  ghost predicate FlightsCrewed(w: World) {
    forall f :: f in w.flights ==>
      && w.flights[f].entry < |w.cache.objects|
      && w.flights[f].kind in w.policies
      && w.flights[f].kind == w.cache.objects[w.flights[f].entry].key.kind
      && (w.flights[f].owner.Some? ==>
            && w.flights[f].owner.value < |w.callers|
            && w.callers[w.flights[f].owner.value].phase == Fetching(f))
  }

  ghost predicate PhaseFits(w: World, c: nat, phase: Phase)
    requires c < |w.callers|
  {
    match phase
    case Looping => w.callers[c].kind in w.policies
    case Waiting(ch) => w.callers[c].kind in w.policies && ch.Some? && ch.value < w.cache.channels
    case Fetching(f) => f in w.flights && w.flights[f].owner == Some(c)
    case Delivering(i) => i < |w.cache.objects| && w.cache.objects[i].hasValue
    case Returned(_) => true
  }

  ghost predicate CallersFit(w: World) {
    forall c :: 0 <= c < |w.callers| ==> PhaseFits(w, c, w.callers[c].phase)
  }

  // ----- Invariant, part 2: what the entries hold -----

  /** Position of the latest successful completion on object i, or -1. */
  function LastSuccess(log: seq<Completion>, i: nat): int
    ensures -1 <= LastSuccess(log, i) < |log|
    ensures LastSuccess(log, i) >= 0 ==>
              log[LastSuccess(log, i)].entry == i && log[LastSuccess(log, i)].outcome.Fetched?
    ensures forall n :: LastSuccess(log, i) < n < |log| && log[n].entry == i ==> log[n].outcome.Failed?
  {
    if log == [] then -1
    else if log[|log| - 1].entry == i && log[|log| - 1].outcome.Fetched? then |log| - 1
    else LastSuccess(log[..|log| - 1], i)
  }

  /** Position of the latest successful completion for a key on any object, or -1. */
  function LastSuccessForKey(log: seq<Completion>, key: Key): int
    ensures -1 <= LastSuccessForKey(log, key) < |log|
    ensures LastSuccessForKey(log, key) >= 0 ==>
              log[LastSuccessForKey(log, key)].key == key && log[LastSuccessForKey(log, key)].outcome.Fetched?
    ensures forall n :: LastSuccessForKey(log, key) < n < |log| && log[n].key == key ==> log[n].outcome.Failed?
  {
    if log == [] then -1
    else if log[|log| - 1].key == key && log[|log| - 1].outcome.Fetched? then |log| - 1
    else LastSuccessForKey(log[..|log| - 1], key)
  }

  /** How many completions on object i failed since its latest success. */
  function Streak(log: seq<Completion>, i: nat): nat {
    if log == [] then 0
    else
      var rest, last := log[..|log| - 1], log[|log| - 1];
      if last.entry != i then Streak(rest, i)
      else if last.outcome.Fetched? then 0
      else Streak(rest, i) + 1
  }

  /** The latest completion on object i. */
  function Latest(log: seq<Completion>, i: nat): Option<Completion> {
    if log == [] then None
    else if log[|log| - 1].entry == i then Some(log[|log| - 1])
    else Latest(log[..|log| - 1], i)
  }

  function Penalty(latest: Option<Completion>, streak: nat): (Option<Failure>, int) {
    if latest.Some? && latest.value.outcome.Failed? then
      var failure := latest.value.outcome.failure;
      (Some(failure), latest.value.at + RetryDelay(failure, streak % WORD, latest.value.draw))
    else (None, 0)
  }

  /** The entry's value, error and backoff fields are exactly what the log of completions says. */
  ghost predicate Reflects(e: Entry, policies: map<string, Policy>, log: seq<Completion>, i: nat) {
    var n := LastSuccess(log, i);
    && (e.hasValue <==> n >= 0)
    && (e.hasValue ==>
          && e.key.kind in policies
          && e.result == log[n].outcome.result && e.fetchedAt == log[n].at
          && e.validUntil == log[n].at + policies[e.key.kind].freshFor
          && e.staleUntil == log[n].at + policies[e.key.kind].staleFor)
    && e.failures == Streak(log, i) % WORD
    && (e.lastError, e.retryAfter) == Penalty(Latest(log, i), Streak(log, i))
  }

  ghost predicate Logged(w: World) {
    && (forall i :: 0 <= i < |w.cache.objects| ==> Reflects(w.cache.objects[i], w.policies, w.log, i))
    && (forall n :: 0 <= n < |w.log| ==>
          w.log[n].entry < |w.cache.objects| && w.log[n].key == w.cache.objects[w.log[n].entry].key)
  }

  /** A completion on a detached object, and one superseded by another object, is never resident again. */
  ghost predicate Attachment(c: Cache, log: seq<Completion>) {
    && (forall n :: 0 <= n < |log| ==> log[n].entry < |c.objects|)
    && (forall n :: 0 <= n < |log| && !log[n].attached ==> !Resident(c, log[n].entry))
    && (forall m, n :: (0 <= m < n < |log| && log[m].key == log[n].key && log[n].attached
                        && log[m].entry != log[n].entry) ==> !Resident(c, log[m].entry))
  }

  ghost predicate Inv(w: World) {
    && w.maximum >= 1 && w.launched == w.cache.channels
    && Indexed(w.cache)
    && w.cache.keys == AfterTouches(w.touches, w.maximum)
    && FlightsMatch(w.cache, w.flights)
    && ClosedOnce(w.cache.channels, w.cache.closed, w.flights)
    && FlightsCrewed(w)
    && CallersFit(w)
    && Logged(w)
    && Attachment(w.cache, w.log)
  }

  // ----- Each primitive step keeps each part -----

  /** What arriving does to the entry objects: nothing, or one new empty one at the end. */
  ghost predicate Grown(c: Cache, d: Cache) {
    && d.channels == c.channels && d.closed == c.closed
    && |c.objects| <= |d.objects| <= |c.objects| + 1
    && (forall i :: 0 <= i < |c.objects| ==> d.objects[i] == c.objects[i])
    && (forall i :: |c.objects| <= i < |d.objects| ==> d.objects[i] == NewEntry(d.objects[i].key))
    && (forall i :: 0 <= i < |c.objects| && Resident(d, i) ==> Resident(c, i))
  }

  lemma ArriveGrows(c: Cache, key: Key, maximum: int)
    requires Indexed(c) && maximum >= 1
    ensures Grown(c, Locate(c, key, maximum)) && Indexed(Locate(c, key, maximum))
    ensures key in Locate(c, key, maximum).entries
  {
    LocateIndexed(c, key, maximum);
  }

  lemma GrownFlights(c: Cache, d: Cache, flights: map<nat, Flight>)
    requires Grown(c, d) && FlightsMatch(c, flights)
    ensures FlightsMatch(d, flights)
  {
  }

  lemma GrownAttachment(c: Cache, d: Cache, log: seq<Completion>)
    requires Grown(c, d) && Attachment(c, log)
    ensures Attachment(d, log)
  {
  }

  lemma GrownLogged(w: World, v: World)
    requires Grown(w.cache, v.cache) && Logged(w) && v.log == w.log && v.policies == w.policies
    ensures Logged(v)
  {
    forall i | 0 <= i < |v.cache.objects| ensures Reflects(v.cache.objects[i], v.policies, v.log, i) {
      if i < |w.cache.objects| {
        assert Reflects(w.cache.objects[i], w.policies, w.log, i);
      } else {
        UntouchedByLog(w.log, i);
      }
    }
  }

  lemma {:induction false} UntouchedByLog(log: seq<Completion>, i: nat)
    requires forall n :: 0 <= n < |log| ==> log[n].entry != i
    ensures LastSuccess(log, i) == -1 && Streak(log, i) == 0 && Latest(log, i) == None
  {
    if log != [] {
      UntouchedByLog(log[..|log| - 1], i);
    }
  }

  lemma GrownCrew(w: World, v: World)
    requires Grown(w.cache, v.cache) && FlightsCrewed(w) && CallersFit(w)
    requires v.callers == w.callers && v.flights == w.flights && v.policies == w.policies
    ensures FlightsCrewed(v) && CallersFit(v)
  {
  }

  lemma ArriveKeeps(w: World, c: nat)
    requires Inv(w) && c < |w.callers|
    ensures Inv(Arrive(w, c))
    ensures CallerKey(w.callers[c]) in Arrive(w, c).cache.entries
  {
    var v, key := Arrive(w, c), CallerKey(w.callers[c]);
    ArriveGrows(w.cache, key, w.maximum);
    GrownFlights(w.cache, v.cache, w.flights);
    GrownAttachment(w.cache, v.cache, w.log);
    GrownLogged(w, v);
    GrownCrew(w, v);
    assert v.touches[..|v.touches| - 1] == w.touches;
  }

  /** Objects that differ only in who refreshes them. */
  ghost predicate SameValues(c: Cache, d: Cache) {
    && |d.objects| == |c.objects| && d.entries == c.entries && d.keys == c.keys
    && forall i :: 0 <= i < |c.objects| ==>
         d.objects[i] == c.objects[i].(refreshing := d.objects[i].refreshing, wait := d.objects[i].wait)
  }

  lemma LaunchFlights(c: Cache, flights: map<nat, Flight>, flight: Flight)
    requires FlightsMatch(c, flights) && ClosedOnce(c.channels, c.closed, flights)
    requires flight.entry < |c.objects| && !c.objects[flight.entry].refreshing
    ensures var d := BeginRefresh(c, flight.entry);
            && SameValues(c, d)
            && FlightsMatch(d, flights[c.channels := flight])
            && ClosedOnce(d.channels, d.closed, flights[c.channels := flight])
  {
  }

  lemma SameValuesLogged(w: World, v: World)
    requires SameValues(w.cache, v.cache) && Logged(w) && Attachment(w.cache, w.log) && Indexed(w.cache)
    requires v.log == w.log && v.policies == w.policies
    ensures Logged(v) && Attachment(v.cache, v.log) && Indexed(v.cache)
  {
    forall i | 0 <= i < |v.cache.objects| ensures Reflects(v.cache.objects[i], v.policies, v.log, i) {
      assert Reflects(w.cache.objects[i], w.policies, w.log, i);
    }
  }

  /** The caller's new phase, when the flights already account for it. */
  lemma PhaseKeeps(w: World, c: nat, phase: Phase)
    requires Inv(w) && c < |w.callers| && !w.callers[c].phase.Fetching? && !phase.Fetching?
    requires PhaseFits(w, c, phase)
    ensures Inv(SetPhase(w, c, phase))
  {
    var v := SetPhase(w, c, phase);
    assert Logged(v) by { assert Logged(w); }
    assert CallersFit(v) && FlightsCrewed(v);
  }

  /** A caller in the loop launches a fetch, in the background or as its leader. */
  ghost predicate Launches(w: World, v: World, c: nat, i: nat, owner: Option<nat>, phase: Phase) {
    && i < |w.cache.objects| && c < |w.callers| && w.callers[c].phase == Looping
    && w.callers[c].kind == w.cache.objects[i].key.kind
    && (if owner == None then phase.Returned? else owner == Some(c) && phase == Fetching(w.launched))
    && v == SetPhase(Launch(w, i, w.callers[c].kind, owner), c, phase)
  }

  lemma LaunchedFlightsCrewed(w: World, v: World, c: nat, i: nat, owner: Option<nat>, phase: Phase)
    requires Launches(w, v, c, i, owner, phase) && FlightsCrewed(w) && w.callers[c].kind in w.policies
    ensures FlightsCrewed(v)
  {
    forall f | f in w.flights && f != w.launched ensures f in v.flights && v.flights[f] == w.flights[f] {
    }
  }

  lemma LaunchedCallersFit(w: World, v: World, c: nat, i: nat, owner: Option<nat>, phase: Phase)
    requires Launches(w, v, c, i, owner, phase) && CallersFit(w) && w.launched !in w.flights
    requires w.launched == w.cache.channels
    ensures CallersFit(v)
  {
    forall d | 0 <= d < |v.callers| ensures PhaseFits(v, d, v.callers[d].phase) {
      assert PhaseFits(w, d, w.callers[d].phase);
    }
  }

  lemma LaunchCrew(w: World, v: World, c: nat, i: nat, owner: Option<nat>, phase: Phase)
    requires Launches(w, v, c, i, owner, phase)
    requires FlightsCrewed(w) && CallersFit(w) && FlightsMatch(w.cache, w.flights)
    requires w.launched == w.cache.channels
    ensures FlightsCrewed(v) && CallersFit(v)
  {
    assert w.launched !in w.flights;
    assert PhaseFits(w, c, Looping);
    LaunchedFlightsCrewed(w, v, c, i, owner, phase);
    LaunchedCallersFit(w, v, c, i, owner, phase);
  }

  lemma LaunchKeeps(w: World, v: World, c: nat, i: nat, owner: Option<nat>, phase: Phase)
    requires Inv(w) && Launches(w, v, c, i, owner, phase) && !w.cache.objects[i].refreshing
    ensures Inv(v)
  {
    LaunchFlights(w.cache, w.flights, Flight(i, w.callers[c].kind, owner));
    SameValuesLogged(w, v);
    LaunchCrew(w, v, c, i, owner, phase);
  }

  lemma TurnKeeps(w: World, c: nat, now: Time)
    requires Inv(w) && c < |w.callers| && w.callers[c].phase == Looping
    requires CallerKey(w.callers[c]) in w.cache.entries && Target(w, c) < |w.cache.objects|
    ensures Inv(TurnStep(w, c, now))
  {
    var i := Target(w, c);
    var e := w.cache.objects[i];
    var v := TurnStep(w, c, now);
    assert e.key == CallerKey(w.callers[c]);
    match Judge(e, now)
    case FreshHit => PhaseKeeps(w, c, v.callers[c].phase);
    case StaleHit(refresh) =>
      if refresh {
        LaunchKeeps(w, v, c, i, None, v.callers[c].phase);
      } else {
        PhaseKeeps(w, c, v.callers[c].phase);
      }
    case BackingOff => PhaseKeeps(w, c, v.callers[c].phase);
    case Join =>
      assert PhaseFits(w, c, Looping);
      PhaseKeeps(w, c, Waiting(e.wait));
    case Lead => LaunchKeeps(w, v, c, i, Some(c), Fetching(w.launched));
  }

  lemma FinishFlights(c: Cache, flights: map<nat, Flight>, f: nat, policy: Policy, now: Time,
                      outcome: Outcome, draw: Option<Word>)
    requires FlightsMatch(c, flights) && ClosedOnce(c.channels, c.closed, flights) && f in flights
    ensures var d := FinishRefresh(c, flights[f].entry, policy, now, outcome, draw);
            FlightsMatch(d, flights - {f}) && ClosedOnce(d.channels, d.closed, flights - {f})
  {
    var d := FinishRefresh(c, flights[f].entry, policy, now, outcome, draw);
    assert d.closed == c.closed + [f];
  }

  lemma RecordReflects(e: Entry, policies: map<string, Policy>, log: seq<Completion>, r: Completion)
    requires Reflects(e, policies, log, r.entry) && e.key.kind in policies
    ensures Reflects(Record(e, policies[e.key.kind], r.at, r.outcome, r.draw).(refreshing := false, wait := None),
                     policies, log + [r], r.entry)
  {
    LogExtends(log, r);
    StreakWraps(Streak(log, r.entry));
  }

  lemma LogExtends(log: seq<Completion>, r: Completion)
    ensures var more := log + [r];
            && LastSuccess(more, r.entry) == (if r.outcome.Fetched? then |log| else LastSuccess(log, r.entry))
            && Streak(more, r.entry) == (if r.outcome.Fetched? then 0 else Streak(log, r.entry) + 1)
            && Latest(more, r.entry) == Some(r)
            && more[|log|] == r && forall n :: 0 <= n < |log| ==> more[n] == log[n]
  {
    assert (log + [r])[..|log|] == log;
  }

  /** The failure counter is a machine word: it counts modulo 2^64. */
  lemma StreakWraps(streak: nat)
    ensures (streak % WORD + 1) % WORD == (streak + 1) % WORD
  {
  }

  lemma OtherReflects(e: Entry, policies: map<string, Policy>, log: seq<Completion>, r: Completion, i: nat)
    requires Reflects(e, policies, log, i) && r.entry != i
    ensures Reflects(e, policies, log + [r], i)
  {
    assert (log + [r])[..|log|] == log;
  }

  lemma FinishReflects(objects: seq<Entry>, policies: map<string, Policy>, log: seq<Completion>, r: Completion)
    requires r.entry < |objects| && objects[r.entry].key.kind in policies
    requires forall i :: 0 <= i < |objects| ==> Reflects(objects[i], policies, log, i)
    ensures var e := objects[r.entry];
            var done := Record(e, policies[e.key.kind], r.at, r.outcome, r.draw);
            var more := objects[r.entry := done.(refreshing := false, wait := None)];
            forall i :: 0 <= i < |more| ==> Reflects(more[i], policies, log + [r], i)
  {
    RecordReflects(objects[r.entry], policies, log, r);
    forall i | 0 <= i < |objects| && i != r.entry ensures Reflects(objects[i], policies, log + [r], i) {
      OtherReflects(objects[i], policies, log, r, i);
    }
  }

  lemma FinishAttachment(c: Cache, d: Cache, log: seq<Completion>, r: Completion)
    requires Attachment(c, log) && d.entries == c.entries && |d.objects| == |c.objects|
    requires forall i :: 0 <= i < |c.objects| ==> d.objects[i].key == c.objects[i].key
    requires forall n :: 0 <= n < |log| ==> log[n].key == c.objects[log[n].entry].key
    requires r.entry < |c.objects| && r.key == c.objects[r.entry].key
    requires r.attached <==> Resident(c, r.entry)
    ensures Attachment(d, log + [r])
  {
  }

  lemma CompleteObjects(w: World, f: nat, now: Time, outcome: Outcome, draw: Option<Word>)
    requires FlightsCrewed(w) && f in w.flights
    ensures var i := w.flights[f].entry;
            var e := w.cache.objects[i];
            var v := CompleteStep(w, f, now, outcome, draw);
            && e.key.kind in w.policies
            && v.cache.objects == w.cache.objects[i :=
                 Record(e, w.policies[e.key.kind], now, outcome, draw).(refreshing := false, wait := None)]
            && forall j :: 0 <= j < |v.cache.objects| ==> v.cache.objects[j].key == w.cache.objects[j].key
  {
  }

  lemma CompleteLogged(w: World, f: nat, now: Time, outcome: Outcome, draw: Option<Word>)
    requires Logged(w) && FlightsCrewed(w) && f in w.flights
    ensures Logged(CompleteStep(w, f, now, outcome, draw))
  {
    var i, v := w.flights[f].entry, CompleteStep(w, f, now, outcome, draw);
    var r := v.log[|w.log|];
    assert v.log == w.log + [r] && r.entry == i && r.key == w.cache.objects[i].key;
    CompleteObjects(w, f, now, outcome, draw);
    FinishReflects(w.cache.objects, w.policies, w.log, r);
    forall j | 0 <= j < |v.cache.objects| ensures Reflects(v.cache.objects[j], v.policies, v.log, j) {
    }
  }

  lemma CompleteAttachment(w: World, f: nat, now: Time, outcome: Outcome, draw: Option<Word>)
    requires FlightsCrewed(w) && f in w.flights && Attachment(w.cache, w.log) && Indexed(w.cache)
    requires forall n :: 0 <= n < |w.log| ==> w.log[n].key == w.cache.objects[w.log[n].entry].key
    ensures var v := CompleteStep(w, f, now, outcome, draw);
            Attachment(v.cache, v.log) && Indexed(v.cache)
  {
    var v := CompleteStep(w, f, now, outcome, draw);
    CompleteObjects(w, f, now, outcome, draw);
    FinishAttachment(w.cache, v.cache, w.log, v.log[|w.log|]);
  }

  /** Objects keep their keys and their values, or get one. */
  ghost predicate Enriched(c: Cache, d: Cache) {
    && |d.objects| == |c.objects| && d.channels == c.channels
    && forall j :: 0 <= j < |c.objects| ==>
         d.objects[j].key == c.objects[j].key && (c.objects[j].hasValue ==> d.objects[j].hasValue)
  }

  /** One flight ends, and its owner, if it has one, goes on to the given phase. */
  ghost predicate Ends(w: World, v: World, f: nat, phase: Phase) {
    && f in w.flights && v.flights == w.flights - {f} && v.policies == w.policies && Enriched(w.cache, v.cache)
    && |v.callers| == |w.callers|
    && forall c :: 0 <= c < |w.callers| ==>
         v.callers[c] == if w.flights[f].owner == Some(c) then w.callers[c].(phase := phase) else w.callers[c]
  }

  lemma EndedFlightsCrewed(w: World, v: World, f: nat, phase: Phase)
    requires Ends(w, v, f, phase) && FlightsCrewed(w)
    ensures FlightsCrewed(v)
  {
    forall g | g in v.flights ensures v.flights[g] == w.flights[g] && g != f {
    }
  }

  lemma EndedCallersFit(w: World, v: World, f: nat, phase: Phase)
    requires Ends(w, v, f, phase) && CallersFit(w) && FlightsCrewed(w)
    requires phase.Returned? || (phase.Delivering? && phase.entry < |v.cache.objects|
                                 && v.cache.objects[phase.entry].hasValue)
    ensures CallersFit(v)
  {
    forall c | 0 <= c < |v.callers| ensures PhaseFits(v, c, v.callers[c].phase) {
      assert PhaseFits(w, c, w.callers[c].phase);
    }
  }

  lemma CompleteEnds(w: World, f: nat, now: Time, outcome: Outcome, draw: Option<Word>) returns (phase: Phase)
    requires FlightsCrewed(w) && f in w.flights
    ensures var v := CompleteStep(w, f, now, outcome, draw);
            && Ends(w, v, f, phase)
            && (phase.Returned? || (phase.Delivering? && phase.entry < |v.cache.objects|
                                    && v.cache.objects[phase.entry].hasValue))
  {
    phase := match outcome
      case Fetched(_) => Delivering(w.flights[f].entry)
      case Failed(failure) => Returned(Refused(Some(failure)));
  }

  lemma CompleteCrew(w: World, f: nat, now: Time, outcome: Outcome, draw: Option<Word>)
    requires FlightsCrewed(w) && CallersFit(w) && f in w.flights
    ensures var v := CompleteStep(w, f, now, outcome, draw); FlightsCrewed(v) && CallersFit(v)
  {
    var v := CompleteStep(w, f, now, outcome, draw);
    var phase := CompleteEnds(w, f, now, outcome, draw);
    EndedFlightsCrewed(w, v, f, phase);
    EndedCallersFit(w, v, f, phase);
  }

  lemma CompleteKeeps(w: World, f: nat, now: Time, outcome: Outcome, draw: Option<Word>)
    requires Inv(w) && f in w.flights
    ensures Inv(CompleteStep(w, f, now, outcome, draw))
  {
    CompleteLogged(w, f, now, outcome, draw);
    CompleteAttachment(w, f, now, outcome, draw);
    CompleteCrew(w, f, now, outcome, draw);
    FinishFlights(w.cache, w.flights, f, w.policies[w.flights[f].kind], now, outcome, draw);
  }

  lemma CallKeeps(w: World, kind: string, point: Point)
    requires Inv(w)
    ensures Inv(Next(w, Call(kind, point)))
  {
    var v := Next(w, Call(kind, point));
    assert Logged(v) by { assert Logged(w); }
    forall c | 0 <= c < |v.callers| ensures PhaseFits(v, c, v.callers[c].phase) {
      assert c < |w.callers| ==> PhaseFits(w, c, w.callers[c].phase);
    }
  }

  lemma StepKeeps(w: World, event: Event)
    requires Inv(w) && Enabled(w, event)
    ensures Inv(Next(w, event))
  {
    match event
    case Call(kind, point) => CallKeeps(w, kind, point);
    case Turn(c, now) => ArriveKeeps(w, c); TurnKeeps(Arrive(w, c), c, now);
    case Wake(c) => assert PhaseFits(w, c, w.callers[c].phase); PhaseKeeps(w, c, Looping);
    case Cancel(c) => PhaseKeeps(w, c, Returned(Cancelled));
    case Complete(f, now, outcome, draw) => CompleteKeeps(w, f, now, outcome, draw);
    case Deliver(c) => PhaseKeeps(w, c, Next(w, event).callers[c].phase);
  }

  lemma {:induction false} RunKeeps(w: World, events: seq<Event>)
    requires Inv(w) && Run(w, events).Some?
    ensures Inv(Run(w, events).value)
  {
    if events != [] {
      RunKeeps(w, events[..|events| - 1]);
      StepKeeps(Run(w, events[..|events| - 1]).value, events[|events| - 1]);
    }
  }
}
