/** What the weather service guarantees in every interleaving. */
module WeatherTheorems {
  import opened Common
  import opened RecencyList
  import opened Backoff
  import opened WeatherCache
  import opened WeatherRuns

  ghost predicate Reachable(w: World) {
    exists events :: w.maximum >= 1 && Run(Fresh(w.policies, w.maximum), events) == Some(w)
  }

  lemma ReachableInv(w: World)
    requires Reachable(w)
    ensures Inv(w)
  {
    var events :| Run(Fresh(w.policies, w.maximum), events) == Some(w);
    RunKeeps(Fresh(w.policies, w.maximum), events);
  }

  // ----- Single flight -----

  ghost function Owners(w: World, i: nat): set<nat> {
    set f | f in w.flights && w.flights[f].entry == i
  }

  /**
   * Per entry object, evicted or not: it is refreshing exactly when it has a wait channel and exactly
   * when one unfinished fetch works for it. Every wait channel ever made has been closed once if its
   * fetch finished, and not yet otherwise, so no channel is closed twice.
   */
  lemma SingleFlight(w: World)
    requires Reachable(w)
    ensures forall i :: 0 <= i < |w.cache.objects| ==>
              && (w.cache.objects[i].refreshing <==> w.cache.objects[i].wait.Some?)
              && |Owners(w, i)| == if w.cache.objects[i].refreshing then 1 else 0
    ensures forall ch: nat :: ch < w.cache.channels ==>
              multiset(w.cache.closed)[ch] == if ch in w.flights then 0 else 1
  {
    ReachableInv(w);
    forall i | 0 <= i < |w.cache.objects|
      ensures |Owners(w, i)| == if w.cache.objects[i].refreshing then 1 else 0
    {
      var e := w.cache.objects[i];
      assert Owners(w, i) == if e.refreshing then {e.wait.value} else {};
    }
    forall ch: nat | ch < w.cache.channels
      ensures multiset(w.cache.closed)[ch] == if ch in w.flights then 0 else 1
    {
      DistinctOnce(w.cache.closed, ch);
    }
  }

  /**
   * No lost wakeup: a waiting caller can go on, or a fetch is still running whose completion,
   * whatever it brings, lets it go on.
   */
  lemma NoLostWakeup(w: World, c: nat, now: Time, outcome: Outcome, draw: Option<Word>)
    requires Reachable(w) && c < |w.callers| && w.callers[c].phase.Waiting?
    ensures || Enabled(w, Wake(c))
            || exists f :: Enabled(w, Complete(f, now, outcome, draw))
                           && Enabled(Next(w, Complete(f, now, outcome, draw)), Wake(c))
  {
    ReachableInv(w);
    assert PhaseFits(w, c, w.callers[c].phase);
    var ch := w.callers[c].phase.channel.value;
    if ch in w.flights {
      var event := Complete(ch, now, outcome, draw);
      assert Enabled(w, event);
      var v := Next(w, event);
      assert v.cache.closed == w.cache.closed + [ch];
      assert w.flights[ch].owner.Some? ==> w.flights[ch].owner.value != c;
      assert v.callers[c].phase == w.callers[c].phase;
      assert ch in v.cache.closed;
    }
  }

  /**
   * No caller is ever stuck: one in the loop can take its turn, one that waits is let go on, one that
   * fetches goes on as soon as its fetch ends, and one whose fetch succeeded can take the result.
   */
  lemma NoCallerIsStuck(w: World, c: nat, now: Time, outcome: Outcome, draw: Option<Word>)
    requires Reachable(w) && c < |w.callers|
    ensures match w.callers[c].phase
            case Looping => Enabled(w, Turn(c, now))
            case Waiting(_) =>
              || Enabled(w, Wake(c))
              || exists f :: Enabled(w, Complete(f, now, outcome, draw))
                             && Enabled(Next(w, Complete(f, now, outcome, draw)), Wake(c))
            case Fetching(f) =>
              && Enabled(w, Complete(f, now, outcome, draw))
              && var v := Next(w, Complete(f, now, outcome, draw));
                 c < |v.callers| && (if outcome.Fetched? then Enabled(v, Deliver(c)) else v.callers[c].phase.Returned?)
            case Delivering(_) => Enabled(w, Deliver(c))
            case Returned(_) => true
  {
    ReachableInv(w);
    assert PhaseFits(w, c, w.callers[c].phase);
    match w.callers[c].phase
    case Looping => ArriveGrows(w.cache, CallerKey(w.callers[c]), w.maximum);
    case Waiting(_) => NoLostWakeup(w, c, now, outcome, draw);
    case _ =>
  }

  // ----- Recency -----

  /**
   * The cached locations are the `maximum` most recently touched ones of the whole run, in recency
   * order, and an entry is kept only for a cached location.
   */
  lemma CachedLocationsAreMostRecent(w: World)
    requires Reachable(w)
    ensures var keys := w.cache.keys;
            && Distinct(keys) && LatestFirst(keys, w.touches) && |keys| <= w.maximum
            && (|keys| == w.maximum || forall k :: k in w.touches ==> k in keys)
            && (forall k, d :: k in keys && d in w.touches && d !in keys ==>
                  LastTouch(w.touches, k) > LastTouch(w.touches, d))
            && forall key :: key in w.cache.entries ==> key.location in keys
  {
    ReachableInv(w);
    LruRefinesHistory(w.touches, w.maximum);
  }

  // ----- What a hit serves -----

  ghost predicate Hit(w: World, c: nat, now: Time) {
    && Enabled(w, Turn(c, now))
    && var phase := Next(w, Turn(c, now)).callers[c].phase;
       phase.Returned? && phase.answer.Served?
  }

  /**
   * A hit carries the latest successful fetch recorded on the entry object its key names, inside
   * the window its staleness flag announces. It is also the latest success for the key on any
   * object exactly when that latest success found its object still in the map.
   */
  lemma HitServesLatest(w: World, c: nat, now: Time)
    requires Reachable(w) && Hit(w, c, now)
    ensures var key := CallerKey(w.callers[c]);
            var envelope := Next(w, Turn(c, now)).callers[c].phase.answer.envelope;
            var n := LastSuccess(w.log, Target(Arrive(w, c), c));
            var k := LastSuccessForKey(w.log, key);
            && n >= 0 && k >= 0 && key.kind in w.policies
            && envelope.point == w.callers[c].point
            && envelope.data == w.log[n].outcome.result.data && envelope.fetchedAt == w.log[n].at
            && envelope.validUntil == w.log[n].at + w.policies[key.kind].freshFor
            && (!envelope.stale ==> now < w.log[n].at + w.policies[key.kind].freshFor)
            && (envelope.stale ==>
                  w.log[n].at + w.policies[key.kind].freshFor <= now
                  < w.log[n].at + w.policies[key.kind].staleFor)
            && (n == k <==> w.log[k].attached)
  {
    ReachableInv(w);
    ArriveKeeps(w, c);
    var a := Arrive(w, c);
    var i := Target(a, c);
    var e := a.cache.objects[i];
    assert Reflects(e, a.policies, a.log, i);
    assert Judge(e, now).FreshHit? || Judge(e, now).StaleHit?;
    LatestForKey(a, CallerKey(w.callers[c]));
  }

  lemma LatestForKey(a: World, key: Key)
    requires Inv(a) && key in a.cache.entries
    requires a.cache.entries[key] < |a.cache.objects| && LastSuccess(a.log, a.cache.entries[key]) >= 0
    ensures var n, k := LastSuccess(a.log, a.cache.entries[key]), LastSuccessForKey(a.log, key);
            k >= n && (n == k <==> a.log[k].attached)
  {
    var i := a.cache.entries[key];
    var n, k := LastSuccess(a.log, i), LastSuccessForKey(a.log, key);
    assert a.log[n].key == key;
    assert Resident(a.cache, i);
    if a.log[k].entry == i {
      assert n == k;
    } else {
      assert a.log[n].entry != a.log[k].entry && n < k;
    }
  }

  // ----- What steps leave alone -----

  /** Policies never change, objects are only added, and the log only grows. */
  ghost predicate Later(w: World, v: World) {
    && v.policies == w.policies && v.maximum == w.maximum && w.log <= v.log
    && |w.cache.objects| <= |v.cache.objects|
    && forall i :: 0 <= i < |w.cache.objects| ==> v.cache.objects[i].key == w.cache.objects[i].key
  }

  lemma TurnStepIsLater(w: World, c: nat, now: Time)
    requires c < |w.callers| && CallerKey(w.callers[c]) in w.cache.entries
    requires Target(w, c) < |w.cache.objects|
    ensures Later(w, TurnStep(w, c, now))
  {
  }

  lemma TurnIsLater(w: World, c: nat, now: Time)
    requires Indexed(w.cache) && w.maximum >= 1 && Enabled(w, Turn(c, now))
    ensures Later(w, Next(w, Turn(c, now)))
  {
    ArriveGrows(w.cache, CallerKey(w.callers[c]), w.maximum);
    TurnStepIsLater(Arrive(w, c), c, now);
    LaterChains(w, Arrive(w, c), Next(w, Turn(c, now)));
  }

  lemma LaterChains(u: World, v: World, w: World)
    requires Later(u, v) && Later(v, w)
    ensures Later(u, w)
  {
  }

  lemma CompleteIsLater(w: World, f: nat, now: Time, outcome: Outcome, draw: Option<Word>)
    requires Enabled(w, Complete(f, now, outcome, draw))
    ensures Later(w, CompleteStep(w, f, now, outcome, draw))
  {
  }

  lemma StepIsLater(w: World, event: Event)
    requires Indexed(w.cache) && w.maximum >= 1 && Enabled(w, event)
    ensures Later(w, Next(w, event))
  {
    match event
    case Turn(c, now) => TurnIsLater(w, c, now);
    case Complete(f, now, outcome, draw) => CompleteIsLater(w, f, now, outcome, draw);
    case _ =>
  }

  lemma {:induction false} RunIsLater(w: World, events: seq<Event>)
    requires Inv(w) && Run(w, events).Some?
    ensures Later(w, Run(w, events).value) && Inv(Run(w, events).value)
  {
    if events != [] {
      RunIsLater(w, events[..|events| - 1]);
      StepIsLater(Run(w, events[..|events| - 1]).value, events[|events| - 1]);
      RunKeeps(w, events);
    }
  }

  /** No completion on object i in the given stretch of a log. */
  ghost predicate Quiet(log: seq<Completion>, from: nat, i: nat) {
    forall n :: from <= n < |log| ==> log[n].entry != i
  }

  lemma {:induction false} QuietLog(log: seq<Completion>, from: nat, i: nat)
    requires from <= |log| && Quiet(log, from, i)
    ensures LastSuccess(log, i) == LastSuccess(log[..from], i)
    ensures Streak(log, i) == Streak(log[..from], i) && Latest(log, i) == Latest(log[..from], i)
  {
    if from < |log| {
      var rest := log[..|log| - 1];
      assert rest[..from] == log[..from];
      QuietLog(rest, from, i);
    } else {
      assert log[..from] == log;
    }
  }

  lemma {:induction false} FailuresLog(log: seq<Completion>, from: nat, i: nat)
    requires from <= |log|
    requires forall n :: from <= n < |log| && log[n].entry == i ==> log[n].outcome.Failed?
    ensures LastSuccess(log, i) == LastSuccess(log[..from], i)
  {
    if from < |log| {
      var rest := log[..|log| - 1];
      assert rest[..from] == log[..from];
      FailuresLog(rest, from, i);
    } else {
      assert log[..from] == log;
    }
  }

  /**
   * Any run in which no refresh of an entry succeeds, however many fail, leaves its value and both
   * of its deadlines untouched.
   */
  lemma FailuresKeepValue(w: World, events: seq<Event>, i: nat)
    requires Reachable(w) && Run(w, events).Some? && i < |w.cache.objects|
    requires var v := Run(w, events).value;
             forall n :: |w.log| <= n < |v.log| && v.log[n].entry == i ==> v.log[n].outcome.Failed?
    ensures var v := Run(w, events).value;
            && i < |v.cache.objects|
            && var d, e := w.cache.objects[i], v.cache.objects[i];
            && e.hasValue == d.hasValue
            && (d.hasValue ==> e.result == d.result && e.fetchedAt == d.fetchedAt
                               && e.validUntil == d.validUntil && e.staleUntil == d.staleUntil)
  {
    ReachableInv(w);
    RunIsLater(w, events);
    var v := Run(w, events).value;
    assert v.log[..|w.log|] == w.log;
    FailuresLog(v.log, |w.log|, i);
    assert Reflects(w.cache.objects[i], w.policies, w.log, i);
    assert Reflects(v.cache.objects[i], v.policies, v.log, i);
  }

  // ----- Collapsing and backoff -----

  /** Without a completion on it, an entry's value and deadlines stand. */
  lemma QuietKeepsDeadlines(u: World, v: World, i: nat)
    requires Later(u, v) && i < |u.cache.objects| && Quiet(v.log, |u.log|, i)
    requires Logged(u) && Logged(v)
    ensures var d, e := u.cache.objects[i], v.cache.objects[i];
            && e.hasValue == d.hasValue && e.retryAfter == d.retryAfter
            && (d.hasValue ==> e.validUntil == d.validUntil)
  {
    assert v.log[..|u.log|] == u.log;
    QuietLog(v.log, |u.log|, i);
    assert Reflects(u.cache.objects[i], u.policies, u.log, i);
    assert Reflects(v.cache.objects[i], v.policies, v.log, i);
  }

  lemma BelowDeadlineStartsNothing(v: World, c: nat, now: Time, i: nat)
    requires Indexed(v.cache) && v.maximum >= 1 && Enabled(v, Turn(c, now))
    requires i < |v.cache.objects| && Target(Arrive(v, c), c) == i
    requires var e := v.cache.objects[i]; (e.hasValue && now < e.validUntil) || now < e.retryAfter
    ensures StartsNothing(v, c, now)
  {
    ArriveGrows(v.cache, CallerKey(v.callers[c]), v.maximum);
    assert Arrive(v, c).cache.objects[i] == v.cache.objects[i];
    TurnLaunches(Arrive(v, c), c, now);
  }

  /** A turn that starts no fetch. */
  ghost predicate StartsNothing(w: World, c: nat, now: Time)
    requires Enabled(w, Turn(c, now))
  {
    Next(w, Turn(c, now)).flights == w.flights && Next(w, Turn(c, now)).launched == w.launched
  }

  /**
   * Collapsing: after a refresh of object i completes, a caller that finds i under its key starts
   * no fetch while its clock is before the deadline that completion set, whatever else happened
   * in between short of another completion on i.
   */
  lemma WokenCallersCollapse(w: World, f: nat, at: Time, outcome: Outcome, draw: Option<Word>,
                             events: seq<Event>, c: nat, now: Time)
    requires Reachable(w) && Enabled(w, Complete(f, at, outcome, draw))
    requires var u := Next(w, Complete(f, at, outcome, draw));
             var i := w.flights[f].entry;
             && Run(u, events).Some?
             && var v := Run(u, events).value;
             && Quiet(v.log, |u.log|, i)
             && Enabled(v, Turn(c, now)) && Target(Arrive(v, c), c) == i
             && now < (if outcome.Fetched? then u.cache.objects[i].validUntil else u.cache.objects[i].retryAfter)
    ensures StartsNothing(Run(Next(w, Complete(f, at, outcome, draw)), events).value, c, now)
  {
    ReachableInv(w);
    var u, i := Next(w, Complete(f, at, outcome, draw)), w.flights[f].entry;
    StepKeeps(w, Complete(f, at, outcome, draw));
    RunIsLater(u, events);
    var v := Run(u, events).value;
    QuietKeepsDeadlines(u, v, i);
    assert outcome.Fetched? ==> u.cache.objects[i].hasValue;
    BelowDeadlineStartsNothing(v, c, now, i);
  }

  /**
   * A turn starts a fetch exactly when the entry has no fresh value, no refresh running, and its retry
   * time has come: no fetch for an entry ever starts before its retry time.
   */
  lemma FetchesRespectBackoff(w: World, c: nat, now: Time)
    requires Reachable(w) && Enabled(w, Turn(c, now))
    ensures var a := Arrive(w, c);
            && CallerKey(w.callers[c]) in a.cache.entries && Target(a, c) < |a.cache.objects|
            && var e := a.cache.objects[Target(a, c)];
            && (StartsNothing(w, c, now) <==>
                  (e.hasValue && now < e.validUntil) || e.refreshing || now < e.retryAfter)
  {
    TurnLaunches(Arrive(w, c), c, now);
  }

  /**
   * So in every run a fetch for an object whose latest completion failed starts no earlier than that
   * completion plus its whole retry delay, which is the provider's if it asked for one and otherwise at
   * least 0.8 times the base of the k-th consecutive failure.
   */
  lemma FetchesWaitOutFailures(w: World, c: nat, now: Time)
    requires Reachable(w) && Enabled(w, Turn(c, now)) && !StartsNothing(w, c, now)
    ensures var a := Arrive(w, c);
            && CallerKey(w.callers[c]) in a.cache.entries
            && var i := Target(a, c);
            var last, k := Latest(w.log, i), Streak(w.log, i);
            last.Some? && last.value.outcome.Failed? ==>
              var failure := last.value.outcome.failure;
              && now >= last.value.at + RetryDelay(failure, k % WORD, last.value.draw)
              && (failure.providerDelay.Some? ==> now >= last.value.at + failure.providerDelay.value)
              && (failure.providerDelay.None? || failure.providerDelay.value <= 0 ==>
                    5 * (now - last.value.at) >= 4 * Base(k % WORD))
  {
    ReachableInv(w);
    ArriveKeeps(w, c);
    FetchesRespectBackoff(w, c, now);
    var a := Arrive(w, c);
    var i := Target(a, c);
    assert Reflects(a.cache.objects[i], a.policies, a.log, i);
    LaunchAfterPenalty(a.cache.objects[i], a.policies, w.log, i, now);
  }

  lemma LaunchAfterPenalty(e: Entry, policies: map<string, Policy>, log: seq<Completion>, i: nat, now: Time)
    requires Reflects(e, policies, log, i) && now >= e.retryAfter
    ensures var last, k := Latest(log, i), Streak(log, i);
            last.Some? && last.value.outcome.Failed? ==>
              var failure := last.value.outcome.failure;
              && now >= last.value.at + RetryDelay(failure, k % WORD, last.value.draw)
              && (failure.providerDelay.Some? ==> now >= last.value.at + failure.providerDelay.value)
              && (failure.providerDelay.None? || failure.providerDelay.value <= 0 ==>
                    5 * (now - last.value.at) >= 4 * Base(k % WORD))
  {
    var last := Latest(log, i);
    if last.Some? && last.value.outcome.Failed? {
      var delay := last.value.outcome.failure.providerDelay;
      if delay.None? || delay.value <= 0 {
        RetryWindow(e, policies, log, i);
      }
    }
  }

  lemma TurnLaunches(a: World, c: nat, now: Time)
    requires c < |a.callers| && CallerKey(a.callers[c]) in a.cache.entries && Target(a, c) < |a.cache.objects|
    ensures var v := TurnStep(a, c, now);
            if Starts(Judge(a.cache.objects[Target(a, c)], now)) then v.launched == a.launched + 1
            else v.launched == a.launched && v.flights == a.flights
  {
  }

  /** A turn that is refused at once finds no usable value and a failure whose retry time is still ahead. */
  lemma RefusalsAreBackoffs(w: World, c: nat, now: Time)
    requires Reachable(w) && Enabled(w, Turn(c, now))
    requires Next(w, Turn(c, now)).callers[c].phase.Returned?
    requires Next(w, Turn(c, now)).callers[c].phase.answer.Refused?
    ensures var a := Arrive(w, c);
            && CallerKey(w.callers[c]) in a.cache.entries && Target(a, c) < |a.cache.objects|
            && var e, last := a.cache.objects[Target(a, c)], Latest(w.log, Target(a, c));
            && (e.hasValue ==> now >= e.validUntil && now >= e.staleUntil) && now < e.retryAfter
            && last.Some? && last.value.outcome.Failed?
            && Next(w, Turn(c, now)).callers[c].phase.answer.error == Some(last.value.outcome.failure)
  {
    ReachableInv(w);
    ArriveKeeps(w, c);
    var a := Arrive(w, c);
    assert Reflects(a.cache.objects[Target(a, c)], a.policies, a.log, Target(a, c));
    RefusedTurn(a, c, now);
  }

  lemma RefusedTurn(a: World, c: nat, now: Time)
    requires c < |a.callers| && CallerKey(a.callers[c]) in a.cache.entries && Target(a, c) < |a.cache.objects|
    requires Reflects(a.cache.objects[Target(a, c)], a.policies, a.log, Target(a, c))
    requires TurnStep(a, c, now).callers[c].phase.Returned?
    requires TurnStep(a, c, now).callers[c].phase.answer.Refused?
    ensures var e, last := a.cache.objects[Target(a, c)], Latest(a.log, Target(a, c));
            && (e.hasValue ==> now >= e.validUntil && now >= e.staleUntil) && now < e.retryAfter
            && last.Some? && last.value.outcome.Failed?
            && TurnStep(a, c, now).callers[c].phase.answer.error == Some(last.value.outcome.failure)
  {
  }

  /** A caller whose own fetch succeeded is served the latest success on that entry object, as not stale. */
  lemma DeliveryServesLatest(w: World, c: nat)
    requires Reachable(w) && Enabled(w, Deliver(c))
    ensures var n := LastSuccess(w.log, w.callers[c].phase.entry);
            && n >= 0
            && var phase := Next(w, Deliver(c)).callers[c].phase;
            && phase.Returned? && phase.answer.Served? && !phase.answer.envelope.stale
            && phase.answer.envelope.data == w.log[n].outcome.result.data
            && phase.answer.envelope.fetchedAt == w.log[n].at && phase.answer.envelope.point == w.callers[c].point
  {
    ReachableInv(w);
    assert PhaseFits(w, c, w.callers[c].phase);
    var i := w.callers[c].phase.entry;
    assert Reflects(w.cache.objects[i], w.policies, w.log, i);
  }

  /**
   * After the k-th consecutive failure without a provider delay, the retry time lies between 0.8 and
   * 1.2 times min(5 s * 2^(k-1), 300 s) after it and at most 300 s after it. The counter is a 64-bit
   * word, so k is read modulo 2^64.
   */
  lemma BackoffOverRuns(w: World, i: nat)
    requires Reachable(w) && i < |w.cache.objects|
    requires var last := Latest(w.log, i);
             && last.Some? && last.value.outcome.Failed?
             && var delay := last.value.outcome.failure.providerDelay;
                delay.None? || delay.value <= 0
    ensures var k, wait := Streak(w.log, i), w.cache.objects[i].retryAfter - Latest(w.log, i).value.at;
            var base := Base(k % WORD);
            && (0 < k < WORD ==> base == Min(INITIAL_RETRY_DELAY * Pow2(k - 1), MAXIMUM_RETRY_DELAY))
            && 4 * base <= 5 * wait <= 6 * base && 0 < wait <= MAXIMUM_RETRY_DELAY
  {
    ReachableInv(w);
    RetryWindow(w.cache.objects[i], w.policies, w.log, i);
  }

  lemma RetryWindow(e: Entry, policies: map<string, Policy>, log: seq<Completion>, i: nat)
    requires Reflects(e, policies, log, i)
    requires var last := Latest(log, i);
             && last.Some? && last.value.outcome.Failed?
             && var delay := last.value.outcome.failure.providerDelay;
                delay.None? || delay.value <= 0
    ensures var k, wait := Streak(log, i), e.retryAfter - Latest(log, i).value.at;
            var base := Base(k % WORD);
            && (0 < k < WORD ==> base == Min(INITIAL_RETRY_DELAY * Pow2(k - 1), MAXIMUM_RETRY_DELAY))
            && 4 * base <= 5 * wait <= 6 * base && 0 < wait <= MAXIMUM_RETRY_DELAY
  {
    var last, k := Latest(log, i).value, Streak(log, i);
    var failure := last.outcome.failure;
    assert e.retryAfter == last.at + RetryDelay(failure, k % WORD, last.draw);
    DelayWindow(failure, k, last.draw);
  }

  lemma DelayWindow(failure: Failure, k: nat, draw: Option<Word>)
    requires failure.providerDelay.None? || failure.providerDelay.value <= 0
    ensures var base, wait := Base(k % WORD), RetryDelay(failure, k % WORD, draw);
            && (0 < k < WORD ==> base == Min(INITIAL_RETRY_DELAY * Pow2(k - 1), MAXIMUM_RETRY_DELAY))
            && 4 * base <= 5 * wait <= 6 * base && 0 < wait <= MAXIMUM_RETRY_DELAY
  {
    JitterBounds(failure, k % WORD, draw);
    BaseProgression(k % WORD);
  }
}
