/**
 * The per-device token buckets of internal/platform/location. Tokens are kept in units of
 * 1/interval, so that a nanosecond refills one unit and arithmetic is exact.
 */
module TokenBucket {
  import opened Common

  datatype Config = Config(capacity: int, interval: int)

  function Full(c: Config): int {
    c.capacity * c.interval
  }

  /** Lazy refill: nothing happens unless the clock has moved forward. */
  function Refilled(c: Config, credit: int, updated: int, now: int): int {
    if now > updated then Min(Full(c), credit + (now - updated)) else credit
  }

  datatype Bucket = Bucket(credit: int, updated: int, scope: string)

  /** charged: the admission cost a token; delay: the wait reported with a refusal. */
  datatype Decision = Decision(allowed: bool, charged: bool, delay: int)

  /** ChangeLimiter.Allow for one device. */
  function Admit(c: Config, bucket: Option<Bucket>, scope: string, now: int): (Bucket, Decision) {
    match bucket
    case None => (Bucket(Full(c), now, scope), Decision(true, false, 0))
    case Some(b) =>
      if b.scope == scope then (b, Decision(true, false, 0))
      else
        var r := b.(credit := Refilled(c, b.credit, b.updated, now), updated := Max(b.updated, now));
        if r.credit < c.interval then (r, Decision(false, false, c.interval - r.credit))
        else (r.(credit := r.credit - c.interval, scope := scope), Decision(true, true, 0))
  }

  function Lookup<B>(devices: map<string, B>, device: string): Option<B> {
    if device in devices then Some(devices[device]) else None
  }

  function Kept<B>(devices: map<string, B>, ids: seq<string>): map<string, B> {
    map d | d in devices && d in ids :: devices[d]
  }

  /** The two loops of Retain: collect the allowed identities, then delete the others. */
  method RetainOnly<B>(devices: map<string, B>, ids: seq<string>) returns (kept: map<string, B>)
    ensures kept == Kept(devices, ids)
    ensures forall d :: d in kept <==> d in devices && exists i :: 0 <= i < |ids| && ids[i] == d
    ensures forall d :: d in kept ==> kept[d] == devices[d]
  {
    var allowed: set<string> := {};
    for i := 0 to |ids|
      invariant forall d :: d in allowed <==> d in ids[..i]
    {
      allowed := allowed + {ids[i]};
    }
    assert ids[..|ids|] == ids;
    kept := devices;
    var pending := devices.Keys;
    while pending != {}
      invariant forall d :: d in kept <==> d in devices && (d in allowed || d in pending)
      invariant forall d :: d in kept ==> kept[d] == devices[d]
      decreases pending
    {
      var d :| d in pending;
      pending := pending - {d};
      if d !in allowed {
        kept := kept - {d};
      }
    }
  }

  class ChangeLimiter {
    const config: Config
    var devices: map<string, Bucket>

    constructor (capacity: int, interval: int)
      ensures config == Config(capacity, interval) && devices == map[]
    {
      config, devices := Config(capacity, interval), map[];
    }

    method Allow(device: string, scope: string, now: int) returns (allowed: bool, delay: int)
      modifies this
      ensures var (bucket, decision) := Admit(config, Lookup(old(devices), device), scope, now);
              && devices == old(devices)[device := bucket]
              && allowed == decision.allowed && delay == decision.delay
    {
      if device !in devices {
        devices := devices[device := Bucket(Full(config), now, scope)];
        return true, 0;
      }
      var bucket := devices[device];
      if bucket.scope == scope {
        assert devices == devices[device := bucket];
        return true, 0;
      }
      var elapsed := now - bucket.updated;
      if elapsed > 0 {
        bucket := bucket.(credit := Min(Full(config), bucket.credit + elapsed), updated := now);
        devices := devices[device := bucket];
      }
      if bucket.credit < config.interval {
        assert devices == devices[device := bucket];
        return false, config.interval - bucket.credit;
      }
      bucket := bucket.(credit := bucket.credit - config.interval);
      bucket := bucket.(scope := scope);
      devices := devices[device := bucket];
      return true, 0;
    }

    method Retain(ids: seq<string>)
      modifies this
      ensures devices == Kept(old(devices), ids)
    {
      devices := RetainOnly(devices, ids);
    }
  }

  // ----- Runs of the limiter -----

  datatype Event = Request(device: string, scope: string, now: int) | Retain(ids: seq<string>)

  function Step(c: Config, devices: map<string, Bucket>, e: Event): map<string, Bucket> {
    match e
    case Request(device, scope, now) =>
      devices[device := Admit(c, Lookup(devices, device), scope, now).0]
    case Retain(ids) => Kept(devices, ids)
  }

  function After(c: Config, devices: map<string, Bucket>, events: seq<Event>): map<string, Bucket> {
    if events == [] then devices
    else Step(c, After(c, devices, events[..|events| - 1]), events[|events| - 1])
  }

  function Decide(c: Config, devices: map<string, Bucket>, e: Event): Decision
    requires e.Request?
  {
    Admit(c, Lookup(devices, e.device), e.scope, e.now).1
  }

  /** How many requests of one device cost a token. */
  function Charged(c: Config, devices: map<string, Bucket>, events: seq<Event>, device: string): nat {
    if events == [] then 0
    else
      var n := |events| - 1;
      Charged(c, devices, events[..n], device) + Cost(c, After(c, devices, events[..n]), events[n], device)
  }

  /** Between drops of the device, and with its clock readings inside a window of length T. */
  predicate WithinWindow(events: seq<Event>, device: string, from: int, length: int) {
    forall i :: 0 <= i < |events| ==> InWindow(events[i], device, from, length)
  }

  predicate InWindow(e: Event, device: string, from: int, length: int) {
    match e
    case Request(d, _, now) => d == device ==> from <= now <= from + length
    case Retain(ids) => device in ids
  }

  function Cost(c: Config, devices: map<string, Bucket>, e: Event, device: string): nat {
    if e.Request? && e.device == device && Decide(c, devices, e).charged then 1 else 0
  }

  /** What the device has left and has spent is paid for by one full bucket and elapsed time. */
  ghost predicate PaidFor(c: Config, start: Option<Bucket>, now: Option<Bucket>, spent: nat, from: int, length: int) {
    match now
    case None => spent == 0 && start == None
    case Some(b) =>
      var base := if start.Some? then Max(from, start.value.updated) else from;
      && b.credit <= Full(c)
      && (start.Some? ==> b.updated >= start.value.updated)
      && b.updated <= Max(base, from + length)
      && (b.updated < base ==> spent == 0)
      && b.credit + spent * c.interval <= Full(c) + Max(0, b.updated - base)
  }

  lemma PaidForStep(c: Config, start: Option<Bucket>, now: Option<Bucket>, spent: nat, from: int, length: int,
                    scope: string, at: int)
    requires c.interval > 0 && PaidFor(c, start, now, spent, from, length) && from <= at <= from + length
    ensures var (b, decision) := Admit(c, now, scope, at);
            PaidFor(c, start, Some(b), if decision.charged then spent + 1 else spent, from, length)
  {
    assert (spent + 1) * c.interval == spent * c.interval + c.interval;
  }

  /** A device's bucket is only touched by its own requests, while it is retained. */
  lemma StepLookup(c: Config, devices: map<string, Bucket>, e: Event, device: string)
    requires e.Retain? ==> device in e.ids
    ensures Lookup(Step(c, devices, e), device) ==
            if e.Request? && e.device == device
            then Some(Admit(c, Lookup(devices, device), e.scope, e.now).0) else Lookup(devices, device)
  {
  }

  lemma PaidForEvent(c: Config, devices: map<string, Bucket>, start: Option<Bucket>, spent: nat, e: Event,
                     device: string, from: int, length: int)
    requires c.interval > 0 && InWindow(e, device, from, length)
    requires PaidFor(c, start, Lookup(devices, device), spent, from, length)
    ensures PaidFor(c, start, Lookup(Step(c, devices, e), device), spent + Cost(c, devices, e, device), from, length)
  {
    StepLookup(c, devices, e, device);
    if e.Request? && e.device == device {
      PaidForStep(c, start, Lookup(devices, device), spent, from, length, e.scope, e.now);
    }
  }

  lemma {:induction false} RunIsPaidFor(c: Config, devices: map<string, Bucket>, events: seq<Event>,
                                        device: string, from: int, length: int)
    requires c.interval > 0 && length >= 0
    requires device in devices ==> devices[device].credit <= Full(c)
    requires WithinWindow(events, device, from, length)
    ensures PaidFor(c, Lookup(devices, device), Lookup(After(c, devices, events), device),
                    Charged(c, devices, events, device), from, length)
  {
    if events != [] {
      var n := |events| - 1;
      RunIsPaidFor(c, devices, events[..n], device, from, length);
      PaidForEvent(c, After(c, devices, events[..n]), Lookup(devices, device),
                   Charged(c, devices, events[..n], device), events[n], device, from, length);
    }
  }

  ghost predicate Funded(c: Config, devices: map<string, Bucket>) {
    forall d :: d in devices ==> 0 <= devices[d].credit <= Full(c)
  }

  lemma {:induction false} RunStaysFunded(c: Config, devices: map<string, Bucket>, events: seq<Event>)
    requires c.interval > 0 && c.capacity >= 0 && Funded(c, devices)
    ensures Funded(c, After(c, devices, events))
  {
    if events != [] {
      RunStaysFunded(c, devices, events[..|events| - 1]);
      assert Full(c) >= 0;
    }
  }

  /**
   * Rate bound: in any stretch of any run in which a device is not dropped and all of its clock readings
   * lie within a window of length T, in whatever order, its requests cost at most capacity + T/interval
   * tokens, whatever the other devices do.
   */
  lemma RateBound(c: Config, before: seq<Event>, window: seq<Event>, device: string, from: int, length: int)
    requires c.interval > 0 && c.capacity >= 0 && length >= 0
    requires WithinWindow(window, device, from, length)
    ensures Charged(c, After(c, map[], before), window, device) * c.interval <= c.capacity * c.interval + length
  {
    RunStaysFunded(c, map[], before);
    RunStaysFunded(c, After(c, map[], before), window);
    RunIsPaidFor(c, After(c, map[], before), window, device, from, length);
  }

  /** The latest clock reading for a device. */
  function LastReading(events: seq<Event>, device: string): Option<int> {
    if events == [] then None
    else
      var e := events[|events| - 1];
      if e.Request? && e.device == device then Some(e.now) else LastReading(events[..|events| - 1], device)
  }

  /** The device is not dropped, and the clock never steps back between its requests. */
  predicate Steady(events: seq<Event>, device: string) {
    events == [] ||
    var rest, e := events[..|events| - 1], events[|events| - 1];
    && Steady(rest, device)
    && match e
       case Request(d, _, now) =>
         d == device && LastReading(rest, device).Some? ==> now >= LastReading(rest, device).value
       case Retain(ids) => device in ids
  }

  /** The requests of one device that cost a token at a reading inside the window. */
  function ChargedWithin(c: Config, devices: map<string, Bucket>, events: seq<Event>, device: string,
                         from: int, length: int): nat
  {
    if events == [] then 0
    else
      var n := |events| - 1;
      ChargedWithin(c, devices, events[..n], device, from, length)
      + if InWindow(events[n], device, from, length)
        then Cost(c, After(c, devices, events[..n]), events[n], device) else 0
  }

  lemma PaidForEarly(c: Config, start: Option<Bucket>, now: Option<Bucket>, from: int, length: int,
                     scope: string, at: int)
    requires c.interval > 0 && length >= 0 && PaidFor(c, start, now, 0, from, length) && at < from
    ensures PaidFor(c, start, Some(Admit(c, now, scope, at).0), 0, from, length)
  {
  }

  lemma PaidForCovers(c: Config, start: Option<Bucket>, b: Bucket, spent: nat, from: int, length: int)
    requires length >= 0 && PaidFor(c, start, Some(b), spent, from, length) && b.credit >= 0
    ensures spent * c.interval <= Full(c) + length
  {
  }

  /** Before the window nothing is spent, inside it spending is paid for, and after it nothing is added. */
  ghost predicate PaidWithin(c: Config, start: Option<Bucket>, now: Option<Bucket>, spent: nat,
                             last: Option<int>, from: int, length: int)
  {
    && spent * c.interval <= Full(c) + length
    && (spent > 0 ==> last.Some? && last.value >= from)
    && (last.None? || last.value <= from + length ==> PaidFor(c, start, now, spent, from, length))
  }

  lemma PaidWithinStep(c: Config, start: Option<Bucket>, now: Option<Bucket>, spent: nat, last: Option<int>,
                       from: int, length: int, scope: string, at: int)
    requires c.interval > 0 && c.capacity >= 0 && length >= 0
    requires PaidWithin(c, start, now, spent, last, from, length)
    requires last.Some? ==> at >= last.value
    requires now.Some? ==> 0 <= now.value.credit <= Full(c)
    ensures var (b, decision) := Admit(c, now, scope, at);
            var more := spent + if decision.charged && from <= at <= from + length then 1 else 0;
            PaidWithin(c, start, Some(b), more, Some(at), from, length)
  {
    var (b, decision) := Admit(c, now, scope, at);
    if at < from {
      PaidForEarly(c, start, now, from, length, scope, at);
    } else if at <= from + length {
      PaidForStep(c, start, now, spent, from, length, scope, at);
      assert Full(c) >= 0;
      PaidForCovers(c, start, b, if decision.charged then spent + 1 else spent, from, length);
    }
  }

  lemma PaidWithinEvent(c: Config, devices: map<string, Bucket>, start: Option<Bucket>, spent: nat, last: Option<int>,
                        e: Event, device: string, from: int, length: int)
    requires c.interval > 0 && c.capacity >= 0 && length >= 0
    requires device in devices ==> 0 <= devices[device].credit <= Full(c)
    requires PaidWithin(c, start, Lookup(devices, device), spent, last, from, length)
    requires e.Request? && e.device == device && last.Some? ==> e.now >= last.value
    requires e.Retain? ==> device in e.ids
    ensures var more := spent + if InWindow(e, device, from, length) then Cost(c, devices, e, device) else 0;
            PaidWithin(c, start, Lookup(Step(c, devices, e), device), more,
                       if e.Request? && e.device == device then Some(e.now) else last, from, length)
  {
    StepLookup(c, devices, e, device);
    if e.Request? && e.device == device {
      PaidWithinStep(c, start, Lookup(devices, device), spent, last, from, length, e.scope, e.now);
    }
  }

  lemma {:induction false} RunIsPaidWithin(c: Config, devices: map<string, Bucket>, events: seq<Event>,
                                           device: string, from: int, length: int)
    requires c.interval > 0 && c.capacity >= 0 && length >= 0 && Funded(c, devices) && Steady(events, device)
    ensures PaidWithin(c, Lookup(devices, device), Lookup(After(c, devices, events), device),
                       ChargedWithin(c, devices, events, device, from, length),
                       LastReading(events, device), from, length)
  {
    if events == [] {
      assert Full(c) >= 0;
    } else {
      var n := |events| - 1;
      RunIsPaidWithin(c, devices, events[..n], device, from, length);
      RunStaysFunded(c, devices, events[..n]);
      PaidWithinEvent(c, After(c, devices, events[..n]), Lookup(devices, device),
                      ChargedWithin(c, devices, events[..n], device, from, length),
                      LastReading(events[..n], device), events[n], device, from, length);
    }
  }

  /**
   * Rate bound over whole runs: from any point of any run on, as long as a device is not dropped and the
   * clock does not step back between its requests, those with readings in any window of length T cost at
   * most capacity + T/interval tokens.
   */
  lemma RunRateBound(c: Config, before: seq<Event>, events: seq<Event>, device: string, from: int, length: int)
    requires c.interval > 0 && c.capacity >= 0 && length >= 0 && Steady(events, device)
    ensures ChargedWithin(c, After(c, map[], before), events, device, from, length) * c.interval
            <= c.capacity * c.interval + length
  {
    RunStaysFunded(c, map[], before);
    RunIsPaidWithin(c, After(c, map[], before), events, device, from, length);
  }

  /**
   * A clock that steps back and forth can bring the same reading back after more tokens have come in:
   * with two tokens at most, three are charged at reading 100.
   */
  lemma SteppingClockExceedsBound()
    ensures var c := Config(2, 10);
            var events := [Request("d", "a", 100), Request("d", "b", 100), Request("d", "c", 100),
                           Request("d", "c", 1000), Request("d", "d", 1000), Request("d", "e", 100)];
            ChargedWithin(c, map[], events, "d", 100, 0) * c.interval > c.capacity * c.interval + 0
  {
    var c := Config(2, 10);
    var a, b := Request("d", "a", 100), Request("d", "b", 100);
    var e, f := Request("d", "c", 100), Request("d", "c", 1000);
    var g, h := Request("d", "d", 1000), Request("d", "e", 100);
    var events := [a, b, e, f, g, h];
    assert events[..5] == [a, b, e, f, g] && [a, b, e, f, g][..4] == [a, b, e, f];
    assert [a, b, e, f][..3] == [a, b, e] && [a, b, e][..2] == [a, b] && [a, b][..1] == [a] && [a][..0] == [];
    assert After(c, map[], [a]) == map["d" := Bucket(20, 100, "a")];
    assert After(c, map[], [a, b]) == map["d" := Bucket(10, 100, "b")];
    assert After(c, map[], [a, b, e]) == map["d" := Bucket(0, 100, "c")];
    assert After(c, map[], [a, b, e, f]) == map["d" := Bucket(0, 100, "c")];
    assert After(c, map[], [a, b, e, f, g]) == map["d" := Bucket(10, 1000, "d")];
    assert ChargedWithin(c, map[], [a], "d", 100, 0) == 0;
    assert ChargedWithin(c, map[], [a, b], "d", 100, 0) == 1;
    assert ChargedWithin(c, map[], [a, b, e], "d", 100, 0) == 2;
    assert ChargedWithin(c, map[], [a, b, e, f], "d", 100, 0) == 2;
    assert ChargedWithin(c, map[], [a, b, e, f, g], "d", 100, 0) == 2;
  }

  /**
   * Time is the only source of tokens: whatever order the clock readings come in, what a device gains
   * is at most how far the latest reading has moved, so a backward step adds nothing.
   */
  lemma BackwardStepsAddNothing(c: Config, b: Bucket, scope: string, now: int)
    requires c.interval > 0 && b.credit <= Full(c)
    ensures var (next, decision) := Admit(c, Some(b), scope, now);
            && next.updated >= b.updated
            && next.credit + (if decision.charged then c.interval else 0) <= b.credit + (next.updated - b.updated)
            && (now <= b.updated ==> next.credit <= b.credit && next.updated == b.updated)
  {
  }

  /**
   * The first change of a device nobody has asked for since the start or since it was last dropped is
   * allowed, costs nothing, and leaves a full bucket: with a capacity of n, exactly n more follow at once.
   */
  lemma FirstChangeIsFree(c: Config, before: seq<Event>, device: string, scope: string, now: int,
                                             more: seq<string>)
    requires c.interval > 0 && c.capacity >= 0
    requires device !in After(c, map[], before) && NoRepeats(scope, more)
    ensures var devices := After(c, map[], before);
            var decision := Decide(c, devices, Request(device, scope, now));
            && decision.allowed && !decision.charged
            && var b := Step(c, devices, Request(device, scope, now))[device];
            forall i :: 0 <= i < |more| ==> (Burst(c, b, more, now)[i] <==> i < c.capacity)
  {
    BurstSpends(c, Bucket(Full(c), now, scope), more, now, c.capacity);
  }

  /** Each change asks for another scope than the one before. */
  predicate NoRepeats(scope: string, more: seq<string>)
    decreases more
  {
    more == [] || (more[0] != scope && NoRepeats(more[0], more[1..]) && scope !in more)
  }

  /** The decisions on changes that all come at the same reading. */
  function Burst(c: Config, b: Bucket, more: seq<string>, now: int): (r: seq<bool>)
    ensures |r| == |more|
    decreases more
  {
    if more == [] then []
    else
      var (next, decision) := Admit(c, Some(b), more[0], now);
      [decision.allowed] + Burst(c, next, more[1..], now)
  }

  lemma {:induction false} BurstSpends(c: Config, b: Bucket, more: seq<string>, now: int, left: nat)
    requires c.interval > 0 && b.credit == left * c.interval && b.updated == now && NoRepeats(b.scope, more)
    ensures forall i :: 0 <= i < |more| ==> (Burst(c, b, more, now)[i] <==> i < left)
    decreases more
  {
    if more != [] {
      var (next, decision) := Admit(c, Some(b), more[0], now);
      if left == 0 {
        assert !decision.allowed && next == b;
        NoRepeatsWithout(b.scope, more);
        BurstSpends(c, next, more[1..], now, 0);
      } else {
        assert left * c.interval == (left - 1) * c.interval + c.interval;
        BurstSpends(c, next, more[1..], now, left - 1);
      }
    }
  }

  lemma {:induction false} NoRepeatsWithout(scope: string, more: seq<string>)
    requires more != [] && NoRepeats(scope, more)
    ensures NoRepeats(scope, more[1..])
  {
    if |more| > 1 {
      assert more[1] in more;
      forall s | s in more[1..] ensures s in more {
      }
    }
  }

  // ----- Lazy refill against a bucket that refills every nanosecond -----

  /** n nanoseconds of continuous refill, one unit at a time. */
  function Ticks(full: int, level: int, n: nat): int
    decreases n
  {
    if n == 0 then level else Ticks(full, Min(full, level + 1), n - 1)
  }

  lemma {:induction false} TicksAddUp(full: int, level: int, n: nat)
    requires level <= full
    ensures Ticks(full, level, n) == Min(full, level + n)
    decreases n
  {
    if n > 0 {
      TicksAddUp(full, Min(full, level + 1), n - 1);
    }
  }

  datatype Eager = Eager(level: int, clock: int, scope: string)

  datatype Change = Change(scope: string, now: int)

  /** The same decision on a bucket that has been filled up to the present. */
  function EagerAdmit(c: Config, e: Eager, change: Change): (Eager, bool)
    requires change.now >= e.clock
  {
    var level := Ticks(Full(c), e.level, change.now - e.clock);
    if e.scope == change.scope then (Eager(level, change.now, e.scope), true)
    else if level < c.interval then (Eager(level, change.now, e.scope), false)
    else (Eager(level - c.interval, change.now, change.scope), true)
  }

  predicate Forward(changes: seq<Change>, from: int) {
    changes == [] || (changes[0].now >= from && Forward(changes[1..], changes[0].now))
  }

  function EagerDecisions(c: Config, e: Eager, changes: seq<Change>): seq<bool>
    requires Forward(changes, e.clock)
    decreases changes
  {
    if changes == [] then []
    else
      var (next, allowed) := EagerAdmit(c, e, changes[0]);
      [allowed] + EagerDecisions(c, next, changes[1..])
  }

  function LazyDecisions(c: Config, b: Bucket, changes: seq<Change>): seq<bool>
    decreases changes
  {
    if changes == [] then []
    else
      var (next, decision) := Admit(c, Some(b), changes[0].scope, changes[0].now);
      [decision.allowed] + LazyDecisions(c, next, changes[1..])
  }

  /** The lazy bucket is the eager one, seen at its last update. */
  ghost predicate InStep(c: Config, b: Bucket, e: Eager) {
    && e.scope == b.scope && b.updated <= e.clock && b.credit <= Full(c)
    && e.level == Min(Full(c), b.credit + (e.clock - b.updated))
  }

  /** With a clock that never steps back, lazy refill decides every change as continuous refill does. */
  lemma {:induction false} LazyIsContinuous(c: Config, b: Bucket, e: Eager, changes: seq<Change>)
    requires c.interval > 0 && InStep(c, b, e) && Forward(changes, e.clock)
    ensures LazyDecisions(c, b, changes) == EagerDecisions(c, e, changes)
    decreases changes
  {
    if changes != [] {
      TicksAddUp(Full(c), e.level, changes[0].now - e.clock);
      LazyIsContinuous(c, Admit(c, Some(b), changes[0].scope, changes[0].now).0,
                       EagerAdmit(c, e, changes[0]).0, changes[1..]);
    }
  }

  // ----- The retry delay -----

  /**
   * After a refusal the same change, with nothing else admitted meanwhile, is admitted `wait` later
   * exactly when the limiter can hold a token at all and `wait` covers the reported delay plus
   * whatever the clock had stepped back.
   */
  lemma RetryDelayIsExact(c: Config, b: Bucket, scope: string, now: int, wait: nat)
    requires c.interval > 0 && b.credit <= Full(c)
    requires !Admit(c, Some(b), scope, now).1.allowed
    ensures var (next, refusal) := Admit(c, Some(b), scope, now);
            && refusal.delay > 0
            && (Admit(c, Some(next), scope, now + wait).1.allowed <==>
                  c.capacity >= 1 && wait >= refusal.delay + Max(0, b.updated - now))
  {
    if c.capacity >= 1 {
      assert Full(c) >= c.interval;
    } else {
      assert Full(c) <= 0;
    }
  }

  const SECOND := 1_000_000_000

  /** The Retry-After header. */
  function HeaderSeconds(delay: int): int {
    (delay + SECOND - 1) / SECOND
  }

  /** Rounded up to seconds the delay is at least 1 s and sufficient, by less than one second. */
  lemma HeaderIsSufficient(c: Config, b: Bucket, scope: string, now: int)
    requires c.interval > 0 && c.capacity >= 1 && b.credit <= Full(c) && now >= b.updated
    requires !Admit(c, Some(b), scope, now).1.allowed
    ensures var (next, refusal) := Admit(c, Some(b), scope, now);
            var seconds := HeaderSeconds(refusal.delay);
            && seconds >= 1 && refusal.delay <= seconds * SECOND < refusal.delay + SECOND
            && Admit(c, Some(next), scope, now + seconds * SECOND).1.allowed
  {
    var seconds := HeaderSeconds(Admit(c, Some(b), scope, now).1.delay);
    RetryDelayIsExact(c, b, scope, now, 0);
    RetryDelayIsExact(c, b, scope, now, seconds * SECOND);
  }
}
