/** The localization limiter of internal/platform/location/localize.go: budgets and in-flight slots. */
module SlotLimiter {
  import opened Common
  import opened TokenBucket

  datatype Budget = Budget(credit: int, updated: int)

  /** The bucket step of Try; the flag says whether a token was there to take. */
  function Spend(c: Config, budget: Option<Budget>, now: int): (Budget, bool) {
    var b := if budget.Some? then budget.value else Budget(Full(c), now);
    var r := Budget(Refilled(c, b.credit, b.updated, now), Max(b.updated, now));
    if r.credit < c.interval then (r, false) else (r.(credit := r.credit - c.interval), true)
  }

  /** What Try returns: a release that gives its slot back once. */
  class Release {
    var done: bool

    constructor ()
      ensures !done
    {
      done := false;
    }
  }

  class LocalizeLimiter {
    const config: Config
    const limit: nat
    var slots: nat
    var devices: map<string, Budget>

    /** The source panics on a configuration this refuses. */
    constructor (capacity: int, interval: int, concurrency: nat)
      requires capacity >= 1 && interval > 0 && concurrency >= 1
      ensures config == Config(capacity, interval) && limit == concurrency
      ensures slots == 0 && devices == map[]
    {
      config, limit, slots, devices := Config(capacity, interval), concurrency, 0, map[];
    }

    /** Try when no other call interleaves: a full house changes nothing, a poor device keeps no slot. */
    method Try(device: string, now: int) returns (release: Release?)
      requires slots <= limit
      modifies this
      ensures slots <= limit
      ensures old(slots) == limit ==> release == null && slots == old(slots) && devices == old(devices)
      ensures old(slots) < limit ==>
                && devices == old(devices)[device := Spend(config, Lookup(old(devices), device), now).0]
                && (release != null <==> Spend(config, Lookup(old(devices), device), now).1)
                && slots == old(slots) + if release != null then 1 else 0
      ensures release != null ==> fresh(release) && !release.done
    {
      if slots >= limit {
        return null;
      }
      slots := slots + 1;
      if device !in devices {
        devices := devices[device := Budget(Full(config), now)];
      }
      var bucket := devices[device];
      var elapsed := now - bucket.updated;
      if elapsed > 0 {
        bucket := Budget(Min(Full(config), bucket.credit + elapsed), now);
      }
      if bucket.credit < config.interval {
        devices := devices[device := bucket];
        slots := slots - 1;
        return null;
      }
      devices := devices[device := bucket.(credit := bucket.credit - config.interval)];
      release := new Release();
    }

    /** Calling a release gives its slot back the first time and does nothing afterwards. */
    method GiveBack(release: Release)
      requires !release.done ==> slots > 0
      modifies this`slots, release
      ensures release.done && slots == old(slots) - if old(release.done) then 0 else 1
    {
      if !release.done {
        release.done := true;
        slots := slots - 1;
      }
    }

    method Retain(ids: seq<string>)
      modifies this`devices
      ensures devices == Kept(old(devices), ids)
    {
      devices := RetainOnly(devices, ids);
    }
  }

  // ----- All calls of Try at once -----

  datatype Phase = Deciding(device: string) | Refunding | Granted | Released | Refused

  datatype World = World(limit: nat, slots: nat, devices: map<string, Budget>, calls: seq<Phase>)

  datatype Event =
    | TakeSlot(device: string)
    | Decide(call: nat, now: int)
    | Refund(call: nat)
    | ReleaseSlot(call: nat)
    | RetainDevices(ids: seq<string>)

  predicate Enabled(w: World, e: Event) {
    match e
    case TakeSlot(_) => true
    case Decide(k, _) => k < |w.calls| && w.calls[k].Deciding?
    case Refund(k) => k < |w.calls| && w.calls[k].Refunding?
    case ReleaseSlot(k) => k < |w.calls| && (w.calls[k].Granted? || w.calls[k].Released?)
    case RetainDevices(_) => true
  }

  /** Receiving from the slot channel frees one; on an empty channel it would block for ever. */
  function Free(w: World): World {
    if w.slots > 0 then w.(slots := w.slots - 1) else w
  }

  function Next(c: Config, w: World, e: Event): World
    requires Enabled(w, e)
  {
    match e
    case TakeSlot(device) =>
      if w.slots < w.limit then w.(slots := w.slots + 1, calls := w.calls + [Deciding(device)])
      else w.(calls := w.calls + [Refused])
    case Decide(k, now) =>
      var device := w.calls[k].device;
      var (budget, granted) := Spend(c, Lookup(w.devices, device), now);
      w.(devices := w.devices[device := budget], calls := w.calls[k := if granted then Granted else Refunding])
    case Refund(k) => Free(w).(calls := w.calls[k := Refused])
    case ReleaseSlot(k) =>
      if w.calls[k].Granted? then Free(w).(calls := w.calls[k := Released]) else w
    case RetainDevices(ids) => w.(devices := Kept(w.devices, ids))
  }

  function RunFrom(c: Config, w: World, events: seq<Event>): Option<World> {
    if events == [] then Some(w)
    else
      var n := |events| - 1;
      var before := RunFrom(c, w, events[..n]);
      if before.Some? && Enabled(before.value, events[n]) then Some(Next(c, before.value, events[n])) else None
  }

  function Run(c: Config, limit: nat, events: seq<Event>): Option<World> {
    RunFrom(c, World(limit, 0, map[], []), events)
  }

  predicate Occupies(p: Phase) {
    p.Deciding? || p.Refunding? || p.Granted?
  }

  function Occupied(calls: seq<Phase>): nat {
    if calls == [] then 0
    else Occupied(calls[..|calls| - 1]) + if Occupies(calls[|calls| - 1]) then 1 else 0
  }

  lemma {:induction false} OccupiedUpdate(calls: seq<Phase>, k: nat, p: Phase)
    requires k < |calls|
    ensures Occupied(calls[k := p]) + (if Occupies(calls[k]) then 1 else 0)
            == Occupied(calls) + (if Occupies(p) then 1 else 0)
  {
    var n := |calls| - 1;
    if k == n {
      assert calls[k := p][..n] == calls[..n];
    } else {
      OccupiedUpdate(calls[..n], k, p);
      assert calls[k := p][..n] == calls[..n][k := p];
    }
  }

  lemma {:induction false} OccupiedMember(calls: seq<Phase>, k: nat)
    requires k < |calls| && Occupies(calls[k])
    ensures Occupied(calls) > 0
  {
    if k < |calls| - 1 {
      OccupiedMember(calls[..|calls| - 1], k);
    }
  }

  ghost predicate Conserved(w: World) {
    w.slots == Occupied(w.calls) <= w.limit
  }

  lemma StepConserves(c: Config, w: World, e: Event)
    requires Conserved(w) && Enabled(w, e)
    ensures Conserved(Next(c, w, e))
  {
    var v := Next(c, w, e);
    match e
    case TakeSlot(_) => assert v.calls[..|w.calls|] == w.calls;
    case Decide(k, _) => OccupiedUpdate(w.calls, k, v.calls[k]);
    case Refund(k) => OccupiedUpdate(w.calls, k, Refused); OccupiedMember(w.calls, k);
    case ReleaseSlot(k) =>
      if w.calls[k].Granted? {
        OccupiedUpdate(w.calls, k, Released);
        OccupiedMember(w.calls, k);
      }
    case RetainDevices(_) =>
  }

  /**
   * In every interleaving the occupied slots are exactly the grants not yet released and the calls
   * between taking a slot and deciding or giving it back; they never exceed the limit.
   */
  lemma {:induction false} SlotsAreConserved(c: Config, limit: nat, events: seq<Event>)
    requires Run(c, limit, events).Some?
    ensures var w := Run(c, limit, events).value;
            w.limit == limit && w.slots == Occupied(w.calls) <= limit
  {
    if events != [] {
      SlotsAreConserved(c, limit, events[..|events| - 1]);
      StepConserves(c, Run(c, limit, events[..|events| - 1]).value, events[|events| - 1]);
    }
  }

  /** A call without a slot changes no budget; a second release changes nothing at all. */
  lemma RefusalsAndRepeatsAreFree(c: Config, limit: nat, events: seq<Event>, device: string, k: nat)
    requires Run(c, limit, events).Some?
    ensures var w := Run(c, limit, events).value;
            && (w.slots == limit ==>
                  Next(c, w, TakeSlot(device)) == w.(calls := w.calls + [Refused]))
            && (k < |w.calls| && w.calls[k].Granted? ==>
                  var v := Next(c, w, ReleaseSlot(k));
                  v.slots == w.slots - 1 && Enabled(v, ReleaseSlot(k)) && Next(c, v, ReleaseSlot(k)) == v)
            && (k < |w.calls| && w.calls[k].Refunding? ==>
                  Next(c, w, Refund(k)).slots == w.slots - 1)
  {
    SlotsAreConserved(c, limit, events);
    var w := Run(c, limit, events).value;
    if k < |w.calls| && Occupies(w.calls[k]) {
      OccupiedMember(w.calls, k);
    }
  }

  // ----- The rate of grants -----

  function Granting(c: Config, w: World, e: Event, device: string): nat
    requires Enabled(w, e)
  {
    if e.Decide? && w.calls[e.call].device == device && Spend(c, Lookup(w.devices, device), e.now).1 then 1 else 0
  }

  /** How many budget tokens a device was granted. */
  function Grants(c: Config, w: World, events: seq<Event>, device: string): nat
    requires RunFrom(c, w, events).Some?
  {
    if events == [] then 0
    else
      var n := |events| - 1;
      Grants(c, w, events[..n], device) + Granting(c, RunFrom(c, w, events[..n]).value, events[n], device)
  }

  /** The device is retained, and the clock readings for it lie in a window of length T. */
  predicate GrantWindow(c: Config, w: World, events: seq<Event>, device: string, from: int, length: int)
    requires RunFrom(c, w, events).Some?
  {
    events == [] ||
    var n := |events| - 1;
    && GrantWindow(c, w, events[..n], device, from, length)
    && InGrantWindow(RunFrom(c, w, events[..n]).value, events[n], device, from, length)
  }

  predicate InGrantWindow(w: World, e: Event, device: string, from: int, length: int)
    requires Enabled(w, e)
  {
    match e
    case Decide(k, now) => w.calls[k].device == device ==> from <= now <= from + length
    case RetainDevices(ids) => device in ids
    case _ => true
  }

  ghost predicate Paid(c: Config, start: Option<Budget>, now: Option<Budget>, spent: nat, from: int, length: int) {
    match now
    case None => spent == 0 && start == None
    case Some(b) =>
      var base := if start.Some? then Max(from, start.value.updated) else from;
      PaidSince(Full(c), b, spent, spent * c.interval, base, from + length)
      && (start.Some? ==> b.updated >= start.value.updated)
  }

  /** credit and the cost of what was spent are covered by one full bucket and the time since base. */
  predicate PaidSince(full: int, b: Budget, spent: nat, cost: int, base: int, end: int) {
    && 0 <= b.credit <= full && b.updated <= Max(base, end)
    && (b.updated < base ==> spent == 0)
    && b.credit + cost <= full + Max(0, b.updated - base)
  }

  lemma PaidSinceStep(c: Config, b: Budget, spent: nat, cost: int, base: int, from: int, end: int, at: int)
    requires c.interval > 0 && PaidSince(Full(c), b, spent, cost, base, end)
    requires from <= at <= end && (base <= from || base <= b.updated) && (spent == 0 ==> cost == 0)
    ensures var (next, granted) := Spend(c, Some(b), at);
            && next.updated >= b.updated
            && (granted ==> PaidSince(Full(c), next, spent + 1, cost + c.interval, base, end))
            && (!granted ==> PaidSince(Full(c), next, spent, cost, base, end))
  {
  }

  lemma PaidStep(c: Config, start: Option<Budget>, now: Option<Budget>, spent: nat, from: int, length: int, at: int)
    requires c.interval > 0 && c.capacity >= 1 && Paid(c, start, now, spent, from, length)
    requires from <= at <= from + length
    ensures var (b, granted) := Spend(c, now, at);
            Paid(c, start, Some(b), if granted then spent + 1 else spent, from, length)
  {
    assert (spent + 1) * c.interval == spent * c.interval + c.interval;
    var base := if start.Some? then Max(from, start.value.updated) else from;
    var b := if now.Some? then now.value else Budget(Full(c), at);
    FullCovers(c);
    PaidSinceStep(c, b, spent, spent * c.interval, base, from, from + length, at);
  }

  lemma FullCovers(c: Config)
    requires c.interval > 0 && c.capacity >= 1
    ensures Full(c) >= c.interval
  {
  }

  ghost predicate FundedBudgets(c: Config, w: World) {
    forall d :: d in w.devices ==> 0 <= w.devices[d].credit <= Full(c)
  }

  lemma {:induction false} BudgetsStayFunded(c: Config, limit: nat, events: seq<Event>)
    requires c.interval > 0 && c.capacity >= 1 && Run(c, limit, events).Some?
    ensures FundedBudgets(c, Run(c, limit, events).value)
  {
    if events != [] {
      BudgetsStayFunded(c, limit, events[..|events| - 1]);
      FullCovers(c);
    }
  }

  /** A step of the run, for one device's budget. */
  lemma GrantsArePaidStep(c: Config, w: World, e: Event, device: string, start: Option<Budget>, spent: nat,
                          from: int, length: int)
    requires c.interval > 0 && c.capacity >= 1 && Enabled(w, e) && InGrantWindow(w, e, device, from, length)
    requires Paid(c, start, Lookup(w.devices, device), spent, from, length)
    ensures Paid(c, start, Lookup(Next(c, w, e).devices, device), spent + Granting(c, w, e, device), from, length)
  {
    if e.Decide? && w.calls[e.call].device == device {
      PaidStep(c, start, Lookup(w.devices, device), spent, from, length, e.now);
    }
  }

  lemma {:induction false} GrantsArePaid(c: Config, w: World, events: seq<Event>,
                                         device: string, from: int, length: int)
    requires c.interval > 0 && c.capacity >= 1 && length >= 0 && FundedBudgets(c, w)
    requires RunFrom(c, w, events).Some? && GrantWindow(c, w, events, device, from, length)
    ensures Paid(c, Lookup(w.devices, device), Lookup(RunFrom(c, w, events).value.devices, device),
                 Grants(c, w, events, device), from, length)
  {
    if events != [] {
      var n := |events| - 1;
      GrantsArePaid(c, w, events[..n], device, from, length);
      GrantsArePaidStep(c, RunFrom(c, w, events[..n]).value, events[n], device, Lookup(w.devices, device),
                        Grants(c, w, events[..n], device), from, length);
    }
  }

  /**
   * Rate bound: in any stretch of any interleaving in which a device is retained and all clock readings
   * for it lie within a window of length T, it is granted at most capacity + T/interval budget tokens.
   */
  lemma GrantRateBound(c: Config, limit: nat, before: seq<Event>, events: seq<Event>,
                       device: string, from: int, length: int)
    requires c.interval > 0 && c.capacity >= 1 && length >= 0 && Run(c, limit, before).Some?
    requires RunFrom(c, Run(c, limit, before).value, events).Some?
    requires GrantWindow(c, Run(c, limit, before).value, events, device, from, length)
    ensures Grants(c, Run(c, limit, before).value, events, device) * c.interval <= c.capacity * c.interval + length
  {
    BudgetsStayFunded(c, limit, before);
    GrantsArePaid(c, Run(c, limit, before).value, events, device, from, length);
  }

  // ----- The rate of grants over whole runs -----

  /** The clock reading an event takes for a device. */
  function Reading(w: World, e: Event, device: string): Option<int>
    requires Enabled(w, e)
  {
    if e.Decide? && w.calls[e.call].device == device then Some(e.now) else None
  }

  /** The latest clock reading for a device. */
  function LastReading(c: Config, w: World, events: seq<Event>, device: string): Option<int>
    requires RunFrom(c, w, events).Some?
  {
    if events == [] then None
    else
      var n := |events| - 1;
      var reading := Reading(RunFrom(c, w, events[..n]).value, events[n], device);
      if reading.Some? then reading else LastReading(c, w, events[..n], device)
  }

  /** The device is retained, and the clock never steps back between the decisions for it. */
  predicate Steady(c: Config, w: World, events: seq<Event>, device: string)
    requires RunFrom(c, w, events).Some?
  {
    events == [] ||
    var n := |events| - 1;
    && Steady(c, w, events[..n], device)
    && Follows(LastReading(c, w, events[..n], device), RunFrom(c, w, events[..n]).value, events[n], device)
  }

  predicate Follows(last: Option<int>, w: World, e: Event, device: string)
    requires Enabled(w, e)
  {
    && (Reading(w, e, device).Some? && last.Some? ==> Reading(w, e, device).value >= last.value)
    && (e.RetainDevices? ==> device in e.ids)
  }

  function GrantingWithin(c: Config, w: World, e: Event, device: string, from: int, length: int): nat
    requires Enabled(w, e)
  {
    if InGrantWindow(w, e, device, from, length) then Granting(c, w, e, device) else 0
  }

  /** How many budget tokens a device was granted at readings inside the window. */
  function GrantsWithin(c: Config, w: World, events: seq<Event>, device: string, from: int, length: int): nat
    requires RunFrom(c, w, events).Some?
  {
    if events == [] then 0
    else
      var n := |events| - 1;
      GrantsWithin(c, w, events[..n], device, from, length)
      + GrantingWithin(c, RunFrom(c, w, events[..n]).value, events[n], device, from, length)
  }

  /** Before the window nothing is spent, inside it spending is paid for, and after it nothing is added. */
  ghost predicate PaidWithin(c: Config, start: Option<Budget>, now: Option<Budget>, spent: nat,
                             last: Option<int>, from: int, length: int)
  {
    && spent * c.interval <= Full(c) + length
    && (spent > 0 ==> last.Some? && last.value >= from)
    && (last.None? || last.value <= from + length ==> Paid(c, start, now, spent, from, length))
  }

  lemma PaidEarly(c: Config, start: Option<Budget>, now: Option<Budget>, from: int, length: int, at: int)
    requires c.interval > 0 && c.capacity >= 1 && length >= 0 && Paid(c, start, now, 0, from, length) && at < from
    ensures Paid(c, start, Some(Spend(c, now, at).0), 0, from, length)
  {
    FullCovers(c);
  }

  lemma PaidWithinStep(c: Config, start: Option<Budget>, now: Option<Budget>, spent: nat, last: Option<int>,
                       from: int, length: int, at: int)
    requires c.interval > 0 && c.capacity >= 1 && length >= 0
    requires PaidWithin(c, start, now, spent, last, from, length) && (last.Some? ==> at >= last.value)
    ensures var (b, granted) := Spend(c, now, at);
            var more := spent + if granted && from <= at <= from + length then 1 else 0;
            PaidWithin(c, start, Some(b), more, Some(at), from, length)
  {
    if at < from {
      PaidEarly(c, start, now, from, length, at);
    } else if at <= from + length {
      PaidStep(c, start, now, spent, from, length, at);
    }
  }

  lemma PaidWithinEvent(c: Config, w: World, e: Event, device: string, start: Option<Budget>, spent: nat,
                        last: Option<int>, from: int, length: int)
    requires c.interval > 0 && c.capacity >= 1 && length >= 0 && Enabled(w, e) && Follows(last, w, e, device)
    requires PaidWithin(c, start, Lookup(w.devices, device), spent, last, from, length)
    ensures var reading := Reading(w, e, device);
            PaidWithin(c, start, Lookup(Next(c, w, e).devices, device),
                       spent + GrantingWithin(c, w, e, device, from, length),
                       if reading.Some? then reading else last, from, length)
  {
    if Reading(w, e, device).Some? {
      PaidWithinStep(c, start, Lookup(w.devices, device), spent, last, from, length, e.now);
    }
  }

  /** What the last event of a run adds. */
  lemma LastEvent(c: Config, w: World, events: seq<Event>, device: string, from: int, length: int)
    requires RunFrom(c, w, events).Some? && events != []
    ensures var rest, e := events[..|events| - 1], events[|events| - 1];
            && RunFrom(c, w, rest).Some? && Enabled(RunFrom(c, w, rest).value, e)
            && var v := RunFrom(c, w, rest).value;
            && RunFrom(c, w, events).value == Next(c, v, e)
            && GrantsWithin(c, w, events, device, from, length)
               == GrantsWithin(c, w, rest, device, from, length) + GrantingWithin(c, v, e, device, from, length)
            && var reading := Reading(v, e, device);
               LastReading(c, w, events, device)
               == if reading.Some? then reading else LastReading(c, w, rest, device)
  {
  }

  lemma {:induction false} RunIsPaidWithin(c: Config, w: World, events: seq<Event>,
                                           device: string, from: int, length: int)
    requires c.interval > 0 && c.capacity >= 1 && length >= 0 && FundedBudgets(c, w)
    requires RunFrom(c, w, events).Some? && Steady(c, w, events, device)
    ensures PaidWithin(c, Lookup(w.devices, device), Lookup(RunFrom(c, w, events).value.devices, device),
                       GrantsWithin(c, w, events, device, from, length),
                       LastReading(c, w, events, device), from, length)
  {
    if events == [] {
      FullCovers(c);
    } else {
      var n := |events| - 1;
      var rest := events[..n];
      var v, spent, last := RunFrom(c, w, rest).value, GrantsWithin(c, w, rest, device, from, length),
                            LastReading(c, w, rest, device);
      RunIsPaidWithin(c, w, rest, device, from, length);
      LastEvent(c, w, events, device, from, length);
      PaidWithinEvent(c, v, events[n], device, Lookup(w.devices, device), spent, last, from, length);
    }
  }

  /**
   * Rate bound over whole runs: from any point of any interleaving on, as long as a device is retained and
   * the clock does not step back between the decisions for it, those with readings in any window of
   * length T grant it at most capacity + T/interval budget tokens.
   */
  lemma RunGrantRateBound(c: Config, limit: nat, before: seq<Event>, events: seq<Event>,
                          device: string, from: int, length: int)
    requires c.interval > 0 && c.capacity >= 1 && length >= 0 && Run(c, limit, before).Some?
    requires RunFrom(c, Run(c, limit, before).value, events).Some?
    requires Steady(c, Run(c, limit, before).value, events, device)
    ensures GrantsWithin(c, Run(c, limit, before).value, events, device, from, length) * c.interval
            <= c.capacity * c.interval + length
  {
    BudgetsStayFunded(c, limit, before);
    RunIsPaidWithin(c, Run(c, limit, before).value, events, device, from, length);
  }

  // ----- Budgets against ones that refill every nanosecond -----

  /** A device seen for the first time is granted as soon as a slot is free, and has all but one token left. */
  lemma FirstCallIsGranted(c: Config, limit: nat, events: seq<Event>, device: string, now: int)
    requires c.interval > 0 && c.capacity >= 1 && Run(c, limit, events).Some?
    requires var w := Run(c, limit, events).value; w.slots < limit && device !in w.devices
    ensures var w := Run(c, limit, events).value;
            var taken, k := Next(c, w, TakeSlot(device)), |w.calls|;
            && Enabled(taken, Decide(k, now))
            && var v := Next(c, taken, Decide(k, now));
            && v.calls == w.calls + [Granted] && v.slots == w.slots + 1
            && device in v.devices && v.devices[device] == Budget((c.capacity - 1) * c.interval, now)
  {
    SlotsAreConserved(c, limit, events);
    var w := Run(c, limit, events).value;
    FullCovers(c);
    assert (w.calls + [Deciding(device)])[|w.calls| := Granted] == w.calls + [Granted];
    assert Full(c) - c.interval == (c.capacity - 1) * c.interval;
  }

  predicate ForwardReadings(readings: seq<int>, from: int) {
    readings == [] || (readings[0] >= from && ForwardReadings(readings[1..], readings[0]))
  }

  function LazyGrants(c: Config, b: Budget, readings: seq<int>): seq<bool>
    decreases readings
  {
    if readings == [] then []
    else
      var (next, granted) := Spend(c, Some(b), readings[0]);
      [granted] + LazyGrants(c, next, readings[1..])
  }

  /** The same on a budget filled up to the present, one unit each nanosecond. */
  function EagerGrants(c: Config, level: int, clock: int, readings: seq<int>): seq<bool>
    requires ForwardReadings(readings, clock)
    decreases readings
  {
    if readings == [] then []
    else
      var filled := Ticks(c.capacity * c.interval, level, readings[0] - clock);
      var granted := filled >= c.interval;
      [granted] + EagerGrants(c, if granted then filled - c.interval else filled, readings[0], readings[1..])
  }

  /** With a clock that never steps back, a budget grants as one that refills every nanosecond. */
  lemma {:induction false} LazyBudgetIsContinuous(c: Config, b: Budget, level: int, clock: int, readings: seq<int>)
    requires c.interval > 0 && ForwardReadings(readings, clock)
    requires b.updated <= clock && b.credit <= Full(c) && level == Min(Full(c), b.credit + (clock - b.updated))
    ensures LazyGrants(c, b, readings) == EagerGrants(c, level, clock, readings)
    decreases readings
  {
    if readings != [] {
      var now := readings[0];
      TicksAddUp(Full(c), level, now - clock);
      var filled := Ticks(Full(c), level, now - clock);
      var next := Spend(c, Some(b), now).0;
      LazyBudgetIsContinuous(c, next, if filled >= c.interval then filled - c.interval else filled, now, readings[1..]);
    }
  }

  lemma Extended(c: Config, start: World, events: seq<Event>, w: World, e: Event) returns (more: seq<Event>, v: World)
    requires RunFrom(c, start, events) == Some(w) && Enabled(w, e)
    ensures RunFrom(c, start, more) == Some(v) && v == Next(c, w, e) && events <= more
  {
    more, v := events + [e], Next(c, w, e);
    assert more[..|events|] == events;
  }

  /** Calls that still hold a slot or have not been answered. */
  function Open(calls: seq<Phase>): set<nat> {
    set k | 0 <= k < |calls| && Occupies(calls[k])
  }

  lemma CloseCall(c: Config, start: World, events: seq<Event>, w: World, k: nat) returns (more: seq<Event>, v: World)
    requires RunFrom(c, start, events) == Some(w) && k in Open(w.calls)
    ensures RunFrom(c, start, more) == Some(v) && events <= more
    ensures Open(v.calls) == Open(w.calls) - {k}
  {
    more, v := events, w;
    if v.calls[k].Deciding? {
      more, v := Extended(c, start, more, v, Decide(k, 0));
    }
    if v.calls[k].Refunding? {
      more, v := Extended(c, start, more, v, Refund(k));
    } else {
      more, v := Extended(c, start, more, v, ReleaseSlot(k));
    }
    assert forall j :: 0 <= j < |w.calls| && j != k ==> v.calls[j] == w.calls[j];
  }

  lemma CloseCalls(c: Config, start: World, events: seq<Event>, w: World) returns (more: seq<Event>, v: World)
    requires RunFrom(c, start, events) == Some(w)
    ensures RunFrom(c, start, more) == Some(v) && events <= more && Open(v.calls) == {}
    decreases |Open(w.calls)|
  {
    more, v := events, w;
    if Open(w.calls) != {} {
      var k :| k in Open(w.calls);
      more, v := CloseCall(c, start, events, w, k);
      more, v := CloseCalls(c, start, more, v);
    }
  }

  lemma {:induction false} NoneOpenNoneOccupied(calls: seq<Phase>)
    requires Open(calls) == {}
    ensures Occupied(calls) == 0
  {
    if calls != [] {
      var n := |calls| - 1;
      assert !Occupies(calls[n]) by {
        assert n !in Open(calls);
      }
      forall k | k in Open(calls[..n]) ensures k in Open(calls) {
      }
      NoneOpenNoneOccupied(calls[..n]);
    }
  }

  /** From every point of every interleaving each call can be answered and released, and then all slots are free. */
  lemma SlotsCanBeFreed(c: Config, limit: nat, events: seq<Event>) returns (more: seq<Event>)
    requires Run(c, limit, events).Some?
    ensures events <= more && Run(c, limit, more).Some? && Run(c, limit, more).value.slots == 0
  {
    var v;
    more, v := CloseCalls(c, World(limit, 0, map[], []), events, Run(c, limit, events).value);
    NoneOpenNoneOccupied(v.calls);
    SlotsAreConserved(c, limit, more);
  }

  /** The first call on a new limiter is granted. */
  lemma NewLimiterGrants(c: Config, limit: nat, device: string, now: int) returns (events: seq<Event>)
    requires c.interval > 0 && c.capacity >= 1 && limit >= 1
    ensures Run(c, limit, events).Some? && Run(c, limit, events).value.calls == [Granted]
  {
    var start, w := World(limit, 0, map[], []), World(limit, 0, map[], []);
    FullCovers(c);
    events := [];
    events, w := Extended(c, start, events, w, TakeSlot(device));
    events, w := Extended(c, start, events, w, Decide(0, now));
  }
}
