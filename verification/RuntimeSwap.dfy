/**
 * The readers-writer protocol of internal/app/runtime.go: prepared runtimes and token changes,
 * activation, retirement and shutdown, interleaved with requests.
 */
module RuntimeSwap {
  import opened Common

  /** A runtime: its weather service, and the service its installed handler routes to. */
  datatype Instance = Instance(service: nat, routes: nat)

  /** RuntimeManager: the current runtime, and what it still owes a close. */
  class RuntimeManager {
    var current: Option<Instance>
    ghost var retired: set<nat>

    constructor ()
      ensures current == None && retired == {}
    {
      current, retired := None, {};
    }

    /** The write-locked part of activate: install, and hand back the previous runtime to close. */
    method Swap(instance: Option<Instance>) returns (previous: Option<Instance>)
      modifies this
      ensures (current, retired, previous) == SwapIn(old(current), old(retired), instance)
    {
      previous := current;
      current := instance;
      if previous.Some? {
        retired := retired + {previous.value.service};
      }
    }

    /** The write-locked part of a token activation: the current runtime gets the prepared handler. */
    method SetHandler(routes: nat)
      modifies this`current
      ensures current == WithHandler(old(current), routes)
    {
      if current.Some? {
        current := Some(current.value.(routes := routes));
      }
    }

    /** The read-locked part of PrepareTokens: a handler around the current routes, or a refusal. */
    method HandlerRoutes() returns (routes: Option<nat>)
      ensures routes == CurrentService(current)
    {
      if current.None? {
        return None;
      }
      return Some(current.value.service);
    }
  }

  function SwapIn(current: Option<Instance>, retired: set<nat>, instance: Option<Instance>)
    : (Option<Instance>, set<nat>, Option<Instance>)
  {
    (instance, if current.Some? then retired + {current.value.service} else retired, current)
  }

  function WithHandler(current: Option<Instance>, routes: nat): Option<Instance> {
    if current.Some? then Some(current.value.(routes := routes)) else None
  }

  function CurrentService(current: Option<Instance>): Option<nat> {
    if current.Some? then Some(current.value.service) else None
  }

  /**
   * All threads at once. Services are numbered as they are built. pending holds prepared runtimes,
   * tokens the services that outstanding token changes were prepared on, retired the services
   * unlinked but not yet closed, closes the calls of Service.Close in order, and requests the
   * service each running request reached while it holds the read lock.
   */
  datatype World = World(
    current: Option<Instance>, built: nat, pending: set<nat>, tokens: map<nat, nat>, issued: nat,
    retired: set<nat>, closes: seq<nat>, requests: map<nat, nat>, served: nat)

  datatype Event =
    | Prepare
    | Activate(service: nat)
    | Discard(service: nat)
    | PrepareTokens
    | ActivateTokens(change: nat)
    | DiscardTokens(change: nat)
    | CloseRetired(service: nat)
    | BeginRequest
    | EndRequest(request: nat)
    | Shutdown

  function Initial(): World {
    World(None, 0, {}, map[], 0, {}, [], map[], 0)
  }

  /**
   * The write lock is only granted while no request holds the read lock. A prepared change that has
   * been activated or discarded once does nothing more.
   */
  predicate Enabled(w: World, e: Event) {
    match e
    case Prepare => true
    case Activate(s) => s in w.pending ==> w.requests == map[]
    case Discard(_) => true
    case PrepareTokens => w.current.Some?
    case ActivateTokens(t) => t in w.tokens ==> w.requests == map[]
    case DiscardTokens(_) => true
    case CloseRetired(s) => s in w.retired
    case BeginRequest => w.current.Some?
    case EndRequest(r) => r in w.requests
    case Shutdown => w.requests == map[]
  }

  function Next(w: World, e: Event): World
    requires Enabled(w, e)
  {
    match e
    case Prepare => w.(pending := w.pending + {w.built}, built := w.built + 1)
    case Activate(s) =>
      if s !in w.pending then w else
      var swapped := SwapIn(w.current, w.retired, Some(Instance(s, s)));
      w.(pending := w.pending - {s}, current := swapped.0, retired := swapped.1)
    case Discard(s) =>
      if s !in w.pending then w else w.(pending := w.pending - {s}, closes := w.closes + [s])
    case PrepareTokens =>
      w.(tokens := w.tokens[w.issued := CurrentService(w.current).value], issued := w.issued + 1)
    case ActivateTokens(t) =>
      if t !in w.tokens then w
      else w.(tokens := w.tokens - {t}, current := WithHandler(w.current, w.tokens[t]))
    case DiscardTokens(t) => w.(tokens := w.tokens - {t})
    case CloseRetired(s) => w.(retired := w.retired - {s}, closes := w.closes + [s])
    case BeginRequest =>
      w.(requests := w.requests[w.served := w.current.value.routes], served := w.served + 1)
    case EndRequest(r) => w.(requests := w.requests - {r})
    case Shutdown =>
      var swapped := SwapIn(w.current, w.retired, None);
      w.(current := swapped.0, retired := swapped.1)
  }

  /**
   * No runtime is activated while a token change is outstanding. changeMu imposes this order on the
   * handlers that take it; setup does not, and can break it (AdminInterleavings.SetupCanMisrouteTokens).
   */
  predicate Disciplined(w: World, e: Event) {
    e.Activate? && e.service in w.pending ==> w.tokens == map[]
  }

  function Run(events: seq<Event>, disciplined: bool): Option<World> {
    if events == [] then Some(Initial())
    else
      var n := |events| - 1;
      var before := Run(events[..n], disciplined);
      if before.Some? && Enabled(before.value, events[n])
         && (disciplined ==> Disciplined(before.value, events[n]))
      then Some(Next(before.value, events[n]))
      else None
  }

  /** Every service built has exactly one fate: current, pending, awaiting its close, or closed once. */
  ghost predicate OneFate(w: World) {
    && Distinct(w.closes)
    && (forall n :: 0 <= n < |w.closes| ==> w.closes[n] < w.built)
    && (forall s :: s in w.pending ==> s < w.built && s !in w.closes && s !in w.retired
                                       && CurrentService(w.current) != Some(s))
    && (forall s :: s in w.retired ==> s < w.built && s !in w.closes && CurrentService(w.current) != Some(s))
    && (w.current.Some? ==> w.current.value.service < w.built && w.current.value.service !in w.closes)
    && (forall s: nat :: s < w.built ==>
          s in w.pending || s in w.retired || s in w.closes || CurrentService(w.current) == Some(s))
  }

  /** Requests run on the current service, and so will the next one. */
  ghost predicate OnCurrent(w: World) {
    && (w.current.Some? ==> w.current.value.routes == w.current.value.service)
    && (forall r :: r in w.requests ==> r < w.served && CurrentService(w.current) == Some(w.requests[r]))
  }

  /** Outstanding token changes belong to the current runtime. */
  ghost predicate TokensOnCurrent(w: World) {
    forall t :: t in w.tokens ==>
      t < w.issued && (w.current.Some? ==> w.tokens[t] == w.current.value.service)
  }

  lemma FateStep(w: World, e: Event)
    requires OneFate(w) && Enabled(w, e)
    ensures OneFate(Next(w, e))
  {
  }

  lemma {:induction false} EveryServiceHasOneFate(events: seq<Event>, disciplined: bool)
    requires Run(events, disciplined).Some?
    ensures OneFate(Run(events, disciplined).value)
  {
    if events != [] {
      EveryServiceHasOneFate(events[..|events| - 1], disciplined);
      FateStep(Run(events[..|events| - 1], disciplined).value, events[|events| - 1]);
    }
  }

  lemma CurrentStep(w: World, e: Event)
    requires OnCurrent(w) && TokensOnCurrent(w) && Enabled(w, e) && Disciplined(w, e)
    ensures OnCurrent(Next(w, e)) && TokensOnCurrent(Next(w, e))
  {
  }

  lemma {:induction false} RunStaysOnCurrent(events: seq<Event>)
    requires Run(events, true).Some?
    ensures OnCurrent(Run(events, true).value) && TokensOnCurrent(Run(events, true).value)
  {
    if events != [] {
      RunStaysOnCurrent(events[..|events| - 1]);
      CurrentStep(Run(events[..|events| - 1], true).value, events[|events| - 1]);
    }
  }

  /**
   * For all interleavings in which token changes and runtime activations do not overlap: no running
   * request uses a service whose close has begun or is due, every service is closed at most once, and
   * exactly those that are neither current nor pending nor due have been.
   */
  lemma RequestsNeverUseClosedService(events: seq<Event>)
    requires Run(events, true).Some?
    ensures var w := Run(events, true).value;
            && (forall r :: r in w.requests ==>
                  w.requests[r] !in w.closes && w.requests[r] !in w.retired
                  && CurrentService(w.current) == Some(w.requests[r]))
            && (forall s: nat :: s < w.built ==>
                  multiset(w.closes)[s] ==
                  if s in w.pending || s in w.retired || CurrentService(w.current) == Some(s) then 0 else 1)
  {
    var w := Run(events, true).value;
    EveryServiceHasOneFate(events, true);
    RunStaysOnCurrent(events);
    forall s: nat | s < w.built
      ensures multiset(w.closes)[s] ==
              if s in w.pending || s in w.retired || CurrentService(w.current) == Some(s) then 0 else 1
    {
      DistinctOnce(w.closes, s);
    }
  }

  /** Nothing built is left behind: once nothing is pending or due and the manager is shut down, all are closed. */
  lemma ShutdownClosesEverything(events: seq<Event>)
    requires Run(events, false).Some?
    requires var w := Run(events, false).value; w.current == None && w.pending == {} && w.retired == {}
    ensures var w := Run(events, false).value;
            |w.closes| == w.built && forall s: nat :: s < w.built ==> s in w.closes
  {
    var w := Run(events, false).value;
    EveryServiceHasOneFate(events, false);
    DistinctCount(w.closes, Numbers(w.built));
  }

  ghost function Numbers(n: nat): (r: set<nat>)
    ensures |r| == n && forall s: nat :: s in r <==> s < n
  {
    if n == 0 then {} else Numbers(n - 1) + {n - 1}
  }

  /** A token change was prepared on a service that was current then, so never on a pending one. */
  ghost predicate TokensOnceCurrent(w: World) {
    forall t :: t in w.tokens ==> w.tokens[t] < w.built && w.tokens[t] !in w.pending
  }

  lemma TokensStep(w: World, e: Event)
    requires OneFate(w) && TokensOnceCurrent(w) && Enabled(w, e)
    ensures TokensOnceCurrent(Next(w, e))
  {
  }

  lemma {:induction false} RunTokensOnceCurrent(events: seq<Event>)
    requires Run(events, false).Some?
    ensures TokensOnceCurrent(Run(events, false).value)
  {
    if events != [] {
      RunTokensOnceCurrent(events[..|events| - 1]);
      EveryServiceHasOneFate(events[..|events| - 1], false);
      TokensStep(Run(events[..|events| - 1], false).value, events[|events| - 1]);
    }
  }

  /**
   * Without that order the guarantee is lost exactly when a token change is activated on another
   * runtime than it was prepared on: then, and only then, the next request reaches a service whose
   * close has begun or is due.
   */
  lemma TokenActivationIsSafeIffSameRuntime(events: seq<Event>, change: nat)
    requires Run(events, false).Some?
    requires Enabled(Run(events, false).value, ActivateTokens(change))
    requires change in Run(events, false).value.tokens
    requires Run(events, false).value.current.Some?
    ensures var w := Run(events, false).value;
            var v := Next(w, ActivateTokens(change));
            && Enabled(v, BeginRequest)
            && var u := Next(v, BeginRequest);
            && v.served in u.requests
            && (u.requests[v.served] in u.closes || u.requests[v.served] in u.retired
                <==> w.tokens[change] != w.current.value.service)
  {
    EveryServiceHasOneFate(events, false);
    RunTokensOnceCurrent(events);
  }

  lemma RunExtends(events: seq<Event>, e: Event)
    requires Run(events, false).Some? && Enabled(Run(events, false).value, e)
    ensures Run(events + [e], false) == Some(Next(Run(events, false).value, e))
  {
    assert (events + [e])[..|events|] == events;
  }

  /** A run out of order: the request ends up on a service that has been closed. */
  lemma OverlapReachesClosedService() returns (events: seq<Event>)
    ensures Run(events, false).Some?
    ensures var w := Run(events, false).value; exists r :: r in w.requests && w.requests[r] in w.closes
  {
    var w := Initial();
    events := [];
    events, w := Extended(events, w, Prepare);
    events, w := Extended(events, w, Activate(0));
    assert w.current == Some(Instance(0, 0)) && w.built == 1 && w.issued == 0;
    events, w := Extended(events, w, PrepareTokens);
    events, w := Extended(events, w, Prepare);
    events, w := Extended(events, w, Activate(1));
    assert w.current == Some(Instance(1, 1)) && w.tokens == map[0 := 0] && 0 in w.retired;
    events, w := Extended(events, w, CloseRetired(0));
    events, w := Extended(events, w, ActivateTokens(0));
    assert w.current == Some(Instance(1, 0)) && 0 in w.closes;
    events, w := Extended(events, w, BeginRequest);
    assert w.served - 1 in w.requests && w.requests[w.served - 1] == 0;
  }

  lemma Extended(events: seq<Event>, w: World, e: Event) returns (more: seq<Event>, v: World)
    requires Run(events, false) == Some(w) && Enabled(w, e)
    ensures Run(more, false) == Some(v) && v == Next(w, e) && events <= more
  {
    RunExtends(events, e);
    more, v := events + [e], Next(w, e);
  }

  // ----- Shutdown can always be completed -----

  lemma DrainRequests(events: seq<Event>, w: World) returns (more: seq<Event>, v: World)
    requires Run(events, false) == Some(w)
    ensures Run(more, false) == Some(v) && events <= more && v == w.(requests := map[])
    decreases |w.requests|
  {
    more, v := events, w;
    if w.requests != map[] {
      var r :| r in w.requests;
      more, v := Extended(events, w, EndRequest(r));
      Shrinks(w.requests, r);
      more, v := DrainRequests(more, v);
    }
  }

  lemma Shrinks(m: map<nat, nat>, r: nat)
    requires r in m
    ensures |m - {r}| < |m|
  {
    assert (m - {r}).Keys == m.Keys - {r} && |m| == |m.Keys| && |m - {r}| == |(m - {r}).Keys|;
  }

  lemma DrainPending(events: seq<Event>, w: World) returns (more: seq<Event>, v: World)
    requires Run(events, false) == Some(w) && w.requests == map[]
    ensures Run(more, false) == Some(v) && events <= more && v.pending == {} && v.requests == map[]
    decreases |w.pending|
  {
    more, v := events, w;
    if w.pending != {} {
      var s :| s in w.pending;
      more, v := Extended(events, w, Discard(s));
      more, v := DrainPending(more, v);
    }
  }

  lemma DrainRetired(events: seq<Event>, w: World) returns (more: seq<Event>, v: World)
    requires Run(events, false) == Some(w) && w.pending == {} && w.current == None && w.requests == map[]
    ensures Run(more, false) == Some(v) && events <= more
    ensures v.pending == {} && v.current == None && v.requests == map[] && v.retired == {}
    decreases |w.retired|
  {
    more, v := events, w;
    if w.retired != {} {
      var s :| s in w.retired;
      more, v := Extended(events, w, CloseRetired(s));
      more, v := DrainRetired(more, v);
    }
  }

  /**
   * From every point of every interleaving the running requests can end, what is prepared can be
   * discarded, and the manager can shut down, after which every service ever built has been closed.
   */
  lemma ShutdownCanComplete(events: seq<Event>) returns (more: seq<Event>)
    requires Run(events, false).Some?
    ensures events <= more && Run(more, false).Some?
    ensures var w := Run(more, false).value;
            && w.current == None && w.requests == map[]
            && |w.closes| == w.built && forall s: nat :: s < w.built ==> s in w.closes
  {
    var v;
    more, v := DrainRequests(events, Run(events, false).value);
    more, v := DrainPending(more, v);
    more, v := Extended(more, v, Shutdown);
    more, v := DrainRetired(more, v);
    ShutdownClosesEverything(more);
  }
}
