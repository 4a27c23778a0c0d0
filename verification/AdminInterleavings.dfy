/**
 * Disk and runtime agree. Handlers that hold changeMu take turns, but each of them takes two steps: up to
 * the save, and the activation. setup does not take changeMu: it commits, replaces the allowlist and
 * activates its runtime in three steps, and steps of the others may fall between them.
 */
module AdminInterleavings {
  import opened Common
  import opened StateStore
  import opened AdminChanges
  import opened AdminRuns
  import Origins

  /**
   * What a handler that has saved will activate. A token change wraps the routes of the runtime that was
   * current when it was prepared, so it carries that runtime's generation.
   */
  datatype Change =
    | Install(runtime: Runtime)
    | Rewrap(tokens: seq<DeviceToken>, generation: nat)
    | Enforce(allowlist: set<string>)
    | Nothing

  /** A setup that has committed, with what it will install. */
  datatype Stage = Stage(runtime: Runtime, allowlist: set<string>, enforced: bool)

  /**
   * holder is the handler that holds changeMu between its save and its activation; generation counts the
   * runtimes activated; misrouted says that the credentials in force guard the routes of an older one,
   * whose service is closed.
   */
  datatype World = World(
    server: Server, holder: Option<Change>, setup: Option<Stage>, generation: nat, misrouted: bool)

  datatype Event =
    | SaveChange(request: Request, attempt: Attempt)
    | ActivateChange
    | CommitSetup(setup: SetupRequest, accepted: bool, attempt: Attempt)
    | EnforceSetup
    | ActivateSetup

  function ChangeOf(r: Request, t: Server, generation: nat): Change {
    match r
    case Put(_, _) => if t.runtime.Some? then Install(t.runtime.value) else Nothing
    case AddToken(_) => if t.runtime.Some? then Rewrap(t.runtime.value.tokens, generation) else Nothing
    case RemoveToken(_) => if t.runtime.Some? then Rewrap(t.runtime.value.tokens, generation) else Nothing
    case AddOrigin(_) => Enforce(t.allowlist)
    case DeleteOrigin(_, _) => Enforce(t.allowlist)
    case _ => Nothing
  }

  function Installed(w: World, runtime: Runtime): World {
    w.(server := w.server.(runtime := Some(runtime)), generation := w.generation + 1, misrouted := false)
  }

  function Activated(w: World, change: Change): World {
    match change
    case Install(runtime) => Installed(w, runtime)
    case Rewrap(tokens, generation) =>
      if w.server.runtime.None? then w
      else w.(server := w.server.(runtime := Some(w.server.runtime.value.(tokens := tokens))),
              misrouted := generation != w.generation)
    case Enforce(allowlist) => w.(server := w.server.(allowlist := allowlist))
    case Nothing => w
  }

  predicate Enabled(w: World, e: Event) {
    match e
    case SaveChange(r, _) => w.holder.None? && !r.Initialize?
    case ActivateChange => w.holder.Some?
    case CommitSetup(_, _, _) => true
    case EnforceSetup => w.setup.Some? && !w.setup.value.enforced
    case ActivateSetup => w.setup.Some? && w.setup.value.enforced
  }

  /**
   * A handler's step from its load to its save is atomic here: while a state is persisted, setup changes
   * nothing that it reads from the disk, and the runtime it may replace meanwhile is only read once.
   */
  function Next(env: Env, w: World, e: Event): World
    requires Enabled(w, e)
  {
    match e
    case SaveChange(r, a) =>
      var (t, reply) := Handle(env, w.server, r, a);
      w.(server := w.server.(disk := t.disk),
         holder := if reply.Done? then Some(ChangeOf(r, t, w.generation)) else None)
    case ActivateChange => Activated(w, w.holder.value).(holder := None)
    case CommitSetup(request, accepted, a) =>
      var (t, reply) := Setup(env, w.server, request, accepted, a);
      w.(server := w.server.(disk := t.disk),
         setup := if reply.Done? && t.runtime.Some? then Some(Stage(t.runtime.value, t.allowlist, false)) else w.setup)
    case EnforceSetup =>
      w.(server := w.server.(allowlist := w.setup.value.allowlist), setup := Some(w.setup.value.(enforced := true)))
    case ActivateSetup => Installed(w, w.setup.value.runtime).(setup := None)
  }

  /** A process that has just started. */
  function Begin(s: Server): World {
    World(s, None, None, 0, false)
  }

  /** The handler that is still to activate its change does so. */
  function Finish(w: World): World {
    if w.holder.Some? then Activated(w, w.holder.value).(holder := None) else w
  }

  /** Disk and runtime agree, and requests reach the current runtime. */
  ghost predicate Agrees(env: Env, w: World) {
    Settled(env, w.server) && !w.misrouted
  }

  /**
   * One at a time the steps make up the whole handlers: a change saved and activated, or a setup
   * committed, enforced and activated, does what the handler on its own does.
   */
  lemma StepsMakeHandler(env: Env, s: Server, r: Request, a: Attempt)
    requires Origins.Idempotent(env.normal) && Kept(env, s.disk)
    ensures !r.Initialize? ==> Finish(Next(env, Begin(s), SaveChange(r, a))).server == Handle(env, s, r, a).0
    ensures r.Initialize? ==>
              var w := Next(env, Begin(s), CommitSetup(r.setup, r.accepted, a));
              var (t, reply) := Handle(env, s, r, a);
              if reply.Refused? then w == Begin(t)
              else Enabled(w, EnforceSetup)
                   && Next(env, Next(env, w, EnforceSetup), ActivateSetup).server == t
  {
    if r.Initialize? {
      SetupEffect(env, s, r.setup, r.accepted, a);
    } else {
      HandleEffect(env, s, r, a);
    }
  }

  // ----- What holds in every interleaving -----

  /** What is in flight will install what is persisted now. */
  ghost predicate HolderFits(w: World, p: State) {
    w.holder.Some? ==>
      match w.holder.value
      case Install(runtime) => runtime == RuntimeOf(p)
      case Rewrap(tokens, generation) =>
        tokens == p.tokens && generation <= w.generation && w.server.runtime.Some?
      case Enforce(allowlist) => allowlist == Members(p.admin.publicOrigins)
      case Nothing => true
  }

  ghost predicate Fits(env: Env, w: World) {
    && Kept(env, w.server.disk)
    && match Load(w.server.disk)
       case Ok(p) => HolderFits(w, p)
       case Err(_) =>
         w.holder == None && w.setup == None && w.server.runtime == None && w.server.allowlist == {} && !w.misrouted
  }

  /** The runtime agrees with the disk, or will once the handler in flight has activated its change. */
  predicate RuntimeSound(w: World) {
    match Load(w.server.disk)
    case Err(_) => w.server.runtime == None && !w.misrouted
    case Ok(p) =>
      match w.holder
      case Some(Install(_)) => true
      case Some(Rewrap(tokens, generation)) =>
        generation == w.generation && w.server.runtime.Some?
        && w.server.runtime.value.(tokens := tokens) == RuntimeOf(p)
      case _ => w.server.runtime == Some(RuntimeOf(p)) && !w.misrouted
  }

  /** The allowlist does. */
  predicate OriginsSound(w: World) {
    match Load(w.server.disk)
    case Err(_) => w.server.allowlist == {}
    case Ok(p) => (w.holder.Some? && w.holder.value.Enforce?) || w.server.allowlist == Members(p.admin.publicOrigins)
  }

  /**
   * Nothing has overtaken a setup that is about to replace the allowlist: the persisted origins are still
   * those it committed, or the handler in flight will enforce the persisted ones after it.
   */
  predicate OriginsStand(w: World) {
    && w.setup.Some? && Load(w.server.disk).Ok?
    && ((w.holder.Some? && w.holder.value.Enforce?)
        || w.setup.value.allowlist == Members(Load(w.server.disk).value.admin.publicOrigins))
  }

  /**
   * Nothing has overtaken a setup that is about to activate its runtime: no token change is in flight, and
   * the persisted settings are still those it committed, unless a whole runtime is about to follow.
   */
  predicate SettingsStand(w: World) {
    && w.setup.Some? && Load(w.server.disk).Ok?
    && match w.holder
       case Some(Install(_)) => true
       case Some(Rewrap(_, _)) => false
       case _ => w.setup.value.runtime == RuntimeOf(Load(w.server.disk).value)
  }

  /** The two steps of setup that nothing may have overtaken. */
  predicate Careful(w: World, e: Event) {
    match e
    case EnforceSetup => OriginsStand(w)
    case ActivateSetup => SettingsStand(w)
    case _ => true
  }

  /** Whatever is not waiting for a setup to finish is sound. */
  ghost predicate Sound(w: World) {
    && (w.setup.None? ==> RuntimeSound(w))
    && (w.setup.None? || w.setup.value.enforced ==> OriginsSound(w))
  }

  lemma SaveStep(env: Env, w: World, r: Request, a: Attempt)
    requires Origins.Idempotent(env.normal) && Fits(env, w) && Enabled(w, SaveChange(r, a))
    ensures Fits(env, Next(env, w, SaveChange(r, a)))
    ensures RuntimeSound(w) ==> RuntimeSound(Next(env, w, SaveChange(r, a)))
    ensures OriginsSound(w) ==> OriginsSound(Next(env, w, SaveChange(r, a)))
  {
    var outcome := Handle(env, w.server, r, a);
    HandleEffect(env, w.server, r, a);
    SavedStep(env, w, r, a.now, outcome);
  }

  lemma SavedStep(env: Env, w: World, r: Request, now: int, outcome: (Server, Reply))
    requires Fits(env, w) && w.holder.None? && !r.Initialize? && Effect(env, w.server, r, now, outcome)
    ensures var (t, reply) := outcome;
            var v := w.(server := w.server.(disk := t.disk),
                        holder := if reply.Done? then Some(ChangeOf(r, t, w.generation)) else None);
            Fits(env, v) && (RuntimeSound(w) ==> RuntimeSound(v)) && (OriginsSound(w) ==> OriginsSound(v))
  {
  }

  lemma ActivateStep(env: Env, w: World)
    requires Fits(env, w) && w.holder.Some?
    ensures var v := Next(env, w, ActivateChange);
            Fits(env, v) && (RuntimeSound(w) ==> RuntimeSound(v)) && (OriginsSound(w) ==> OriginsSound(v))
  {
  }

  /** A setup that commits finds nothing persisted, so no other setup and no handler is in flight. */
  lemma CommitStep(env: Env, w: World, request: SetupRequest, accepted: bool, a: Attempt)
    requires Origins.Idempotent(env.normal) && Fits(env, w)
    ensures var v := Next(env, w, CommitSetup(request, accepted, a));
            && Fits(env, v)
            && (v.setup == w.setup ==> (RuntimeSound(w) ==> RuntimeSound(v)) && (OriginsSound(w) ==> OriginsSound(v)))
            && (v.setup != w.setup ==> w.setup.None? && w.holder.None? && v.setup.Some? && !v.setup.value.enforced
                                       && SettingsStand(v) && OriginsStand(v))
  {
    SetupEffect(env, w.server, request, accepted, a);
  }

  lemma EnforceStep(env: Env, w: World)
    requires Fits(env, w) && Enabled(w, EnforceSetup)
    ensures var v := Next(env, w, EnforceSetup);
            Fits(env, v) && (RuntimeSound(w) ==> RuntimeSound(v)) && (OriginsSound(v) <==> OriginsStand(w))
  {
  }

  lemma ActivateSetupStep(env: Env, w: World)
    requires Fits(env, w) && Enabled(w, ActivateSetup)
    ensures var v := Next(env, w, ActivateSetup);
            Fits(env, v) && (RuntimeSound(v) <==> SettingsStand(w)) && (OriginsSound(v) <==> OriginsSound(w))
  {
  }

  lemma StepFits(env: Env, w: World, e: Event)
    requires Origins.Idempotent(env.normal) && Fits(env, w) && Enabled(w, e)
    ensures Fits(env, Next(env, w, e))
    ensures Sound(w) && Careful(w, e) ==> Sound(Next(env, w, e))
  {
    match e
    case SaveChange(r, a) => SaveStep(env, w, r, a);
    case ActivateChange => ActivateStep(env, w);
    case CommitSetup(request, accepted, a) => CommitStep(env, w, request, accepted, a);
    case EnforceSetup => EnforceStep(env, w);
    case ActivateSetup => ActivateSetupStep(env, w);
  }

  /** Soundness is agreement, once the handler in flight has finished. */
  lemma SoundIffAgrees(env: Env, w: World)
    requires Fits(env, w)
    ensures RuntimeSound(w) && OriginsSound(w) <==> Agrees(env, Finish(w))
  {
  }

  // ----- Runs -----

  /** A process that starts on a directory, and what happens until it ends. */
  function Run(env: Env, start: World, events: seq<Event>, careful: bool): Option<World> {
    if events == [] then Some(start)
    else
      var n := |events| - 1;
      var before := Run(env, start, events[..n], careful);
      if before.Some? && Enabled(before.value, events[n]) && (careful ==> Careful(before.value, events[n]))
      then Some(Next(env, before.value, events[n])) else None
  }

  lemma {:induction false} RunFits(env: Env, start: World, events: seq<Event>, careful: bool)
    requires Origins.Idempotent(env.normal) && Fits(env, start) && Run(env, start, events, careful).Some?
    ensures Fits(env, Run(env, start, events, careful).value)
    ensures careful && Sound(start) ==> Sound(Run(env, start, events, careful).value)
  {
    if events != [] {
      var n := |events| - 1;
      RunFits(env, start, events[..n], careful);
      StepFits(env, Run(env, start, events[..n], careful).value, events[n]);
    }
  }

  lemma BeginFits(env: Env, s: Server)
    requires Settled(env, s)
    ensures Fits(env, Begin(s)) && Sound(Begin(s))
  {
  }

  /** Every process, on whatever directory a crash or an operator has left. */
  ghost predicate Starts(env: Env, start: World) {
    exists disk, a, backupFault ::
      Startup(env, disk, a, backupFault) == Some(start.server) && start == Begin(start.server)
  }

  lemma StartFits(env: Env, start: World)
    requires Origins.Idempotent(env.normal) && Starts(env, start)
    ensures Fits(env, start) && Sound(start)
  {
    var disk, a, backupFault :|
      Startup(env, disk, a, backupFault) == Some(start.server) && start == Begin(start.server);
    StartupSettles(env, disk, a, backupFault);
    BeginFits(env, start.server);
  }

  /**
   * In every interleaving of handlers and setups from every start, in which no setup was overtaken at one
   * of its two last steps: whenever none is between its commit and its end, then as soon as the handler in
   * flight is done, credentials, provider settings, cache policy and allowlist are those of the persisted
   * state, whichever writes failed or lacked durability; its tokens are 1 to 32 with distinct identities
   * and its origins at most 16, canonical, distinct and, behind a proxy, not empty.
   */
  lemma DiskAndRuntimeAgree(env: Env, start: World, events: seq<Event>)
    requires Origins.Idempotent(env.normal) && Starts(env, start) && Run(env, start, events, true).Some?
    ensures var w := Run(env, start, events, true).value; w.setup.None? ==> Agrees(env, Finish(w))
  {
    StartFits(env, start);
    RunFits(env, start, events, true);
    SoundIffAgrees(env, Run(env, start, events, true).value);
  }

  /**
   * The condition is exact in every interleaving at all: when setup ends, disk and runtime agree, as soon
   * as the handler in flight is done, if and only if nothing had overtaken it and the allowlist was sound;
   * and replacing the allowlist makes that sound if and only if nothing had overtaken it there.
   */
  lemma SetupAgreesIffNotOvertaken(env: Env, start: World, events: seq<Event>)
    requires Origins.Idempotent(env.normal) && Starts(env, start) && Run(env, start, events, false).Some?
    ensures var w := Run(env, start, events, false).value;
            && (Enabled(w, ActivateSetup) ==>
                  (Agrees(env, Finish(Next(env, w, ActivateSetup))) <==> SettingsStand(w) && OriginsSound(w)))
            && (Enabled(w, EnforceSetup) ==> (OriginsSound(Next(env, w, EnforceSetup)) <==> OriginsStand(w)))
  {
    StartFits(env, start);
    RunFits(env, start, events, false);
    var w := Run(env, start, events, false).value;
    if Enabled(w, ActivateSetup) {
      ActivateSetupStep(env, w);
      SoundIffAgrees(env, Next(env, w, ActivateSetup));
    }
    if Enabled(w, EnforceSetup) {
      EnforceStep(env, w);
    }
  }

  /** A step that leaves what a committed setup carries as it is persisted. */
  predicate Quiet(env: Env, w: World, e: Event) {
    match e
    case SaveChange(r, a) => r.SetPassword? || Handle(env, w.server, r, a).1.Refused?
    case ActivateSetup => false
    case _ => true
  }

  predicate AllQuiet(env: Env, start: World, events: seq<Event>)
    requires Run(env, start, events, false).Some?
  {
    events == [] ||
    var n := |events| - 1;
    AllQuiet(env, start, events[..n]) && Quiet(env, Run(env, start, events[..n], false).value, events[n])
  }

  /** What a committed setup carries is still what is persisted. */
  ghost predicate Untouched(w: World) {
    && w.setup.Some? && Load(w.server.disk).Ok?
    && (w.holder.None? || w.holder.value.Nothing?)
    && var p := Load(w.server.disk).value;
       && w.setup.value.runtime == RuntimeOf(p) && w.setup.value.allowlist == Members(p.admin.publicOrigins)
       && (w.setup.value.enforced ==> w.server.allowlist == w.setup.value.allowlist)
  }

  lemma QuietStep(env: Env, w: World, e: Event)
    requires Origins.Idempotent(env.normal) && Fits(env, w) && Enabled(w, e) && Quiet(env, w, e) && Untouched(w)
    ensures Untouched(Next(env, w, e))
  {
    match e
    case SaveChange(r, a) => HandleEffect(env, w.server, r, a);
    case CommitSetup(request, accepted, a) => CommitStep(env, w, request, accepted, a);
    case _ =>
  }

  lemma {:induction false} QuietRun(env: Env, w: World, events: seq<Event>)
    requires Origins.Idempotent(env.normal) && Fits(env, w) && Untouched(w)
    requires Run(env, w, events, false).Some? && AllQuiet(env, w, events)
    ensures Untouched(Run(env, w, events, false).value) && Fits(env, Run(env, w, events, false).value)
  {
    RunFits(env, w, events, false);
    if events != [] {
      var n := |events| - 1;
      QuietRun(env, w, events[..n]);
      QuietStep(env, Run(env, w, events[..n], false).value, events[n]);
    }
  }

  /**
   * Whatever happened before, a setup between whose commit and end nothing but password changes and
   * refused requests fall leaves disk and runtime in agreement.
   */
  lemma UndisturbedSetupAgrees(env: Env, start: World, before: seq<Event>, commit: Event, between: seq<Event>)
    requires Origins.Idempotent(env.normal) && Starts(env, start) && Run(env, start, before, false).Some?
    requires commit.CommitSetup?
    requires var w := Run(env, start, before, false).value;
             var v := Next(env, w, commit);
             && v.setup != w.setup && Run(env, v, between, false).Some? && AllQuiet(env, v, between)
             && Enabled(Run(env, v, between, false).value, ActivateSetup)
    ensures var v := Next(env, Run(env, start, before, false).value, commit);
            Agrees(env, Finish(Next(env, Run(env, v, between, false).value, ActivateSetup)))
  {
    StartFits(env, start);
    RunFits(env, start, before, false);
    var w := Run(env, start, before, false).value;
    CommitStep(env, w, commit.setup, commit.accepted, commit.attempt);
    QuietRun(env, Next(env, w, commit), between);
    var u := Run(env, Next(env, w, commit), between, false).value;
    ActivateSetupStep(env, u);
    SoundIffAgrees(env, Next(env, u, ActivateSetup));
  }

  /** In particular with the normal forms the program uses. */
  lemma DiskAndRuntimeAgreeInPractice(env: Env, start: World, events: seq<Event>, ip: string -> bool)
    requires env.normal == Origins.Normalizer(ip) && Origins.IpTexts(ip)
    requires Starts(env, start) && Run(env, start, events, true).Some?
    ensures var w := Run(env, start, events, true).value; w.setup.None? ==> Agrees(env, Finish(w))
  {
    Origins.NormalizerIsIdempotent(ip);
    DiskAndRuntimeAgree(env, start, events);
  }

  // ----- Setups that are overtaken -----

  /** An environment that accepts everything, an empty directory, and a write that goes well. */
  const LENIENT := Env(false, origin => Ok(origin), origin => origin, s => true, s => true, token => true)
  const EMPTY := Disk(Durable(None), Durable(None), None)
  const SMOOTH := Attempt(1, 1, NoFault)

  function Device(id: string): DeviceToken {
    DeviceToken(id, "", "", 0)
  }

  function Configured(qweather: string, tokens: seq<DeviceToken>): State {
    State(SCHEMA_VERSION, 1, Admin("", []), qweather, DefaultCache(), tokens)
  }

  lemma Extended(env: Env, start: World, events: seq<Event>, w: World, e: Event) returns (more: seq<Event>, v: World)
    requires Run(env, start, events, false) == Some(w) && Enabled(w, e)
    ensures Run(env, start, more, false) == Some(v) && v == Next(env, w, e) && more == events + [e]
  {
    more, v := events + [e], Next(env, w, e);
    assert more[..|events|] == events;
  }

  /** setup commits, new provider settings are saved and activated, and only then setup goes on. */
  lemma OvertakenWorld(second: string) returns (events: seq<Event>, w: World)
    ensures Starts(LENIENT, Begin(Server(EMPTY, None, {})))
    ensures Run(LENIENT, Begin(Server(EMPTY, None, {})), events, false) == Some(w)
    ensures Load(w.server.disk) == Ok(Configured(second, [Device("1")]))
    ensures w.server.runtime == Some(RuntimeOf(Configured(second, [Device("1")]))) && w.server.allowlist == {}
    ensures w.setup == Some(Stage(RuntimeOf(Configured("first", [Device("1")])), {}, false))
    ensures w.holder == None && w.generation == 1 && !w.misrouted
  {
    var start := Begin(Server(EMPTY, None, {}));
    assert Startup(LENIENT, EMPTY, SMOOTH, NoFault) == Some(start.server);
    events, w := [], start;
    var request := SetupRequest([], "", "first", Device("1"));
    events, w := Extended(LENIENT, start, events, w, CommitSetup(request, true, SMOOTH));
    assert Load(w.server.disk) == Ok(Configured("first", [Device("1")]));
    assert Members([]) == {};
    assert w.setup == Some(Stage(RuntimeOf(Configured("first", [Device("1")])), Members([]), false));
    events, w := Extended(LENIENT, start, events, w, SaveChange(Put(second, true), SMOOTH));
    events, w := Extended(LENIENT, start, events, w, ActivateChange);
  }

  /** The runtime of setup replaces the newer one: what is in force is not what is persisted. */
  lemma SetupCanOverwriteSettings() returns (start: World, events: seq<Event>)
    ensures Starts(LENIENT, start) && Run(LENIENT, start, events, false).Some?
    ensures var w := Run(LENIENT, start, events, false).value;
            && w.holder == None && w.setup == None && w.server.runtime.Some?
            && Load(w.server.disk).Ok? && w.server.runtime.value.qweather != Load(w.server.disk).value.qweather
            && !Agrees(LENIENT, w)
  {
    var w;
    start := Begin(Server(EMPTY, None, {}));
    events, w := OvertakenWorld("second");
    events, w := Extended(LENIENT, start, events, w, EnforceSetup);
    events, w := Extended(LENIENT, start, events, w, ActivateSetup);
    assert w.server.runtime.value.qweather == "first";
  }

  /** A token change prepared before setup activates its runtime sends requests to the runtime before it. */
  lemma SetupCanMisrouteTokens() returns (start: World, events: seq<Event>)
    ensures Starts(LENIENT, start) && Run(LENIENT, start, events, false).Some?
    ensures var w := Run(LENIENT, start, events, false).value;
            w.holder == None && w.setup == None && Settled(LENIENT, w.server) && w.misrouted
  {
    var w;
    start := Begin(Server(EMPTY, None, {}));
    events, w := OvertakenWorld("first");
    events, w := Extended(LENIENT, start, events, w, SaveChange(AddToken(Some(Device("2"))), SMOOTH));
    events, w := Extended(LENIENT, start, events, w, EnforceSetup);
    events, w := Extended(LENIENT, start, events, w, ActivateSetup);
    events, w := Extended(LENIENT, start, events, w, ActivateChange);
  }
}
