/**
 * The management handlers of internal/modules/admin/admin.go and the startup of internal/app/app.go:
 * each prepares a change, persists it and activates it. Each is taken as a whole here. The six that
 * change an existing state take turns under changeMu; setup does not take it, and AdminInterleavings
 * says what that means.
 */
module AdminChanges {
  import opened Common
  import opened StateStore
  import Origins

  const MAXIMUM_DEVICE_TOKENS := 32

  /**
   * What the handlers take from elsewhere: the transport mode, the normal form of an origin
   * (Origins.Normalizer), digests and checks of opaque values.
   */
  datatype Env = Env(
    proxy: bool, normal: Origins.Normal, originId: string -> string,
    validQWeather: string -> bool, validPassword: string -> bool, validToken: DeviceToken -> bool)

  /** The active runtime: provider settings, cache policy and device credentials. */
  datatype Runtime = Runtime(qweather: string, cache: CacheState, tokens: seq<DeviceToken>)

  /** A running server: its directory, its runtime if it is set up, and the enforced allowlist. */
  datatype Server = Server(disk: Disk, runtime: Option<Runtime>, allowlist: set<string>)

  /** How one attempt to write the state goes: length of the rendering, clock, and fault. */
  datatype Attempt = Attempt(size: nat, now: int, fault: Fault)

  /** Done says whether the change is known to be durable; Refused changed nothing. */
  datatype Reply = Done(durable: bool) | Refused

  function RuntimeOf(s: State): Runtime {
    Runtime(s.qweather, s.cache, s.tokens)
  }

  function Members(origins: seq<string>): set<string> {
    set o | o in origins
  }

  predicate DistinctIds(tokens: seq<DeviceToken>) {
    forall i, j :: 0 <= i < j < |tokens| ==> tokens[i].id != tokens[j].id
  }

  /** credentialsFromState accepts the tokens. */
  predicate ValidCredentials(env: Env, tokens: seq<DeviceToken>) {
    && 1 <= |tokens| <= MAXIMUM_DEVICE_TOKENS && DistinctIds(tokens)
    && forall i :: 0 <= i < |tokens| ==> env.validToken(tokens[i])
  }

  /** validateState and the construction of a provider succeed. */
  predicate Preparable(env: Env, s: State) {
    && s.schemaVersion == SCHEMA_VERSION && env.validPassword(s.admin.password)
    && env.validQWeather(s.qweather) && ValidCache(s.cache) && ValidCredentials(env, s.tokens)
  }

  function OtherTokens(tokens: seq<DeviceToken>, id: string): seq<DeviceToken> {
    if tokens == [] then []
    else
      var n := |tokens| - 1;
      OtherTokens(tokens[..n], id) + if tokens[n].id == id then [] else [tokens[n]]
  }

  function OtherOrigins(env: Env, origins: seq<string>, id: string): seq<string> {
    if origins == [] then []
    else
      var n := |origins| - 1;
      OtherOrigins(env, origins[..n], id) + if env.originId(origins[n]) == id then [] else [origins[n]]
  }

  /** The origin an identifier names: the last match, or nothing. */
  function NamedOrigin(env: Env, origins: seq<string>, id: string): Option<string> {
    if origins == [] then None
    else if env.originId(origins[|origins| - 1]) == id then Some(origins[|origins| - 1])
    else NamedOrigin(env, origins[..|origins| - 1], id)
  }

  function WithOrigins(s: State, origins: seq<string>, now: int): State {
    s.(admin := s.admin.(publicOrigins := origins), updatedAt := now)
  }

  // ----- The handlers -----

  /** Nothing a reader of the state or of the running server can see has changed. */
  predicate Unchanged(s: Server, t: Server) {
    t.disk.state == s.disk.state && t.runtime == s.runtime && t.allowlist == s.allowlist
  }

  /** Save a state, and activate what goes with it only if that succeeded. */
  function SaveAndActivate(s: Server, value: State, a: Attempt, runtime: Option<Runtime>, allowlist: set<string>)
    : (r: (Server, Reply))
    ensures r.1 == Refused ==> Unchanged(s, r.0)
  {
    var w := Save(s.disk, value, a.size, a.now, a.fault);
    match w.result
    case Err(_) => (s.(disk := Last(w)), Refused)
    case Ok(durable) => (Server(Last(w), runtime, allowlist), Done(durable))
  }

  /** putQWeather; tested says whether the candidate passed its connection test. */
  function PutQWeather(env: Env, s: Server, qweather: string, tested: bool, a: Attempt): (r: (Server, Reply))
    ensures r.1 == Refused ==> Unchanged(s, r.0)
  {
    match Load(s.disk)
    case Err(_) => (s, Refused)
    case Ok(previous) =>
      var candidate := previous.(qweather := qweather, updatedAt := a.now);
      if !tested || !Preparable(env, candidate) then (s, Refused)
      else SaveAndActivate(s, candidate, a, Some(RuntimeOf(candidate)), s.allowlist)
  }

  /** addAdminOrigin once the request is in normal form. */
  function AddCanonicalOrigin(env: Env, s: Server, origin: string, a: Attempt): (r: (Server, Reply))
    ensures r.1 == Refused ==> Unchanged(s, r.0)
  {
    match Load(s.disk)
    case Err(_) => (s, Refused)
    case Ok(value) =>
      var origins := value.admin.publicOrigins;
      if origin in origins || |origins| >= Origins.MAXIMUM_PUBLIC_ORIGINS then (s, Refused)
      else
        match Origins.ValidateOrigins(env.proxy, origins + [origin], env.normal)
        case Err(_) => (s, Refused)
        case Ok(normalized) =>
          SaveAndActivate(s, WithOrigins(value, origins + [origin], a.now), a, s.runtime, Members(normalized))
  }

  function AddAdminOrigin(env: Env, s: Server, request: string, a: Attempt): (r: (Server, Reply))
    ensures r.1 == Refused ==> Unchanged(s, r.0)
  {
    match env.normal(request)
    case Err(_) => (s, Refused)
    case Ok(origin) => AddCanonicalOrigin(env, s, origin, a)
  }

  /** deleteAdminOrigin; current is the origin the request came from. */
  function DeleteAdminOrigin(env: Env, s: Server, id: string, current: Option<string>, a: Attempt): (r: (Server, Reply))
    ensures r.1 == Refused ==> Unchanged(s, r.0)
  {
    match Load(s.disk)
    case Err(_) => (s, Refused)
    case Ok(value) =>
      var target := NamedOrigin(env, value.admin.publicOrigins, id);
      var filtered := OtherOrigins(env, value.admin.publicOrigins, id);
      if target.None? || (env.proxy && filtered == []) || current == target then (s, Refused)
      else
        match Origins.ValidateOrigins(env.proxy, filtered, env.normal)
        case Err(_) => (s, Refused)
        case Ok(normalized) =>
          SaveAndActivate(s, WithOrigins(value, normalized, a.now), a, s.runtime, Members(normalized))
  }

  /** The tail shared by createToken and deleteToken. */
  function ReplaceTokens(env: Env, s: Server, value: State, tokens: seq<DeviceToken>, a: Attempt): (r: (Server, Reply))
    ensures r.1 == Refused ==> Unchanged(s, r.0)
  {
    if !ValidCredentials(env, tokens) || s.runtime.None? then (s, Refused)
    else SaveAndActivate(s, value.(tokens := tokens, updatedAt := a.now), a,
                         Some(s.runtime.value.(tokens := tokens)), s.allowlist)
  }

  /** createToken; token is the new random token, absent when its name is refused. */
  function CreateToken(env: Env, s: Server, token: Option<DeviceToken>, a: Attempt): (r: (Server, Reply))
    ensures r.1 == Refused ==> Unchanged(s, r.0)
  {
    match Load(s.disk)
    case Err(_) => (s, Refused)
    case Ok(value) =>
      if |value.tokens| >= MAXIMUM_DEVICE_TOKENS || token.None? then (s, Refused)
      else ReplaceTokens(env, s, value, value.tokens + [token.value], a)
  }

  function DeleteToken(env: Env, s: Server, id: string, a: Attempt): (r: (Server, Reply))
    ensures r.1 == Refused ==> Unchanged(s, r.0)
  {
    match Load(s.disk)
    case Err(_) => (s, Refused)
    case Ok(value) =>
      var filtered := OtherTokens(value.tokens, id);
      if |value.tokens| == 1 || |filtered| == |value.tokens| then (s, Refused)
      else ReplaceTokens(env, s, value, filtered, a)
  }

  /** changePassword; password is the new verifier, absent when a check before it failed. */
  function ChangePassword(s: Server, password: Option<string>, a: Attempt): (r: (Server, Reply))
    ensures r.1 == Refused ==> Unchanged(s, r.0)
  {
    match Load(s.disk)
    case Err(_) => (s, Refused)
    case Ok(value) =>
      if password.None? then (s, Refused)
      else
        var changed := value.(admin := value.admin.(password := password.value), updatedAt := a.now);
        SaveAndActivate(s, changed, a, s.runtime, s.allowlist)
  }

  /** The tail of setup: create the state, and activate it only if that succeeded. */
  function CreateAndActivate(s: Server, value: State, a: Attempt): (r: (Server, Reply))
    ensures r.1 == Refused ==> Unchanged(s, r.0)
  {
    var w := CommitInitial(s.disk, value, a.size, a.now, a.fault);
    match w.result
    case Err(_) => (s.(disk := Last(w)), Refused)
    case Ok(durable) => (Server(Last(w), Some(RuntimeOf(value)), Members(value.admin.publicOrigins)), Done(durable))
  }

  /** What setup is asked for, with the verifier and the first token it has made. */
  datatype SetupRequest = SetupRequest(origins: seq<string>, password: string, qweather: string, token: DeviceToken)

  function FirstState(request: SetupRequest, origins: seq<string>, now: int): State {
    State(SCHEMA_VERSION, now, Admin(request.password, origins), request.qweather, DefaultCache(), [request.token])
  }

  /** setup; accepted says whether its other checks and its connection test passed. */
  function Setup(env: Env, s: Server, request: SetupRequest, accepted: bool, a: Attempt): (r: (Server, Reply))
    ensures r.1 == Refused ==> Unchanged(s, r.0)
  {
    if Load(s.disk) != Err(NotInitialized) then (s, Refused)
    else
      match Origins.ValidateOrigins(env.proxy, request.origins, env.normal)
      case Err(_) => (s, Refused)
      case Ok(origins) =>
        var value := FirstState(request, origins, a.now);
        if !accepted || !Preparable(env, value) then (s, Refused) else CreateAndActivate(s, value, a)
  }

  /** The persisted state can be run on: its origins are stored in canonical form and it can be prepared. */
  predicate Admissible(env: Env, p: State) {
    && Origins.ValidateOrigins(env.proxy, p.admin.publicOrigins, env.normal) == Ok(p.admin.publicOrigins)
    && Preparable(env, p)
  }

  /** The directory once a loaded state is in the current schema. */
  function Upgrade(disk: Disk, loaded: Compatible, a: Attempt, backupFault: Fault): Option<Disk> {
    if loaded.sourceVersion == SCHEMA_VERSION then Some(disk)
    else
      var w := CommitMigration(disk, loaded, a.size, a.now, backupFault, a.fault);
      if w.result.Err? then None else Some(Last(w))
  }

  /** app.New on a directory: nothing when the process refuses to start. */
  function Startup(env: Env, disk: Disk, a: Attempt, backupFault: Fault): Option<Server> {
    match LoadCompatible(disk)
    case Err(e) => if e == NotInitialized then Some(Server(disk, None, {})) else None
    case Ok(loaded) =>
      if !Admissible(env, loaded.state) then None
      else
        match Upgrade(disk, loaded, a, backupFault)
        case None => None
        case Some(upgraded) =>
          Some(Server(upgraded, Some(RuntimeOf(loaded.state)), Members(loaded.state.admin.publicOrigins)))
  }

  // ----- The handlers as the program runs them -----

  class Handler {
    const env: Env
    const store: Store
    const transport: Origins.TransportPolicy
    var runtime: Option<Runtime>

    ghost function View(): Server
      reads this, store, transport
    {
      Server(store.disk, runtime, transport.publicOrigins)
    }

    constructor (env: Env, store: Store, transport: Origins.TransportPolicy)
      ensures this.env == env && this.store == store && this.transport == transport && runtime == None
    {
      this.env, this.store, this.transport, runtime := env, store, transport, None;
    }

    /** The tail of setup. */
    method Initialize(request: SetupRequest, accepted: bool, a: Attempt) returns (reply: Reply)
      modifies this, store, transport
      ensures (View(), reply) == Setup(env, old(View()), request, accepted, a)
    {
      if Load(store.disk) != Err(NotInitialized) {
        return Refused;
      }
      var origins := Origins.ValidateOrigins(env.proxy, request.origins, env.normal);
      if origins.Err? || !accepted {
        return Refused;
      }
      var value := FirstState(request, origins.value, a.now);
      var prepared := Preparable(env, value);
      if !prepared {
        return Refused;
      }
      var result := store.Initialize(value, a.size, a.now, a.fault);
      if result.Err? {
        return Refused;
      }
      transport.ReplacePublicOrigins(origins.value);
      runtime := Some(RuntimeOf(value));
      return Done(result.value);
    }

    method Put(qweather: string, tested: bool, a: Attempt) returns (reply: Reply)
      modifies this, store
      ensures (View(), reply) == PutQWeather(env, old(View()), qweather, tested, a)
    {
      var previous := Load(store.disk);
      if previous.Err? {
        return Refused;
      }
      var candidate := previous.value.(qweather := qweather, updatedAt := a.now);
      if !tested {
        return Refused;
      }
      var prepared := Preparable(env, candidate);
      if !prepared {
        return Refused;
      }
      var result := store.SaveState(candidate, a.size, a.now, a.fault);
      if result.Err? {
        return Refused;
      }
      runtime := Some(RuntimeOf(candidate));
      return Done(result.value);
    }

    method AddOrigin(request: string, a: Attempt) returns (reply: Reply)
      modifies store, transport
      ensures (View(), reply) == AddAdminOrigin(env, old(View()), request, a)
    {
      var origin := env.normal(request);
      if origin.Err? {
        return Refused;
      }
      var value := Load(store.disk);
      if value.Err? {
        return Refused;
      }
      var origins := value.value.admin.publicOrigins;
      if origin.value in origins || |origins| >= Origins.MAXIMUM_PUBLIC_ORIGINS {
        return Refused;
      }
      origins := origins + [origin.value];
      var normalized := Origins.ValidateOrigins(env.proxy, origins, env.normal);
      if normalized.Err? {
        return Refused;
      }
      var result := store.SaveState(WithOrigins(value.value, origins, a.now), a.size, a.now, a.fault);
      if result.Err? {
        return Refused;
      }
      transport.ReplacePublicOrigins(normalized.value);
      return Done(result.value);
    }

    method DeleteOrigin(id: string, current: Option<string>, a: Attempt) returns (reply: Reply)
      modifies store, transport
      ensures (View(), reply) == DeleteAdminOrigin(env, old(View()), id, current, a)
    {
      var value := Load(store.disk);
      if value.Err? {
        return Refused;
      }
      var target, filtered := FilterOrigins(env, value.value.admin.publicOrigins, id);
      if target == None || (env.proxy && filtered == []) || current == target {
        return Refused;
      }
      var normalized := Origins.ValidateOrigins(env.proxy, filtered, env.normal);
      if normalized.Err? {
        return Refused;
      }
      var result := store.SaveState(WithOrigins(value.value, normalized.value, a.now), a.size, a.now, a.fault);
      if result.Err? {
        return Refused;
      }
      transport.ReplacePublicOrigins(normalized.value);
      return Done(result.value);
    }

    method AddToken(token: Option<DeviceToken>, a: Attempt) returns (reply: Reply)
      modifies this, store
      ensures (View(), reply) == CreateToken(env, old(View()), token, a)
    {
      var value := Load(store.disk);
      if value.Err? || |value.value.tokens| >= MAXIMUM_DEVICE_TOKENS || token.None? {
        return Refused;
      }
      reply := Replace(value.value, value.value.tokens + [token.value], a);
    }

    method RemoveToken(id: string, a: Attempt) returns (reply: Reply)
      modifies this, store
      ensures (View(), reply) == DeleteToken(env, old(View()), id, a)
    {
      var value := Load(store.disk);
      if value.Err? || |value.value.tokens| == 1 {
        return Refused;
      }
      var found, filtered := FilterTokens(value.value.tokens, id);
      if !found {
        return Refused;
      }
      reply := Replace(value.value, filtered, a);
    }

    method Replace(value: State, tokens: seq<DeviceToken>, a: Attempt) returns (reply: Reply)
      modifies this, store
      ensures (View(), reply) == ReplaceTokens(env, old(View()), value, tokens, a)
    {
      var credentials := CheckCredentials(env, tokens);
      if !credentials || runtime == None {
        return Refused;
      }
      var result := store.SaveState(value.(tokens := tokens, updatedAt := a.now), a.size, a.now, a.fault);
      if result.Err? {
        return Refused;
      }
      runtime := Some(runtime.value.(tokens := tokens));
      return Done(result.value);
    }

    method SetPassword(password: Option<string>, a: Attempt) returns (reply: Reply)
      modifies store
      ensures (View(), reply) == ChangePassword(old(View()), password, a)
    {
      var value := Load(store.disk);
      if value.Err? || password.None? {
        return Refused;
      }
      var changed := value.value.(admin := value.value.admin.(password := password.value), updatedAt := a.now);
      var result := store.SaveState(changed, a.size, a.now, a.fault);
      if result.Err? {
        return Refused;
      }
      return Done(result.value);
    }
  }

  /** The loop of credentialsFromState, with its set of seen identities. */
  method CheckCredentials(env: Env, tokens: seq<DeviceToken>) returns (ok: bool)
    ensures ok <==> ValidCredentials(env, tokens)
  {
    if |tokens| == 0 || |tokens| > MAXIMUM_DEVICE_TOKENS {
      return false;
    }
    var seen: set<string> := {};
    for i := 0 to |tokens|
      invariant forall id :: id in seen <==> exists j :: 0 <= j < i && tokens[j].id == id
      invariant forall j, k :: 0 <= j < k < i ==> tokens[j].id != tokens[k].id
      invariant forall j :: 0 <= j < i ==> env.validToken(tokens[j])
    {
      if !env.validToken(tokens[i]) || tokens[i].id in seen {
        return false;
      }
      seen := seen + {tokens[i].id};
    }
    return true;
  }

  method FilterTokens(tokens: seq<DeviceToken>, id: string) returns (found: bool, filtered: seq<DeviceToken>)
    ensures filtered == OtherTokens(tokens, id) && (found <==> |filtered| != |tokens|)
  {
    found, filtered := false, [];
    for i := 0 to |tokens|
      invariant filtered == OtherTokens(tokens[..i], id) && |filtered| <= i && (found <==> |filtered| != i)
    {
      assert tokens[..i + 1][..i] == tokens[..i];
      if tokens[i].id == id {
        found := true;
      } else {
        filtered := filtered + [tokens[i]];
      }
    }
    assert tokens[..|tokens|] == tokens;
  }

  method FilterOrigins(env: Env, origins: seq<string>, id: string)
    returns (target: Option<string>, filtered: seq<string>)
    ensures target == NamedOrigin(env, origins, id) && filtered == OtherOrigins(env, origins, id)
  {
    target, filtered := None, [];
    for i := 0 to |origins|
      invariant target == NamedOrigin(env, origins[..i], id)
      invariant filtered == OtherOrigins(env, origins[..i], id)
    {
      assert origins[..i + 1][..i] == origins[..i];
      if env.originId(origins[i]) == id {
        target := Some(origins[i]);
      } else {
        filtered := filtered + [origins[i]];
      }
    }
    assert origins[..|origins|] == origins;
  }
}
