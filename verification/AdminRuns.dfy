/**
 * What each management request and each start do to disk and runtime: every handler taken on its own,
 * whatever the runtime and the allowlist were before. AdminInterleavings puts their steps together.
 */
module AdminRuns {
  import opened Common
  import opened StateStore
  import opened AdminChanges
  import Origins

  datatype Request =
    | Put(qweather: string, tested: bool)
    | AddOrigin(origin: string)
    | DeleteOrigin(id: string, current: Option<string>)
    | AddToken(token: Option<DeviceToken>)
    | RemoveToken(id: string)
    | SetPassword(password: Option<string>)
    | Initialize(setup: SetupRequest, accepted: bool)

  /** A refused request changes neither what is persisted nor what is active. */
  function Handle(env: Env, s: Server, r: Request, a: Attempt): (answer: (Server, Reply))
    ensures answer.1 == Refused ==> Unchanged(s, answer.0)
  {
    match r
    case Put(qweather, tested) => PutQWeather(env, s, qweather, tested, a)
    case AddOrigin(origin) => AddAdminOrigin(env, s, origin, a)
    case DeleteOrigin(id, current) => DeleteAdminOrigin(env, s, id, current, a)
    case AddToken(token) => CreateToken(env, s, token, a)
    case RemoveToken(id) => DeleteToken(env, s, id, a)
    case SetPassword(password) => ChangePassword(s, password, a)
    case Initialize(setup, accepted) => Setup(env, s, setup, accepted, a)
  }

  /** What a persisted state may be once a server runs on it. */
  ghost predicate WellKept(env: Env, p: State) {
    && ValidCredentials(env, p.tokens)
    && Origins.Canonical(p.admin.publicOrigins, env.normal)
    && (env.proxy ==> p.admin.publicOrigins != [])
  }

  /** What is persisted, if anything, may be run on. */
  ghost predicate Kept(env: Env, d: Disk) {
    match Load(d)
    case Ok(p) => WellKept(env, p)
    case Err(e) => e == NotInitialized
  }

  /** The active runtime is that of the persisted state; without one there is none. */
  predicate RuntimeFits(s: Server) {
    match Load(s.disk)
    case Ok(p) => s.runtime == Some(RuntimeOf(p))
    case Err(_) => s.runtime == None
  }

  predicate OriginsFit(s: Server) {
    match Load(s.disk)
    case Ok(p) => s.allowlist == Members(p.admin.publicOrigins)
    case Err(_) => s.allowlist == {}
  }

  /** The active runtime and allowlist are those of the persisted state; without one, neither exists. */
  ghost predicate Settled(env: Env, s: Server) {
    Kept(env, s.disk) && RuntimeFits(s) && OriginsFit(s)
  }

  /** A failed write leaves what is loaded; a successful one installs it, stamped if it had no time. */
  lemma WriteThenLoad(d: Disk, value: State, a: Attempt)
    ensures var w := WriteState(d, value, a.size, a.now, a.fault);
            && (w.result.Err? ==> Last(w).state == d.state && Load(Last(w)) == Load(d))
            && (w.result.Ok? ==>
                  Load(Last(w)) == Ok(Stamped(value, a.now)))
  {
    ReplaceThenRead(d, StateFile, V4(Stamped(value, a.now), a.size), a.fault);
  }

  lemma ReplaceThenRead(d: Disk, name: Name, c: Contents, fault: Fault)
    ensures var w := AtomicWrite(d, name, c, fault);
            && (w.result.Err? ==> SlotOf(Last(w), name) == SlotOf(d, name))
            && (w.result.Ok? ==> Read(SlotOf(Last(w), name)) == Ok(c))
            && SlotOf(Last(w), if name == StateFile then BackupFile else StateFile).visible
               == SlotOf(d, if name == StateFile then BackupFile else StateFile).visible
  {
  }

  // ----- What one request does, whatever the runtime and the allowlist were before -----

  /** The persisted state and the part of the server that goes with the request change together. */
  ghost predicate Changed(s: Server, r: Request, t: Server, p: State, q: State) {
    match r
    case Put(_, _) =>
      t.runtime == Some(RuntimeOf(q)) && q.admin.publicOrigins == p.admin.publicOrigins && t.allowlist == s.allowlist
    case AddOrigin(_) =>
      t.allowlist == Members(q.admin.publicOrigins) && RuntimeOf(q) == RuntimeOf(p) && t.runtime == s.runtime
    case DeleteOrigin(_, _) =>
      t.allowlist == Members(q.admin.publicOrigins) && RuntimeOf(q) == RuntimeOf(p) && t.runtime == s.runtime
    case AddToken(_) => TokensChanged(s, t, p, q)
    case RemoveToken(_) => TokensChanged(s, t, p, q)
    case SetPassword(_) =>
      && RuntimeOf(q) == RuntimeOf(p) && q.admin.publicOrigins == p.admin.publicOrigins
      && t.runtime == s.runtime && t.allowlist == s.allowlist
    case Initialize(_, _) => true
  }

  ghost predicate TokensChanged(s: Server, t: Server, p: State, q: State) {
    && s.runtime.Some? && t.runtime == Some(s.runtime.value.(tokens := q.tokens))
    && RuntimeOf(q) == RuntimeOf(p).(tokens := q.tokens) && q.admin.publicOrigins == p.admin.publicOrigins
    && t.allowlist == s.allowlist
  }

  /** What the persisted state becomes is what was asked for, and nothing else of it changes. */
  ghost predicate Fulfilled(env: Env, r: Request, p: State, q: State, now: int) {
    match r
    case Put(qweather, tested) => tested && q == p.(qweather := qweather, updatedAt := now)
    case AddOrigin(origin) =>
      && env.normal(origin).Ok? && env.normal(origin).value !in p.admin.publicOrigins
      && q == p.(admin := p.admin.(publicOrigins := p.admin.publicOrigins + [env.normal(origin).value]),
                 updatedAt := now)
    case DeleteOrigin(id, current) =>
      && q == p.(admin := p.admin.(publicOrigins := q.admin.publicOrigins), updatedAt := now)
      && (forall o :: o in q.admin.publicOrigins <==> o in p.admin.publicOrigins && env.originId(o) != id)
      && KeepsOrder(p.admin.publicOrigins, q.admin.publicOrigins)
    case AddToken(token) => token.Some? && q == p.(tokens := p.tokens + [token.value], updatedAt := now)
    case RemoveToken(id) =>
      && q == p.(tokens := q.tokens, updatedAt := now)
      && (forall token :: token in q.tokens <==> token in p.tokens && token.id != id)
      && KeepsOrder(p.tokens, q.tokens)
    case SetPassword(password) =>
      password.Some? && q == p.(admin := p.admin.(password := password.value), updatedAt := now)
    case Initialize(_, _) => true
  }

  ghost predicate Effect(env: Env, s: Server, r: Request, now: int, outcome: (Server, Reply)) {
    var (t, reply) := outcome;
    && Kept(env, t.disk)
    && (reply.Refused? ==> Unchanged(s, t))
    && (reply.Done? ==>
          && Load(s.disk).Ok? && Load(t.disk).Ok?
          && Changed(s, r, t, Load(s.disk).value, Load(t.disk).value)
          && Fulfilled(env, r, Load(s.disk).value, Load(t.disk).value, now))
  }

  lemma SaveEffect(env: Env, s: Server, value: State, a: Attempt, runtime: Option<Runtime>, allowlist: set<string>)
    requires Kept(env, s.disk) && Load(s.disk).Ok? && WellKept(env, value)
    ensures var (t, reply) := SaveAndActivate(s, value, a, runtime, allowlist);
            && Kept(env, t.disk) && Load(t.disk).Ok?
            && (reply.Refused? ==> Unchanged(s, t))
            && (reply.Done? ==>
                  Load(t.disk).value == Stamped(value, a.now) && t.runtime == runtime && t.allowlist == allowlist)
  {
    WriteThenLoad(s.disk, value, a);
  }

  // ----- Origins -----

  lemma {:induction false} OthersStayCanonical(env: Env, origins: seq<string>, id: string)
    requires Distinct(origins)
    ensures var r := OtherOrigins(env, origins, id);
            && |r| <= |origins| && Distinct(r) && forall i :: 0 <= i < |r| ==> r[i] in origins
  {
    if origins != [] {
      var rest := origins[..|origins| - 1];
      assert forall i :: 0 <= i < |rest| ==> rest[i] == origins[i];
      OthersStayCanonical(env, rest, id);
      var kept := OtherOrigins(env, rest, id);
      forall i | 0 <= i < |kept| ensures kept[i] in origins && kept[i] != origins[|rest|] {
        var j :| 0 <= j < |rest| && rest[j] == kept[i];
        assert origins[j] == kept[i];
      }
    }
  }

  lemma DeletedListIsFixed(env: Env, origins: seq<string>, id: string)
    requires Origins.Idempotent(env.normal) && Origins.Canonical(origins, env.normal)
    ensures Origins.Canonical(OtherOrigins(env, origins, id), env.normal)
    ensures Origins.NormalizeOrigins(OtherOrigins(env, origins, id), env.normal) == Ok(OtherOrigins(env, origins, id))
  {
    OthersStayCanonical(env, origins, id);
    Origins.FixedIffCanonical(OtherOrigins(env, origins, id), env.normal);
  }

  lemma ExtendedListIsFixed(env: Env, origins: seq<string>, origin: string)
    requires Origins.Idempotent(env.normal) && Origins.Canonical(origins, env.normal)
    requires env.normal(origin) == Ok(origin)
    requires origin !in origins && |origins| < Origins.MAXIMUM_PUBLIC_ORIGINS
    ensures Origins.Canonical(origins + [origin], env.normal)
    ensures Origins.NormalizeOrigins(origins + [origin], env.normal) == Ok(origins + [origin])
  {
    var more := origins + [origin];
    forall i | 0 <= i < |more| ensures env.normal(more[i]) == Ok(more[i]) {
      assert i < |origins| ==> more[i] == origins[i];
    }
    assert Origins.Canonical(more, env.normal);
    Origins.FixedIffCanonical(more, env.normal);
  }

  // ----- One request -----

  lemma PutEffect(env: Env, s: Server, qweather: string, tested: bool, a: Attempt)
    requires Kept(env, s.disk)
    ensures Effect(env, s, Put(qweather, tested), a.now, PutQWeather(env, s, qweather, tested, a))
  {
    if Load(s.disk).Ok? {
      var candidate := Load(s.disk).value.(qweather := qweather, updatedAt := a.now);
      if tested && Preparable(env, candidate) {
        SaveEffect(env, s, candidate, a, Some(RuntimeOf(candidate)), s.allowlist);
      }
    }
  }

  /** Adding a normal form to a canonical list activates exactly the list it saves. */
  lemma AddCanonicalForm(env: Env, s: Server, value: State, origin: string, a: Attempt)
    requires Origins.Idempotent(env.normal) && Load(s.disk) == Ok(value)
    requires Origins.Canonical(value.admin.publicOrigins, env.normal)
    requires env.normal(origin) == Ok(origin)
    ensures var more := value.admin.publicOrigins + [origin];
            if origin in value.admin.publicOrigins
               || |value.admin.publicOrigins| >= Origins.MAXIMUM_PUBLIC_ORIGINS
            then AddCanonicalOrigin(env, s, origin, a) == (s, Refused)
            else Origins.Canonical(more, env.normal)
                 && AddCanonicalOrigin(env, s, origin, a)
                    == SaveAndActivate(s, WithOrigins(value, more, a.now), a, s.runtime, Members(more))
  {
    var origins := value.admin.publicOrigins;
    if origin !in origins && |origins| < Origins.MAXIMUM_PUBLIC_ORIGINS {
      ExtendedListIsFixed(env, origins, origin);
    }
  }

  /** Saving and activating one canonical list. */
  lemma OriginsEffect(env: Env, s: Server, value: State, more: seq<string>, a: Attempt, r: Request)
    requires Kept(env, s.disk) && Load(s.disk) == Ok(value) && (r.AddOrigin? || r.DeleteOrigin?)
    requires Origins.Canonical(more, env.normal) && (env.proxy ==> more != [])
    requires Fulfilled(env, r, value, WithOrigins(value, more, a.now), a.now)
    ensures var outcome := SaveAndActivate(s, WithOrigins(value, more, a.now), a, s.runtime, Members(more));
            Effect(env, s, r, a.now, outcome) && (outcome.1.Done? ==> outcome.0.allowlist == Members(more))
  {
    SaveEffect(env, s, WithOrigins(value, more, a.now), a, s.runtime, Members(more));
  }

  lemma AddedOutcome(env: Env, s: Server, value: State, origin: string, a: Attempt, outcome: (Server, Reply), r: Request)
    requires Kept(env, s.disk) && Load(s.disk) == Ok(value) && r.AddOrigin? && env.normal(r.origin) == Ok(origin)
    requires var more := value.admin.publicOrigins + [origin];
             || outcome == (s, Refused)
             || (&& Origins.Canonical(more, env.normal) && origin !in value.admin.publicOrigins
                 && outcome == SaveAndActivate(s, WithOrigins(value, more, a.now), a, s.runtime, Members(more)))
    ensures Effect(env, s, r, a.now, outcome)
    ensures outcome.1.Done? ==> outcome.0.allowlist == Members(value.admin.publicOrigins) + {origin}
  {
    var more := value.admin.publicOrigins + [origin];
    assert Members(more) == Members(value.admin.publicOrigins) + {origin};
    if outcome != (s, Refused) {
      OriginsEffect(env, s, value, more, a, r);
    }
  }

  /** If it is accepted, the origin is enforced beside those persisted before. */
  lemma AddCanonicalEffect(env: Env, s: Server, origin: string, a: Attempt, r: Request)
    requires Origins.Idempotent(env.normal) && Kept(env, s.disk) && r.AddOrigin?
    requires env.normal(r.origin) == Ok(origin)
    ensures Effect(env, s, r, a.now, AddCanonicalOrigin(env, s, origin, a))
    ensures AddCanonicalOrigin(env, s, origin, a).1.Done? ==>
              && Load(s.disk).Ok?
              && AddCanonicalOrigin(env, s, origin, a).0.allowlist
                 == Members(Load(s.disk).value.admin.publicOrigins) + {origin}
  {
    if Load(s.disk).Ok? {
      AddCanonicalForm(env, s, Load(s.disk).value, origin, a);
      AddedOutcome(env, s, Load(s.disk).value, origin, a, AddCanonicalOrigin(env, s, origin, a), r);
    }
  }

  lemma AddOriginEffect(env: Env, s: Server, request: string, a: Attempt)
    requires Origins.Idempotent(env.normal) && Kept(env, s.disk)
    ensures Effect(env, s, AddOrigin(request), a.now, AddAdminOrigin(env, s, request, a))
  {
    var origin := env.normal(request);
    if origin.Ok? {
      AddCanonicalEffect(env, s, origin.value, a, AddOrigin(request));
    }
  }

  lemma {:induction false} OtherOriginsInOrder(env: Env, origins: seq<string>, id: string)
    ensures KeepsOrder(origins, OtherOrigins(env, origins, id))
  {
    if origins != [] {
      var rest, last := origins[..|origins| - 1], origins[|origins| - 1];
      OtherOriginsInOrder(env, rest, id);
      OtherOriginsMembers(env, rest, id);
      KeepsOrderAtEnd(rest, OtherOrigins(env, rest, id), last, env.originId(last) != id);
      assert origins == rest + [last];
    }
  }

  lemma DeleteOriginEffect(env: Env, s: Server, id: string, current: Option<string>, a: Attempt)
    requires Origins.Idempotent(env.normal) && Kept(env, s.disk)
    ensures Effect(env, s, DeleteOrigin(id, current), a.now, DeleteAdminOrigin(env, s, id, current, a))
  {
    if Load(s.disk).Ok? {
      var value := Load(s.disk).value;
      var filtered := OtherOrigins(env, value.admin.publicOrigins, id);
      DeletedListIsFixed(env, value.admin.publicOrigins, id);
      OtherOriginsMembers(env, value.admin.publicOrigins, id);
      OtherOriginsInOrder(env, value.admin.publicOrigins, id);
      if !(env.proxy && filtered == []) {
        OriginsEffect(env, s, value, filtered, a, DeleteOrigin(id, current));
      }
    }
  }

  lemma TokensEffect(env: Env, s: Server, value: State, tokens: seq<DeviceToken>, a: Attempt, r: Request)
    requires Kept(env, s.disk) && Load(s.disk) == Ok(value) && (r.AddToken? || r.RemoveToken?)
    requires Fulfilled(env, r, value, value.(tokens := tokens, updatedAt := a.now), a.now)
    ensures Effect(env, s, r, a.now, ReplaceTokens(env, s, value, tokens, a))
  {
    if ValidCredentials(env, tokens) && s.runtime.Some? {
      var changed := value.(tokens := tokens, updatedAt := a.now);
      SaveEffect(env, s, changed, a, Some(s.runtime.value.(tokens := tokens)), s.allowlist);
    }
  }

  lemma {:induction false} OtherTokensInOrder(tokens: seq<DeviceToken>, id: string)
    ensures KeepsOrder(tokens, OtherTokens(tokens, id))
  {
    if tokens != [] {
      var rest, last := tokens[..|tokens| - 1], tokens[|tokens| - 1];
      OtherTokensInOrder(rest, id);
      OtherTokensMembers(rest, id);
      KeepsOrderAtEnd(rest, OtherTokens(rest, id), last, last.id != id);
      assert tokens == rest + [last];
    }
  }

  lemma RemoveTokenEffect(env: Env, s: Server, id: string, a: Attempt)
    requires Kept(env, s.disk)
    ensures Effect(env, s, RemoveToken(id), a.now, DeleteToken(env, s, id, a))
  {
    if Load(s.disk).Ok? {
      var value := Load(s.disk).value;
      OtherTokensMembers(value.tokens, id);
      OtherTokensInOrder(value.tokens, id);
      TokensEffect(env, s, value, OtherTokens(value.tokens, id), a, RemoveToken(id));
    }
  }

  lemma PasswordEffect(env: Env, s: Server, password: Option<string>, a: Attempt)
    requires Kept(env, s.disk)
    ensures Effect(env, s, SetPassword(password), a.now, ChangePassword(s, password, a))
  {
    if Load(s.disk).Ok? && password.Some? {
      var value := Load(s.disk).value;
      var changed := value.(admin := value.admin.(password := password.value), updatedAt := a.now);
      SaveEffect(env, s, changed, a, s.runtime, s.allowlist);
    }
  }

  /** The six handlers that take changeMu, on any server whose persisted state may be run on. */
  lemma HandleEffect(env: Env, s: Server, r: Request, a: Attempt)
    requires Origins.Idempotent(env.normal) && Kept(env, s.disk) && !r.Initialize?
    ensures Effect(env, s, r, a.now, Handle(env, s, r, a))
  {
    match r
    case Put(qweather, tested) => PutEffect(env, s, qweather, tested, a);
    case AddOrigin(origin) => AddOriginEffect(env, s, origin, a);
    case DeleteOrigin(id, current) => DeleteOriginEffect(env, s, id, current, a);
    case AddToken(token) =>
      if Load(s.disk).Ok? && token.Some? {
        TokensEffect(env, s, Load(s.disk).value, Load(s.disk).value.tokens + [token.value], a, r);
      }
    case RemoveToken(id) => RemoveTokenEffect(env, s, id, a);
    case SetPassword(password) => PasswordEffect(env, s, password, a);
  }

  /** The first state is what setup was asked for, with the origins in normal form and the default policy. */
  ghost predicate Established(env: Env, request: SetupRequest, q: State, now: int) {
    && q.schemaVersion == 4 && q.updatedAt == now && q.admin.password == request.password
    && |q.admin.publicOrigins| == |request.origins|
    && (forall i :: 0 <= i < |request.origins| ==> env.normal(request.origins[i]) == Ok(q.admin.publicOrigins[i]))
    && q.qweather == request.qweather && q.tokens == [request.token]
    && q.cache == CacheState(1200, 21600, 3600, 43200, 14400, 172800, 600, 3600, 64)
  }

  /** setup succeeds only where nothing is persisted, and what it would activate is what it persists. */
  lemma SetupEffect(env: Env, s: Server, request: SetupRequest, accepted: bool, a: Attempt)
    requires Origins.Idempotent(env.normal) && Kept(env, s.disk)
    ensures var (t, reply) := Setup(env, s, request, accepted, a);
            && Kept(env, t.disk)
            && (reply.Refused? ==> Unchanged(s, t))
            && (reply.Done? ==>
                  && Load(s.disk) == Err(NotInitialized) && Load(t.disk).Ok?
                  && Established(env, request, Load(t.disk).value, a.now)
                  && t.runtime == Some(RuntimeOf(Load(t.disk).value))
                  && t.allowlist == Members(Load(t.disk).value.admin.publicOrigins))
  {
    var origins := Origins.ValidateOrigins(env.proxy, request.origins, env.normal);
    if Load(s.disk) == Err(NotInitialized) && origins.Ok? {
      Origins.FixedIffCanonical(request.origins, env.normal);
      Origins.ListIsAcceptedIff(request.origins, env.normal);
      WriteThenLoad(s.disk, FirstState(request, origins.value, a.now), a);
    }
  }

  /** One at a time, requests keep disk and runtime in agreement. */
  lemma HandleSettles(env: Env, s: Server, r: Request, a: Attempt)
    requires Origins.Idempotent(env.normal) && Settled(env, s)
    ensures Settled(env, Handle(env, s, r, a).0)
  {
    if r.Initialize? {
      SetupEffect(env, s, r.setup, r.accepted, a);
    } else {
      HandleEffect(env, s, r, a);
    }
  }

  lemma MigrationThenLoad(disk: Disk, loaded: Compatible, a: Attempt, backupFault: Fault)
    ensures var w := CommitMigration(disk, loaded, a.size, a.now, backupFault, a.fault);
            w.result.Ok? ==> Load(Last(w)) == Ok(Stamped(loaded.state, a.now))
  {
    var backup := AtomicWrite(disk, BackupFile, loaded.source, backupFault);
    WriteThenLoad(Last(backup), loaded.state, a);
  }

  lemma UpgradeThenLoad(disk: Disk, loaded: Compatible, a: Attempt, backupFault: Fault)
    requires LoadCompatible(disk) == Ok(loaded) && Upgrade(disk, loaded, a, backupFault).Some?
    ensures var upgraded := Load(Upgrade(disk, loaded, a, backupFault).value);
            upgraded == Ok(loaded.state) || upgraded == Ok(Stamped(loaded.state, a.now))
  {
    if loaded.sourceVersion != SCHEMA_VERSION {
      MigrationThenLoad(disk, loaded, a, backupFault);
    }
  }

  /** What startup has checked is what a server may run on. */
  lemma AdmissibleIsWellKept(env: Env, p: State)
    requires Origins.Idempotent(env.normal) && Admissible(env, p)
    ensures WellKept(env, p)
  {
    Origins.FixedIffCanonical(p.admin.publicOrigins, env.normal);
  }

  lemma LiveIsSettled(env: Env, disk: Disk, p: State, now: int)
    requires WellKept(env, p) && (Load(disk) == Ok(p) || Load(disk) == Ok(Stamped(p, now)))
    ensures Settled(env, Server(disk, Some(RuntimeOf(p)), Members(p.admin.publicOrigins)))
  {
  }

  lemma StartupSettles(env: Env, disk: Disk, a: Attempt, backupFault: Fault)
    requires Origins.Idempotent(env.normal) && Startup(env, disk, a, backupFault).Some?
    ensures Settled(env, Startup(env, disk, a, backupFault).value)
  {
    if LoadCompatible(disk).Ok? {
      var loaded := LoadCompatible(disk).value;
      AdmissibleIsWellKept(env, loaded.state);
      UpgradeThenLoad(disk, loaded, a, backupFault);
      LiveIsSettled(env, Upgrade(disk, loaded, a, backupFault).value, loaded.state, a.now);
    }
  }

  // ----- What accepted requests achieve -----

  /** A revoked token is neither persisted nor active any more, and no other token is lost. */
  lemma RevokedTokenIsGone(env: Env, s: Server, id: string, a: Attempt)
    requires Settled(env, s) && DeleteToken(env, s, id, a).1.Done?
    ensures var t := DeleteToken(env, s, id, a).0;
            && Load(s.disk).Ok? && Load(t.disk).Ok? && t.runtime.Some?
            && t.runtime.value.tokens == Load(t.disk).value.tokens
            && forall token :: token in t.runtime.value.tokens <==>
                 token in s.runtime.value.tokens && token.id != id
  {
    var value := Load(s.disk).value;
    OtherTokensMembers(value.tokens, id);
    WriteThenLoad(s.disk, value.(tokens := OtherTokens(value.tokens, id), updatedAt := a.now), a);
  }

  lemma {:induction false} OtherTokensMembers(tokens: seq<DeviceToken>, id: string)
    ensures forall token :: token in OtherTokens(tokens, id) <==> token in tokens && token.id != id
  {
    if tokens != [] {
      OtherTokensMembers(tokens[..|tokens| - 1], id);
      assert tokens == tokens[..|tokens| - 1] + [tokens[|tokens| - 1]];
    }
  }

  /** An accepted origin is enforced beside those there were, in its normal form. */
  lemma AcceptedOriginIsEnforced(env: Env, s: Server, request: string, a: Attempt)
    requires Origins.Idempotent(env.normal) && Settled(env, s)
    requires AddAdminOrigin(env, s, request, a).1.Done?
    ensures env.normal(request).Ok?
    ensures AddAdminOrigin(env, s, request, a).0.allowlist
            == s.allowlist + {env.normal(request).value}
  {
    AddCanonicalEffect(env, s, env.normal(request).value, a, AddOrigin(request));
  }

  /** A deleted origin, and only what its identifier names, is no longer enforced; the current one cannot go. */
  lemma DeletedOriginIsGone(env: Env, s: Server, id: string, current: Option<string>, a: Attempt)
    requires Origins.Idempotent(env.normal) && Settled(env, s)
    requires DeleteAdminOrigin(env, s, id, current, a).1.Done?
    ensures var t := DeleteAdminOrigin(env, s, id, current, a).0;
            forall o :: o in t.allowlist <==> o in s.allowlist && env.originId(o) != id
  {
    var origins := Load(s.disk).value.admin.publicOrigins;
    DeletedListIsFixed(env, origins, id);
    OtherOriginsMembers(env, origins, id);
    var t := DeleteAdminOrigin(env, s, id, current, a).0;
    assert t.allowlist == Members(OtherOrigins(env, origins, id));
    assert s.allowlist == Members(origins);
  }

  lemma {:induction false} OtherOriginsMembers(env: Env, origins: seq<string>, id: string)
    ensures forall o :: o in OtherOrigins(env, origins, id) <==> o in origins && env.originId(o) != id
  {
    if origins != [] {
      OtherOriginsMembers(env, origins[..|origins| - 1], id);
      assert origins == origins[..|origins| - 1] + [origins[|origins| - 1]];
    }
  }
}
