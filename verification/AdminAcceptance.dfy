/**
 * Exactly which management requests and which starts succeed, told from the persisted state, the request
 * and the faults of its write.
 */
module AdminAcceptance {
  import opened Common
  import opened StateStore
  import opened AdminChanges
  import opened AdminRuns
  import StateMigration
  import Origins

  /** A write of a state in the current schema goes through. */
  predicate Written(value: State, a: Attempt) {
    value.schemaVersion == SCHEMA_VERSION && a.size <= MAXIMUM_SIZE && a.fault in {NoFault, DirectorySyncFails}
  }

  function ReplyIf(accepted: bool, a: Attempt): Reply {
    if accepted then Done(a.fault == NoFault) else Refused
  }

  lemma SaveAnswers(s: Server, value: State, a: Attempt, runtime: Option<Runtime>, allowlist: set<string>)
    requires Load(s.disk).Ok?
    ensures SaveAndActivate(s, value, a, runtime, allowlist).1 == ReplyIf(Written(value, a), a)
  {
  }

  /** The identifier names the origin at position k: the last one it fits. */
  predicate Names(env: Env, origins: seq<string>, id: string, k: nat) {
    k < |origins| && env.originId(origins[k]) == id && forall l :: k < l < |origins| ==> env.originId(origins[l]) != id
  }

  /** What a handler demands of its request, beside a persisted state and a write that goes through. */
  ghost predicate Admits(env: Env, runtime: Option<Runtime>, p: State, r: Request, now: int) {
    match r
    case Put(qweather, tested) => tested && Preparable(env, p.(qweather := qweather, updatedAt := now))
    case AddOrigin(origin) =>
      && env.normal(origin).Ok? && env.normal(origin).value !in p.admin.publicOrigins
      && |p.admin.publicOrigins| < 16
    case DeleteOrigin(id, current) =>
      && (exists k: nat :: Names(env, p.admin.publicOrigins, id, k) && current != Some(p.admin.publicOrigins[k]))
      && (env.proxy ==> exists o :: o in p.admin.publicOrigins && env.originId(o) != id)
    case AddToken(token) =>
      && runtime.Some? && token.Some? && |p.tokens| < 32
      && env.validToken(token.value) && forall i :: 0 <= i < |p.tokens| ==> p.tokens[i].id != token.value.id
    case RemoveToken(id) =>
      runtime.Some? && |p.tokens| > 1 && exists i :: 0 <= i < |p.tokens| && p.tokens[i].id == id
    case SetPassword(password) => password.Some?
    case Initialize(_, _) => false
  }

  ghost predicate Answers(env: Env, s: Server, r: Request, a: Attempt, reply: Reply) {
    reply == ReplyIf(&& Load(s.disk).Ok? && Load(s.disk).value.schemaVersion == SCHEMA_VERSION
                     && a.size <= MAXIMUM_SIZE && a.fault in {NoFault, DirectorySyncFails}
                     && Admits(env, s.runtime, Load(s.disk).value, r, a.now), a)
  }

  lemma PutAnswers(env: Env, s: Server, qweather: string, tested: bool, a: Attempt)
    ensures Answers(env, s, Put(qweather, tested), a, PutQWeather(env, s, qweather, tested, a).1)
  {
    if Load(s.disk).Ok? {
      var candidate := Load(s.disk).value.(qweather := qweather, updatedAt := a.now);
      SaveAnswers(s, candidate, a, Some(RuntimeOf(candidate)), s.allowlist);
    }
  }

  lemma AddOriginAnswers(env: Env, s: Server, origin: string, a: Attempt)
    requires Origins.Idempotent(env.normal) && Kept(env, s.disk)
    ensures Answers(env, s, AddOrigin(origin), a, AddAdminOrigin(env, s, origin, a).1)
  {
    var normal := env.normal(origin);
    if normal.Ok? && Load(s.disk).Ok? {
      var value := Load(s.disk).value;
      var more := value.admin.publicOrigins + [normal.value];
      AddCanonicalForm(env, s, value, normal.value, a);
      SaveAnswers(s, WithOrigins(value, more, a.now), a, s.runtime, Members(more));
    }
  }

  lemma {:induction false} NamedIsLast(env: Env, origins: seq<string>, id: string)
    ensures NamedOrigin(env, origins, id).Some? <==> exists k: nat :: Names(env, origins, id, k)
    ensures forall k: nat :: Names(env, origins, id, k) ==> NamedOrigin(env, origins, id) == Some(origins[k])
  {
    if origins != [] {
      var n := |origins| - 1;
      NamedIsLast(env, origins[..n], id);
      if env.originId(origins[n]) == id {
        assert Names(env, origins, id, n);
      } else {
        forall k: nat ensures Names(env, origins, id, k) <==> Names(env, origins[..n], id, k) {
        }
      }
    }
  }

  /** Deleting from a canonical list saves and activates what is left. */
  lemma DeletedForm(env: Env, s: Server, value: State, id: string, current: Option<string>, a: Attempt)
    requires Origins.Idempotent(env.normal) && Load(s.disk) == Ok(value)
    requires Origins.Canonical(value.admin.publicOrigins, env.normal)
    ensures var target := NamedOrigin(env, value.admin.publicOrigins, id);
            var rest := OtherOrigins(env, value.admin.publicOrigins, id);
            DeleteAdminOrigin(env, s, id, current, a) ==
            if target.None? || (env.proxy && rest == []) || current == target then (s, Refused)
            else SaveAndActivate(s, WithOrigins(value, rest, a.now), a, s.runtime, Members(rest))
  {
    DeletedListIsFixed(env, value.admin.publicOrigins, id);
  }

  lemma DeleteAdmitsIff(env: Env, runtime: Option<Runtime>, p: State, id: string, current: Option<string>, now: int)
    ensures Admits(env, runtime, p, DeleteOrigin(id, current), now) <==>
            var target := NamedOrigin(env, p.admin.publicOrigins, id);
            var rest := OtherOrigins(env, p.admin.publicOrigins, id);
            !(target.None? || (env.proxy && rest == []) || current == target)
  {
    var origins := p.admin.publicOrigins;
    var rest := OtherOrigins(env, origins, id);
    NamedIsLast(env, origins, id);
    OtherOriginsMembers(env, origins, id);
    assert rest != [] ==> rest[0] in rest;
  }

  lemma DeleteOriginAnswers(env: Env, s: Server, id: string, current: Option<string>, a: Attempt)
    requires Origins.Idempotent(env.normal) && Kept(env, s.disk)
    ensures Answers(env, s, DeleteOrigin(id, current), a, DeleteAdminOrigin(env, s, id, current, a).1)
  {
    if Load(s.disk).Ok? {
      var value := Load(s.disk).value;
      var rest := OtherOrigins(env, value.admin.publicOrigins, id);
      DeletedForm(env, s, value, id, current, a);
      DeleteAdmitsIff(env, s.runtime, value, id, current, a.now);
      SaveAnswers(s, WithOrigins(value, rest, a.now), a, s.runtime, Members(rest));
    }
  }

  lemma OtherTokensStayValid(env: Env, tokens: seq<DeviceToken>, id: string)
    requires DistinctIds(tokens) && forall i :: 0 <= i < |tokens| ==> env.validToken(tokens[i])
    ensures var r := OtherTokens(tokens, id);
            DistinctIds(r) && forall i :: 0 <= i < |r| ==> env.validToken(r[i])
  {
    var r := OtherTokens(tokens, id);
    OtherTokensMembers(tokens, id);
    OtherTokensInOrder(tokens, id);
    OrderedAreDistinct(tokens, r);
    forall i | 0 <= i < |r| ensures env.validToken(r[i]) {
      assert r[i] in tokens;
    }
  }

  lemma OrderedAreDistinct(tokens: seq<DeviceToken>, r: seq<DeviceToken>)
    requires DistinctIds(tokens) && KeepsOrder(tokens, r)
    ensures DistinctIds(r)
  {
    forall i, j | 0 <= i < j < |r| ensures r[i].id != r[j].id {
      assert StandsBefore(tokens, r[i], r[j]);
    }
  }

  /** Among tokens with distinct identities at most one goes. */
  lemma {:induction false} OtherTokensCount(tokens: seq<DeviceToken>, id: string)
    requires DistinctIds(tokens)
    ensures |OtherTokens(tokens, id)| == |tokens| - if exists i :: 0 <= i < |tokens| && tokens[i].id == id then 1 else 0
  {
    if tokens != [] {
      var n := |tokens| - 1;
      var rest := tokens[..n];
      assert forall i :: 0 <= i < n ==> rest[i] == tokens[i];
      OtherTokensCount(rest, id);
    }
  }

  lemma TokensAnswer(env: Env, s: Server, value: State, tokens: seq<DeviceToken>, a: Attempt)
    requires Load(s.disk) == Ok(value)
    ensures ReplaceTokens(env, s, value, tokens, a).1 ==
            ReplyIf(ValidCredentials(env, tokens) && s.runtime.Some? && Written(value, a), a)
  {
    if ValidCredentials(env, tokens) && s.runtime.Some? {
      SaveAnswers(s, value.(tokens := tokens, updatedAt := a.now), a,
                  Some(s.runtime.value.(tokens := tokens)), s.allowlist);
    }
  }

  lemma AddTokenAnswers(env: Env, s: Server, token: Option<DeviceToken>, a: Attempt)
    requires Kept(env, s.disk)
    ensures Answers(env, s, AddToken(token), a, CreateToken(env, s, token, a).1)
  {
    if Load(s.disk).Ok? && token.Some? {
      var value := Load(s.disk).value;
      var more := value.tokens + [token.value];
      assert more[|value.tokens|] == token.value && forall i :: 0 <= i < |value.tokens| ==> more[i] == value.tokens[i];
      TokensAnswer(env, s, value, more, a);
    }
  }

  lemma RemoveTokenAnswers(env: Env, s: Server, id: string, a: Attempt)
    requires Kept(env, s.disk)
    ensures Answers(env, s, RemoveToken(id), a, DeleteToken(env, s, id, a).1)
  {
    if Load(s.disk).Ok? {
      var value := Load(s.disk).value;
      OtherTokensStayValid(env, value.tokens, id);
      OtherTokensCount(value.tokens, id);
      TokensAnswer(env, s, value, OtherTokens(value.tokens, id), a);
    }
  }

  lemma PasswordAnswers(env: Env, s: Server, password: Option<string>, a: Attempt)
    ensures Answers(env, s, SetPassword(password), a, ChangePassword(s, password, a).1)
  {
    if Load(s.disk).Ok? && password.Some? {
      var value := Load(s.disk).value;
      var changed := value.(admin := value.admin.(password := password.value), updatedAt := a.now);
      SaveAnswers(s, changed, a, s.runtime, s.allowlist);
    }
  }

  /**
   * A request is done exactly when a state in the current schema is persisted, the request meets what its
   * handler demands, the rendering fits, and no step up to the rename fails; the reply then says whether
   * the directory sync went well too.
   */
  lemma RequestIsDoneIff(env: Env, s: Server, r: Request, a: Attempt)
    requires Origins.Idempotent(env.normal) && Kept(env, s.disk) && !r.Initialize?
    ensures Answers(env, s, r, a, Handle(env, s, r, a).1)
  {
    match r
    case Put(qweather, tested) => PutAnswers(env, s, qweather, tested, a);
    case AddOrigin(origin) => AddOriginAnswers(env, s, origin, a);
    case DeleteOrigin(id, current) => DeleteOriginAnswers(env, s, id, current, a);
    case AddToken(token) => AddTokenAnswers(env, s, token, a);
    case RemoveToken(id) => RemoveTokenAnswers(env, s, id, a);
    case SetPassword(password) => PasswordAnswers(env, s, password, a);
  }

  /** Origins a server may be set up with or run on. */
  ghost predicate UsableOrigins(env: Env, origins: seq<string>) {
    && |origins| <= 16 && (forall i :: 0 <= i < |origins| ==> env.normal(origins[i]).Ok?)
    && (forall i, j :: 0 <= i < j < |origins| ==> env.normal(origins[i]) != env.normal(origins[j]))
    && (env.proxy ==> origins != [])
  }

  /** What a runtime needs of a state, whatever its origins and its time. */
  predicate Runnable(env: Env, password: string, qweather: string, cache: CacheState, tokens: seq<DeviceToken>) {
    env.validPassword(password) && env.validQWeather(qweather) && UsableCache(cache) && UsableTokens(env, tokens)
  }

  /** Every kind is fresh for a while and usable for longer, and there is room for 1 to 1024 locations. */
  predicate UsableCache(c: CacheState) {
    && 1 <= c.currentTTL < c.currentStaleMax && 1 <= c.hourlyTTL < c.hourlyStaleMax
    && 1 <= c.dailyTTL < c.dailyStaleMax && 1 <= c.alertsTTL < c.alertsStaleMax
    && 1 <= c.maxLocations <= 1024
  }

  /** 1 to 32 valid tokens, as many identities as tokens. */
  predicate UsableTokens(env: Env, tokens: seq<DeviceToken>) {
    && 1 <= |tokens| <= 32 && (forall token :: token in tokens ==> env.validToken(token))
    && forall i, j :: 0 <= i < |tokens| && 0 <= j < |tokens| && tokens[i].id == tokens[j].id ==> i == j
  }

  /** setup is done exactly where no state file is, with usable origins, valid settings and one valid token. */
  lemma SetupIsDoneIff(env: Env, s: Server, request: SetupRequest, accepted: bool, a: Attempt)
    ensures Setup(env, s, request, accepted, a).1 ==
            ReplyIf(&& s.disk.state.visible == None && accepted && UsableOrigins(env, request.origins)
                    && env.validPassword(request.password) && env.validQWeather(request.qweather)
                    && env.validToken(request.token)
                    && a.size <= MAXIMUM_SIZE && a.fault in {NoFault, DirectorySyncFails}, a)
  {
    Origins.ListIsAcceptedIff(request.origins, env.normal);
    var origins := Origins.ValidateOrigins(env.proxy, request.origins, env.normal);
    if origins.Ok? {
      FirstIsPreparable(env, request, origins.value, a.now);
    }
  }

  lemma FirstIsPreparable(env: Env, request: SetupRequest, origins: seq<string>, now: int)
    ensures Preparable(env, FirstState(request, origins, now)) <==>
            env.validPassword(request.password) && env.validQWeather(request.qweather) && env.validToken(request.token)
  {
    var tokens := [request.token];
    assert tokens[0] == request.token;
    assert ValidCredentials(env, tokens) <==> env.validToken(request.token);
    assert ValidCache(DefaultCache());
  }

  predicate UsableV3(c: CacheV3) {
    && 1 <= c.currentTTL < c.currentStaleMax && 1 <= c.hourlyTTL < c.hourlyStaleMax
    && 1 <= c.dailyTTL < c.dailyStaleMax && 1 <= c.maxLocations <= 1024
  }

  /** Origins are stored in canonical form. */
  ghost predicate StoredOrigins(env: Env, origins: seq<string>) {
    Origins.Canonical(origins, env.normal) && (env.proxy ==> origins != [])
  }

  /**
   * A process starts exactly on a directory without a state file, on a v4 state it can run on, and on a v3
   * state it could run on whose migration goes through; it then runs on what that file says.
   */
  lemma StartsIff(env: Env, disk: Disk, a: Attempt, backupFault: Fault)
    requires Origins.Idempotent(env.normal)
    ensures var server := Startup(env, disk, a, backupFault);
            match disk.state.visible
            case None => server == Some(Server(disk, None, {}))
            case Some(file) =>
              match file.contents
              case V4(p, size) =>
                && (server.Some? <==>
                      && size <= MAXIMUM_SIZE && p.schemaVersion == SCHEMA_VERSION
                      && StoredOrigins(env, p.admin.publicOrigins)
                      && Runnable(env, p.admin.password, p.qweather, p.cache, p.tokens))
                && (server.Some? ==> server == Some(Server(disk, Some(RuntimeOf(p)), Members(p.admin.publicOrigins))))
              case V3(bytes, v) =>
                && (server.Some? <==>
                      && 0 < |bytes| <= MAXIMUM_SIZE && StoredOrigins(env, v.admin.publicOrigins)
                      && env.validPassword(v.admin.password) && env.validQWeather(v.qweather)
                      && UsableV3(v.cache) && UsableTokens(env, v.tokens)
                      && backupFault == NoFault && a.size <= MAXIMUM_SIZE && a.fault in {NoFault, DirectorySyncFails})
                && (server.Some? ==>
                      && server.value.runtime.Some? && server.value.runtime.value.qweather == v.qweather
                      && server.value.runtime.value.tokens == v.tokens
                      && server.value.allowlist == Members(v.admin.publicOrigins)
                      && Load(server.value.disk).Ok?
                      && StateMigration.Carries(Load(server.value.disk).value, v, a.now)
                      && server.value.runtime.value.cache == Load(server.value.disk).value.cache)
              case _ => server.None?
  {
    if disk.state.visible.Some? && LoadCompatible(disk).Ok? {
      var loaded := LoadCompatible(disk).value;
      AdmissibleIff(env, loaded.state);
      if loaded.source.V3? {
        UpgradeIff(disk, loaded, a, backupFault);
      }
    }
  }

  lemma AdmissibleIff(env: Env, p: State)
    requires Origins.Idempotent(env.normal)
    ensures Admissible(env, p) <==>
            && p.schemaVersion == SCHEMA_VERSION && StoredOrigins(env, p.admin.publicOrigins)
            && Runnable(env, p.admin.password, p.qweather, p.cache, p.tokens)
  {
    Origins.FixedIffCanonical(p.admin.publicOrigins, env.normal);
    CredentialsIffUsable(env, p.tokens);
  }

  lemma CredentialsIffUsable(env: Env, tokens: seq<DeviceToken>)
    ensures ValidCredentials(env, tokens) <==> UsableTokens(env, tokens)
  {
    if UsableTokens(env, tokens) {
      forall i | 0 <= i < |tokens| ensures env.validToken(tokens[i]) {
        assert tokens[i] in tokens;
      }
    }
  }

  lemma UpgradeIff(disk: Disk, loaded: Compatible, a: Attempt, backupFault: Fault)
    requires LoadCompatible(disk) == Ok(loaded) && loaded.source.V3?
    ensures var upgraded := Upgrade(disk, loaded, a, backupFault);
            && (upgraded.Some? <==>
                  && 0 < |loaded.source.bytes| && backupFault == NoFault
                  && a.size <= MAXIMUM_SIZE && a.fault in {NoFault, DirectorySyncFails})
            && (upgraded.Some? ==> Load(upgraded.value) == Ok(Stamped(loaded.state, a.now)))
  {
    MigrationThenLoad(disk, loaded, a, backupFault);
    MigrationSucceedsIff(disk, loaded, a, backupFault);
  }

  lemma MigrationSucceedsIff(disk: Disk, loaded: Compatible, a: Attempt, backupFault: Fault)
    requires LoadCompatible(disk) == Ok(loaded) && loaded.source.V3?
    ensures CommitMigration(disk, loaded, a.size, a.now, backupFault, a.fault).result.Ok? <==>
              && 0 < |loaded.source.bytes| && backupFault == NoFault
              && a.size <= MAXIMUM_SIZE && a.fault in {NoFault, DirectorySyncFails}
  {
    var backup := AtomicWrite(disk, BackupFile, loaded.source, backupFault);
    assert backup.result == Ok(true) <==> backupFault == NoFault;
  }
}
