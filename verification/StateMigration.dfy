/** The v3 to v4 migration and its backup, over runs with restarts and power losses anywhere. */
module StateMigration {
  import opened Common
  import opened StateStore
  import opened StateRuns

  /** Two v3 documents that migrate to the same state are the same. */
  lemma MigrationIsInjective(a: StateV3, b: StateV3)
    requires MigrateV3(a) == MigrateV3(b)
    ensures a == b
  {
  }

  /** An outcome of state.json: the original v3 bytes, or some v4 state. */
  predicate Acceptable(f: Option<File>, b: Contents) {
    f.Some? && f.value.synced
    && (f.value.contents == b
        || (f.value.contents.V4? && Size(f.value.contents) <= MAXIMUM_SIZE && Size(b) <= MAXIMUM_SIZE))
  }

  /** The backup is durably the exact original. */
  predicate BackedUp(d: Disk, b: Contents) {
    d.backup == Slot(Some(File(b, true)), {Some(File(b, true))})
  }

  /**
   * Whatever could survive as state.json is acceptable, and as soon as a v4 outcome is possible the
   * backup is durable.
   */
  ghost predicate Guarded(d: Disk, b: Contents) {
    && d.state.visible in d.state.possible && Sound(d.backup)
    && (forall f :: f in d.state.possible ==> Acceptable(f, b))
    && ((exists f :: f in d.state.possible && f != Some(File(b, true))) ==> BackedUp(d, b))
  }

  /** The promise: after any power loss the directory holds the v3 original, or a v4 state beside it. */
  ghost predicate Recoverable(d: Disk, b: Contents) {
    forall after :: CrashesTo(d, after) ==>
      && after.state.visible.Some?
      && var c := after.state.visible.value.contents;
         c == b || (c.V4? && after.backup.visible == Some(File(b, true)))
  }

  lemma GuardedIsRecoverable(d: Disk, b: Contents)
    requires Guarded(d, b)
    ensures Recoverable(d, b)
  {
    forall after | CrashesTo(d, after)
      ensures after.state.visible.Some?
      ensures after.state.visible.value.contents == b
              || (after.state.visible.value.contents.V4? && after.backup.visible == Some(File(b, true)))
    {
      var s, k :| Survives(d.state, s) && Survives(d.backup, k) && after == Disk(Durable(s), Durable(k), None);
      var f :| f in d.state.possible && match f
        case None => s == None
        case Some(file) => s.Some? && (file.synced ==> s.value == file.contents);
      assert Acceptable(f, b);
    }
  }

  lemma CrashStaysGuarded(d: Disk, b: Contents, after: Disk)
    requires Guarded(d, b) && CrashesTo(d, after)
    ensures Guarded(after, b)
  {
    var s, k :| Survives(d.state, s) && Survives(d.backup, k) && after == Disk(Durable(s), Durable(k), None);
    var f :| f in d.state.possible && match f
      case None => s == None
      case Some(file) => s.Some? && (file.synced ==> s.value == file.contents);
    assert Acceptable(f, b);
    assert f == Some(File(s.value, true));
  }

  /** A candidate loaded by this process for migration can only come from the original. */
  ghost predicate Candidate(loaded: Option<Compatible>, b: Contents) {
    loaded.Some? && loaded.value.sourceVersion == PREVIOUS_SCHEMA ==>
      b.V3? && loaded.value == Compatible(MigrateV3(b.doc), PREVIOUS_SCHEMA, b)
  }

  lemma StateWriteStaysGuarded(d: Disk, b: Contents, c: Contents, fault: Fault)
    requires Guarded(d, b) && (c == b || (c.V4? && BackedUp(d, b) && Size(b) <= MAXIMUM_SIZE))
    ensures var w := AtomicWrite(d, StateFile, c, fault);
            forall k :: 0 <= k < |w.trace| ==> Guarded(w.trace[k], b)
  {
  }

  lemma BackupStaysGuarded(d: Disk, b: Contents, fault: Fault)
    requires Guarded(d, b)
    ensures var w := AtomicWrite(d, BackupFile, b, fault);
            && (forall k :: 0 <= k < |w.trace| ==> Guarded(w.trace[k], b))
            && (w.result == Ok(true) ==> BackedUp(Last(w), b))
  {
  }

  lemma MigrateStaysGuarded(d: Disk, b: Contents, loaded: Compatible, size: nat, now: int,
                            backupFault: Fault, fault: Fault)
    requires Guarded(d, b) && Candidate(Some(loaded), b)
    ensures var w := CommitMigration(d, loaded, size, now, backupFault, fault);
            forall k :: 0 <= k < |w.trace| ==> Guarded(w.trace[k], b)
  {
    var w := CommitMigration(d, loaded, size, now, backupFault, fault);
    if |w.trace| > 1 {
      BackupStaysGuarded(d, b, backupFault);
      var backup := AtomicWrite(d, BackupFile, b, backupFault);
      if backup.result == Ok(true) {
        var s := loaded.state;
        StateWriteStaysGuarded(Last(backup), b, V4(Stamped(s, now), size), fault);
        var state := WriteState(Last(backup), s, size, now, fault);
        assert w.trace == backup.trace + state.trace;
      }
    }
  }

  lemma VisibleV4IsBackedUp(d: Disk, b: Contents)
    requires Guarded(d, b) && b.V3? && d.state.visible.Some? && d.state.visible.value.contents != b
    ensures BackedUp(d, b) && Size(b) <= MAXIMUM_SIZE && d.state.visible.value.contents.V4?
    ensures Size(d.state.visible.value.contents) <= MAXIMUM_SIZE
  {
    assert Acceptable(d.state.visible, b);
  }

  lemma PerformStaysGuarded(w: World, b: Contents, op: Op)
    requires Guarded(w.disk, b) && Candidate(w.loaded, b) && b.V3?
    ensures forall k :: 0 <= k < |Perform(w, op).trace| ==> Guarded(Perform(w, op).trace[k], b)
  {
    var d := w.disk;
    match op
    case LoadForMigration =>
    case Migrate(size, now, backupFault, fault) =>
      if w.loaded.Some? {
        MigrateStaysGuarded(d, b, w.loaded.value, size, now, backupFault, fault);
      }
    case RestoreBackup(fault) =>
      if |Perform(w, op).trace| > 1 {
        VisibleV4IsBackedUp(d, b);
        StateWriteStaysGuarded(d, b, b, fault);
      }
    case Update(state, size, now, fault) =>
      if Load(d).Ok? {
        VisibleV4IsBackedUp(d, b);
        StateWriteStaysGuarded(d, b, V4(Stamped(state, now), size), fault);
      }
    case Setup(state, size, now, fault) =>
      assert Acceptable(d.state.visible, b);
  }

  /** state.json starts as the v3 bytes b, with nothing pending; the backup may be anything. */
  ghost predicate Original(d: Disk, b: Contents) {
    b.V3? && d.state == Durable(Some(b)) && Sound(d.backup)
  }

  lemma {:induction false} RunStaysGuarded(start: Disk, b: Contents, events: seq<Event>)
    requires Original(start, b) && Run(Start(start), events).Some?
    ensures var w := Run(Start(start), events).value; Guarded(w.disk, b) && Candidate(w.loaded, b)
  {
    if events != [] {
      var event := events[|events| - 1];
      var v := Run(Start(start), events[..|events| - 1]).value;
      RunStaysGuarded(start, b, events[..|events| - 1]);
      PerformStaysGuarded(v, b, event.op);
      if event.PowerLoss? {
        CrashStaysGuarded(Perform(v, event.op).trace[event.step], b, event.after);
      }
      if event == Done(LoadForMigration) {
        assert Acceptable(v.disk.state.visible, b);
      }
    }
  }

  /**
   * From a v3 state, over every run of loads, migrations, restores, updates and setups with process
   * deaths and power losses at any step: a power loss at any step of the next operation leaves the
   * exact v3 bytes as state.json, or a v4 state with the exact v3 bytes as its backup.
   */
  lemma MigrationNeverLosesOriginal(start: Disk, b: Contents, events: seq<Event>, op: Op, k: nat)
    requires Original(start, b) && Run(Start(start), events).Some?
    requires k < |Perform(Run(Start(start), events).value, op).trace|
    ensures Recoverable(Perform(Run(Start(start), events).value, op).trace[k], b)
  {
    var w := Run(Start(start), events).value;
    RunStaysGuarded(start, b, events);
    PerformStaysGuarded(w, b, op);
    GuardedIsRecoverable(Perform(w, op).trace[k], b);
  }

  /**
   * Round trip: wherever a run has left a v4 state.json, an undisturbed restore succeeds and makes it
   * the original v3 file again, byte for byte.
   */
  lemma RestoreGivesBackOriginal(start: Disk, b: Contents, events: seq<Event>)
    requires Original(start, b) && Run(Start(start), events).Some?
    requires var d := Run(Start(start), events).value.disk;
             d.state.visible.Some? && d.state.visible.value.contents != b
    ensures var w := RestoreV3Backup(Run(Start(start), events).value.disk, NoFault);
            && w.result == Ok(true) && Last(w).state == Durable(Some(b))
  {
    RunStaysGuarded(start, b, events);
    VisibleV4IsBackedUp(Run(Start(start), events).value.disk, b);
  }

  /**
   * An undisturbed migration of an original that fits, rendered within bounds, installs its v4 form,
   * stamped with the clock if it carried no time.
   */
  lemma MigrationInstallsV4(start: Disk, b: Contents, size: nat, now: int)
    requires Original(start, b) && 0 < Size(b) <= MAXIMUM_SIZE && size <= MAXIMUM_SIZE
    ensures LoadCompatible(start) == Ok(Compatible(MigrateV3(b.doc), PREVIOUS_SCHEMA, b))
    ensures var w := CommitMigration(start, LoadCompatible(start).value, size, now, NoFault, NoFault);
            && w.result == Ok(true) && BackedUp(Last(w), b)
            && Last(w).state == Durable(Some(V4(Stamped(MigrateV3(b.doc), now), size)))
            && Load(Last(w)) == Ok(Stamped(MigrateV3(b.doc), now))
  {
  }

  /**
   * Load accepts what LoadCompatible finds to be in the current schema, and reports the same errors but
   * for v3 files, good or bad, which it does not read; a document that is not readable has a version that
   * is read.
   */
  lemma LoadReadsCurrent(d: Disk)
    ensures Load(d).Ok? <==> LoadCompatible(d).Ok? && LoadCompatible(d).value.sourceVersion == 4
    ensures Load(d).Ok? ==> Load(d).value == LoadCompatible(d).value.state
    ensures var c := d.state.visible;
            if c.Some? && Size(c.value.contents) <= MAXIMUM_SIZE
               && (c.value.contents.V3? || (c.value.contents.Rejected? && c.value.contents.version == 3))
            then Load(d) == Err(UnsupportedVersion) && LoadCompatible(d) != Err(UnsupportedVersion)
            else Load(d).Err? ==> LoadCompatible(d) == Err(Load(d).error)
    ensures LoadCompatible(d) == Err(UnsupportedVersion) <==>
              && d.state.visible.Some? && Size(d.state.visible.value.contents) <= MAXIMUM_SIZE
              && d.state.visible.value.contents.Rejected? && d.state.visible.value.contents.version !in {3, 4}
    ensures LoadCompatible(d) == Err(NotInitialized) <==> d.state.visible == None
  {
  }

  /**
   * Compare and swap: whatever was loaded before, and wherever the commit is interrupted, a migration
   * replaces nothing but the very v3 file it was loaded from, and only once that is durably backed up.
   */
  lemma MigrationReplacesOnlyWhatItLoaded(d: Disk, loaded: Compatible, size: nat, now: int,
                                          backupFault: Fault, fault: Fault, k: nat)
    requires k < |CommitMigration(d, loaded, size, now, backupFault, fault).trace|
    requires CommitMigration(d, loaded, size, now, backupFault, fault).trace[k].state != d.state
    ensures loaded.sourceVersion == 3 && d.state.visible.Some? && d.state.visible.value.contents == loaded.source
    ensures BackedUp(CommitMigration(d, loaded, size, now, backupFault, fault).trace[k], loaded.source)
  {
    var backup := AtomicWrite(d, BackupFile, loaded.source, backupFault);
    var w := CommitMigration(d, loaded, size, now, backupFault, fault);
    if backup.result == Ok(true) {
      var state := WriteState(Last(backup), loaded.state, size, now, fault);
      assert w.trace == [d] || w.trace == backup.trace + state.trace;
    }
  }

  /** A restore writes exactly over a readable file of version 4, decodable or not, from a readable v3 backup. */
  lemma RestoreIsDoneIff(d: Disk, fault: Fault)
    ensures RestoreV3Backup(d, fault).result.Ok? <==>
              && d.state.visible.Some? && d.backup.visible.Some?
              && var c, b := d.state.visible.value.contents, d.backup.visible.value.contents;
              && Size(c) <= MAXIMUM_SIZE && (c.V4? || (c.Rejected? && c.version == 4))
              && b.V3? && Size(b) <= MAXIMUM_SIZE && fault in {NoFault, DirectorySyncFails}
    ensures RestoreV3Backup(d, fault).result == Err(UnsupportedVersion) <==>
              && d.state.visible.Some?
              && var c := d.state.visible.value.contents;
              Size(c) <= MAXIMUM_SIZE && (c.V3? || (c.Rejected? && c.version != 4))
  {
  }

  /** A v4 document with everything the v3 document says, and nothing else that could differ. */
  ghost predicate Carries(s: State, v: StateV3, now: int) {
    && s.schemaVersion == 4 && s.admin == v.admin && s.qweather == v.qweather && s.tokens == v.tokens
    && s.cache.currentTTL == v.cache.currentTTL && s.cache.currentStaleMax == v.cache.currentStaleMax
    && s.cache.hourlyTTL == v.cache.hourlyTTL && s.cache.hourlyStaleMax == v.cache.hourlyStaleMax
    && s.cache.dailyTTL == v.cache.dailyTTL && s.cache.dailyStaleMax == v.cache.dailyStaleMax
    && s.cache.alertsTTL == 600 && s.cache.alertsStaleMax == 3600
    && s.cache.maxLocations == v.cache.maxLocations
    && s.updatedAt == if v.updatedAt == 0 then now else v.updatedAt
  }

  /**
   * Wherever a run from a v3 file has left it, an undisturbed load and migration leaves a document that
   * carries every field of the original over under the same name.
   */
  lemma MigrationCarriesEveryField(start: Disk, b: Contents, events: seq<Event>, size: nat, now: int)
    requires Original(start, b) && 0 < Size(b) <= MAXIMUM_SIZE && size <= MAXIMUM_SIZE
    requires Run(Start(start), events).Some?
    requires Run(Start(start), events).value.disk.state.visible == Some(File(b, true))
    ensures var d := Run(Start(start), events).value.disk;
            && LoadCompatible(d).Ok?
            && var w := CommitMigration(d, LoadCompatible(d).value, size, now, NoFault, NoFault);
            && w.result == Ok(true) && Load(Last(w)).Ok? && Carries(Load(Last(w)).value, b.doc, now)
  {
  }

  // ----- Save on its own -----

  /** With a durable backup, every outcome may be the original or any v4 state. */
  lemma BackedUpIsRecoverable(d: Disk, b: Contents)
    requires BackedUp(d, b)
    requires forall f :: f in d.state.possible ==>
               f.Some? && f.value.synced && (f.value.contents == b || f.value.contents.V4?)
    ensures Recoverable(d, b)
  {
  }

  /** A possible v4 outcome beside a possible outcome of the backup that is not the original. */
  lemma UnbackedIsLost(d: Disk, b: Contents, c: Contents, other: Option<File>)
    requires b.V3? && c.V4? && Some(File(c, true)) in d.state.possible
    requires other in d.backup.possible && other != Some(File(b, true)) && (other.Some? ==> other.value.synced)
    ensures !Recoverable(d, b)
  {
    var k := if other.Some? then Some(other.value.contents) else None;
    var after := Disk(Durable(Some(c)), Durable(k), None);
    assert Survives(d.state, Some(c));
    assert Survives(d.backup, k);
    assert CrashesTo(d, after);
  }

  /** A backup that is not durable is one that a power loss can take back, or that is not the original at all. */
  lemma UndurableBackup(d: Disk, b: Contents) returns (other: Option<File>)
    requires Sound(d.backup) && !BackedUp(d, b)
    ensures other in d.backup.possible && other != Some(File(b, true)) && (other.Some? ==> other.value.synced)
  {
    var original := Some(File(b, true));
    if d.backup.visible != original {
      other := d.backup.visible;
    } else {
      assert d.backup.possible != {original};
      other :| other in d.backup.possible && other != original;
    }
  }

  /**
   * Save does not look at what it replaces. Whatever goes wrong in it and wherever the power fails, the
   * original stays recoverable exactly when its backup is durable beforehand or Save refuses to write.
   * A state that Load accepts before, as every handler demands, has such a backup.
   */
  lemma SaveIsSafeIffBackedUp(d: Disk, b: Contents, state: State, size: nat, now: int)
    requires Guarded(d, b) && b.V3?
    ensures (forall fault, k: nat :: k < |Save(d, state, size, now, fault).trace| ==>
               Recoverable(Save(d, state, size, now, fault).trace[k], b))
            <==> BackedUp(d, b) || state.schemaVersion != SCHEMA_VERSION || size > MAXIMUM_SIZE
    ensures Load(d).Ok? ==> BackedUp(d, b)
  {
    assert Acceptable(d.state.visible, b);
    if BackedUp(d, b) || state.schemaVersion != SCHEMA_VERSION || size > MAXIMUM_SIZE {
      forall fault, k: nat | k < |Save(d, state, size, now, fault).trace|
        ensures Recoverable(Save(d, state, size, now, fault).trace[k], b)
      {
        SaveKeepsBackedUp(d, b, state, size, now, fault, k);
      }
    } else {
      var other := UndurableBackup(d, b);
      UnbackedIsLost(Save(d, state, size, now, NoFault).trace[4], b, V4(Stamped(state, now), size), other);
    }
  }

  lemma SaveKeepsBackedUp(d: Disk, b: Contents, state: State, size: nat, now: int, fault: Fault, k: nat)
    requires Guarded(d, b)
    requires BackedUp(d, b) || state.schemaVersion != SCHEMA_VERSION || size > MAXIMUM_SIZE
    requires k < |Save(d, state, size, now, fault).trace|
    ensures Recoverable(Save(d, state, size, now, fault).trace[k], b)
  {
    var e := Save(d, state, size, now, fault).trace[k];
    if BackedUp(d, b) {
      BackedUpIsRecoverable(e, b);
    } else {
      GuardedIsRecoverable(e, b);
    }
  }

  /**
   * If nothing goes wrong in Save, what it leaves is recoverable exactly when the visible backup is the
   * original, durable or not: its own directory sync confirms that backup too.
   */
  lemma UndisturbedSaveIsSafeIffBackupVisible(d: Disk, b: Contents, state: State, size: nat, now: int)
    requires Guarded(d, b) && b.V3?
    requires state.schemaVersion == SCHEMA_VERSION && size <= MAXIMUM_SIZE
    ensures Recoverable(Last(Save(d, state, size, now, NoFault)), b) <==> d.backup.visible == Some(File(b, true))
  {
    assert Acceptable(d.state.visible, b);
    var e := Last(Save(d, state, size, now, NoFault));
    if d.backup.visible == Some(File(b, true)) {
      BackedUpIsRecoverable(e, b);
    } else {
      UnbackedIsLost(e, b, V4(Stamped(state, now), size), d.backup.visible);
    }
  }

  /** A v3 file without a backup. */
  function Bare(b: Contents): Disk {
    Disk(Durable(Some(b)), Durable(None), None)
  }

  const EMPTY_V3 := V3("{}", StateV3(1, Admin("", []), "", CacheV3(0, 0, 0, 0, 0, 0, 0), []))

  /** Such a run: a v3 file, no backup, one Save. */
  lemma SaveCanLoseOriginal(state: State)
    requires state.schemaVersion == SCHEMA_VERSION
    ensures Original(Bare(EMPTY_V3), EMPTY_V3)
    ensures !Recoverable(Last(Save(Bare(EMPTY_V3), state, 1, 1, NoFault)), EMPTY_V3)
  {
    UnbackedIsLost(Last(Save(Bare(EMPTY_V3), state, 1, 1, NoFault)), EMPTY_V3, V4(Stamped(state, 1), 1), None);
  }

  /**
   * A visible backup is not enough: a migration that could not confirm its backup leaves one, and a Save
   * straight after it loses the original if the power fails before its own directory sync.
   */
  lemma UnconfirmedBackupCanBeLost(state: State)
    requires state.schemaVersion == SCHEMA_VERSION
    ensures var events := [Done(LoadForMigration), Done(Migrate(1, 1, DirectorySyncFails, NoFault))];
            && Run(Start(Bare(EMPTY_V3)), events).Some?
            && var d := Run(Start(Bare(EMPTY_V3)), events).value.disk;
            && d.backup.visible == Some(File(EMPTY_V3, true))
            && 4 < |Save(d, state, 1, 1, NoFault).trace|
            && !Recoverable(Save(d, state, 1, 1, NoFault).trace[4], EMPTY_V3)
  {
    var first := Done(LoadForMigration);
    var second := Done(Migrate(1, 1, DirectorySyncFails, NoFault));
    var start := Start(Bare(EMPTY_V3));
    assert [first, second][..1] == [first] && [first][..0] == [];
    assert Run(start, [first]) == Some(Next(start, first));
    var v := Next(start, first);
    assert v.loaded == Some(Compatible(MigrateV3(EMPTY_V3.doc), PREVIOUS_SCHEMA, EMPTY_V3));
    assert Run(start, [first, second]) == Some(Next(v, second));
    var d := Next(v, second).disk;
    assert d.backup == Slot(Some(File(EMPTY_V3, true)), {None, Some(File(EMPTY_V3, true))});
    UnbackedIsLost(Save(d, state, 1, 1, NoFault).trace[4], EMPTY_V3, V4(Stamped(state, 1), 1), None);
  }
}
