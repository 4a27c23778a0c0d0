/** Runs of the state store over process restarts and power losses at any point. */
module StateRuns {
  import opened Common
  import opened StateStore

  /** What one process does with the store. Update is a handler's Load followed by Save. */
  datatype Op =
    | LoadForMigration
    | Migrate(size: nat, now: int, backupFault: Fault, fault: Fault)
    | RestoreBackup(fault: Fault)
    | Update(state: State, size: nat, now: int, fault: Fault)
    | Setup(state: State, size: nat, now: int, fault: Fault)

  /**
   * An operation runs to its end, or is interrupted after its k-th step: the process dies, or the
   * power fails too and the directory comes back as `after`.
   */
  datatype Event =
    | Done(op: Op)
    | Killed(op: Op, step: nat)
    | PowerLoss(op: Op, step: nat, after: Disk)

  datatype World = World(
    disk: Disk, confirmed: bool, loaded: Option<Compatible>, calls: seq<SystemCall>,
    initialized: seq<bool>, losses: nat)

  function Start(disk: Disk): World {
    World(disk, true, None, [], [], 0)
  }

  function Perform(w: World, op: Op): (r: Written)
    ensures r.trace != [] && r.trace[0] == w.disk
  {
    var idle := Written([w.disk], Err(InvalidCandidate), [], None);
    match op
    case LoadForMigration => idle
    case Migrate(size, now, backupFault, fault) =>
      if w.loaded.None? then idle
      else CommitMigration(w.disk, w.loaded.value, size, now, backupFault, fault)
    case RestoreBackup(fault) => RestoreV3Backup(w.disk, fault)
    case Update(state, size, now, fault) =>
      if Load(w.disk).Err? then idle else Save(w.disk, state, size, now, fault)
    case Setup(state, size, now, fault) => CommitInitial(w.disk, state, size, now, fault)
  }

  ghost predicate Possible(w: World, event: Event) {
    match event
    case Done(_) => true
    case Killed(op, k) => k < |Perform(w, op).trace|
    case PowerLoss(op, k, after) => k < |Perform(w, op).trace| && CrashesTo(Perform(w, op).trace[k], after)
  }

  /** A restarted process has loaded nothing, renamed nothing and assumes durability. */
  function Next(w: World, event: Event): World
    requires event.Done? || event.step < |Perform(w, event.op).trace|
  {
    var r := Perform(w, event.op);
    match event
    case Done(op) =>
      w.(disk := Last(r), confirmed := Flag(r, w.confirmed), calls := w.calls + r.calls,
         loaded := if op.LoadForMigration? && LoadCompatible(w.disk).Ok?
                   then Some(LoadCompatible(w.disk).value) else w.loaded,
         initialized := if op.Setup? && r.result.Ok? then w.initialized + [r.result.value] else w.initialized)
    case Killed(_, k) => w.(disk := r.trace[k], confirmed := true, loaded := None, calls := [])
    case PowerLoss(_, _, after) =>
      w.(disk := after, confirmed := true, loaded := None, calls := [], losses := w.losses + 1)
  }

  /** The world after a run, when every event of it was possible at its turn. */
  ghost function Run(start: World, events: seq<Event>): Option<World> {
    if events == [] then Some(start)
    else
      var n := |events| - 1;
      var before := Run(start, events[..n]);
      if before.Some? && Possible(before.value, events[n]) then Some(Next(before.value, events[n])) else None
  }

  // ----- One write -----

  /** What is visible could survive, and whatever could survive was synced before its rename. */
  ghost predicate Sound(s: Slot) {
    s.visible in s.possible && forall f :: f in s.possible && f.Some? ==> f.value.synced
  }

  ghost predicate SoundDisk(d: Disk) {
    Sound(d.state) && Sound(d.backup)
  }

  function OtherName(name: Name): Name {
    if name == StateFile then BackupFile else StateFile
  }

  /**
   * All or nothing: at every step of a write, a power loss leaves the target with something it could
   * have held before or with the whole new contents, and the other file with something it could have
   * held before. Readers see the old or the new contents; an error means they still see the old.
   */
  lemma WriteIsAtomic(d: Disk, name: Name, c: Contents, fault: Fault, k: nat)
    requires SoundDisk(d) && k < |AtomicWrite(d, name, c, fault).trace|
    ensures var w := AtomicWrite(d, name, c, fault);
            var now := w.trace[k];
            && SoundDisk(now)
            && (forall after :: Survives(SlotOf(now, name), after) ==>
                  Survives(SlotOf(d, name), after) || after == Some(c))
            && (forall after :: Survives(SlotOf(now, OtherName(name)), after) ==>
                  Survives(SlotOf(d, OtherName(name)), after))
            && (SlotOf(now, name).visible == SlotOf(d, name).visible
                || SlotOf(now, name).visible == Some(File(c, true)))
            && SlotOf(now, OtherName(name)).visible == SlotOf(d, OtherName(name)).visible
            && (w.result.Err? ==> SlotOf(Last(w), name) == SlotOf(d, name))
            && (w.result.Ok? ==> SlotOf(Last(w), name).visible == Some(File(c, true)))
            && (d.temporary == None ==> Last(w).temporary == None)
            && (w.result == Ok(true) ==>
                  forall after :: Survives(SlotOf(Last(w), name), after) <==> after == Some(c))
            && (w.result == Ok(false) ==>
                  forall after :: Survives(SlotOf(Last(w), name), after) <==>
                    Survives(SlotOf(d, name), after) || after == Some(c))
  {
    var w := AtomicWrite(d, name, c, fault);
    if w.result == Ok(true) {
      assert SlotOf(Last(w), name).possible == {Some(File(c, true))};
      assert Some(File(c, true)) in SlotOf(Last(w), name).possible;
    } else if w.result == Ok(false) {
      UnsyncedAddsOutcome(SlotOf(d, name), File(c, true));
    }
  }

  /** A rename that no sync has followed adds an outcome and takes none away. */
  lemma UnsyncedAddsOutcome(s: Slot, file: File)
    requires file.synced
    ensures forall after :: Survives(Slot(Some(file), s.possible + {Some(file)}), after) <==>
              Survives(s, after) || after == Some(file.contents)
  {
    var t := Slot(Some(file), s.possible + {Some(file)});
    assert Some(file) in t.possible;
    forall after | Survives(s, after) ensures Survives(t, after) {
      var f :| f in s.possible && match f
        case None => after == None
        case Some(other) => after.Some? && (other.synced ==> after.value == other.contents);
      assert f in t.possible;
    }
  }

  // ----- The durability flag -----

  /** Every rename of this process was followed by a directory sync that succeeded. */
  ghost predicate AllSynced(calls: seq<SystemCall>) {
    forall i :: 0 <= i < |calls| && calls[i] == Rename ==> exists j :: i < j < |calls| && calls[j] == Sync
  }

  lemma CallsExtend(calls: seq<SystemCall>, more: seq<SystemCall>)
    requires more == [] || more == [Rename, Sync] || more == [Rename, FailedSync]
             || more == [Rename, Sync, Rename, Sync] || more == [Rename, Sync, Rename, FailedSync]
    ensures more == [] ==> (AllSynced(calls + more) <==> AllSynced(calls))
    ensures more != [] ==> (AllSynced(calls + more) <==> more[|more| - 1] == Sync)
  {
    var all := calls + more;
    if more == [] {
      assert all == calls;
    } else if more[|more| - 1] == Sync {
      assert all[|all| - 1] == Sync && all[|all| - 2] == Rename;
    } else {
      assert all[|all| - 2] == Rename && all[|all| - 1] == FailedSync;
    }
  }

  /** What an operation did to the directory matches what it recorded in durabilityConfirmed. */
  ghost predicate FlagMatches(r: Written) {
    && (r.calls == [] || r.calls == [Rename, Sync] || r.calls == [Rename, FailedSync]
        || r.calls == [Rename, Sync, Rename, Sync] || r.calls == [Rename, Sync, Rename, FailedSync])
    && r.flagged == if r.calls == [] then None else Some(r.calls[|r.calls| - 1] == Sync)
  }

  lemma WriteFlagMatches(d: Disk, name: Name, c: Contents, fault: Fault)
    ensures var r := AtomicWrite(d, name, c, fault);
            FlagMatches(r) && |r.calls| <= 2 && (r.result == Ok(true) <==> r.calls == [Rename, Sync])
  {
  }

  lemma MigrateFlagMatches(d: Disk, loaded: Compatible, size: nat, now: int, backupFault: Fault, fault: Fault)
    ensures FlagMatches(CommitMigration(d, loaded, size, now, backupFault, fault))
  {
    WriteFlagMatches(d, BackupFile, loaded.source, backupFault);
    var backup := AtomicWrite(d, BackupFile, loaded.source, backupFault);
    if backup.result == Ok(true) {
      StateWriteFlagMatches(Last(backup), loaded.state, size, now, fault);
      FlagsCombine(backup, WriteState(Last(backup), loaded.state, size, now, fault));
    }
  }

  lemma StateWriteFlagMatches(d: Disk, state: State, size: nat, now: int, fault: Fault)
    ensures var r := WriteState(d, state, size, now, fault); FlagMatches(r) && |r.calls| <= 2
  {
    WriteFlagMatches(d, StateFile, V4(Stamped(state, now), size), fault);
  }

  /** A confirmed write and then another. */
  function Combined(first: Written, second: Written): Written {
    Written(first.trace + second.trace, second.result, first.calls + second.calls,
            if second.flagged.Some? then second.flagged else first.flagged)
  }

  lemma FlagsCombine(first: Written, second: Written)
    requires first.calls == [Rename, Sync] && first.flagged == Some(true)
    requires FlagMatches(second) && |second.calls| <= 2
    ensures FlagMatches(Combined(first, second))
  {
  }

  lemma FlagMatchesCalls(w: World, op: Op)
    ensures FlagMatches(Perform(w, op))
  {
    match op
    case LoadForMigration =>
    case Migrate(size, now, backupFault, fault) =>
      if w.loaded.Some? {
        MigrateFlagMatches(w.disk, w.loaded.value, size, now, backupFault, fault);
      }
    case RestoreBackup(fault) =>
      if Read(w.disk.backup).Ok? {
        WriteFlagMatches(w.disk, StateFile, Read(w.disk.backup).value, fault);
      }
    case Update(state, size, now, fault) => StateWriteFlagMatches(w.disk, state, size, now, fault);
    case Setup(state, size, now, fault) => StateWriteFlagMatches(w.disk, state, size, now, fault);
  }

  /**
   * In every run durabilityConfirmed is true exactly when the process's last rename was followed by
   * a successful directory sync.
   */
  lemma {:induction false} DurabilityFlagIsExact(start: Disk, events: seq<Event>)
    requires Run(Start(start), events).Some?
    ensures var w := Run(Start(start), events).value; w.confirmed <==> AllSynced(w.calls)
  {
    if events != [] {
      var event := events[|events| - 1];
      var v := Run(Start(start), events[..|events| - 1]).value;
      DurabilityFlagIsExact(start, events[..|events| - 1]);
      if event.Done? {
        FlagMatchesCalls(v, event.op);
        CallsExtend(v.calls, Perform(v, event.op).calls);
      }
    }
  }

  /** Nothing about either file hangs on a rename that a power loss could take back. */
  predicate Settled(d: Disk) {
    d.state == Settle(d.state) && d.backup == Settle(d.backup)
  }

  /** What renames nothing leaves both files; what is confirmed leaves both settled. */
  ghost predicate SettlesIfConfirmed(d: Disk, r: Written, before: bool) {
    && r.trace != []
    && (r.calls == [] ==> Last(r).state == d.state && Last(r).backup == d.backup)
    && (r.calls != [] && Flag(r, before) ==> Settled(Last(r)))
  }

  lemma ConfirmedWriteSettles(d: Disk, name: Name, c: Contents, fault: Fault, before: bool)
    ensures SettlesIfConfirmed(d, AtomicWrite(d, name, c, fault), before)
  {
  }

  lemma ConfirmedMigrationSettles(d: Disk, loaded: Compatible, size: nat, now: int,
                                  backupFault: Fault, fault: Fault, before: bool)
    ensures SettlesIfConfirmed(d, CommitMigration(d, loaded, size, now, backupFault, fault), before)
  {
    ConfirmedWriteSettles(d, BackupFile, loaded.source, backupFault, before);
    var backup := AtomicWrite(d, BackupFile, loaded.source, backupFault);
    WriteFlagMatches(d, BackupFile, loaded.source, backupFault);
    if backup.result == Ok(true) {
      ConfirmedStateWriteSettles(Last(backup), loaded.state, size, now, fault, true);
      SettlingCombines(d, backup, WriteState(Last(backup), loaded.state, size, now, fault), before);
    }
  }

  lemma ConfirmedStateWriteSettles(d: Disk, state: State, size: nat, now: int, fault: Fault, before: bool)
    ensures SettlesIfConfirmed(d, WriteState(d, state, size, now, fault), before)
  {
    ConfirmedWriteSettles(d, StateFile, V4(Stamped(state, now), size), fault, before);
  }

  lemma SettlingCombines(d: Disk, first: Written, second: Written, before: bool)
    requires SettlesIfConfirmed(d, first, before) && first.calls == [Rename, Sync] && first.flagged == Some(true)
    requires SettlesIfConfirmed(Last(first), second, true)
    ensures SettlesIfConfirmed(d, Combined(first, second), before)
  {
    assert Last(Combined(first, second)) == Last(second);
  }

  lemma ConfirmedOperationSettles(w: World, op: Op)
    ensures SettlesIfConfirmed(w.disk, Perform(w, op), w.confirmed)
  {
    var d, before := w.disk, w.confirmed;
    match op
    case LoadForMigration =>
    case Migrate(size, now, backupFault, fault) =>
      if w.loaded.Some? {
        ConfirmedMigrationSettles(d, w.loaded.value, size, now, backupFault, fault, before);
      }
    case RestoreBackup(fault) =>
      if Read(d.backup).Ok? {
        ConfirmedWriteSettles(d, StateFile, Read(d.backup).value, fault, before);
      }
    case Update(state, size, now, fault) => ConfirmedStateWriteSettles(d, state, size, now, fault, before);
    case Setup(state, size, now, fault) => ConfirmedStateWriteSettles(d, state, size, now, fault, before);
  }

  ghost predicate ConfirmedSettled(w: World) {
    w.calls != [] && w.confirmed ==> Settled(w.disk)
  }

  lemma ConfirmedStep(w: World, op: Op)
    requires ConfirmedSettled(w)
    ensures ConfirmedSettled(Next(w, Done(op)))
  {
    var r := Perform(w, op);
    ConfirmedOperationSettles(w, op);
    FlagMatchesCalls(w, op);
    assert r.calls == [] ==> w.calls + r.calls == w.calls;
  }

  /**
   * What the flag promises: once a process has replaced a file and durabilityConfirmed is true, both files
   * are settled, and a power loss leaves exactly what readers see.
   */
  lemma {:induction false} ConfirmedMeansDurable(start: Disk, events: seq<Event>)
    requires Run(Start(start), events).Some?
    ensures ConfirmedSettled(Run(Start(start), events).value)
  {
    if events != [] {
      var rest, event := events[..|events| - 1], events[|events| - 1];
      ConfirmedMeansDurable(start, rest);
      if event.Done? {
        ConfirmedStep(Run(Start(start), rest).value, event.op);
      }
    }
  }

  /** Visible contents, when they are all that could be there. */
  lemma SettledSurvivesAsSeen(d: Disk, after: Disk)
    requires Settled(d) && SoundDisk(d) && CrashesTo(d, after)
    ensures after.state == d.state && after.backup == d.backup
  {
  }

  /** So after a confirmed write a power loss changes neither file. */
  lemma ConfirmedSurvivesPowerLoss(start: Disk, events: seq<Event>, after: Disk)
    requires SoundDisk(start) && Run(Start(start), events).Some?
    requires var w := Run(Start(start), events).value; w.calls != [] && w.confirmed && CrashesTo(w.disk, after)
    ensures var w := Run(Start(start), events).value; after.state == w.disk.state && after.backup == w.disk.backup
  {
    ConfirmedMeansDurable(start, events);
    AtMostOneInitialization(start, events);
    SettledSurvivesAsSeen(Run(Start(start), events).value.disk, after);
  }

  // ----- Initialization -----

  function Count(results: seq<bool>): nat {
    if results == [] then 0 else Count(results[..|results| - 1]) + if results[|results| - 1] then 1 else 0
  }

  /** A confirmed initialization leaves no outcome without a state file; without losses, neither does any. */
  ghost predicate InitializedOnce(w: World) {
    && SoundDisk(w.disk)
    && Count(w.initialized) <= 1
    && (Count(w.initialized) == 1 ==> None !in w.disk.state.possible)
    && (w.losses == 0 ==> |w.initialized| <= 1)
    && (w.losses == 0 && |w.initialized| == 1 ==> w.disk.state.visible.Some?)
  }

  /** No operation ever removes the state file, visible or durable. */
  ghost predicate Keeps(d: Disk, e: Disk) {
    && SoundDisk(e)
    && (None !in d.state.possible ==> None !in e.state.possible)
    && (d.state.visible.Some? ==> e.state.visible.Some?)
  }

  lemma WriteKeeps(d: Disk, name: Name, c: Contents, fault: Fault)
    requires SoundDisk(d)
    ensures forall k :: 0 <= k < |AtomicWrite(d, name, c, fault).trace| ==>
              Keeps(d, AtomicWrite(d, name, c, fault).trace[k])
  {
  }

  lemma PerformKeeps(w: World, op: Op)
    requires SoundDisk(w.disk)
    ensures forall k :: 0 <= k < |Perform(w, op).trace| ==> Keeps(w.disk, Perform(w, op).trace[k])
  {
    match op
    case LoadForMigration =>
    case Migrate(size, now, backupFault, fault) =>
      if w.loaded.Some? {
        MigrateKeeps(w.disk, w.loaded.value, size, now, backupFault, fault);
      }
    case RestoreBackup(fault) =>
      if Read(w.disk.backup).Ok? {
        WriteKeeps(w.disk, StateFile, Read(w.disk.backup).value, fault);
      }
    case Update(state, size, now, fault) => StateWriteKeeps(w.disk, state, size, now, fault);
    case Setup(state, size, now, fault) => StateWriteKeeps(w.disk, state, size, now, fault);
  }

  lemma StateWriteKeeps(d: Disk, state: State, size: nat, now: int, fault: Fault)
    requires SoundDisk(d)
    ensures var w := WriteState(d, state, size, now, fault);
            && (forall k :: 0 <= k < |w.trace| ==> Keeps(d, w.trace[k]))
            && (w.result.Ok? ==> Last(w).state.visible.Some?)
            && (w.result == Ok(true) ==> None !in Last(w).state.possible)
  {
    WriteKeeps(d, StateFile, V4(Stamped(state, now), size), fault);
  }

  lemma MigrateKeeps(d: Disk, loaded: Compatible, size: nat, now: int, backupFault: Fault, fault: Fault)
    requires SoundDisk(d)
    ensures var w := CommitMigration(d, loaded, size, now, backupFault, fault);
            forall k :: 0 <= k < |w.trace| ==> Keeps(d, w.trace[k])
  {
    WriteKeeps(d, BackupFile, loaded.source, backupFault);
    var backup := AtomicWrite(d, BackupFile, loaded.source, backupFault);
    StateWriteKeeps(Last(backup), loaded.state, size, now, fault);
    var state := WriteState(Last(backup), loaded.state, size, now, fault);
    KeepsChain(d, backup.trace, state.trace);
    assert WriteMigration(d, loaded, size, now, backupFault, fault).trace in {backup.trace, backup.trace + state.trace};
  }

  lemma KeepsChain(d: Disk, first: seq<Disk>, second: seq<Disk>)
    requires first != [] && forall k :: 0 <= k < |first| ==> Keeps(d, first[k])
    requires forall k :: 0 <= k < |second| ==> Keeps(first[|first| - 1], second[k])
    ensures forall k :: 0 <= k < |first + second| ==> Keeps(d, (first + second)[k])
  {
    assert Keeps(d, first[|first| - 1]);
  }

  lemma CrashKeeps(d: Disk, after: Disk)
    requires CrashesTo(d, after)
    ensures SoundDisk(after)
    ensures None !in d.state.possible ==> None !in after.state.possible
  {
  }

  lemma SetupStep(w: World, state: State, size: nat, now: int, fault: Fault)
    requires InitializedOnce(w)
    ensures InitializedOnce(Next(w, Done(Setup(state, size, now, fault))))
  {
    StateWriteKeeps(w.disk, state, size, now, fault);
    var r := CommitInitial(w.disk, state, size, now, fault);
    var v := Next(w, Done(Setup(state, size, now, fault)));
    if r.result.Ok? {
      FirstInitialization(w, v, r.result.value);
    } else {
      OtherStep(w, v);
    }
  }

  /** An initialization that succeeds found no visible state file, so none was confirmed before. */
  lemma FirstInitialization(w: World, v: World, durable: bool)
    requires InitializedOnce(w) && w.disk.state.visible.None? && SoundDisk(v.disk) && v.losses == w.losses
    requires v.initialized == w.initialized + [durable]
    requires v.disk.state.visible.Some? && (durable ==> None !in v.disk.state.possible)
    ensures InitializedOnce(v)
  {
    CountExtends(w.initialized, durable);
  }

  lemma CountExtends(results: seq<bool>, b: bool)
    ensures Count(results + [b]) == Count(results) + if b then 1 else 0
  {
    assert (results + [b])[..|results|] == results;
  }

  /** Any step that initializes nothing. */
  lemma OtherStep(w: World, v: World)
    requires InitializedOnce(w) && SoundDisk(v.disk)
    requires None !in w.disk.state.possible ==> None !in v.disk.state.possible
    requires v.initialized == w.initialized && v.losses >= w.losses
    requires v.losses == 0 && w.disk.state.visible.Some? ==> v.disk.state.visible.Some?
    ensures InitializedOnce(v)
  {
  }

  lemma InitializationStep(w: World, event: Event)
    requires InitializedOnce(w) && Possible(w, event)
    ensures InitializedOnce(Next(w, event))
  {
    match event
    case Done(Setup(state, size, now, fault)) => SetupStep(w, state, size, now, fault);
    case Done(op) => PerformKeeps(w, op); OtherStep(w, Next(w, event));
    case Killed(op, k) => PerformKeeps(w, op); OtherStep(w, Next(w, event));
    case PowerLoss(op, k, after) =>
      PerformKeeps(w, op);
      CrashKeeps(Perform(w, op).trace[k], after);
      OtherStep(w, Next(w, event));
  }

  /**
   * Without power losses at most one initialization succeeds, over any number of restarts. With power
   * losses at most one durable initialization succeeds.
   */
  lemma {:induction false} AtMostOneInitialization(start: Disk, events: seq<Event>)
    requires SoundDisk(start) && Run(Start(start), events).Some?
    ensures var w := Run(Start(start), events).value;
            && InitializedOnce(w)
            && Count(w.initialized) <= 1 && (w.losses == 0 ==> |w.initialized| <= 1)
  {
    if events != [] {
      AtMostOneInitialization(start, events[..|events| - 1]);
      InitializationStep(Run(Start(start), events[..|events| - 1]).value, events[|events| - 1]);
    }
  }
}
