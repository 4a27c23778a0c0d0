/**
 * The private state directory of internal/platform/state/state.go: two files replaced by
 * write-to-temporary, sync, rename and directory sync, on a disk that may lose power between any
 * two of these steps.
 */
module StateStore {
  import opened Common

  const SCHEMA_VERSION := 4
  const PREVIOUS_SCHEMA := 3
  const MAXIMUM_SIZE := 1024 * 1024

  datatype Admin = Admin(password: string, publicOrigins: seq<string>)
  datatype DeviceToken = DeviceToken(id: string, name: string, hash: string, createdAt: int)
  datatype CacheV3 = CacheV3(
    currentTTL: int, currentStaleMax: int, hourlyTTL: int, hourlyStaleMax: int,
    dailyTTL: int, dailyStaleMax: int, maxLocations: int)
  datatype CacheState = CacheState(
    currentTTL: int, currentStaleMax: int, hourlyTTL: int, hourlyStaleMax: int,
    dailyTTL: int, dailyStaleMax: int, alertsTTL: int, alertsStaleMax: int, maxLocations: int)
  datatype StateV3 = StateV3(
    updatedAt: int, admin: Admin, qweather: string, cache: CacheV3, tokens: seq<DeviceToken>)
  datatype State = State(
    schemaVersion: int, updatedAt: int, admin: Admin, qweather: string, cache: CacheState,
    tokens: seq<DeviceToken>)

  /**
   * File contents. A V3 file keeps its exact bytes beside what they decode to; a V4 file is the
   * rendering of its state; Rejected has a readable version but does not decode strictly.
   */
  datatype Contents =
    | V3(bytes: string, doc: StateV3)
    | V4(state: State, size: nat)
    | Rejected(version: int, bytes: string)
    | NotJson(bytes: string)

  function Size(c: Contents): nat {
    match c
    case V3(bytes, _) => |bytes|
    case V4(_, size) => size
    case Rejected(_, bytes) => |bytes|
    case NotJson(bytes) => |bytes|
  }

  function Version(c: Contents): Option<int> {
    match c
    case V3(_, _) => Some(PREVIOUS_SCHEMA)
    case V4(_, _) => Some(SCHEMA_VERSION)
    case Rejected(version, _) => Some(version)
    case NotJson(_) => None
  }

  function DefaultCache(): CacheState {
    CacheState(1200, 21600, 3600, 43200, 14400, 172800, 600, 3600, 64)
  }

  function MigrateV3(v: StateV3): State {
    var c, d := v.cache, DefaultCache();
    State(SCHEMA_VERSION, v.updatedAt, v.admin, v.qweather,
          CacheState(c.currentTTL, c.currentStaleMax, c.hourlyTTL, c.hourlyStaleMax,
                     c.dailyTTL, c.dailyStaleMax, d.alertsTTL, d.alertsStaleMax, c.maxLocations),
          v.tokens)
  }

  predicate ValidWindow(ttl: int, staleMax: int) {
    0 < ttl < staleMax
  }

  predicate ValidCache(c: CacheState) {
    && ValidWindow(c.currentTTL, c.currentStaleMax) && ValidWindow(c.hourlyTTL, c.hourlyStaleMax)
    && ValidWindow(c.dailyTTL, c.dailyStaleMax) && ValidWindow(c.alertsTTL, c.alertsStaleMax)
    && 1 <= c.maxLocations <= 1024
  }

  /** A file's data reaches the disk only once it is synced. */
  datatype File = File(contents: Contents, synced: bool)

  /**
   * One directory entry: what a reader sees now, and every file a power loss could leave there. A
   * rename that no directory sync has followed may or may not survive.
   */
  datatype Slot = Slot(visible: Option<File>, possible: set<Option<File>>)

  datatype Disk = Disk(state: Slot, backup: Slot, temporary: Option<File>)

  datatype Name = StateFile | BackupFile

  function SlotOf(d: Disk, name: Name): Slot {
    if name == StateFile then d.state else d.backup
  }

  function Renamed(d: Disk, name: Name, file: File): Disk {
    var s := SlotOf(d, name);
    var replaced := Slot(Some(file), s.possible + {Some(file)});
    if name == StateFile then d.(state := replaced, temporary := None)
    else d.(backup := replaced, temporary := None)
  }

  function Settle(s: Slot): Slot {
    Slot(s.visible, {s.visible})
  }

  function DirectorySynced(d: Disk): Disk {
    d.(state := Settle(d.state), backup := Settle(d.backup))
  }

  /** What a slot may read as after a power loss: unsynced data may read as anything. */
  ghost predicate Survives(s: Slot, after: Option<Contents>) {
    exists f :: f in s.possible &&
      match f
      case None => after == None
      case Some(file) => after.Some? && (file.synced ==> after.value == file.contents)
  }

  function Durable(c: Option<Contents>): Slot {
    var f := if c.Some? then Some(File(c.value, true)) else None;
    Slot(f, {f})
  }

  /** A power loss: each entry independently becomes one of its possible outcomes. */
  ghost predicate CrashesTo(d: Disk, after: Disk) {
    exists s, b :: Survives(d.state, s) && Survives(d.backup, b)
                   && after == Disk(Durable(s), Durable(b), None)
  }

  /** Where one attempt to replace a file goes wrong, if anywhere. */
  datatype Fault = NoFault | CreateFails | ChmodFails | WriteFails | SyncFails | CloseFails
                 | RenameFails | DirectorySyncFails

  datatype Failure = TooLarge | IoError | Missing | NotInitialized | AlreadyInitialized | InvalidCandidate
                   | ChangedSinceLoad | UnsupportedVersion | Undecodable | BackupUnconfirmed

  /** A logically committed replacement, durable or not, or an error. */
  type WriteResult = Result<bool, Failure>

  /**
   * The outcome of a store operation with every disk it passed through, the renames and directory
   * syncs it made, and the value it last gave durabilityConfirmed, if any.
   */
  datatype Written = Written(
    trace: seq<Disk>, result: WriteResult, calls: seq<SystemCall>, flagged: Option<bool>)

  datatype SystemCall = Rename | Sync | FailedSync

  /** durabilityConfirmed after an operation. */
  function Flag(w: Written, before: bool): bool {
    if w.flagged.Some? then w.flagged.value else before
  }

  function Last(w: Written): Disk
    requires w.trace != []
  {
    w.trace[|w.trace| - 1]
  }

  const PARTIAL := File(NotJson(""), false)

  /** atomicWriteContents, step by step. */
  function AtomicWrite(d: Disk, name: Name, c: Contents, fault: Fault): (w: Written)
    ensures w.trace != [] && w.trace[0] == d
  {
    if Size(c) > MAXIMUM_SIZE then Written([d], Err(TooLarge), [], None)
    else
      var d0 := d.(temporary := None);
      var d1 := d.(temporary := Some(PARTIAL));
      var d2 := d.(temporary := Some(File(c, false)));
      var d3 := d.(temporary := Some(File(c, true)));
      match fault
      case CreateFails => Written([d], Err(IoError), [], None)
      case ChmodFails => Written([d, d1, d0], Err(IoError), [], None)
      case WriteFails => Written([d, d1, d0], Err(IoError), [], None)
      case SyncFails => Written([d, d1, d2, d0], Err(IoError), [], None)
      case CloseFails => Written([d, d1, d2, d3, d0], Err(IoError), [], None)
      case RenameFails => Written([d, d1, d2, d3, d0], Err(IoError), [], None)
      case DirectorySyncFails =>
        var d4 := Renamed(d3, name, d3.temporary.value);
        Written([d, d1, d2, d3, d4], Ok(false), [Rename, FailedSync], Some(false))
      case NoFault =>
        var d4 := Renamed(d3, name, d3.temporary.value);
        Written([d, d1, d2, d3, d4, DirectorySynced(d4)], Ok(true), [Rename, Sync], Some(true))
  }

  /** readBounded of a visible file. */
  function Read(s: Slot): Result<Contents, Failure> {
    if s.visible.None? then Err(Missing)
    else if Size(s.visible.value.contents) > MAXIMUM_SIZE then Err(TooLarge)
    else Ok(s.visible.value.contents)
  }

  function Stamped(state: State, now: int): State {
    if state.updatedAt == 0 then state.(updatedAt := now) else state
  }

  /** writeStateLocked; size is the length of the rendered state, now the clock. */
  function WriteState(d: Disk, state: State, size: nat, now: int, fault: Fault): (w: Written)
    ensures w.trace != [] && w.trace[0] == d
  {
    if state.schemaVersion != SCHEMA_VERSION then Written([d], Err(InvalidCandidate), [], None)
    else
      AtomicWrite(d, StateFile, V4(Stamped(state, now), size), fault)
  }

  datatype Compatible = Compatible(state: State, sourceVersion: int, source: Contents)

  function LoadCompatible(d: Disk): Result<Compatible, Failure> {
    match Read(d.state)
    case Err(e) => Err(if e == Missing then NotInitialized else e)
    case Ok(V4(state, size)) => Ok(Compatible(state, SCHEMA_VERSION, V4(state, size)))
    case Ok(V3(bytes, doc)) => Ok(Compatible(MigrateV3(doc), PREVIOUS_SCHEMA, V3(bytes, doc)))
    case Ok(Rejected(version, _)) =>
      if version == SCHEMA_VERSION || version == PREVIOUS_SCHEMA then Err(Undecodable) else Err(UnsupportedVersion)
    case Ok(NotJson(_)) => Err(Undecodable)
  }

  function Load(d: Disk): Result<State, Failure> {
    match Read(d.state)
    case Err(e) => Err(if e == Missing then NotInitialized else e)
    case Ok(V4(state, _)) => Ok(state)
    case Ok(V3(_, _)) => Err(UnsupportedVersion)
    case Ok(Rejected(version, _)) => if version == SCHEMA_VERSION then Err(Undecodable) else Err(UnsupportedVersion)
    case Ok(NotJson(_)) => Err(Undecodable)
  }

  /** The two writes of a migration: the backup first, and the state only once that is durable. */
  function WriteMigration(d: Disk, loaded: Compatible, size: nat, now: int,
                          backupFault: Fault, fault: Fault): (w: Written)
    ensures w.trace != [] && w.trace[0] == d
  {
    var backup := AtomicWrite(d, BackupFile, loaded.source, backupFault);
    if backup.result.Err? then backup
    else if !backup.result.value then Written(backup.trace, Err(BackupUnconfirmed), backup.calls, backup.flagged)
    else
      var state := WriteState(Last(backup), loaded.state, size, now, fault);
      Written(backup.trace + state.trace, state.result, backup.calls + state.calls,
              if state.flagged.Some? then state.flagged else backup.flagged)
  }

  function CommitMigration(d: Disk, loaded: Compatible, size: nat, now: int,
                           backupFault: Fault, fault: Fault): (w: Written)
    ensures w.trace != [] && w.trace[0] == d
  {
    if loaded.sourceVersion != PREVIOUS_SCHEMA || loaded.state.schemaVersion != SCHEMA_VERSION
       || Size(loaded.source) == 0 then Written([d], Err(InvalidCandidate), [], None)
    else
      match Read(d.state)
      case Err(e) => Written([d], Err(e), [], None)
      case Ok(current) =>
        if current != loaded.source then Written([d], Err(ChangedSinceLoad), [], None)
        else WriteMigration(d, loaded, size, now, backupFault, fault)
  }

  function RestoreV3Backup(d: Disk, fault: Fault): (w: Written)
    ensures w.trace != [] && w.trace[0] == d
  {
    match Read(d.state)
    case Err(e) => Written([d], Err(e), [], None)
    case Ok(current) =>
      if Version(current) == None then Written([d], Err(Undecodable), [], None)
      else if Version(current) != Some(SCHEMA_VERSION) then Written([d], Err(UnsupportedVersion), [], None)
      else
        match Read(d.backup)
        case Err(e) => Written([d], Err(e), [], None)
        case Ok(V3(bytes, doc)) => AtomicWrite(d, StateFile, V3(bytes, doc), fault)
        case Ok(_) => Written([d], Err(Undecodable), [], None)
  }

  function Save(d: Disk, state: State, size: nat, now: int, fault: Fault): (w: Written)
    ensures w.trace != [] && w.trace[0] == d
  {
    if d.state.visible.None? then Written([d], Err(NotInitialized), [], None)
    else WriteState(d, state, size, now, fault)
  }

  function CommitInitial(d: Disk, state: State, size: nat, now: int, fault: Fault): (w: Written)
    ensures w.trace != [] && w.trace[0] == d
  {
    if d.state.visible.Some? then Written([d], Err(AlreadyInitialized), [], None)
    else WriteState(d, state, size, now, fault)
  }

  /** The store: the directory it owns and the flag it reports. */
  class Store {
    var disk: Disk
    var durabilityConfirmed: bool
    ghost var trace: seq<Disk>
    ghost var calls: seq<SystemCall>

    constructor (disk: Disk)
      ensures this.disk == disk && durabilityConfirmed && trace == [disk] && calls == []
    {
      this.disk, durabilityConfirmed, trace, calls := disk, true, [disk], [];
    }

    /** What a finished operation leaves: the disks passed, the last one, the system calls, and the flag. */
    ghost predicate Leaves(w: Written, before: seq<Disk>, made: seq<SystemCall>, flag: bool)
      reads this
    {
      && w.trace != [] && trace == before + w.trace && disk == Last(w)
      && calls == made + w.calls && durabilityConfirmed == Flag(w, flag)
    }

    /** Create, write, sync and close the temporary file, removing it when a step fails. */
    method Stage(contents: Contents, fault: Fault) returns (staged: bool)
      modifies this`disk, this`trace
      ensures staged <==> fault !in {CreateFails, ChmodFails, WriteFails, SyncFails, CloseFails}
      ensures var d := old(disk);
              var d0, d1 := d.(temporary := None), d.(temporary := Some(PARTIAL));
              var d2, d3 := d.(temporary := Some(File(contents, false))), d.(temporary := Some(File(contents, true)));
              && disk == (if staged then d3 else if fault == CreateFails then d else d0)
              && trace == old(trace) +
                   if staged then [d, d1, d2, d3]
                   else if fault == CreateFails then [d]
                   else if fault == SyncFails then [d, d1, d2, d0]
                   else if fault == CloseFails then [d, d1, d2, d3, d0]
                   else [d, d1, d0]
    {
      trace := trace + [disk];
      if fault == CreateFails {
        return false;
      }
      Change(disk.(temporary := Some(PARTIAL)));
      if fault == ChmodFails || fault == WriteFails {
        Change(disk.(temporary := None));
        return false;
      }
      Change(disk.(temporary := Some(File(contents, false))));
      if fault == SyncFails {
        Change(disk.(temporary := None));
        return false;
      }
      Change(disk.(temporary := Some(File(contents, true))));
      if fault == CloseFails {
        Change(disk.(temporary := None));
        return false;
      }
      return true;
    }

    method AtomicWriteContents(name: Name, contents: Contents, fault: Fault) returns (r: WriteResult)
      modifies this
      ensures var w := AtomicWrite(old(disk), name, contents, fault);
              r == w.result && Leaves(w, old(trace), old(calls), old(durabilityConfirmed))
    {
      if Size(contents) > MAXIMUM_SIZE {
        trace := trace + [disk];
        return Err(TooLarge);
      }
      var staged := Stage(contents, fault);
      if !staged {
        return Err(IoError);
      }
      if fault == RenameFails {
        Change(disk.(temporary := None));
        return Err(IoError);
      }
      Change(Renamed(disk, name, disk.temporary.value));
      calls := calls + [Rename];
      if fault == DirectorySyncFails {
        calls := calls + [FailedSync];
        durabilityConfirmed := false;
        return Ok(false);
      }
      Change(DirectorySynced(disk));
      calls := calls + [Sync];
      durabilityConfirmed := true;
      return Ok(true);
    }

    method Change(next: Disk)
      modifies this`disk, this`trace
      ensures disk == next && trace == old(trace) + [next]
    {
      disk, trace := next, trace + [next];
    }

    method WriteStateLocked(state: State, size: nat, now: int, fault: Fault) returns (r: WriteResult)
      modifies this
      ensures var w := WriteState(old(disk), state, size, now, fault);
              r == w.result && Leaves(w, old(trace), old(calls), old(durabilityConfirmed))
    {
      if state.schemaVersion != SCHEMA_VERSION {
        trace := trace + [disk];
        return Err(InvalidCandidate);
      }
      var stamped := state;
      if stamped.updatedAt == 0 {
        stamped := stamped.(updatedAt := now);
      }
      r := AtomicWriteContents(StateFile, V4(stamped, size), fault);
    }

    method Commit(loaded: Compatible, size: nat, now: int, backupFault: Fault, fault: Fault)
      returns (r: WriteResult)
      modifies this
      ensures var w := CommitMigration(old(disk), loaded, size, now, backupFault, fault);
              r == w.result && Leaves(w, old(trace), old(calls), old(durabilityConfirmed))
    {
      if loaded.sourceVersion != PREVIOUS_SCHEMA || loaded.state.schemaVersion != SCHEMA_VERSION
         || Size(loaded.source) == 0 {
        trace := trace + [disk];
        return Err(InvalidCandidate);
      }
      var current := Read(disk.state);
      if current.Err? {
        trace := trace + [disk];
        return Err(current.error);
      }
      if current.value != loaded.source {
        trace := trace + [disk];
        return Err(ChangedSinceLoad);
      }
      r := WriteBoth(loaded, size, now, backupFault, fault);
    }

    method WriteBoth(loaded: Compatible, size: nat, now: int, backupFault: Fault, fault: Fault)
      returns (r: WriteResult)
      modifies this
      ensures var w := WriteMigration(old(disk), loaded, size, now, backupFault, fault);
              r == w.result && Leaves(w, old(trace), old(calls), old(durabilityConfirmed))
    {
      r := AtomicWriteContents(BackupFile, loaded.source, backupFault);
      if r.Err? {
        return;
      }
      if !r.value {
        return Err(BackupUnconfirmed);
      }
      r := WriteStateLocked(loaded.state, size, now, fault);
    }

    method Restore(fault: Fault) returns (r: WriteResult)
      modifies this
      ensures var w := RestoreV3Backup(old(disk), fault);
              r == w.result && Leaves(w, old(trace), old(calls), old(durabilityConfirmed))
    {
      var current := Read(disk.state);
      var backup := Read(disk.backup);
      var refusal := None;
      if current.Err? {
        refusal := Some(current.error);
      } else if Version(current.value) == None {
        refusal := Some(Undecodable);
      } else if Version(current.value) != Some(SCHEMA_VERSION) {
        refusal := Some(UnsupportedVersion);
      } else if backup.Err? {
        refusal := Some(backup.error);
      } else if !backup.value.V3? {
        refusal := Some(Undecodable);
      }
      if refusal.Some? {
        trace := trace + [disk];
        return Err(refusal.value);
      }
      r := AtomicWriteContents(StateFile, backup.value, fault);
    }

    method SaveState(state: State, size: nat, now: int, fault: Fault) returns (r: WriteResult)
      modifies this
      ensures var w := Save(old(disk), state, size, now, fault);
              r == w.result && Leaves(w, old(trace), old(calls), old(durabilityConfirmed))
    {
      if disk.state.visible.None? {
        trace := trace + [disk];
        return Err(NotInitialized);
      }
      r := WriteStateLocked(state, size, now, fault);
    }

    method Initialize(state: State, size: nat, now: int, fault: Fault) returns (r: WriteResult)
      modifies this
      ensures var w := CommitInitial(old(disk), state, size, now, fault);
              r == w.result && Leaves(w, old(trace), old(calls), old(durabilityConfirmed))
    {
      if disk.state.visible.Some? {
        trace := trace + [disk];
        return Err(AlreadyInitialized);
      }
      r := WriteStateLocked(state, size, now, fault);
    }
  }
}
