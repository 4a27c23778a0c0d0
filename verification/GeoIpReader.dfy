/**
 * Lifecycle of the hot-reloaded database reader of internal/providers/geoip/geoip.go, under
 * concurrent lookups, reloads and shutdown.
 */
module GeoIpReader {
  import opened Common

  datatype FileInfo = FileInfo(file: int, size: int, modified: int)

  /** The fields the mutex guards. Readers are numbered in the order they are opened. */
  datatype Core = Core(reader: Option<nat>, loaded: FileInfo, polling: bool, closed: bool)

  predicate IsChanged(c: Core, info: FileInfo) {
    c.reader == None || c.loaded != info
  }

  /** Install a reader unless the store is closed; the result is the reader to close, if any. */
  function Install(c: Core, reader: nat, info: FileInfo): (Core, Option<nat>) {
    if c.closed then (c, Some(reader)) else (c.(reader := Some(reader), loaded := info), c.reader)
  }

  function Shut(c: Core): (Core, Option<nat>) {
    (c.(closed := true, reader := None), c.reader)
  }

  /** The end of Start: at most one poller, and none once closed. */
  function StartPolling(c: Core): (Core, bool) {
    if c.closed || c.polling then (c, false) else (c.(polling := true), true)
  }

  class Store {
    var reader: Option<nat>
    var loaded: FileInfo
    var polling: bool
    var closed: bool

    ghost function View(): Core
      reads this
    {
      Core(reader, loaded, polling, closed)
    }

    constructor (loaded: FileInfo)
      ensures View() == Core(None, loaded, false, false)
    {
      reader, this.loaded, polling, closed := None, loaded, false, false;
    }

    /** Under the read lock. */
    method Changed(info: FileInfo) returns (changed: bool)
      ensures changed == IsChanged(View(), info)
    {
      changed := reader == None || loaded.file != info.file || loaded.size != info.size
                 || loaded.modified != info.modified;
    }

    /** Under the write lock, at the end of reloadIfChanged. */
    method Replace(next: nat, info: FileInfo) returns (obsolete: Option<nat>)
      modifies this
      ensures (View(), obsolete) == Install(old(View()), next, info)
    {
      if closed {
        return Some(next);
      }
      obsolete := reader;
      reader := Some(next);
      loaded := info;
    }

    /** Under the write lock, in Close. */
    method TakeReader() returns (obsolete: Option<nat>)
      modifies this
      ensures (View(), obsolete) == Shut(old(View()))
    {
      closed := true;
      obsolete := reader;
      reader := None;
    }

    /** Under the write lock, in Start. */
    method Poll() returns (started: bool)
      modifies this
      ensures (View(), started) == StartPolling(old(View()))
    {
      if closed || polling {
        return false;
      }
      polling := true;
      return true;
    }
  }

  /** What opening a file gives: nothing, a reader that must not be used, or a City reader. */
  datatype Opening = NotOpened | Unusable | City

  /** A call of reloadIfChanged or Close between two of its atomic steps. */
  datatype Activity = Looked(info: FileInfo) | MustOpen(info: FileInfo)
                    | Holds(info: FileInfo, reader: nat) | MustClose(reader: nat)

  datatype World = World(
    core: Core, readers: nat, closes: seq<nat>, activities: map<nat, Activity>, begun: nat,
    lookups: map<nat, nat>, looked: nat, pollers: nat)

  datatype Event =
    | Stat(info: FileInfo)
    | Check(activity: nat)
    | Open(activity: nat, opening: Opening)
    | Swap(activity: nat)
    | CloseReader(activity: nat)
    | CloseStore
    | Start
    | BeginLookup
    | EndLookup(lookup: nat)

  function Initial(loaded: FileInfo): World {
    World(Core(None, loaded, false, false), 0, [], map[], 0, map[], 0, 0)
  }

  /** Steps under the write lock wait for the lookups, which hold the read lock while they read. */
  predicate Enabled(w: World, e: Event) {
    match e
    case Stat(_) => true
    case Check(a) => a in w.activities && w.activities[a].Looked?
    case Open(a, _) => a in w.activities && w.activities[a].MustOpen?
    case Swap(a) => a in w.activities && w.activities[a].Holds? && w.lookups == map[]
    case CloseReader(a) => a in w.activities && w.activities[a].MustClose?
    case CloseStore => w.lookups == map[]
    case Start => w.lookups == map[]
    case BeginLookup => true
    case EndLookup(l) => l in w.lookups
  }

  /** The activity goes on to close a reader, or ends. */
  function Continue(w: World, a: nat, obsolete: Option<nat>): World {
    w.(activities := match obsolete
                     case Some(reader) => w.activities[a := MustClose(reader)]
                     case None => w.activities - {a})
  }

  function Next(w: World, e: Event): World
    requires Enabled(w, e)
  {
    match e
    case Stat(info) => w.(activities := w.activities[w.begun := Looked(info)], begun := w.begun + 1)
    case Check(a) =>
      var info := w.activities[a].info;
      if IsChanged(w.core, info) then w.(activities := w.activities[a := MustOpen(info)])
      else w.(activities := w.activities - {a})
    case Open(a, opening) =>
      (match opening
       case NotOpened => w.(activities := w.activities - {a})
       case Unusable => w.(activities := w.activities[a := MustClose(w.readers)], readers := w.readers + 1)
       case City =>
         w.(activities := w.activities[a := Holds(w.activities[a].info, w.readers)], readers := w.readers + 1))
    case Swap(a) =>
      var (core, obsolete) := Install(w.core, w.activities[a].reader, w.activities[a].info);
      Continue(w.(core := core), a, obsolete)
    case CloseReader(a) =>
      w.(activities := w.activities - {a}, closes := w.closes + [w.activities[a].reader])
    case CloseStore =>
      if w.core.closed then w
      else
        var (core, obsolete) := Shut(w.core);
        Continue(w.(core := core, begun := w.begun + 1), w.begun, obsolete)
    case Start =>
      var (core, started) := StartPolling(w.core);
      w.(core := core, pollers := w.pollers + if started then 1 else 0)
    case BeginLookup =>
      if w.core.reader == None then w
      else w.(lookups := w.lookups[w.looked := w.core.reader.value], looked := w.looked + 1)
    case EndLookup(l) => w.(lookups := w.lookups - {l})
  }

  function Run(w: World, events: seq<Event>): Option<World> {
    if events == [] then Some(w)
    else
      var n := |events| - 1;
      var before := Run(w, events[..n]);
      if before.Some? && Enabled(before.value, events[n]) then Some(Next(before.value, events[n])) else None
  }

  /** The reader an activity is responsible for. */
  function Duty(a: Activity): Option<nat> {
    match a
    case Holds(_, reader) => Some(reader)
    case MustClose(reader) => Some(reader)
    case _ => None
  }

  datatype Fate = Installed | Owed(activity: nat) | Closed

  /** Every opened reader has exactly one fate: installed, some activity's duty, or closed once. */
  ghost predicate Accounted(w: World, fates: seq<Fate>) {
    && |fates| == w.readers
    && (forall r :: 0 <= r < |fates| ==>
          match fates[r]
          case Installed => w.core.reader == Some(r)
          case Owed(a) => a in w.activities && Duty(w.activities[a]) == Some(r)
          case Closed => r in w.closes)
    && (w.core.reader.Some? ==> w.core.reader.value < |fates| && fates[w.core.reader.value] == Installed)
    && (forall a :: a in w.activities ==>
          && a < w.begun
          && (Duty(w.activities[a]).Some? ==>
                Duty(w.activities[a]).value < |fates| && fates[Duty(w.activities[a]).value] == Owed(a)))
    && Distinct(w.closes)
    && (forall n :: 0 <= n < |w.closes| ==> w.closes[n] < |fates| && fates[w.closes[n]] == Closed)
  }

  ghost predicate Locked(w: World) {
    && (forall l :: l in w.lookups ==> l < w.looked && w.core.reader == Some(w.lookups[l]))
    && (w.core.closed ==> w.core.reader == None)
    && w.pollers == (if w.core.polling then 1 else 0)
  }

  lemma LockedStep(w: World, e: Event)
    requires Locked(w) && Enabled(w, e)
    ensures Locked(Next(w, e))
    ensures w.core.closed ==> Next(w, e).core == w.core
  {
  }

  /** The fates after a step. */
  function FatesAfter(w: World, e: Event, fates: seq<Fate>): seq<Fate>
    requires Enabled(w, e)
  {
    match e
    case Open(a, opening) => if opening == NotOpened then fates else fates + [Owed(a)]
    case Swap(a) =>
      var r := w.activities[a].reader;
      if w.core.closed || r >= |fates| then fates
      else
        var installed := fates[r := Installed];
        if w.core.reader.Some? && w.core.reader.value < |fates| then installed[w.core.reader.value := Owed(a)]
        else installed
    case CloseReader(a) =>
      var r := w.activities[a].reader;
      if r < |fates| then fates[r := Closed] else fates
    case CloseStore =>
      if !w.core.closed && w.core.reader.Some? && w.core.reader.value < |fates|
      then fates[w.core.reader.value := Owed(w.begun)] else fates
    case _ => fates
  }

  lemma OpenAccounted(w: World, a: nat, opening: Opening, fates: seq<Fate>)
    requires Accounted(w, fates) && Enabled(w, Open(a, opening))
    ensures Accounted(Next(w, Open(a, opening)), FatesAfter(w, Open(a, opening), fates))
  {
  }

  lemma LateReaderAccounted(w: World, a: nat, fates: seq<Fate>)
    requires Accounted(w, fates) && Enabled(w, Swap(a)) && w.core.closed
    ensures Accounted(Next(w, Swap(a)), FatesAfter(w, Swap(a), fates))
  {
    var r := w.activities[a].reader;
    assert Duty(w.activities[a]) == Some(r) && fates[r] == Owed(a);
    var v := Next(w, Swap(a));
    assert forall b :: b in v.activities && b != a ==> v.activities[b] == w.activities[b];
  }

  lemma FirstReaderAccounted(w: World, a: nat, fates: seq<Fate>)
    requires Accounted(w, fates) && Enabled(w, Swap(a)) && !w.core.closed && w.core.reader == None
    ensures Accounted(Next(w, Swap(a)), FatesAfter(w, Swap(a), fates))
  {
    var r := w.activities[a].reader;
    assert Duty(w.activities[a]) == Some(r) && fates[r] == Owed(a);
    var v := Next(w, Swap(a));
    assert forall b :: b in v.activities && b != a ==> v.activities[b] == w.activities[b];
  }

  lemma NextReaderAccounted(w: World, a: nat, fates: seq<Fate>)
    requires Accounted(w, fates) && Enabled(w, Swap(a)) && !w.core.closed && w.core.reader.Some?
    ensures Accounted(Next(w, Swap(a)), FatesAfter(w, Swap(a), fates))
  {
    var r := w.activities[a].reader;
    assert Duty(w.activities[a]) == Some(r) && fates[r] == Owed(a);
    var v := Next(w, Swap(a));
    assert forall b :: b in v.activities && b != a ==> v.activities[b] == w.activities[b];
    var later := FatesAfter(w, Swap(a), fates);
    assert forall i :: 0 <= i < |fates| && i != r && w.core.reader != Some(i) ==> later[i] == fates[i];
  }

  lemma SwapAccounted(w: World, a: nat, fates: seq<Fate>)
    requires Accounted(w, fates) && Enabled(w, Swap(a))
    ensures Accounted(Next(w, Swap(a)), FatesAfter(w, Swap(a), fates))
  {
    if w.core.closed {
      LateReaderAccounted(w, a, fates);
    } else if w.core.reader == None {
      FirstReaderAccounted(w, a, fates);
    } else {
      NextReaderAccounted(w, a, fates);
    }
  }

  lemma CloseAccounted(w: World, a: nat, fates: seq<Fate>)
    requires Accounted(w, fates) && Enabled(w, CloseReader(a))
    ensures Accounted(Next(w, CloseReader(a)), FatesAfter(w, CloseReader(a), fates))
  {
    var r := w.activities[a].reader;
    assert Duty(w.activities[a]) == Some(r) && fates[r] == Owed(a);
    var v := Next(w, CloseReader(a));
    assert v.closes[|w.closes|] == r;
    assert forall c :: c in w.closes ==> c in v.closes;
  }

  lemma ShutAccounted(w: World, fates: seq<Fate>)
    requires Accounted(w, fates) && Enabled(w, CloseStore)
    ensures Accounted(Next(w, CloseStore), FatesAfter(w, CloseStore, fates))
  {
    var v := Next(w, CloseStore);
    assert forall b :: b in w.activities ==> b in v.activities && v.activities[b] == w.activities[b];
  }

  lemma OwnerStep(w: World, e: Event, fates: seq<Fate>)
    requires Accounted(w, fates) && Enabled(w, e)
    ensures Accounted(Next(w, e), FatesAfter(w, e, fates))
  {
    match e
    case Open(a, opening) => OpenAccounted(w, a, opening, fates);
    case Swap(a) => SwapAccounted(w, a, fates);
    case CloseReader(a) => CloseAccounted(w, a, fates);
    case CloseStore => ShutAccounted(w, fates);
    case _ =>
  }

  lemma {:induction false} RunKeeps(w: World, events: seq<Event>, fates: seq<Fate>) returns (later: seq<Fate>)
    requires Accounted(w, fates) && Locked(w) && Run(w, events).Some?
    ensures var v := Run(w, events).value;
            Accounted(v, later) && Locked(v) && (w.core.closed ==> v.core == w.core)
  {
    later := fates;
    if events != [] {
      later := RunKeeps(w, events[..|events| - 1], fates);
      var v := Run(w, events[..|events| - 1]).value;
      LockedStep(v, events[|events| - 1]);
      OwnerStep(v, events[|events| - 1], later);
      later := FatesAfter(v, events[|events| - 1], later);
    }
  }

  /** In every interleaving no lookup reads a closed reader, and no reader is closed twice. */
  lemma LookupsReadOpenReaders(loaded: FileInfo, events: seq<Event>)
    requires Run(Initial(loaded), events).Some?
    ensures var w := Run(Initial(loaded), events).value;
            && (forall l :: l in w.lookups ==> w.lookups[l] !in w.closes)
            && Distinct(w.closes) && w.pollers <= 1
  {
    var fates := RunKeeps(Initial(loaded), events, []);
  }

  lemma {:induction false} ClosedForGood(loaded: FileInfo, events: seq<Event>)
    requires Run(Initial(loaded), events).Some? && CloseStore in events
    ensures Run(Initial(loaded), events).value.core.closed
  {
    var n := |events| - 1;
    var w := Run(Initial(loaded), events[..n]).value;
    if CloseStore in events[..n] {
      ClosedForGood(loaded, events[..n]);
      var fates := RunKeeps(Initial(loaded), events[..n], []);
      LockedStep(w, events[n]);
    } else {
      assert events[n] == CloseStore;
    }
  }

  /**
   * Once Close has run no reader is ever installed again and no poller starts, however many reloads were
   * already past their open call.
   */
  lemma NothingInstalledAfterClose(loaded: FileInfo, before: seq<Event>, after: seq<Event>)
    requires Run(Initial(loaded), before).Some? && CloseStore in before
    requires Run(Run(Initial(loaded), before).value, after).Some?
    ensures var w := Run(Initial(loaded), before).value;
            var v := Run(w, after).value;
            && v.core.reader == None && v.pollers == w.pollers
            && v.lookups == map[]
  {
    ClosedForGood(loaded, before);
    var fates := RunKeeps(Initial(loaded), before, []);
    fates := RunKeeps(Run(Initial(loaded), before).value, after, fates);
  }

  /** No reader leaks: when every activity has ended, all opened readers but the installed one are closed. */
  lemma NoReaderLeaks(loaded: FileInfo, events: seq<Event>)
    requires Run(Initial(loaded), events).Some?
    requires Run(Initial(loaded), events).value.activities == map[]
    ensures var w := Run(Initial(loaded), events).value;
            forall r: nat :: r < w.readers ==> (r in w.closes <==> w.core.reader != Some(r))
  {
    var fates := RunKeeps(Initial(loaded), events, []);
  }

  /**
   * Hot reload: in every reachable open store without running lookups, an undisturbed round over a file
   * that differs in identity, size or time installs its reader and leaves the previous one to be closed;
   * over the same file it ends at the check and opens nothing.
   */
  lemma UndisturbedReload(loaded: FileInfo, events: seq<Event>, info: FileInfo)
    requires Run(Initial(loaded), events).Some?
    requires var w := Run(Initial(loaded), events).value; !w.core.closed && w.lookups == map[]
    ensures var w := Run(Initial(loaded), events).value;
            var a := w.begun;
            var looked := Next(w, Stat(info));
            && Enabled(looked, Check(a))
            && var checked := Next(looked, Check(a));
            var before := w.core.loaded;
            if w.core.reader.Some? && info.file == before.file && info.size == before.size
               && info.modified == before.modified
            then a !in checked.activities && checked.core == w.core && checked.readers == w.readers
            else
              && Enabled(checked, Open(a, City))
              && var holding := Next(checked, Open(a, City));
              && Enabled(holding, Swap(a))
              && var v := Next(holding, Swap(a));
              && v.core.reader == Some(w.readers) && v.core.loaded == info && v.closes == w.closes
              && (w.core.reader.Some? ==> a in v.activities && v.activities[a] == MustClose(w.core.reader.value))
              && (w.core.reader.None? ==> a !in v.activities)
  {
    var w, a := Run(Initial(loaded), events).value, Run(Initial(loaded), events).value.begun;
    var looked := Next(w, Stat(info));
    assert looked.activities[a] == Looked(info) && looked.core == w.core;
    if IsChanged(w.core, info) {
      var checked := Next(looked, Check(a));
      assert checked.activities[a] == MustOpen(info);
      var holding := Next(checked, Open(a, City));
      assert holding.activities[a] == Holds(info, w.readers) && holding.lookups == map[];
    }
  }

  /** Start leaves exactly one poller, unless Close has run: then it starts none. */
  lemma StartBeginsPolling(loaded: FileInfo, events: seq<Event>)
    requires Run(Initial(loaded), events).Some? && Enabled(Run(Initial(loaded), events).value, Start)
    ensures var w := Run(Initial(loaded), events).value;
            Next(w, Start).pollers == if CloseStore in events then w.pollers else 1
  {
    var fates := RunKeeps(Initial(loaded), events, []);
    ClosedIffCloseRan(loaded, events);
  }

  lemma {:induction false} ClosedIffCloseRan(loaded: FileInfo, events: seq<Event>)
    requires Run(Initial(loaded), events).Some?
    ensures Run(Initial(loaded), events).value.core.closed <==> CloseStore in events
  {
    if events != [] {
      var n := |events| - 1;
      ClosedIffCloseRan(loaded, events[..n]);
      if CloseStore in events {
        ClosedForGood(loaded, events);
      } else {
        assert events[n] != CloseStore && CloseStore !in events[..n];
      }
    }
  }

  // ----- Close can always be completed -----

  lemma Extended(start: World, events: seq<Event>, w: World, e: Event) returns (more: seq<Event>, v: World)
    requires Run(start, events) == Some(w) && Enabled(w, e)
    ensures Run(start, more) == Some(v) && v == Next(w, e) && events <= more
    ensures CloseStore in events || e == CloseStore ==> CloseStore in more
  {
    more, v := events + [e], Next(w, e);
    assert more[..|events|] == events && more[|events|] == e;
  }

  lemma Shrinks<V>(m: map<nat, V>, k: nat)
    requires k in m
    ensures |m - {k}| < |m|
  {
    assert (m - {k}).Keys == m.Keys - {k} && |m| == |m.Keys| && |m - {k}| == |(m - {k}).Keys|;
  }

  lemma DrainLookups(start: World, events: seq<Event>, w: World) returns (more: seq<Event>, v: World)
    requires Run(start, events) == Some(w)
    ensures Run(start, more) == Some(v) && events <= more && v == w.(lookups := map[])
    decreases |w.lookups|
  {
    more, v := events, w;
    if w.lookups != map[] {
      var l :| l in w.lookups;
      more, v := Extended(start, events, w, EndLookup(l));
      Shrinks(w.lookups, l);
      more, v := DrainLookups(start, more, v);
    }
  }

  /** An activity of a closed store ends after at most two steps. */
  lemma EndActivity(start: World, events: seq<Event>, w: World, a: nat) returns (more: seq<Event>, v: World)
    requires Run(start, events) == Some(w) && w.core.closed && w.lookups == map[] && a in w.activities
    ensures Run(start, more) == Some(v) && events <= more && (CloseStore in events ==> CloseStore in more)
    ensures v.core == w.core && v.lookups == map[] && v.activities == w.activities - {a}
  {
    more, v := events, w;
    if v.activities[a].Looked? {
      more, v := Extended(start, more, v, Check(a));
    }
    if a in v.activities && v.activities[a].MustOpen? {
      more, v := Extended(start, more, v, Open(a, NotOpened));
    }
    if a in v.activities && v.activities[a].Holds? {
      more, v := Extended(start, more, v, Swap(a));
    }
    if a in v.activities {
      more, v := Extended(start, more, v, CloseReader(a));
    }
    assert v.activities == w.activities - {a};
  }

  lemma DrainActivities(start: World, events: seq<Event>, w: World) returns (more: seq<Event>, v: World)
    requires Run(start, events) == Some(w) && w.core.closed && w.lookups == map[]
    ensures Run(start, more) == Some(v) && events <= more && (CloseStore in events ==> CloseStore in more)
    ensures v.core == w.core && v.activities == map[]
    decreases |w.activities|
  {
    more, v := events, w;
    if w.activities != map[] {
      var a :| a in w.activities;
      more, v := EndActivity(start, events, w, a);
      Shrinks(w.activities, a);
      more, v := DrainActivities(start, more, v);
    }
  }

  /**
   * From every point of every interleaving the lookups can end, the store can be closed and every activity
   * can end, after which every reader ever opened has been closed.
   */
  lemma CloseCanComplete(loaded: FileInfo, events: seq<Event>) returns (more: seq<Event>)
    requires Run(Initial(loaded), events).Some?
    ensures events <= more && Run(Initial(loaded), more).Some?
    ensures var w := Run(Initial(loaded), more).value;
            && w.core.closed && w.core.reader == None && w.activities == map[]
            && forall r: nat :: r < w.readers ==> r in w.closes
  {
    var start, v := Initial(loaded), Run(Initial(loaded), events).value;
    more, v := DrainLookups(start, events, v);
    more, v := Extended(start, more, v, CloseStore);
    ClosedForGood(loaded, more);
    more, v := DrainActivities(start, more, v);
    var fates := RunKeeps(start, more, []);
    NoReaderLeaks(loaded, more);
  }

  /** A new store loads the first file it finds, and then looks addresses up in it. */
  lemma FirstFileIsServed(loaded: FileInfo, info: FileInfo) returns (events: seq<Event>)
    ensures Run(Initial(loaded), events).Some?
    ensures var w := Run(Initial(loaded), events).value;
            && w.core.reader.Some? && w.core.loaded == info
            && exists l :: l in w.lookups && w.lookups[l] == w.core.reader.value
  {
    var w;
    events, w := [], Initial(loaded);
    events, w := Extended(Initial(loaded), events, w, Stat(info));
    events, w := Extended(Initial(loaded), events, w, Check(0));
    events, w := Extended(Initial(loaded), events, w, Open(0, City));
    events, w := Extended(Initial(loaded), events, w, Swap(0));
    events, w := Extended(Initial(loaded), events, w, BeginLookup);
    assert w.looked - 1 in w.lookups;
  }
}
