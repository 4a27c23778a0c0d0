/** Management sessions of internal/platform/adminauth/session.go. Times are in nanoseconds. */
module Sessions {
  import opened Common

  const HOUR := 3600 * 1_000_000_000
  const SESSION_LIFETIME := 12 * HOUR
  const SESSION_IDLE := HOUR
  const MAXIMUM_SESSIONS := 64
  const MAXIMUM_TOKEN := 128

  datatype Session = Session(csrf: string, createdAt: nat, lastSeen: nat)

  type Table = map<string, Session>

  /** Stands for the hexadecimal digest of a token: never empty, and distinct for distinct tokens. */
  function TokenKey(token: string): string {
    "#" + token
  }

  predicate Expired(s: Session, now: int) {
    now - s.createdAt >= SESSION_LIFETIME || now - s.lastSeen >= SESSION_IDLE
  }

  function Live(t: Table, now: int): Table {
    map k | k in t && !Expired(t[k], now) :: t[k]
  }

  /** A session no other was seen before. */
  predicate IsOldest(t: Table, key: string) {
    key in t && forall k :: k in t ==> t[key].lastSeen <= t[k].lastSeen
  }

  /** What making room does to the live sessions: nothing, or the removal of a least recently seen one. */
  predicate MakesRoom(live: Table, victim: Option<string>) {
    if |live| < MAXIMUM_SESSIONS then victim == None
    else victim.Some? && IsOldest(live, victim.value)
  }

  function Sparing(t: Table, victim: Option<string>): Table {
    if victim.Some? then t - {victim.value} else t
  }

  function Created(t: Table, token: string, csrf: string, now: nat, victim: Option<string>): Table {
    Sparing(Live(t, now), victim)[TokenKey(token) := Session(csrf, now, now)]
  }

  function Validated(t: Table, token: string, now: nat): (Table, Option<string>) {
    var key := TokenKey(token);
    if |token| > MAXIMUM_TOKEN then (t, None)
    else if key !in t || Expired(t[key], now) then (t - {key}, None)
    else (t[key := t[key].(lastSeen := now)], Some(t[key].csrf))
  }

  class Store {
    var sessions: Table

    ghost predicate Valid()
      reads this
    {
      |sessions| <= MAXIMUM_SESSIONS && "" !in sessions
    }

    constructor ()
      ensures Valid() && sessions == map[]
    {
      sessions := map[];
    }

    method Purge(now: nat)
      modifies this
      ensures sessions == Live(old(sessions), now)
    {
      var pending := sessions.Keys;
      while pending != {}
        invariant forall k :: k in sessions <==>
                    k in old(sessions) && (k in pending || !Expired(old(sessions)[k], now))
        invariant forall k :: k in sessions ==> sessions[k] == old(sessions)[k]
        decreases pending
      {
        var k :| k in pending;
        pending := pending - {k};
        if k in sessions && Expired(sessions[k], now) {
          sessions := sessions - {k};
        }
      }
    }

    /** The scan of removeOldestLocked, with the empty key standing for "none yet". */
    method RemoveOldest() returns (oldestKey: string)
      requires sessions != map[] && "" !in sessions
      modifies this
      ensures IsOldest(old(sessions), oldestKey) && sessions == old(sessions) - {oldestKey}
    {
      oldestKey := "";
      var oldest := 0;
      var pending := sessions.Keys;
      assert pending != {};
      while pending != {}
        invariant pending <= sessions.Keys && sessions == old(sessions)
        invariant if oldestKey == "" then pending == sessions.Keys
                  else oldestKey in sessions && oldest == sessions[oldestKey].lastSeen
        invariant oldestKey != "" ==>
                    forall k :: k in sessions && k !in pending ==> oldest <= sessions[k].lastSeen
        decreases pending
      {
        var key :| key in pending;
        pending := pending - {key};
        if oldestKey == "" || sessions[key].lastSeen < oldest {
          oldestKey := key;
          oldest := sessions[key].lastSeen;
        }
      }
      sessions := sessions - {oldestKey};
    }

    method Create(token: string, csrf: string, now: nat) returns (ghost victim: Option<string>)
      requires Valid()
      modifies this
      ensures Valid() && MakesRoom(Live(old(sessions), now), victim)
      ensures sessions == Created(old(sessions), token, csrf, now, victim)
    {
      Purge(now);
      victim := None;
      ghost var live := sessions;
      LiveIsSmaller(old(sessions), now);
      while |sessions| >= MAXIMUM_SESSIONS
        invariant sessions == Sparing(live, victim) && "" !in sessions
        invariant |live| <= MAXIMUM_SESSIONS
        invariant victim == None || (MakesRoom(live, victim) && |sessions| < MAXIMUM_SESSIONS)
        decreases |sessions|
      {
        var key := RemoveOldest();
        victim := Some(key);
        RemovedSize(live, key);
      }
      sessions := sessions[TokenKey(token) := Session(csrf, now, now)];
    }

    method Validate(token: string, now: nat) returns (csrf: Option<string>)
      modifies this
      ensures (sessions, csrf) == Validated(old(sessions), token, now)
    {
      if |token| > MAXIMUM_TOKEN {
        return None;
      }
      var key := TokenKey(token);
      if key !in sessions || Expired(sessions[key], now) {
        sessions := sessions - {key};
        return None;
      }
      csrf := Some(sessions[key].csrf);
      sessions := sessions[key := sessions[key].(lastSeen := now)];
    }
  }

  lemma RemovedSize(t: Table, key: string)
    requires key in t
    ensures |t - {key}| == |t| - 1
  {
    assert (t - {key}).Keys == t.Keys - {key};
    assert |t| == |t.Keys| && |t - {key}| == |(t - {key}).Keys|;
  }

  lemma {:induction false} LiveIsSmaller(t: Table, now: int)
    ensures |Live(t, now)| <= |t|
  {
    assert Live(t, now).Keys <= t.Keys;
    SubsetSize(Live(t, now).Keys, t.Keys);
    assert |t| == |t.Keys| && |Live(t, now)| == |Live(t, now).Keys|;
  }

  lemma {:induction false} SubsetSize(a: set<string>, b: set<string>)
    requires a <= b
    ensures |a| <= |b|
  {
    if a != {} {
      var x :| x in a;
      SubsetSize(a - {x}, b - {x});
    }
  }

  // ----- Runs -----

  /** Cleanse is a purge at any other moment; the program itself purges in Create, which Created includes. */
  datatype Event =
    | Create(token: string, csrf: string, now: nat, victim: Option<string>)
    | Validate(token: string, now: nat)
    | Delete(token: string)
    | Clear
    | Cleanse(now: nat)

  function Step(t: Table, e: Event): Table {
    match e
    case Create(token, csrf, now, victim) => Created(t, token, csrf, now, victim)
    case Validate(token, now) => Validated(t, token, now).0
    case Delete(token) => t - {TokenKey(token)}
    case Clear => map[]
    case Cleanse(now) => Live(t, now)
  }

  function After(history: seq<Event>): Table {
    if history == [] then map[] else Step(After(history[..|history| - 1]), history[|history| - 1])
  }

  function Time(e: Event): Option<nat> {
    match e
    case Create(_, _, now, _) => Some(now)
    case Validate(_, now) => Some(now)
    case Cleanse(now) => Some(now)
    case _ => None
  }

  /** The latest clock reading. */
  function Clock(history: seq<Event>): nat {
    if history == [] then 0
    else
      var last := Time(history[|history| - 1]);
      if last.Some? then last.value else Clock(history[..|history| - 1])
  }

  /** Every eviction is one the code could have made. */
  predicate Possible(history: seq<Event>) {
    history == [] ||
    var rest, e := history[..|history| - 1], history[|history| - 1];
    Possible(rest) && (e.Create? ==> MakesRoom(Live(After(rest), e.now), e.victim))
  }

  /**
   * The clock readings never step back in the order of the calls. Create and Validate read the clock
   * before they take the lock, so even a clock that never steps back does not guarantee this.
   */
  predicate InOrder(history: seq<Event>) {
    history == [] ||
    var rest, e := history[..|history| - 1], history[|history| - 1];
    InOrder(rest) && (Time(e).Some? ==> Time(e).value >= Clock(rest))
  }

  predicate Plausible(history: seq<Event>) {
    Possible(history) && InOrder(history)
  }

  /** Never more than 64 sessions, whatever the clock readings. */
  lemma {:induction false} NeverMoreThanMaximum(history: seq<Event>)
    requires Possible(history)
    ensures |After(history)| <= MAXIMUM_SESSIONS
  {
    if history != [] {
      var rest, e := history[..|history| - 1], history[|history| - 1];
      NeverMoreThanMaximum(rest);
      StepSize(After(rest), e);
    }
  }

  lemma NoLargerWithout(t: Table, key: string)
    ensures |t - {key}| <= |t|
  {
    if key in t {
      RemovedSize(t, key);
    } else {
      assert t - {key} == t;
    }
  }

  lemma NoLargerWith(t: Table, key: string, s: Session)
    ensures |t[key := s]| <= |t| + 1
    ensures key in t ==> |t[key := s]| == |t|
  {
    assert t[key := s].Keys == t.Keys + {key};
    assert |t| == |t.Keys| && |t[key := s]| == |t[key := s].Keys|;
  }

  lemma CreatedSize(t: Table, token: string, csrf: string, now: nat, victim: Option<string>)
    requires |t| <= MAXIMUM_SESSIONS && MakesRoom(Live(t, now), victim)
    ensures |Created(t, token, csrf, now, victim)| <= MAXIMUM_SESSIONS
  {
    LiveIsSmaller(t, now);
    if victim.Some? {
      RemovedSize(Live(t, now), victim.value);
    }
    NoLargerWith(Sparing(Live(t, now), victim), TokenKey(token), Session(csrf, now, now));
  }

  lemma StepSize(t: Table, e: Event)
    requires |t| <= MAXIMUM_SESSIONS
    requires e.Create? ==> MakesRoom(Live(t, e.now), e.victim)
    ensures |Step(t, e)| <= MAXIMUM_SESSIONS
  {
    match e
    case Create(token, csrf, now, victim) => CreatedSize(t, token, csrf, now, victim);
    case Validate(token, now) =>
      NoLargerWithout(t, TokenKey(token));
      if TokenKey(token) in t {
        NoLargerWith(t, TokenKey(token), t[TokenKey(token)].(lastSeen := now));
      }
    case Delete(token) => NoLargerWithout(t, TokenKey(token));
    case Clear =>
    case Cleanse(now) => LiveIsSmaller(t, now);
  }

  // ----- What a valid session is, from the history alone -----

  /**
   * The creation time of a token and the times it was presented since, with its CSRF value; nothing
   * if it was never created, or was deleted, cleared or evicted after its last creation.
   */
  function Standing(history: seq<Event>, token: string): Option<(seq<nat>, string)>
    ensures Standing(history, token).Some? ==> Standing(history, token).value.0 != []
  {
    if history == [] then None
    else
      var rest, e := history[..|history| - 1], history[|history| - 1];
      match e
      case Create(t, csrf, now, victim) =>
        if t == token then Some(([now], csrf))
        else if victim == Some(TokenKey(token)) then None
        else Standing(rest, token)
      case Validate(t, now) =>
        var before := Standing(rest, token);
        if t == token && before.Some? then Some((before.value.0 + [now], before.value.1)) else before
      case Delete(t) => if t == token then None else Standing(rest, token)
      case Clear => None
      case Cleanse(_) => Standing(rest, token)
  }

  predicate GapsUnderIdle(times: seq<nat>) {
    forall i :: 0 < i < |times| ==> times[i] - times[i - 1] < SESSION_IDLE
  }

  predicate Fresh(times: seq<nat>, now: nat)
    requires times != []
  {
    GapsUnderIdle(times + [now]) && now - times[0] < SESSION_LIFETIME
  }

  predicate Lapsed(standing: Option<(seq<nat>, string)>, now: nat) {
    standing.Some? && standing.value.0 != []
    && Expired(Session("", standing.value.0[0], standing.value.0[|standing.value.0| - 1]), now)
  }

  /** Since its creation, no purge and no presentation of the token has found it expired. */
  predicate Intact(history: seq<Event>, token: string) {
    history == [] ||
    var rest, e := history[..|history| - 1], history[|history| - 1];
    match e
    case Create(t, _, now, _) => t == token || (Intact(rest, token) && !Lapsed(Standing(rest, token), now))
    case Validate(t, now) => Intact(rest, token) && (t == token ==> !Lapsed(Standing(rest, token), now))
    case Cleanse(now) => Intact(rest, token) && !Lapsed(Standing(rest, token), now)
    case _ => Intact(rest, token)
  }

  /** What the table holds of one token, given what the history says of it. */
  ghost predicate Holds(t: Table, standing: Option<(seq<nat>, string)>, intact: bool, key: string) {
    && (key in t <==> standing.Some? && intact)
    && (key in t ==>
          var (times, csrf) := standing.value;
          times != [] && t[key] == Session(csrf, times[0], times[|times| - 1]))
  }

  lemma KeysAreDistinct(a: string, b: string)
    ensures TokenKey(a) == TokenKey(b) <==> a == b
  {
    assert TokenKey(a)[1..] == a && TokenKey(b)[1..] == b;
  }

  lemma CreateHolds(t: Table, standing: Option<(seq<nat>, string)>, intact: bool, token: string, e: Event)
    requires e.Create? && Holds(t, standing, intact, TokenKey(token))
    ensures var after := if e.token == token then Some(([e.now], e.csrf))
                         else if e.victim == Some(TokenKey(token)) then None else standing;
            Holds(Step(t, e), after, e.token == token || (intact && !Lapsed(standing, e.now)), TokenKey(token))
  {
    KeysAreDistinct(e.token, token);
  }

  lemma ValidateHolds(t: Table, standing: Option<(seq<nat>, string)>, intact: bool, token: string, e: Event)
    requires e.Validate? && Holds(t, standing, intact, TokenKey(token)) && |token| <= MAXIMUM_TOKEN
    ensures var after := if e.token == token && standing.Some?
                         then Some((standing.value.0 + [e.now], standing.value.1)) else standing;
            Holds(Step(t, e), after, intact && (e.token == token ==> !Lapsed(standing, e.now)), TokenKey(token))
  {
    KeysAreDistinct(e.token, token);
  }

  lemma OtherHolds(t: Table, standing: Option<(seq<nat>, string)>, intact: bool, token: string, e: Event)
    requires !e.Create? && !e.Validate? && Holds(t, standing, intact, TokenKey(token))
    ensures var after := if e == Clear || e == Delete(token) then None else standing;
            Holds(Step(t, e), after, intact && (e.Cleanse? ==> !Lapsed(standing, e.now)), TokenKey(token))
  {
    if e.Delete? {
      KeysAreDistinct(e.token, token);
    }
  }

  lemma {:induction false} TableHolds(history: seq<Event>, token: string)
    requires |token| <= MAXIMUM_TOKEN
    ensures Holds(After(history), Standing(history, token), Intact(history, token), TokenKey(token))
  {
    if history != [] {
      var rest, e := history[..|history| - 1], history[|history| - 1];
      TableHolds(rest, token);
      var t, standing, intact := After(rest), Standing(rest, token), Intact(rest, token);
      match e
      case Create(_, _, _, _) => CreateHolds(t, standing, intact, token, e);
      case Validate(_, _) => ValidateHolds(t, standing, intact, token, e);
      case _ => OtherHolds(t, standing, intact, token, e);
    }
  }

  /**
   * After any history at all, whatever order the clock readings come in, a token validates exactly when it
   * was created, not since deleted, cleared or evicted, no purge or presentation since has found it
   * expired, and it is not expired now.
   */
  lemma ValidatesIffIntact(history: seq<Event>, token: string, now: nat)
    ensures var csrf := Validated(After(history), token, now).1;
            var standing := Standing(history, token);
            && (csrf.Some? <==>
                  |token| <= MAXIMUM_TOKEN && standing.Some? && Intact(history, token) && !Lapsed(standing, now))
            && (csrf.Some? ==> csrf.value == standing.value.1)
  {
    if |token| <= MAXIMUM_TOKEN {
      TableHolds(history, token);
    }
  }

  lemma GapsExtend(times: seq<nat>, now: nat)
    requires times != []
    ensures GapsUnderIdle(times + [now]) <==> GapsUnderIdle(times) && now - times[|times| - 1] < SESSION_IDLE
  {
    var more := times + [now];
    assert forall i :: 0 <= i < |times| ==> more[i] == times[i];
    assert more[|times|] == now && more[|times| - 1] == times[|times| - 1];
  }

  lemma {:induction false} IntactHasNoGaps(history: seq<Event>, token: string)
    requires Standing(history, token).Some? && Intact(history, token)
    ensures GapsUnderIdle(Standing(history, token).value.0)
  {
    var rest, e := history[..|history| - 1], history[|history| - 1];
    if e.Create? && e.token == token {
    } else {
      IntactHasNoGaps(rest, token);
      if e.Validate? && e.token == token {
        GapsExtend(Standing(rest, token).value.0, e.now);
      }
    }
  }

  /**
   * So whatever order the readings come in, only a token in good standing validates: created, not since
   * deleted, cleared or evicted, under twelve hours old and never left unpresented for an hour.
   */
  lemma ValidatesOnlyIfStanding(history: seq<Event>, token: string, now: nat)
    requires Validated(After(history), token, now).1.Some?
    ensures var standing := Standing(history, token);
            && |token| <= MAXIMUM_TOKEN && standing.Some? && Fresh(standing.value.0, now)
            && Validated(After(history), token, now).1.value == standing.value.1
  {
    ValidatesIffIntact(history, token, now);
    IntactHasNoGaps(history, token);
    GapsExtend(Standing(history, token).value.0, now);
  }

  lemma {:induction false} FreshIsIntact(history: seq<Event>, token: string, now: nat)
    requires InOrder(history) && now >= Clock(history)
    requires Standing(history, token).Some? && Fresh(Standing(history, token).value.0, now)
    ensures Intact(history, token) && !Lapsed(Standing(history, token), now)
  {
    var rest, e := history[..|history| - 1], history[|history| - 1];
    GapsExtend(Standing(history, token).value.0, now);
    if e.Create? && e.token == token {
    } else if e.Validate? && e.token == token {
      GapsExtend(Standing(rest, token).value.0, e.now);
      assert Standing(history, token).value.0[0] == Standing(rest, token).value.0[0];
      FreshIsIntact(rest, token, e.now);
    } else {
      FreshIsIntact(rest, token, now);
    }
  }

  /**
   * If the readings never step back in the order of the calls, a token validates exactly when it was
   * created, not since deleted, cleared or evicted, is under twelve hours old, and was never left
   * unpresented for an hour; and it then returns the CSRF value of its creation.
   */
  lemma ValidatesIffStanding(history: seq<Event>, token: string, now: nat)
    requires InOrder(history) && now >= Clock(history)
    ensures var csrf := Validated(After(history), token, now).1;
            var standing := Standing(history, token);
            && (csrf.Some? <==>
                  |token| <= MAXIMUM_TOKEN && standing.Some? && Fresh(standing.value.0, now))
            && (csrf.Some? ==> csrf.value == standing.value.1)
  {
    ValidatesIffIntact(history, token, now);
    if Validated(After(history), token, now).1.Some? {
      ValidatesOnlyIfStanding(history, token, now);
    } else if Standing(history, token).Some? && Fresh(Standing(history, token).value.0, now) {
      FreshIsIntact(history, token, now);
    }
  }

  /**
   * Otherwise a token in good standing may be refused: a creation that read the clock later, but took the
   * lock first, has purged it.
   */
  lemma EarlierReadingCanBeRefused()
    ensures var history := [Create("a", "x", 0, None), Create("b", "y", HOUR, None)];
            && Possible(history) && InOrder(history)
            && Standing(history, "a").Some? && Fresh(Standing(history, "a").value.0, HOUR - 1)
            && Validated(After(history), "a", HOUR - 1).1 == None
  {
    var first, second := Create("a", "x", 0, None), Create("b", "y", HOUR, None);
    assert [first, second][..1] == [first] && [first][..0] == [];
    assert After([first]) == map[TokenKey("a") := Session("x", 0, 0)];
    assert Live(After([first]), HOUR) == map[];
    assert Standing([first, second], "a") == Some(([0], "x"));
    KeysAreDistinct("a", "b");
  }

  /** When a token that stands was last presented. */
  function LastPresented(history: seq<Event>, token: string): nat
    requires Standing(history, token).Some?
  {
    var times := Standing(history, token).value.0;
    times[|times| - 1]
  }

  ghost predicate Stands(history: seq<Event>, token: string, now: nat) {
    && |token| <= MAXIMUM_TOKEN && Standing(history, token).Some?
    && Intact(history, token) && !Lapsed(Standing(history, token), now)
  }

  /**
   * A creation evicts a session exactly when 64 others are live, and then one that stands and that was
   * presented no later than any other token that stands.
   */
  lemma EvictionTakesLeastRecent(history: seq<Event>, e: Event, lost: string, other: string)
    requires e.Create? && Possible(history + [e]) && |lost| <= MAXIMUM_TOKEN
    ensures e.victim == None <==> |Live(After(history), e.now)| < 64
    ensures e.victim == Some(TokenKey(lost)) ==>
              && Stands(history, lost, e.now)
              && (Stands(history, other, e.now) ==> LastPresented(history, lost) <= LastPresented(history, other))
  {
    assert (history + [e])[..|history|] == history;
    TableHolds(history, lost);
    if |other| <= MAXIMUM_TOKEN {
      TableHolds(history, other);
    }
    if e.victim == Some(TokenKey(lost)) && Stands(history, other, e.now) {
      assert TokenKey(other) in Live(After(history), e.now);
    }
  }

  // ----- Purging more often cannot be observed -----

  function Uncleansed(history: seq<Event>): seq<Event> {
    if history == [] then []
    else
      var rest, e := history[..|history| - 1], history[|history| - 1];
      Uncleansed(rest) + if e.Cleanse? then [] else [e]
  }

  /** The answers Validate gave, in order. */
  function Answers(history: seq<Event>): seq<Option<string>> {
    if history == [] then []
    else
      var rest, e := history[..|history| - 1], history[|history| - 1];
      Answers(rest) + if e.Validate? then [Validated(After(rest), e.token, e.now).1] else []
  }

  lemma LiveLater(t: Table, u: Table, clock: nat, now: nat)
    requires Live(t, clock) == Live(u, clock) && now >= clock
    ensures Live(t, now) == Live(u, now)
  {
    assert forall k :: k in Live(t, now) ==> k in Live(t, clock);
    assert forall k :: k in Live(u, now) ==> k in Live(u, clock);
    forall k | k in Live(t, now) ensures k in Live(u, now) && Live(u, now)[k] == Live(t, now)[k] {
      assert k in Live(u, clock) && Live(u, clock)[k] == t[k];
    }
    forall k | k in Live(u, now) ensures k in Live(t, now) {
      assert k in Live(t, clock) && Live(t, clock)[k] == u[k];
    }
  }

  lemma SameLiveSameAnswer(t: Table, u: Table, token: string, now: nat)
    requires Live(t, now) == Live(u, now)
    ensures Validated(t, token, now).1 == Validated(u, token, now).1
    ensures Live(Validated(t, token, now).0, now) == Live(Validated(u, token, now).0, now)
  {
    var key := TokenKey(token);
    assert key in Live(t, now) <==> key in Live(u, now);
    var v, w := Validated(t, token, now).0, Validated(u, token, now).0;
    if |token| <= MAXIMUM_TOKEN {
      if key in Live(t, now) {
        assert t[key] == Live(t, now)[key] == Live(u, now)[key] == u[key];
        assert Live(v, now) == Live(t, now)[key := t[key].(lastSeen := now)];
        assert Live(w, now) == Live(u, now)[key := t[key].(lastSeen := now)];
      } else {
        assert Live(v, now) == Live(t, now);
        assert Live(w, now) == Live(u, now);
      }
    }
  }

  lemma Extended(history: seq<Event>, e: Event)
    ensures var more := history + [e];
            && After(more) == Step(After(history), e)
            && Clock(more) == (if Time(e).Some? then Time(e).value else Clock(history))
            && Answers(more) == Answers(history) +
                 (if e.Validate? then [Validated(After(history), e.token, e.now).1] else [])
            && (InOrder(more) <==> InOrder(history) && (Time(e).Some? ==> Time(e).value >= Clock(history)))
            && (Possible(more) <==>
                  Possible(history) && (e.Create? ==> MakesRoom(Live(After(history), e.now), e.victim)))
  {
    assert (history + [e])[..|history|] == history;
  }

  /**
   * While readings never step back in the order of the calls, purges beside those that Create makes,
   * anywhere in a history, change no answer and no later eviction.
   * SessionPurging is about the purge of Create itself.
   */
  lemma {:induction false} ExtraPurgesAreUnobservable(history: seq<Event>)
    requires Plausible(history)
    ensures Plausible(Uncleansed(history)) && Clock(Uncleansed(history)) <= Clock(history)
    ensures Live(After(history), Clock(history)) == Live(After(Uncleansed(history)), Clock(history))
    ensures Answers(Uncleansed(history)) == Answers(history)
  {
    if history != [] {
      var rest, e := history[..|history| - 1], history[|history| - 1];
      var bare := Uncleansed(rest);
      assert history == rest + [e];
      ExtraPurgesAreUnobservable(rest);
      Extended(rest, e);
      if Time(e).Some? {
        LiveLater(After(rest), After(bare), Clock(rest), Time(e).value);
      }
      if e.Cleanse? {
        assert Uncleansed(history) == bare;
        assert Live(Live(After(rest), e.now), e.now) == Live(After(rest), e.now);
      } else {
        assert Uncleansed(history) == bare + [e];
        Extended(bare, e);
        UncleansedStep(After(rest), After(bare), e, Clock(history));
      }
    }
  }

  lemma UncleansedStep(t: Table, u: Table, e: Event, now: nat)
    requires Live(t, now) == Live(u, now) && !e.Cleanse? && (Time(e).Some? ==> Time(e).value == now)
    ensures Live(Step(t, e), now) == Live(Step(u, e), now)
    ensures e.Validate? ==> Validated(t, e.token, e.now).1 == Validated(u, e.token, e.now).1
  {
    match e
    case Create(_, _, _, _) =>
    case Validate(token, _) => SameLiveSameAnswer(t, u, token, now);
    case Delete(token) =>
      assert Live(t - {TokenKey(token)}, now) == Live(t, now) - {TokenKey(token)};
      assert Live(u - {TokenKey(token)}, now) == Live(u, now) - {TokenKey(token)};
    case Clear =>
  }
}
