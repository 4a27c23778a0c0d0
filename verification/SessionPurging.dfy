/**
 * Why Create purges before it makes room. Beside the program this module runs a variant that never
 * purges and lets the eviction loop range over expired sessions too, and tells exactly when the two differ.
 */
module SessionPurging {
  import opened Common
  import opened Sessions

  /** Create without its purge. */
  function CreatedUnpurged(t: Table, token: string, csrf: string, now: nat, victim: Option<string>): Table {
    Sparing(t, victim)[TokenKey(token) := Session(csrf, now, now)]
  }

  /**
   * What the loop over the whole table removes is of no consequence: nothing, an expired session, or
   * the one about to be replaced; with nothing but live sessions, the one the program removes.
   */
  predicate Harmless(t: Table, token: string, now: nat, victim: Option<string>, chosen: Option<string>) {
    if |Live(t, now)| < MAXIMUM_SESSIONS then
      victim == None || victim == Some(TokenKey(token)) || (victim.value in t && Expired(t[victim.value], now))
    else victim == chosen
  }

  lemma LiveOfCreated(t: Table, token: string, csrf: string, now: nat, victim: Option<string>)
    ensures Live(CreatedUnpurged(t, token, csrf, now, victim), now)
            == Sparing(Live(t, now), victim)[TokenKey(token) := Session(csrf, now, now)]
    ensures Live(Created(t, token, csrf, now, victim), now) == Created(t, token, csrf, now, victim)
  {
  }

  lemma {:induction false} AllLiveAtCapacity(t: Table, now: nat)
    requires |t| <= MAXIMUM_SESSIONS <= |Live(t, now)|
    ensures Live(t, now) == t
  {
    var live := Live(t, now);
    assert live.Keys <= t.Keys && |live| == |live.Keys| && |t| == |t.Keys|;
    if k :| k in t && k !in live {
      SubsetSize(live.Keys, t.Keys - {k});
    }
  }

  /** The session that a removal costs, when the given key is overwritten afterwards anyway. */
  function Loss(live: Table, key: string, victim: Option<string>): Option<string> {
    if victim.Some? && victim.value in live && victim.value != key then victim else None
  }

  lemma SameLossSameTable(live: Table, key: string, s: Session, a: Option<string>, b: Option<string>)
    ensures Sparing(live, a)[key := s] == Sparing(live, b)[key := s] <==> Loss(live, key, a) == Loss(live, key, b)
  {
    var x, y := Sparing(live, a)[key := s], Sparing(live, b)[key := s];
    assert forall k :: k in x <==> k == key || (k in live && Loss(live, key, a) != Some(k));
    assert forall k :: k in y <==> k == key || (k in live && Loss(live, key, b) != Some(k));
    if Loss(live, key, a) == Loss(live, key, b) {
      assert x == y;
    } else if Loss(live, key, a).Some? {
      assert a.value !in x && a.value in y;
    } else {
      assert b.value in x && b.value !in y;
    }
  }

  lemma SameLossIffHarmless(u: Table, token: string, now: nat, chosen: Option<string>, victim: Option<string>)
    requires |u| <= MAXIMUM_SESSIONS && MakesRoom(Live(u, now), chosen) && MakesRoom(u, victim)
    ensures var live, key := Live(u, now), TokenKey(token);
            Loss(live, key, chosen) == Loss(live, key, victim) <==> Harmless(u, token, now, victim, chosen)
  {
    if |Live(u, now)| >= MAXIMUM_SESSIONS {
      AllLiveAtCapacity(u, now);
    }
  }

  /** One creation on tables with the same live sessions keeps them the same exactly when it is harmless. */
  lemma CreationAgreesIffHarmless(t: Table, u: Table, token: string, csrf: string, now: nat,
                                  chosen: Option<string>, victim: Option<string>)
    requires Live(t, now) == Live(u, now) && |u| <= MAXIMUM_SESSIONS
    requires MakesRoom(Live(t, now), chosen) && MakesRoom(u, victim)
    ensures Live(Created(t, token, csrf, now, chosen), now) == Live(CreatedUnpurged(u, token, csrf, now, victim), now)
            <==> Harmless(u, token, now, victim, chosen)
  {
    LiveOfCreated(t, token, csrf, now, chosen);
    LiveOfCreated(u, token, csrf, now, victim);
    SameLossSameTable(Live(u, now), TokenKey(token), Session(csrf, now, now), chosen, victim);
    SameLossIffHarmless(u, token, now, chosen, victim);
  }

  /** After a creation that is not harmless, the session it lost is missed. */
  lemma HarmIsObserved(t: Table, u: Table, token: string, csrf: string, now: nat,
                       chosen: Option<string>, victim: Option<string>, lost: string)
    requires Live(t, now) == Live(u, now) && |u| <= MAXIMUM_SESSIONS
    requires MakesRoom(Live(t, now), chosen) && MakesRoom(u, victim)
    requires !Harmless(u, token, now, victim, chosen)
    requires victim == Some(TokenKey(lost)) && |lost| <= MAXIMUM_TOKEN && lost != token
    ensures Validated(Created(t, token, csrf, now, chosen), lost, now).1.Some?
    ensures Validated(CreatedUnpurged(u, token, csrf, now, victim), lost, now).1 == None
  {
    assert TokenKey(lost)[1..] != TokenKey(token)[1..];
    if |Live(t, now)| >= MAXIMUM_SESSIONS {
      AllLiveAtCapacity(u, now);
    }
    assert TokenKey(lost) in Live(u, now);
    assert TokenKey(lost) in Live(t, now);
  }

  // ----- Whole histories -----

  function UnpurgedStep(t: Table, e: Event): Table {
    match e
    case Create(token, csrf, now, victim) => CreatedUnpurged(t, token, csrf, now, victim)
    case _ => Step(t, e)
  }

  function AfterUnpurged(history: seq<Event>): Table {
    if history == [] then map[] else UnpurgedStep(AfterUnpurged(history[..|history| - 1]), history[|history| - 1])
  }

  function AnswersUnpurged(history: seq<Event>): seq<Option<string>> {
    if history == [] then []
    else
      var rest, e := history[..|history| - 1], history[|history| - 1];
      AnswersUnpurged(rest) + if e.Validate? then [Validated(AfterUnpurged(rest), e.token, e.now).1] else []
  }

  /** The readings are in order, and every eviction is one the variant could have made. */
  predicate PlausibleUnpurged(history: seq<Event>) {
    history == [] ||
    var rest, e := history[..|history| - 1], history[|history| - 1];
    && PlausibleUnpurged(rest)
    && (Time(e).Some? ==> Time(e).value >= Clock(rest))
    && (e.Create? ==> MakesRoom(AfterUnpurged(rest), e.victim))
  }

  function WithoutChoice(e: Event): Event {
    if e.Create? then e.(victim := None) else e
  }

  /** The same calls at the same times; only the evictions may differ. */
  predicate SameCalls(h: seq<Event>, g: seq<Event>) {
    if h == [] || g == [] then h == g
    else
      && SameCalls(h[..|h| - 1], g[..|g| - 1])
      && WithoutChoice(h[|h| - 1]) == WithoutChoice(g[|g| - 1])
  }

  /** At every point of the two histories the same sessions are live, with the same contents. */
  predicate AgreeThroughout(h: seq<Event>, g: seq<Event>) {
    (h != [] && g != [] ==> AgreeThroughout(h[..|h| - 1], g[..|g| - 1]))
    && Live(After(h), Clock(h)) == Live(AfterUnpurged(g), Clock(h))
  }

  predicate AllHarmless(h: seq<Event>, g: seq<Event>) {
    h == [] || g == [] ||
    var before, d, e := g[..|g| - 1], h[|h| - 1], g[|g| - 1];
    && AllHarmless(h[..|h| - 1], before)
    && (d.Create? && e.Create? ==> Harmless(AfterUnpurged(before), e.token, e.now, e.victim, d.victim))
  }

  lemma UnpurgedSize(t: Table, token: string, csrf: string, now: nat, victim: Option<string>)
    requires |t| <= MAXIMUM_SESSIONS && MakesRoom(t, victim)
    ensures |CreatedUnpurged(t, token, csrf, now, victim)| <= MAXIMUM_SESSIONS
  {
    if victim.Some? {
      RemovedSize(t, victim.value);
    }
    NoLargerWith(Sparing(t, victim), TokenKey(token), Session(csrf, now, now));
  }

  lemma {:induction false} UnpurgedNeverMoreThanMaximum(history: seq<Event>)
    requires PlausibleUnpurged(history)
    ensures |AfterUnpurged(history)| <= MAXIMUM_SESSIONS
  {
    if history != [] {
      var rest, e := history[..|history| - 1], history[|history| - 1];
      UnpurgedNeverMoreThanMaximum(rest);
      match e
      case Create(token, csrf, now, victim) => UnpurgedSize(AfterUnpurged(rest), token, csrf, now, victim);
      case _ => StepSize(AfterUnpurged(rest), e);
    }
  }

  lemma {:induction false} SameClock(h: seq<Event>, g: seq<Event>)
    requires SameCalls(h, g)
    ensures Clock(h) == Clock(g) && |h| == |g|
  {
    if h != [] && g != [] {
      SameClock(h[..|h| - 1], g[..|g| - 1]);
      assert Time(h[|h| - 1]) == Time(WithoutChoice(h[|h| - 1])) == Time(g[|g| - 1]);
    }
  }

  /** A step other than a creation keeps the live sessions the same, and gives the same answer. */
  lemma OtherStepAgrees(t: Table, u: Table, e: Event, clock: nat)
    requires Live(t, clock) == Live(u, clock) && !e.Create?
    requires Time(e).Some? ==> Time(e).value >= clock
    ensures var now := if Time(e).Some? then Time(e).value else clock;
            Live(Step(t, e), now) == Live(Step(u, e), now)
    ensures e.Validate? ==> Validated(t, e.token, e.now).1 == Validated(u, e.token, e.now).1
  {
    var now := if Time(e).Some? then Time(e).value else clock;
    LiveLater(t, u, clock, now);
    if !e.Cleanse? {
      UncleansedStep(t, u, e, now);
    }
  }

  lemma StepAgreesIffHarmless(t: Table, u: Table, d: Event, e: Event, clock: nat)
    requires Live(t, clock) == Live(u, clock) && |u| <= MAXIMUM_SESSIONS
    requires WithoutChoice(d) == WithoutChoice(e) && (Time(e).Some? ==> Time(e).value >= clock)
    requires d.Create? ==> MakesRoom(Live(t, d.now), d.victim)
    requires e.Create? ==> MakesRoom(u, e.victim)
    ensures var now := if Time(e).Some? then Time(e).value else clock;
            Live(Step(t, d), now) == Live(UnpurgedStep(u, e), now)
            <==> (d.Create? && e.Create? ==> Harmless(u, e.token, e.now, e.victim, d.victim))
    ensures e.Validate? ==> Validated(t, e.token, e.now).1 == Validated(u, e.token, e.now).1
  {
    if e.Create? && d.Create? {
      LiveLater(t, u, clock, e.now);
      CreationAgreesIffHarmless(t, u, e.token, e.csrf, e.now, d.victim, e.victim);
    } else {
      OtherStepAgrees(t, u, e, clock);
    }
  }

  /**
   * Over every history: the program and the variant that never purges have the same live sessions at
   * every point exactly when every eviction of the variant was harmless, and then give the same answers.
   */
  lemma {:induction false} PurgeIsUnobservableIffHarmless(h: seq<Event>, g: seq<Event>)
    requires Plausible(h) && PlausibleUnpurged(g) && SameCalls(h, g)
    ensures AgreeThroughout(h, g) <==> AllHarmless(h, g)
    ensures AllHarmless(h, g) ==> Answers(h) == AnswersUnpurged(g)
  {
    SameClock(h, g);
    if h != [] {
      var before, past := h[..|h| - 1], g[..|g| - 1];
      PurgeIsUnobservableIffHarmless(before, past);
      SameClock(before, past);
      UnpurgedNeverMoreThanMaximum(past);
      if AgreeThroughout(before, past) {
        StepAgreesIffHarmless(After(before), AfterUnpurged(past), h[|h| - 1], g[|g| - 1], Clock(before));
      }
    }
  }

  // ----- Readings in any order -----

  /** Since its creation, no presentation of the token has found it expired; creations do not count. */
  predicate IntactWhenPresented(history: seq<Event>, token: string) {
    history == [] ||
    var rest, e := history[..|history| - 1], history[|history| - 1];
    match e
    case Create(t, _, _, _) => t == token || IntactWhenPresented(rest, token)
    case Validate(t, now) => IntactWhenPresented(rest, token) && (t == token ==> !Lapsed(Standing(rest, token), now))
    case Cleanse(now) => IntactWhenPresented(rest, token) && !Lapsed(Standing(rest, token), now)
    case _ => IntactWhenPresented(rest, token)
  }

  lemma UnpurgedCreateHolds(t: Table, standing: Option<(seq<nat>, string)>, intact: bool, token: string, e: Event)
    requires e.Create? && Holds(t, standing, intact, TokenKey(token))
    ensures var after := if e.token == token then Some(([e.now], e.csrf))
                         else if e.victim == Some(TokenKey(token)) then None else standing;
            Holds(UnpurgedStep(t, e), after, e.token == token || intact, TokenKey(token))
  {
    KeysAreDistinct(e.token, token);
  }

  lemma {:induction false} UnpurgedTableHolds(history: seq<Event>, token: string)
    requires |token| <= MAXIMUM_TOKEN
    ensures Holds(AfterUnpurged(history), Standing(history, token), IntactWhenPresented(history, token), TokenKey(token))
  {
    if history != [] {
      var rest, e := history[..|history| - 1], history[|history| - 1];
      UnpurgedTableHolds(rest, token);
      var t, standing, intact := AfterUnpurged(rest), Standing(rest, token), IntactWhenPresented(rest, token);
      match e
      case Create(_, _, _, _) => UnpurgedCreateHolds(t, standing, intact, token, e);
      case Validate(_, _) => ValidateHolds(t, standing, intact, token, e);
      case _ => OtherHolds(t, standing, intact, token, e);
    }
  }

  lemma {:induction false} IntactImpliesWhenPresented(history: seq<Event>, token: string)
    requires Intact(history, token)
    ensures IntactWhenPresented(history, token)
  {
    if history != [] {
      var rest, e := history[..|history| - 1], history[|history| - 1];
      if !(e.Create? && e.token == token) {
        IntactImpliesWhenPresented(rest, token);
      }
    }
  }

  /**
   * Whatever order the readings come in, the same history with and without the purges of Create refuses
   * and accepts alike, except for exactly those tokens that are in good standing at the given reading and
   * at each of their presentations, but were found expired by a creation in between.
   */
  lemma PurgeRefusesIffFoundExpired(history: seq<Event>, token: string, now: nat)
    ensures var purged := Validated(After(history), token, now).1;
            var unpurged := Validated(AfterUnpurged(history), token, now).1;
            && (purged.Some? ==> purged == unpurged)
            && (purged != unpurged <==>
                  && |token| <= MAXIMUM_TOKEN && Standing(history, token).Some?
                  && IntactWhenPresented(history, token) && !Intact(history, token)
                  && !Lapsed(Standing(history, token), now))
  {
    if |token| <= MAXIMUM_TOKEN {
      TableHolds(history, token);
      UnpurgedTableHolds(history, token);
      if Intact(history, token) {
        IntactImpliesWhenPresented(history, token);
      }
    }
  }

  // ----- A history in which the purge matters -----

  const HALF := HOUR / 2
  const LATE := 23 * HALF
  const TWELVE := 24 * HALF

  /** Tokens that differ in their length. */
  function Nth(n: nat): string {
    seq(n, _ => 'b')
  }

  /** Program and variant both reach the same table, with the clock at the given time. */
  ghost predicate Both(history: seq<Event>, t: Table, clock: nat) {
    && Plausible(history) && PlausibleUnpurged(history) && Clock(history) == clock
    && After(history) == t == AfterUnpurged(history)
  }

  /** A step on which they agree as long as nothing is expired and there is room. */
  lemma SharedStep(history: seq<Event>, t: Table, clock: nat, e: Event, u: Table, now: nat)
    requires Both(history, t, clock) && Time(e) == Some(now) && now >= clock
    requires e.Create? ==> Live(t, now) == t && |t| < MAXIMUM_SESSIONS && e.victim == None
    requires Step(t, e) == u
    ensures Both(history + [e], u, now)
  {
    assert (history + [e])[..|history|] == history;
  }

  lemma PresentedAgain(t: Table, token: string, s: Session, now: nat)
    requires TokenKey(token) in t && t[TokenKey(token)] == s && !Expired(s, now) && |token| <= MAXIMUM_TOKEN
    ensures Step(t, Validate(token, now)) == t[TokenKey(token) := s.(lastSeen := now)]
  {
  }

  /** A session presented every half hour. */
  lemma {:induction false} KeptRuns(m: nat) returns (history: seq<Event>)
    requires m <= 23
    ensures Both(history, map[TokenKey(Nth(0)) := Session("", 0, m * HALF)], m * HALF)
  {
    if m == 0 {
      history := [] + [Create(Nth(0), "", 0, None)];
      SharedStep([], map[], 0, Create(Nth(0), "", 0, None), map[TokenKey(Nth(0)) := Session("", 0, 0)], 0);
    } else {
      history := KeptRuns(m - 1);
      KeptStep(history, m);
      history := history + [Validate(Nth(0), m * HALF)];
    }
  }

  lemma KeptStep(history: seq<Event>, m: nat)
    requires 0 < m <= 23 && Both(history, map[TokenKey(Nth(0)) := Session("", 0, (m - 1) * HALF)], (m - 1) * HALF)
    ensures Both(history + [Validate(Nth(0), m * HALF)], map[TokenKey(Nth(0)) := Session("", 0, m * HALF)], m * HALF)
  {
    var key, s := TokenKey(Nth(0)), Session("", 0, (m - 1) * HALF);
    PresentedAgain(map[key := s], Nth(0), s, m * HALF);
    assert map[key := s][key := s.(lastSeen := m * HALF)] == map[key := Session("", 0, m * HALF)];
    SharedStep(history, map[key := s], (m - 1) * HALF, Validate(Nth(0), m * HALF),
               map[key := Session("", 0, m * HALF)], m * HALF);
  }

  /** What the n-th table holds: the first session, and n others under longer keys. */
  ghost predicate Crowded(t: Table, n: nat) {
    && |t| == n + 1
    && (forall k :: k in t ==> |k| <= n + 1 && t[k] == Session("", if |k| == 1 then 0 else LATE, LATE))
    && (forall k :: k in t && |k| == 1 ==> k == TokenKey(Nth(0)))
    && TokenKey(Nth(0)) in t && (n > 0 ==> TokenKey(Nth(1)) in t)
  }

  lemma AddedSize(t: Table, key: string, s: Session)
    requires key !in t
    ensures |t[key := s]| == |t| + 1
  {
    assert t[key := s].Keys == t.Keys + {key};
    assert |t| == |t.Keys| && |t[key := s]| == |t[key := s].Keys|;
  }

  lemma CrowdGrows(t: Table, n: nat)
    requires Crowded(t, n)
    ensures Crowded(t[TokenKey(Nth(n + 1)) := Session("", LATE, LATE)], n + 1)
  {
    var key := TokenKey(Nth(n + 1));
    assert |key| == n + 2 && key !in t;
    AddedSize(t, key, Session("", LATE, LATE));
  }

  lemma CrowdIsLive(t: Table, n: nat)
    requires Crowded(t, n)
    ensures Live(t, LATE) == t
  {
    forall k | k in t ensures !Expired(t[k], LATE) {
    }
  }

  /** After eleven and a half hours, n more sessions. */
  lemma {:induction false} CrowdRuns(n: nat) returns (history: seq<Event>, t: Table)
    requires n <= 63
    ensures Both(history, t, LATE) && Crowded(t, n)
  {
    if n == 0 {
      t := map[TokenKey(Nth(0)) := Session("", 0, LATE)];
      history := KeptRuns(23);
      AddedSize(map[], TokenKey(Nth(0)), Session("", 0, LATE));
    } else {
      history, t := CrowdRuns(n - 1);
      CrowdStep(history, t, n);
      CrowdGrows(t, n - 1);
      history, t := history + [Create(Nth(n), "", LATE, None)], t[TokenKey(Nth(n)) := Session("", LATE, LATE)];
    }
  }

  lemma CrowdStep(history: seq<Event>, t: Table, n: nat)
    requires 0 < n <= 63 && Both(history, t, LATE) && Crowded(t, n - 1)
    ensures Both(history + [Create(Nth(n), "", LATE, None)], t[TokenKey(Nth(n)) := Session("", LATE, LATE)], LATE)
  {
    CrowdIsLive(t, n - 1);
    CreatedInRoom(t, Nth(n), LATE);
    SharedStep(history, t, LATE, Create(Nth(n), "", LATE, None), t[TokenKey(Nth(n)) := Session("", LATE, LATE)], LATE);
  }

  lemma CreatedInRoom(t: Table, token: string, now: nat)
    requires Live(t, now) == t
    ensures Step(t, Create(token, "", now, None)) == t[TokenKey(token) := Session("", now, now)]
  {
  }

  lemma PresentedLate(history: seq<Event>, t: Table)
    requires Both(history, t, LATE) && TokenKey(Nth(0)) in t && t[TokenKey(Nth(0))] == Session("", 0, LATE)
    ensures Both(history + [Validate(Nth(0), LATE + 1)], t[TokenKey(Nth(0)) := Session("", 0, LATE + 1)], LATE + 1)
  {
    var s := Session("", 0, LATE);
    PresentedAgain(t, Nth(0), s, LATE + 1);
    SharedStep(history, t, LATE, Validate(Nth(0), LATE + 1), t[TokenKey(Nth(0)) := s.(lastSeen := LATE + 1)], LATE + 1);
  }

  lemma FirstIsOnlyExpired(t: Table, n: nat)
    requires Crowded(t, n) && n > 0
    ensures var u := t[TokenKey(Nth(0)) := Session("", 0, LATE + 1)];
            && Live(u, TWELVE) == t - {TokenKey(Nth(0))}
            && |u| == n + 1 && |Live(u, TWELVE)| == n
            && IsOldest(u, TokenKey(Nth(1))) && !Expired(u[TokenKey(Nth(1))], TWELVE)
  {
    var first, u := TokenKey(Nth(0)), t[TokenKey(Nth(0)) := Session("", 0, LATE + 1)];
    assert |first| == 1 && |TokenKey(Nth(1))| == 2;
    NoLargerWith(t, first, Session("", 0, LATE + 1));
    assert Expired(u[first], TWELVE);
    forall k | k in u && k != first ensures !Expired(u[k], TWELVE) {
      assert u[k] == Session("", LATE, LATE);
    }
    assert Live(u, TWELVE) == t - {first};
    RemovedSize(t, first);
  }

  /** One creation after a history on which program and variant agree. */
  lemma CreatedLast(history: seq<Event>, t: Table, clock: nat, token: string, now: nat, victim: Option<string>)
    requires Both(history, t, clock) && now >= clock
    ensures var more := history + [Create(token, "", now, victim)];
            && (MakesRoom(Live(t, now), victim) ==> Plausible(more))
            && (MakesRoom(t, victim) ==> PlausibleUnpurged(more))
            && After(more) == Created(t, token, "", now, victim)
            && AfterUnpurged(more) == CreatedUnpurged(t, token, "", now, victim)
  {
    assert (history + [Create(token, "", now, victim)])[..|history|] == history;
  }

  /**
   * The purge matters: with 64 sessions of which one has just turned twelve hours but was presented last,
   * the program drops that one, and without its purge a session in good standing would be lost instead.
   */
  lemma PurgeCanMatter() returns (h: seq<Event>, g: seq<Event>, lost: string)
    ensures Plausible(h) && PlausibleUnpurged(g) && h != [] && g != [] && h[..|h| - 1] == g[..|g| - 1]
    ensures h[|h| - 1].Create? && g[|g| - 1] == h[|h| - 1].(victim := Some(TokenKey(lost)))
    ensures Validated(After(h), lost, Clock(h)).1.Some?
    ensures Validated(AfterUnpurged(g), lost, Clock(h)).1 == None
  {
    var history, t := CrowdRuns(63);
    assert |TokenKey(Nth(0))| == 1;
    PresentedLate(history, t);
    FirstIsOnlyExpired(t, 63);
    lost := Nth(1);
    h, g := LastCreation(history + [Validate(Nth(0), LATE + 1)], t[TokenKey(Nth(0)) := Session("", 0, LATE + 1)]);
  }

  lemma LastCreation(history: seq<Event>, t: Table) returns (h: seq<Event>, g: seq<Event>)
    requires Both(history, t, LATE + 1) && |t| == MAXIMUM_SESSIONS && |Live(t, TWELVE)| < MAXIMUM_SESSIONS
    requires IsOldest(t, TokenKey(Nth(1))) && !Expired(t[TokenKey(Nth(1))], TWELVE)
    ensures Plausible(h) && PlausibleUnpurged(g) && h != [] && g != [] && h[..|h| - 1] == g[..|g| - 1]
    ensures h[|h| - 1].Create? && g[|g| - 1] == h[|h| - 1].(victim := Some(TokenKey(Nth(1))))
    ensures Validated(After(h), Nth(1), Clock(h)).1.Some?
    ensures Validated(AfterUnpurged(g), Nth(1), Clock(h)).1 == None
  {
    var victim := Some(TokenKey(Nth(1)));
    h, g := history + [Create(Nth(64), "", TWELVE, None)], history + [Create(Nth(64), "", TWELVE, victim)];
    CreatedLast(history, t, LATE + 1, Nth(64), TWELVE, None);
    CreatedLast(history, t, LATE + 1, Nth(64), TWELVE, victim);
    assert |Nth(1)| == 1 && |Nth(64)| == 64;
    assert TokenKey(Nth(64))[1..] == Nth(64) && TokenKey(Nth(1))[1..] == Nth(1);
    HarmIsObserved(t, t, Nth(64), "", TWELVE, None, victim, Nth(1));
  }
}
