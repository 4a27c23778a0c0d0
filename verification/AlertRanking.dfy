/** Normalization, ranking and truncation of weather alerts in internal/providers/qweather/parse.go. */
module AlertRanking {
  import opened Common
  import opened Text

  const MAXIMUM_ALERTS := 32
  const MAXIMUM_ID := 128
  const MAXIMUM_TITLE := 256
  const MAXIMUM_FIELD := 128
  const MAXIMUM_DESCRIPTION := 8192
  const MAXIMUM_INSTRUCTION := 4096

  /** A decoded warning. publishedAt is its parsed time, absent when it does not parse. */
  datatype OptionalTime = Absent | Malformed | At(time: int)

  datatype Warning = Warning(
    id: string, title: string, senderName: string, sender: string, typeCode: string, typeName: string,
    text: string, instruction: string, severity: string, level: string, status: string,
    urgency: string, certainty: string, publishedAt: Option<int>, startsAt: OptionalTime, endsAt: OptionalTime)

  datatype Alert = Alert(
    id: string, title: string, authority: string, typeCode: string, typeName: string,
    description: string, instruction: string, contentTruncated: bool, issuedAt: int,
    startsAt: OptionalTime, endsAt: OptionalTime, severity: string, status: string,
    urgency: string, certainty: string)

  datatype Error = MissingIdentity | BadTime

  datatype Alerts = Alerts(truncated: bool, items: seq<Alert>)

  function BoundedText(value: string, maximum: nat): (string, bool) {
    var trimmed := Trim(value);
    if |trimmed| <= maximum then (trimmed, false) else (trimmed[..maximum], true)
  }

  function NormalizeSeverity(value: string, level: string): string {
    var v, l := Lower(Trim(value)), Lower(Trim(level));
    if v in {"minor", "moderate", "severe", "extreme"} then v
    else if l in {"blue", "蓝色", "蓝"} then "minor"
    else if l in {"yellow", "黄色", "黄"} then "moderate"
    else if l in {"orange", "橙色", "橙"} then "severe"
    else if l in {"red", "红色", "红"} then "extreme"
    else "unknown"
  }

  function NormalizeStatus(value: string): string {
    var v := Lower(Trim(value));
    if v in {"active", "预警中", "生效中"} then "active"
    else if v in {"cancelled", "canceled", "取消预警", "预警解除", "已解除"} then "cancelled"
    else "unknown"
  }

  function NormalizeCAPValue(value: string, permitted: seq<string>): string {
    var v := Lower(Trim(value));
    if v in permitted then v else "unknown"
  }

  const URGENCY := ["future", "expected", "immediate", "past"]
  const CERTAINTY := ["unlikely", "possible", "likely", "observed"]

  function StatusPriority(status: string): int {
    if status == "active" then 2 else if status == "unknown" then 1 else 0
  }

  function SeverityPriority(severity: string): int {
    match severity
    case "extreme" => 4
    case "severe" => 3
    case "moderate" => 2
    case "minor" => 1
    case _ => 0
  }

  /** Values are in the vocabularies of section 3.2.2 of OASIS CAP 1.2, in lower case, or unknown. */
  lemma NormalizedValuesAreKnown(value: string, level: string)
    ensures NormalizeSeverity(value, level) in {"minor", "moderate", "severe", "extreme", "unknown"}
    ensures NormalizeStatus(value) in {"active", "cancelled", "unknown"}
    ensures NormalizeCAPValue(value, URGENCY) in URGENCY + ["unknown"]
    ensures NormalizeCAPValue(value, CERTAINTY) in CERTAINTY + ["unknown"]
    ensures SeverityPriority(NormalizeSeverity(value, level)) == 0 <==>
              NormalizeSeverity(value, level) == "unknown"
  {
  }

  /**
   * A word of the vocabulary is kept, whatever its letter case and the white space around it; a severity
   * that is none falls back on the colour of the level, and what neither names is unknown.
   */
  lemma KnownValuesAreKept(value: string, level: string)
    ensures var v, l := Lower(Trim(value)), Lower(Trim(level));
            && (v in {"minor", "moderate", "severe", "extreme"} ==> NormalizeSeverity(value, level) == v)
            && (v !in {"minor", "moderate", "severe", "extreme"} ==>
                  && NormalizeSeverity(value, level) == NormalizeSeverity("", level)
                  && NormalizeSeverity("", level) ==
                       (if l in {"blue", "蓝色", "蓝"} then "minor"
                        else if l in {"yellow", "黄色", "黄"} then "moderate"
                        else if l in {"orange", "橙色", "橙"} then "severe"
                        else if l in {"red", "红色", "红"} then "extreme" else "unknown"))
            && (NormalizeStatus(value) == "active" <==> v in {"active", "预警中", "生效中"})
            && (NormalizeStatus(value) == "cancelled" <==>
                  v in {"cancelled", "canceled", "取消预警", "预警解除", "已解除"})
            && (NormalizeCAPValue(value, URGENCY) == v <==> v in {"future", "expected", "immediate", "past", "unknown"})
            && (NormalizeCAPValue(value, CERTAINTY) == v <==>
                  v in {"unlikely", "possible", "likely", "observed", "unknown"})
  {
  }

  /** One warning of the response. */
  function ParseWarning(w: Warning): Result<Alert, Error> {
    var (id, t0) := BoundedText(w.id, MAXIMUM_ID);
    var (title, t1) := BoundedText(w.title, MAXIMUM_TITLE);
    var (authority, t2) := BoundedText(if Trim(w.senderName) == "" then w.sender else w.senderName, MAXIMUM_FIELD);
    var (typeCode, t3) := BoundedText(w.typeCode, MAXIMUM_FIELD);
    var (typeName, t4) := BoundedText(w.typeName, MAXIMUM_FIELD);
    var (description, t5) := BoundedText(w.text, MAXIMUM_DESCRIPTION);
    var (instruction, t6) := BoundedText(w.instruction, MAXIMUM_INSTRUCTION);
    if id == "" || title == "" || typeCode == "" || typeName == "" then Err(MissingIdentity)
    else if w.publishedAt.None? || w.startsAt.Malformed? || w.endsAt.Malformed? then Err(BadTime)
    else Ok(Alert(
      id, title, authority, typeCode, typeName, description, instruction,
      t0 || t1 || t2 || t3 || t4 || t5 || t6, w.publishedAt.value, w.startsAt, w.endsAt,
      NormalizeSeverity(w.severity, w.level), NormalizeStatus(w.status),
      NormalizeCAPValue(w.urgency, URGENCY), NormalizeCAPValue(w.certainty, CERTAINTY)))
  }

  ghost predicate BoundedPrefix(field: string, value: string, maximum: nat) {
    && |field| <= maximum && field <= Trim(value)
    && (|Trim(value)| <= maximum ==> field == Trim(value))
  }

  /** Every text field is a bounded prefix, and the flag is set exactly when one of them was cut. */
  lemma TextFieldsAreBounded(w: Warning)
    requires ParseWarning(w).Ok?
    ensures var a := ParseWarning(w).value;
            var authority := if Trim(w.senderName) == "" then w.sender else w.senderName;
            && BoundedPrefix(a.id, w.id, MAXIMUM_ID) && BoundedPrefix(a.title, w.title, MAXIMUM_TITLE)
            && BoundedPrefix(a.authority, authority, MAXIMUM_FIELD)
            && BoundedPrefix(a.typeCode, w.typeCode, MAXIMUM_FIELD)
            && BoundedPrefix(a.typeName, w.typeName, MAXIMUM_FIELD)
            && BoundedPrefix(a.description, w.text, MAXIMUM_DESCRIPTION)
            && BoundedPrefix(a.instruction, w.instruction, MAXIMUM_INSTRUCTION)
            && (a.contentTruncated <==>
                  || a.id < Trim(w.id) || a.title < Trim(w.title) || a.authority < Trim(authority)
                  || a.typeCode < Trim(w.typeCode) || a.typeName < Trim(w.typeName)
                  || a.description < Trim(w.text) || a.instruction < Trim(w.instruction))
  {
  }

  /**
   * A warning is accepted exactly when its identity is there and its times parse, and is then carried over
   * with its times; a missing identity is reported before a bad time.
   */
  lemma WarningIsAcceptedIff(w: Warning)
    ensures var identified :=
              Trim(w.id) != "" && Trim(w.title) != "" && Trim(w.typeCode) != "" && Trim(w.typeName) != "";
            var timed := w.publishedAt.Some? && !w.startsAt.Malformed? && !w.endsAt.Malformed?;
            match ParseWarning(w)
            case Ok(a) =>
              && identified && timed && w.publishedAt == Some(a.issuedAt)
              && a.startsAt == w.startsAt && a.endsAt == w.endsAt
              && a.severity == NormalizeSeverity(w.severity, w.level) && a.status == NormalizeStatus(w.status)
              && a.urgency == NormalizeCAPValue(w.urgency, URGENCY)
              && a.certainty == NormalizeCAPValue(w.certainty, CERTAINTY)
            case Err(MissingIdentity) => !identified
            case Err(BadTime) => identified && !timed
  {
  }

  // ----- The order -----

  datatype Rank = Rank(status: int, severity: int, issuedAt: int, id: string)

  function RankOf(a: Alert): Rank {
    Rank(StatusPriority(a.status), SeverityPriority(a.severity), a.issuedAt, a.id)
  }

  /** The comparator: does the left alert come before the right one? */
  predicate Precedes(left: Alert, right: Alert) {
    if StatusPriority(left.status) != StatusPriority(right.status) then
      StatusPriority(left.status) > StatusPriority(right.status)
    else if SeverityPriority(left.severity) != SeverityPriority(right.severity) then
      SeverityPriority(left.severity) > SeverityPriority(right.severity)
    else if left.issuedAt != right.issuedAt then left.issuedAt > right.issuedAt
    else Less(left.id, right.id)
  }

  /** The comparator is a strict order in which only alerts of equal rank are tied. */
  lemma PrecedesIsStrictOrder(a: Alert, b: Alert, c: Alert)
    ensures !(Precedes(a, b) && Precedes(b, a))
    ensures !Precedes(a, b) && !Precedes(b, a) <==> RankOf(a) == RankOf(b)
    ensures Precedes(a, b) && Precedes(b, c) ==> Precedes(a, c)
    ensures !Precedes(a, b) && !Precedes(b, c) ==> !Precedes(a, c)
  {
    TieIsEqualRank(a, b);
    TieIsEqualRank(b, c);
    TieIsEqualRank(a, c);
    if Precedes(a, b) && Precedes(b, c) && a.id != b.id && b.id != c.id && Less(a.id, b.id) && Less(b.id, c.id) {
      LessIsTransitive(a.id, b.id, c.id);
    }
    if !Precedes(a, b) && !Precedes(b, c) && Less(b.id, a.id) && Less(c.id, b.id) {
      LessIsTransitive(c.id, b.id, a.id);
    }
  }

  lemma TieIsEqualRank(a: Alert, b: Alert)
    ensures !(Precedes(a, b) && Precedes(b, a))
    ensures !Precedes(a, b) && !Precedes(b, a) <==> RankOf(a) == RankOf(b)
    ensures Less(a.id, b.id) || Less(b.id, a.id) || a.id == b.id
    ensures !(Less(a.id, b.id) && Less(b.id, a.id)) && (a.id == b.id ==> !Less(a.id, b.id))
  {
    LessIsTotal(a.id, b.id);
    if Less(a.id, b.id) {
      LessIsAsymmetric(a.id, b.id);
    }
    if Less(b.id, a.id) {
      LessIsAsymmetric(b.id, a.id);
    }
  }

  ghost predicate Ordered(s: seq<Alert>) {
    forall i, j :: 0 <= i < j < |s| ==> !Precedes(s[j], s[i])
  }

  /** The alerts of one rank, in the order they stand in s. */
  function Tied(s: seq<Alert>, rank: Rank): seq<Alert> {
    if s == [] then []
    else (if RankOf(s[0]) == rank then [s[0]] else []) + Tied(s[1..], rank)
  }

  /** sort.SliceStable: tied alerts keep their order. */
  ghost predicate SameTies(s: seq<Alert>, t: seq<Alert>) {
    forall rank :: Tied(s, rank) == Tied(t, rank)
  }

  lemma {:induction false} TiedMembers(s: seq<Alert>, rank: Rank)
    ensures forall i :: 0 <= i < |Tied(s, rank)| ==> RankOf(Tied(s, rank)[i]) == rank && Tied(s, rank)[i] in s
    ensures forall i :: 0 <= i < |s| && RankOf(s[i]) == rank ==> s[i] in Tied(s, rank)
  {
    if s != [] {
      TiedMembers(s[1..], rank);
      assert s == [s[0]] + s[1..];
    }
  }

  /** An ordered, stable rearrangement is unique: the library's algorithm does not matter. */
  lemma {:induction false} StableSortIsUnique(s: seq<Alert>, t: seq<Alert>)
    requires Ordered(s) && Ordered(t) && SameTies(s, t)
    ensures s == t
  {
    BothEmpty(s, t);
    if s != [] {
      FirstIsLeast(s, t);
      FirstIsLeast(t, s);
      TieIsEqualRank(s[0], t[0]);
      var rank := RankOf(s[0]);
      assert Tied(s, rank)[0] == s[0] && Tied(t, rank)[0] == t[0];
      forall r ensures Tied(s[1..], r) == Tied(t[1..], r) {
        var head := if RankOf(s[0]) == r then [s[0]] else [];
        assert Tied(s, r) == head + Tied(s[1..], r) && Tied(t, r) == head + Tied(t[1..], r);
        assert Tied(s, r)[|head|..] == Tied(s[1..], r) && Tied(t, r)[|head|..] == Tied(t[1..], r);
      }
      StableSortIsUnique(s[1..], t[1..]);
      assert s == [s[0]] + s[1..] && t == [t[0]] + t[1..];
    }
  }

  lemma BothEmpty(s: seq<Alert>, t: seq<Alert>)
    requires SameTies(s, t)
    ensures s == [] <==> t == []
  {
    if s != [] {
      TiedMembers(s, RankOf(s[0]));
    }
    if t != [] {
      TiedMembers(t, RankOf(t[0]));
    }
  }

  lemma FirstIsLeast(s: seq<Alert>, t: seq<Alert>)
    requires Ordered(t) && SameTies(s, t) && s != [] && t != []
    ensures !Precedes(s[0], t[0])
  {
    var rank := RankOf(s[0]);
    TiedMembers(s, rank);
    TiedMembers(t, rank);
    assert Tied(s, rank) == Tied(t, rank);
    assert s[0] in Tied(t, rank);
    var j :| 0 <= j < |t| && t[j] == s[0];
    if j == 0 {
      TieIsEqualRank(s[0], t[0]);
    }
  }

  /** Stable insertion: after every alert that it does not precede. */
  function Insert(a: Alert, s: seq<Alert>): seq<Alert> {
    if s == [] || !Precedes(s[0], a) then [a] + s else [s[0]] + Insert(a, s[1..])
  }

  /** The stable sort, from the back so that earlier alerts go before their ties. */
  function StableSorted(s: seq<Alert>): seq<Alert> {
    if s == [] then [] else Insert(s[0], StableSorted(s[1..]))
  }

  lemma {:induction false} InsertOrders(a: Alert, s: seq<Alert>)
    requires Ordered(s)
    ensures Ordered(Insert(a, s)) && multiset(Insert(a, s)) == multiset{a} + multiset(s)
    ensures forall i :: 0 <= i < |Insert(a, s)| ==> Insert(a, s)[i] == a || Insert(a, s)[i] in s
  {
    if s == [] {
    } else if !Precedes(s[0], a) {
      forall j | 0 <= j < |s| ensures !Precedes(s[j], a) {
        PrecedesIsStrictOrder(s[j], s[0], a);
        PrecedesIsStrictOrder(s[j], s[j], s[j]);
      }
      assert [a] + s == Insert(a, s);
    } else {
      InsertOrders(a, s[1..]);
      assert s == [s[0]] + s[1..];
      var rest := Insert(a, s[1..]);
      forall j | 0 <= j < |rest| ensures !Precedes(rest[j], s[0]) {
        PrecedesIsStrictOrder(s[0], a, a);
        if rest[j] != a {
          var m :| 0 <= m < |s[1..]| && s[1..][m] == rest[j];
          assert s[m + 1] == rest[j];
        }
      }
      assert Insert(a, s) == [s[0]] + rest;
    }
  }

  lemma {:induction false} InsertTies(a: Alert, s: seq<Alert>, rank: Rank)
    ensures Tied(Insert(a, s), rank) == (if RankOf(a) == rank then [a] else []) + Tied(s, rank)
  {
    if s == [] || !Precedes(s[0], a) {
      assert Insert(a, s)[1..] == s;
    } else {
      InsertTies(a, s[1..], rank);
      TieIsEqualRank(s[0], a);
      assert Insert(a, s)[1..] == Insert(a, s[1..]);
    }
  }

  lemma {:induction false} StableSortedSorts(s: seq<Alert>)
    ensures Ordered(StableSorted(s)) && SameTies(StableSorted(s), s)
    ensures multiset(StableSorted(s)) == multiset(s) && |StableSorted(s)| == |s|
  {
    if s != [] {
      StableSortedSorts(s[1..]);
      InsertOrders(s[0], StableSorted(s[1..]));
      forall rank ensures Tied(StableSorted(s), rank) == Tied(s, rank) {
        InsertTies(s[0], StableSorted(s[1..]), rank);
      }
      assert s == [s[0]] + s[1..];
      assert |multiset(StableSorted(s))| == |multiset(s)|;
    }
  }

  // ----- The response -----

  function ParseWarnings(warnings: seq<Warning>): Result<seq<Alert>, Error> {
    Collect(warnings, ParseWarning)
  }

  function Select(items: seq<Alert>): Alerts {
    Alerts(|items| > MAXIMUM_ALERTS, Take(StableSorted(items), MAXIMUM_ALERTS))
  }

  /** The loop of parseAlerts: the first bad warning fails the response. */
  method ParseItems(warnings: seq<Warning>) returns (r: Result<seq<Alert>, Error>)
    ensures r == ParseWarnings(warnings)
  {
    var items := [];
    for index := 0 to |warnings|
      invariant ParseWarnings(warnings[..index]) == Ok(items)
    {
      assert warnings[..index + 1][..index] == warnings[..index];
      var alert := ParseWarning(warnings[index]);
      if alert.Err? {
        ErrorsPersist(warnings, ParseWarning, index + 1);
        return Err(alert.error);
      }
      items := items + [alert.value];
    }
    assert warnings[..|warnings|] == warnings;
    return Ok(items);
  }

  /** Sort, then cut. */
  method SelectAlerts(alerts: seq<Alert>) returns (r: Alerts)
    ensures r == Select(alerts)
  {
    StableSortedSorts(alerts);
    var items := StableSorted(alerts);
    var truncated := |items| > MAXIMUM_ALERTS;
    if truncated {
      items := items[..MAXIMUM_ALERTS];
    }
    r := Alerts(truncated, items);
  }

  /** parseAlerts after decoding. */
  method ParseAlerts(warnings: seq<Warning>) returns (r: Result<Alerts, Error>)
    ensures match ParseWarnings(warnings)
            case Err(e) => r == Err(e)
            case Ok(items) => r == Ok(Select(items))
  {
    var items := ParseItems(warnings);
    if items.Err? {
      return Err(items.error);
    }
    var selected := SelectAlerts(items.value);
    return Ok(selected);
  }

  /**
   * The response fails exactly when some warning is bad, with the error of the first one; otherwise it
   * holds one alert per warning, in their order.
   */
  lemma FirstBadWarningDecides(warnings: seq<Warning>) returns (bad: nat)
    ensures ParseWarnings(warnings).Ok? ==>
              && |ParseWarnings(warnings).value| == |warnings|
              && forall i :: 0 <= i < |warnings| ==>
                   ParseWarning(warnings[i]) == Ok(ParseWarnings(warnings).value[i])
    ensures ParseWarnings(warnings).Err? ==>
              && bad < |warnings| && ParseWarning(warnings[bad]) == Err(ParseWarnings(warnings).error)
              && forall i :: 0 <= i < bad ==> ParseWarning(warnings[i]).Ok?
  {
    bad := FirstErrorDecides(warnings, ParseWarning);
  }

  /**
   * Top 32: what is kept is ordered and together with what is dropped is exactly the input; no
   * dropped alert precedes a kept one; and the flag says whether anything was dropped.
   */
  lemma SelectionIsTopAlerts(items: seq<Alert>) returns (dropped: seq<Alert>)
    ensures var r := Select(items);
            && Ordered(r.items) && |r.items| == Min(|items|, MAXIMUM_ALERTS)
            && multiset(r.items) + multiset(dropped) == multiset(items)
            && (forall d, k :: d in dropped && k in r.items ==> !Precedes(d, k))
            && (r.truncated <==> dropped != []) && (r.truncated <==> |items| > 32)
  {
    StableSortedSorts(items);
    var all, n := StableSorted(items), Min(|items|, MAXIMUM_ALERTS);
    dropped := all[n..];
    assert all == all[..n] + all[n..];
    LaterNeverPrecedes(all, n);
  }

  lemma LaterNeverPrecedes(s: seq<Alert>, n: nat)
    requires Ordered(s) && n <= |s|
    ensures forall d, k :: d in s[n..] && k in s[..n] ==> !Precedes(d, k)
  {
    forall d, k | d in s[n..] && k in s[..n] ensures !Precedes(d, k) {
      var i :| 0 <= i < n && s[i] == k;
      var j :| n <= j < |s| && s[j] == d;
    }
  }

  ghost predicate DistinctRanks(s: seq<Alert>) {
    forall i, j :: 0 <= i < j < |s| ==> RankOf(s[i]) != RankOf(s[j])
  }

  lemma {:induction false} TiedNone(s: seq<Alert>, rank: Rank)
    requires forall i :: 0 <= i < |s| ==> RankOf(s[i]) != rank
    ensures Tied(s, rank) == []
  {
    if s != [] {
      TiedNone(s[1..], rank);
    }
  }

  lemma {:induction false} TiedAlone(s: seq<Alert>, rank: Rank)
    requires DistinctRanks(s)
    ensures |Tied(s, rank)| <= 1
  {
    if s != [] {
      var rest := s[1..];
      assert forall i :: 0 <= i < |rest| ==> rest[i] == s[i + 1];
      TiedAlone(rest, rank);
      if RankOf(s[0]) == rank {
        TiedNone(rest, rank);
      }
    }
  }

  /** Alerts with pairwise distinct sort keys are selected alike in whatever order they arrive. */
  lemma SelectionIgnoresArrivalOrder(items: seq<Alert>, other: seq<Alert>)
    requires multiset(items) == multiset(other) && DistinctRanks(items) && DistinctRanks(other)
    ensures Select(items) == Select(other)
  {
    StableSortedSorts(items);
    StableSortedSorts(other);
    assert forall a :: a in items <==> a in multiset(items);
    assert forall a :: a in other <==> a in multiset(other);
    forall rank ensures Tied(items, rank) == Tied(other, rank) {
      TiedAlone(items, rank);
      TiedAlone(other, rank);
      SameSingle(items, other, rank);
      SameSingle(other, items, rank);
    }
    StableSortIsUnique(StableSorted(items), StableSorted(other));
    assert |multiset(items)| == |multiset(other)|;
  }

  lemma SharedSingle(s: seq<Alert>, t: seq<Alert>, a: Alert)
    requires |s| <= 1 && |t| <= 1 && a in s && a in t
    ensures s == t
  {
  }

  lemma TiedIn(items: seq<Alert>, a: Alert)
    requires a in items
    ensures a in Tied(items, RankOf(a))
  {
    TiedMembers(items, RankOf(a));
  }

  lemma SameSingle(items: seq<Alert>, other: seq<Alert>, rank: Rank)
    requires forall a :: a in items ==> a in other
    requires |Tied(items, rank)| <= 1 && |Tied(other, rank)| <= 1
    ensures Tied(items, rank) != [] ==> Tied(other, rank) == Tied(items, rank)
  {
    if Tied(items, rank) != [] {
      var a := Tied(items, rank)[0];
      TiedMembers(items, rank);
      TiedIn(other, a);
      SharedSingle(Tied(items, rank), Tied(other, rank), a);
    }
  }

  // ----- The order in words -----

  predicate MoreSevere(a: string, b: string) {
    || (a == "extreme" && b in {"severe", "moderate", "minor", "unknown"})
    || (a == "severe" && b in {"moderate", "minor", "unknown"})
    || (a == "moderate" && b in {"minor", "unknown"})
    || (a == "minor" && b == "unknown")
  }

  /**
   * Active before unknown before cancelled, then the more severe, then the one issued later, then the one
   * whose ID comes first in lexical order.
   */
  ghost predicate MoreUrgent(a: Alert, b: Alert) {
    || (a.status == "active" && b.status in {"unknown", "cancelled"})
    || (a.status == "unknown" && b.status == "cancelled")
    || (a.status == b.status && MoreSevere(a.severity, b.severity))
    || (a.status == b.status && a.severity == b.severity && a.issuedAt > b.issuedAt)
    || (a.status == b.status && a.severity == b.severity && a.issuedAt == b.issuedAt && LexicallyBefore(a.id, b.id))
  }

  /** Status and severity are among the normalized words. */
  predicate InWords(a: Alert) {
    && a.status in {"active", "cancelled", "unknown"}
    && a.severity in {"minor", "moderate", "severe", "extreme", "unknown"}
  }

  lemma StatusInWords(a: string, b: string)
    requires a in {"active", "cancelled", "unknown"} && b in {"active", "cancelled", "unknown"}
    ensures StatusPriority(a) == StatusPriority(b) <==> a == b
    ensures StatusPriority(a) > StatusPriority(b) <==>
              (a == "active" && b in {"unknown", "cancelled"}) || (a == "unknown" && b == "cancelled")
  {
  }

  lemma SeverityInWords(a: string, b: string)
    requires a in {"minor", "moderate", "severe", "extreme", "unknown"}
    requires b in {"minor", "moderate", "severe", "extreme", "unknown"}
    ensures SeverityPriority(a) == SeverityPriority(b) <==> a == b
    ensures SeverityPriority(a) > SeverityPriority(b) <==> MoreSevere(a, b)
  {
  }

  /** On normalized alerts the comparator is the order in words. */
  lemma PrecedesIffMoreUrgent(a: Alert, b: Alert)
    requires InWords(a) && InWords(b)
    ensures Precedes(a, b) <==> MoreUrgent(a, b)
  {
    StatusInWords(a.status, b.status);
    SeverityInWords(a.severity, b.severity);
    LessIsLexical(a.id, b.id);
  }

  lemma ParsedInWords(warnings: seq<Warning>)
    requires ParseWarnings(warnings).Ok?
    ensures forall a :: a in ParseWarnings(warnings).value ==> InWords(a)
  {
    var bad := FirstBadWarningDecides(warnings);
    var items := ParseWarnings(warnings).value;
    forall a | a in items ensures InWords(a) {
      var i :| 0 <= i < |items| && items[i] == a;
      WarningIsAcceptedIff(warnings[i]);
      NormalizedValuesAreKnown(warnings[i].severity, warnings[i].level);
      NormalizedValuesAreKnown(warnings[i].status, "");
    }
  }

  /**
   * Of every response whose warnings are all good at most 32 alerts are shown, the most urgent ones and in
   * order of urgency: none that was dropped is more urgent than one that is shown, and none that is shown
   * is more urgent than one before it.
   */
  lemma MostUrgentAreShown(warnings: seq<Warning>) returns (dropped: seq<Alert>)
    requires ParseWarnings(warnings).Ok?
    ensures var items := ParseWarnings(warnings).value;
            var r := Select(items);
            && multiset(r.items) + multiset(dropped) == multiset(items)
            && |r.items| == Min(|warnings|, 32) && (r.truncated <==> |warnings| > 32)
            && (forall d, k :: d in dropped && k in r.items ==> !MoreUrgent(d, k))
            && (forall i, j :: 0 <= i < j < |r.items| ==> !MoreUrgent(r.items[j], r.items[i]))
  {
    var bad := FirstBadWarningDecides(warnings);
    var items := ParseWarnings(warnings).value;
    var r := Select(items);
    dropped := SelectionIsTopAlerts(items);
    ParsedInWords(warnings);
    forall a | a in r.items || a in dropped ensures InWords(a) {
      assert a in multiset(r.items) + multiset(dropped);
      assert a in items;
    }
    forall d, k | d in dropped && k in r.items ensures !MoreUrgent(d, k) {
      PrecedesIffMoreUrgent(d, k);
    }
    forall i, j | 0 <= i < j < |r.items| ensures !MoreUrgent(r.items[j], r.items[i]) {
      PrecedesIffMoreUrgent(r.items[j], r.items[i]);
    }
  }
}
