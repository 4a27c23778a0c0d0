/**
 * Canonical HTTPS origins of internal/platform/adminauth/transport.go, over the grammar
 * scheme://host[:port]. The parameter ip stands for net.ParseIP accepting a text.
 */
module Origins {
  import opened Common
  import opened Text

  const MAXIMUM_PUBLIC_ORIGINS := 16

  // ----- Positions and numerals -----

  /** Position of the first c, or the length. */
  function First(s: string, c: char): (n: nat)
    ensures n <= |s| && (n < |s| ==> s[n] == c)
    ensures forall i :: 0 <= i < n ==> s[i] != c
  {
    if s == [] || s[0] == c then 0 else 1 + First(s[1..], c)
  }

  /** Position of the last c, or -1. */
  function Last(s: string, c: char): (n: int)
    ensures -1 <= n < |s| && (n >= 0 ==> s[n] == c)
    ensures forall i :: n < i < |s| ==> s[i] != c
  {
    if s == [] then -1 else if s[|s| - 1] == c then |s| - 1 else Last(s[..|s| - 1], c)
  }

  predicate Digits(s: string) {
    forall i :: 0 <= i < |s| ==> '0' <= s[i] <= '9'
  }

  /** strconv.Atoi of a string of digits. */
  function Atoi(s: string): nat
    requires Digits(s)
  {
    if s == [] then 0 else 10 * Atoi(s[..|s| - 1]) + (s[|s| - 1] as int - '0' as int)
  }

  /** strconv.Itoa. */
  function Itoa(n: nat): (s: string)
    ensures s != [] && Digits(s)
  {
    if n < 10 then [(n + '0' as int) as char] else Itoa(n / 10) + [(n % 10 + '0' as int) as char]
  }

  lemma {:induction false} AtoiItoa(n: nat)
    ensures Atoi(Itoa(n)) == n
  {
    if n < 10 {
      assert Itoa(n)[..0] == [];
    } else {
      AtoiItoa(n / 10);
      assert Itoa(n)[..|Itoa(n)| - 1] == Itoa(n / 10);
    }
  }

  // ----- Parsing -----

  /** What url.Parse admits in a host without percent encoding. */
  predicate HostChar(c: char) {
    || c >= '\U{80}' || 'a' <= c <= 'z' || 'A' <= c <= 'Z' || '0' <= c <= '9'
    || c == '-' || c == '_' || c == '.' || c == '~' || c == '!' || c == '$' || '&' <= c <= ','
    || c == ';' || c == '=' || c == ':' || c == '[' || c == ']' || c == '<' || c == '>' || c == '"'
  }

  datatype Origin = Origin(scheme: string, host: string, port: string)

  /** The port part: nothing, or a colon and at least one digit. */
  function PortOf(after: string): Option<string> {
    if after == "" then Some("")
    else if after[0] == ':' && |after| > 1 && Digits(after[1..]) then Some(after[1..])
    else None
  }

  /** host[:port], where a host in brackets is an IPv6 address and no other host has brackets. */
  function SplitAuthority(authority: string, ip: string -> bool): Option<(string, string)> {
    if authority != "" && authority[0] == '[' then
      var e := First(authority, ']');
      if e == |authority| then None
      else
        var host, port := authority[1..e], PortOf(authority[e + 1..]);
        if ':' !in host || !ip(host) || port.None? then None else Some((host, port.value))
    else if '[' in authority || ']' in authority then None
    else
      var k := First(authority, ':');
      var port := PortOf(authority[k..]);
      if port.None? then None else Some((authority[..k], port.value))
  }

  /** An empty fragment is dropped; any path, query, user or non-empty fragment refuses the value. */
  function Parse(value: string, ip: string -> bool): Option<Origin> {
    var f := First(value, '#');
    if f + 1 < |value| then None
    else
      var v := value[..f];
      var k := First(v, ':');
      var scheme := Lower(v[..k]);
      if |v| < k + 3 || v[k + 1..k + 3] != "//" || (scheme != "http" && scheme != "https") then None
      else
        var authority := v[k + 3..];
        if exists i :: 0 <= i < |authority| && !HostChar(authority[i]) then None
        else
          match SplitAuthority(authority, ip)
          case None => None
          case Some((host, port)) => if host == "" then None else Some(Origin(scheme, host, port))
  }

  // ----- Canonical form -----

  /** A host is bracketed when it contains a colon. */
  function Bracketed(host: string): string {
    if ':' in host then "[" + host + "]" else host
  }

  function DefaultPort(scheme: string): nat {
    if scheme == "https" then 443 else 80
  }

  /** The port in effect: the one written, or the default of the scheme; none when out of range. */
  function EffectivePort(o: Origin): Option<nat>
    requires Digits(o.port)
  {
    if o.port == "" then Some(DefaultPort(o.scheme))
    else if 1 <= Atoi(o.port) <= 65535 then Some(Atoi(o.port))
    else None
  }

  /** The port part of a printed authority. */
  function Colon(port: string): string {
    if port == "" then "" else [':'] + port
  }

  function Render(scheme: string, host: string, port: nat): string {
    var text := if port == DefaultPort(scheme) then "" else Itoa(port);
    scheme + "://" + (Bracketed(host) + Colon(text))
  }

  lemma ParsedPortIsDigits(value: string, ip: string -> bool)
    ensures Parse(value, ip).Some? ==> Digits(Parse(value, ip).value.port)
  {
  }

  /** The canonical form of what was parsed, unless its port is out of range. */
  function Canonicalize(o: Origin): Option<string>
    requires Digits(o.port)
  {
    var port := EffectivePort(o);
    if port.None? then None else Some(Render(o.scheme, Lower(o.host), port.value))
  }

  /** canonicalOrigin. */
  function CanonicalOrigin(value: string, ip: string -> bool): Option<string> {
    var parsed := Parse(value, ip);
    ParsedPortIsDigits(value, ip);
    if parsed.None? then None else Canonicalize(parsed.value)
  }

  // ----- Public host names -----

  predicate LabelChar(c: char) {
    'a' <= c <= 'z' || '0' <= c <= '9' || c == '-'
  }

  predicate ValidLabel(label_: string) {
    && 0 < |label_| <= 63 && label_[0] != '-' && label_[|label_| - 1] != '-'
    && forall i :: 0 <= i < |label_| ==> LabelChar(label_[i])
  }

  /** Every piece of strings.Split(host, ".") is a label. */
  predicate ValidLabels(host: string) {
    var k := First(host, '.');
    ValidLabel(host[..k]) && (k < |host| ==> ValidLabels(host[k + 1..]))
  }

  predicate ValidPublicHostname(host: string, ip: string -> bool) {
    0 < |host| <= 253 && (ip(host) || ValidLabels(host))
  }

  /** net.SplitHostPort, host part only. */
  function SplitHost(s: string): Option<string> {
    var i := Last(s, ':');
    if i < 0 then None
    else if s[0] == '[' then
      var e := First(s, ']');
      if e == |s| || e + 1 != i || '[' in s[1..] || ']' in s[e + 1..] then None else Some(s[1..e])
    else if ':' in s[..i] || '[' in s || ']' in s then None
    else Some(s[..i])
  }

  /** strings.Trim(s, "[]"). */
  function TrimBrackets(s: string): string {
    if s != "" && (s[0] == '[' || s[0] == ']') then TrimBrackets(s[1..])
    else if s != "" && (s[|s| - 1] == '[' || s[|s| - 1] == ']') then TrimBrackets(s[..|s| - 1])
    else s
  }

  function HostOf(hostAndPort: string): string {
    var split := SplitHost(hostAndPort);
    if split.Some? then split.value else TrimBrackets(hostAndPort)
  }

  const HTTPS := "https://"

  datatype Error = InvalidOrigin | TooMany | Duplicate

  /** Only HTTPS origins with a valid public host name are accepted. */
  function Accept(origin: Option<string>, ip: string -> bool): Result<string, Error> {
    if origin.None? || !(HTTPS <= origin.value) then Err(InvalidOrigin)
    else if !ValidPublicHostname(HostOf(origin.value[|HTTPS|..]), ip) then Err(InvalidOrigin)
    else Ok(origin.value)
  }

  function NormalizePublicOrigin(value: string, ip: string -> bool): Result<string, Error> {
    Accept(CanonicalOrigin(Trim(value), ip), ip)
  }

  // ----- Printing and reading back -----

  predicate IpChar(c: char) {
    '0' <= c <= '9' || 'a' <= c <= 'f' || 'A' <= c <= 'F' || c == ':' || c == '.'
  }

  /** The one fact about net.ParseIP: an IP address is written with hexadecimal digits, colons and dots. */
  ghost predicate IpTexts(ip: string -> bool) {
    forall s :: ip(s) ==> forall i :: 0 <= i < |s| ==> IpChar(s[i])
  }

  predicate PlainChar(c: char) {
    'a' <= c <= 'z' || '0' <= c <= '9' || c == '-' || c == '.' || c == ':'
  }

  /** Hosts of accepted origins: lower case, with colons only in IP addresses. */
  ghost predicate PlainHost(host: string, ip: string -> bool) {
    && host != "" && (forall i :: 0 <= i < |host| ==> PlainChar(host[i]))
    && (':' in host ==> ip(host))
  }

  lemma {:induction false} ValidLabelsArePlain(host: string)
    requires ValidLabels(host)
    ensures forall i :: 0 <= i < |host| ==> PlainChar(host[i]) && host[i] != ':'
  {
    var k := First(host, '.');
    assert forall i :: 0 <= i < k ==> host[i] == host[..k][i];
    if k < |host| {
      ValidLabelsArePlain(host[k + 1..]);
      assert forall i :: k < i < |host| ==> host[i] == host[k + 1..][i - k - 1];
    }
  }

  lemma ValidIsPlain(text: string, ip: string -> bool)
    requires IpTexts(ip) && ValidPublicHostname(Lower(text), ip)
    ensures PlainHost(Lower(text), ip)
  {
    if !ip(Lower(text)) {
      ValidLabelsArePlain(Lower(text));
    }
  }

  lemma PortText(port: string)
    requires Digits(port)
    ensures PortOf(Colon(port)) == Some(port)
  {
    assert port != "" ==> Colon(port)[1..] == port;
  }

  predicate BracketFree(host: string) {
    forall i :: 0 <= i < |host| ==> host[i] != '[' && host[i] != ']'
  }

  lemma BareColon(host: string, port: string)
    requires ':' !in host && Digits(port)
    ensures var authority := host + Colon(port);
            First(authority, ':') == |host| && authority[..|host|] == host && authority[|host|..] == Colon(port)
  {
    var authority := host + Colon(port);
    assert forall i :: 0 <= i < |host| ==> authority[i] == host[i] && host[i] != ':';
    assert port != "" ==> authority[|host|] == ':';
  }

  lemma BareBrackets(host: string, port: string)
    requires BracketFree(host) && Digits(port)
    ensures '[' !in host + Colon(port) && ']' !in host + Colon(port)
  {
    assert forall i :: 0 <= i < |Colon(port)| ==> Colon(port)[i] != '[' && Colon(port)[i] != ']';
  }

  lemma BracketedAuthority(host: string, port: string)
    requires BracketFree(host) && Digits(port)
    ensures var authority := "[" + host + "]" + Colon(port);
            && First(authority, ']') == |host| + 1 && authority[1..|host| + 1] == host
            && authority[|host| + 2..] == Colon(port) && authority[0] == '['
  {
    var authority := "[" + host + "]" + Colon(port);
    assert authority[|host| + 1] == ']' && authority[0] == '[';
    assert forall i :: 1 <= i <= |host| ==> authority[i] == host[i - 1];
  }

  lemma PlainAuthority(host: string, port: string, ip: string -> bool)
    requires host != "" && BracketFree(host) && (':' in host ==> ip(host)) && Digits(port)
    ensures SplitAuthority(Bracketed(host) + Colon(port), ip) == Some((host, port))
  {
    if ':' in host {
      BracketedSplits(host, port, ip);
    } else {
      BareSplits(host, port, ip);
    }
  }

  lemma BracketedSplits(host: string, port: string, ip: string -> bool)
    requires BracketFree(host) && ':' in host && ip(host) && Digits(port)
    ensures SplitAuthority("[" + host + "]" + Colon(port), ip) == Some((host, port))
  {
    PortText(port);
    BracketedAuthority(host, port);
  }

  lemma BareSplits(host: string, port: string, ip: string -> bool)
    requires host != "" && BracketFree(host) && ':' !in host && Digits(port)
    ensures SplitAuthority(host + Colon(port), ip) == Some((host, port))
  {
    PortText(port);
    BareColon(host, port);
    BareBrackets(host, port);
    assert (host + Colon(port))[0] == host[0];
  }

  lemma PlainAuthorityChars(host: string, port: string)
    requires Digits(port) && forall i :: 0 <= i < |host| ==> HostChar(host[i])
    ensures var authority := Bracketed(host) + Colon(port);
            forall i :: 0 <= i < |authority| ==> HostChar(authority[i])
  {
    assert forall i :: 0 <= i < |port| ==> HostChar(port[i]);
  }

  /** The scheme may be written in any letter case. */
  lemma SchemePrefix(scheme: string, authority: string)
    requires Lower(scheme) in {"http", "https"}
    ensures var v := scheme + "://" + authority;
            && First(v, ':') == |scheme| && v[..|scheme|] == scheme
            && v[|scheme| + 1..|scheme| + 3] == "//" && v[|scheme| + 3..] == authority
            && forall i :: 0 <= i < |scheme| + 3 ==> v[i] != '#'
  {
    var v := scheme + "://" + authority;
    forall i | 0 <= i < |scheme| ensures v[i] == scheme[i] && scheme[i] != ':' && scheme[i] != '#' {
      assert LowerChar(scheme[i]) == Lower(scheme)[i];
    }
    assert v[|scheme|] == ':' && v[|scheme| + 1] == '/' && v[|scheme| + 2] == '/';
    assert First(v, ':') == |scheme|;
  }

  /** An empty fragment may follow. */
  lemma ParseAuthority(scheme: string, authority: string, fragment: string, ip: string -> bool)
    requires Lower(scheme) in {"http", "https"} && fragment in {"", "#"}
    requires forall i :: 0 <= i < |authority| ==> HostChar(authority[i])
    requires SplitAuthority(authority, ip).Some? && SplitAuthority(authority, ip).value.0 != ""
    ensures var (host, port) := SplitAuthority(authority, ip).value;
            Parse(scheme + "://" + authority + fragment, ip) == Some(Origin(Lower(scheme), host, port))
  {
    var v := scheme + "://" + authority;
    SchemePrefix(scheme, authority);
    WithoutHash(scheme, authority);
    BeforeFragment(v, fragment);
    ParseParts(v + fragment, v, scheme, authority, ip);
  }

  lemma WithoutHash(scheme: string, authority: string)
    requires Lower(scheme) in {"http", "https"} && forall i :: 0 <= i < |authority| ==> HostChar(authority[i])
    ensures var v := scheme + "://" + authority; forall i :: 0 <= i < |v| ==> v[i] != '#'
  {
    var v := scheme + "://" + authority;
    SchemePrefix(scheme, authority);
    assert forall i :: |scheme| + 3 <= i < |v| ==> v[i] == authority[i - |scheme| - 3];
  }

  lemma ParseParts(value: string, v: string, scheme: string, authority: string, ip: string -> bool)
    requires First(value, '#') + 1 >= |value| && value[..First(value, '#')] == v
    requires First(v, ':') == |scheme| && |scheme| + 3 <= |v| && v[..|scheme|] == scheme
    requires v[|scheme| + 1..|scheme| + 3] == "//" && v[|scheme| + 3..] == authority
    requires Lower(scheme) in {"http", "https"} && forall i :: 0 <= i < |authority| ==> HostChar(authority[i])
    requires SplitAuthority(authority, ip).Some? && SplitAuthority(authority, ip).value.0 != ""
    ensures var (host, port) := SplitAuthority(authority, ip).value;
            Parse(value, ip) == Some(Origin(Lower(scheme), host, port))
  {
  }

  lemma BeforeFragment(v: string, fragment: string)
    requires fragment in {"", "#"} && forall i :: 0 <= i < |v| ==> v[i] != '#'
    ensures var f := First(v + fragment, '#'); f + 1 >= |v + fragment| && (v + fragment)[..f] == v
  {
    var value := v + fragment;
    assert forall i :: 0 <= i < |v| ==> value[i] == v[i];
    assert fragment == "#" ==> value[|v|] == '#';
    assert First(value, '#') == |v|;
  }

  /** The text after "https://" in a printed origin. */
  function HostAndPort(host: string, port: nat): string {
    Bracketed(host) + Colon(if port == 443 then "" else Itoa(port))
  }

  lemma RenderSplits(host: string, port: nat)
    ensures Render("https", host, port) == HTTPS + HostAndPort(host, port)
  {
    assert "https" + "://" == HTTPS;
  }

  /** Reading back a printed origin gives the host and port it was printed from. */
  lemma ParseRender(scheme: string, host: string, port: nat, ip: string -> bool)
    requires scheme in {"http", "https"} && PlainHost(host, ip) && 1 <= port <= 65535
    ensures var text := if port == DefaultPort(scheme) then "" else Itoa(port);
            Parse(Render(scheme, host, port), ip) == Some(Origin(scheme, host, text))
  {
    var text := if port == DefaultPort(scheme) then "" else Itoa(port);
    var authority := Bracketed(host) + Colon(text);
    assert Lower(scheme) == scheme;
    PlainAuthority(host, text, ip);
    PlainAuthorityChars(host, text);
    ParseAuthority(scheme, authority, "", ip);
    assert Render(scheme, host, port) == scheme + "://" + authority + "";
  }

  lemma TrimPlain(host: string)
    requires host != "" && BracketFree(host)
    ensures TrimBrackets(host) == host && TrimBrackets("[" + host + "]") == host
  {
    var b := "[" + host + "]";
    assert b[1..] == host + "]";
    assert (host + "]")[0] == host[0];
    assert (host + "]")[..|host|] == host;
  }

  lemma {:induction false} LastOccurrence(front: string, c: char, rest: string)
    requires forall i :: 0 <= i < |rest| ==> rest[i] != c
    ensures Last(front + ([c] + rest), c) == |front|
  {
    var s := front + ([c] + rest);
    if rest == [] {
      assert s[|s| - 1] == c;
    } else {
      LastOccurrence(front, c, rest[..|rest| - 1]);
      assert s[..|s| - 1] == front + ([c] + rest[..|rest| - 1]);
      assert s[|s| - 1] == rest[|rest| - 1];
    }
  }

  lemma LastColon(front: string, port: string)
    requires Digits(port) && port != ""
    ensures Last(front + Colon(port), ':') == |front|
  {
    LastOccurrence(front, ':', port);
  }

  lemma SplitHostBare(host: string, port: string)
    requires host != "" && BracketFree(host) && ':' !in host && Digits(port)
    ensures HostOf(host + Colon(port)) == host
  {
    TrimPlain(host);
    var s := host + Colon(port);
    if port == "" {
      assert s == host;
    } else {
      LastColon(host, port);
      BareColon(host, port);
      BareBrackets(host, port);
      assert s[0] == host[0];
    }
  }

  lemma SplitHostBracketed(host: string, port: string)
    requires host != "" && BracketFree(host) && Digits(port)
    ensures HostOf("[" + host + "]" + Colon(port)) == host
  {
    TrimPlain(host);
    BracketedAuthority(host, port);
    var b := "[" + host + "]";
    var s := b + Colon(port);
    if port == "" {
      assert s == b;
    } else {
      LastColon(b, port);
      assert forall i :: 1 <= i <= |host| ==> s[i] == host[i - 1];
      assert forall i :: |b| < i < |s| ==> s[i] == port[i - |b| - 1];
      assert s[|b|] == ':' && s[|host| + 1] == ']';
      forall i | 1 <= i < |s| ensures s[i] != '[' {
      }
      assert '[' !in s[1..] && ']' !in s[|host| + 2..];
    }
  }

  /** The host that NormalizePublicOrigin validates is the host that was printed. */
  lemma HostOfRendered(host: string, port: nat)
    requires host != "" && BracketFree(host) && 1 <= port <= 65535
    ensures HTTPS <= Render("https", host, port)
    ensures HostOf(Render("https", host, port)[|HTTPS|..]) == host
  {
    var text := if port == 443 then "" else Itoa(port);
    RenderSplits(host, port);
    assert (HTTPS + HostAndPort(host, port))[|HTTPS|..] == HostAndPort(host, port);
    if ':' in host {
      SplitHostBracketed(host, text);
    } else {
      SplitHostBare(host, text);
    }
  }

  /** A parsed host is not empty and has no brackets, in either case. */
  lemma ParsedHost(value: string, ip: string -> bool)
    requires IpTexts(ip) && Parse(value, ip).Some?
    ensures var o := Parse(value, ip).value;
            o.host != "" && BracketFree(o.host) && BracketFree(Lower(o.host)) && Digits(o.port)
    ensures Parse(value, ip).value.scheme in {"http", "https"}
  {
    var v := value[..First(value, '#')];
    var authority := v[First(v, ':') + 3..];
    ParsedAuthority(value, ip);
    SplitHostIsBracketFree(authority, ip);
    LowerIsBracketFree(Parse(value, ip).value.host);
  }

  lemma ParsedAuthority(value: string, ip: string -> bool)
    requires Parse(value, ip).Some?
    ensures var v := value[..First(value, '#')];
            && First(v, ':') + 3 <= |v|
            && var split, o := SplitAuthority(v[First(v, ':') + 3..], ip), Parse(value, ip).value;
               split == Some((o.host, o.port)) && o.host != "" && o.scheme in {"http", "https"}
  {
  }

  lemma LowerIsBracketFree(host: string)
    requires BracketFree(host)
    ensures BracketFree(Lower(host))
  {
  }

  lemma SplitHostIsBracketFree(authority: string, ip: string -> bool)
    requires IpTexts(ip) && SplitAuthority(authority, ip).Some?
    ensures var (host, port) := SplitAuthority(authority, ip).value; BracketFree(host) && Digits(port)
  {
    var (host, port) := SplitAuthority(authority, ip).value;
    if authority != "" && authority[0] == '[' {
      assert ip(host);
    } else {
      assert forall i :: 0 <= i < |host| ==> host[i] in authority;
    }
  }

  /** An accepted value, its host in lower case and its effective port. */
  lemma AcceptedForm(value: string, ip: string -> bool) returns (host: string, port: nat)
    requires IpTexts(ip) && NormalizePublicOrigin(value, ip).Ok?
    ensures var o := Parse(Trim(value), ip);
            && o.Some? && o.value.scheme == "https" && Digits(o.value.port)
            && host == Lower(o.value.host) && EffectivePort(o.value) == Some(port)
    ensures PlainHost(host, ip) && ValidPublicHostname(host, ip) && 1 <= port <= 65535
    ensures NormalizePublicOrigin(value, ip) == Ok(Render("https", host, port))
  {
    ParsedHost(Trim(value), ip);
    host, port := AcceptedParse(Parse(Trim(value), ip).value, ip);
  }

  lemma AcceptedParse(o: Origin, ip: string -> bool) returns (host: string, port: nat)
    requires IpTexts(ip) && Lower(o.host) != "" && BracketFree(Lower(o.host)) && Digits(o.port)
    requires o.scheme in {"http", "https"} && Accept(Canonicalize(o), ip).Ok?
    ensures o.scheme == "https" && host == Lower(o.host) && EffectivePort(o) == Some(port)
    ensures PlainHost(host, ip) && ValidPublicHostname(host, ip) && 1 <= port <= 65535
    ensures Accept(Canonicalize(o), ip) == Ok(Render("https", host, port))
  {
    host, port := Lower(o.host), EffectivePort(o).value;
    HttpIsRefused(host, port);
    HostOfRendered(host, port);
    ValidIsPlain(o.host, ip);
  }

  lemma HttpIsRefused(host: string, port: nat)
    ensures !(HTTPS <= Render("http", host, port))
  {
    assert Render("http", host, port)[4] == ':' && HTTPS[4] == 's';
  }

  /** Normalizing is idempotent: an accepted origin is its own normal form. */
  lemma NormalizeIsIdempotent(value: string, ip: string -> bool)
    requires IpTexts(ip) && NormalizePublicOrigin(value, ip).Ok?
    ensures var origin := NormalizePublicOrigin(value, ip).value;
            NormalizePublicOrigin(origin, ip) == Ok(origin)
  {
    var host, port := AcceptedForm(value, ip);
    RenderIsFixed(host, port, ip);
  }

  lemma RenderIsFixed(host: string, port: nat, ip: string -> bool)
    requires PlainHost(host, ip) && ValidPublicHostname(host, ip) && 1 <= port <= 65535
    ensures NormalizePublicOrigin(Render("https", host, port), ip) == Ok(Render("https", host, port))
  {
    var origin := Render("https", host, port);
    RenderIsTrimmed(host, port, ip);
    TrimmedIsFixed(origin);
    ParseRender("https", host, port, ip);
    RenderIsCanonical(host, port, ip);
    PlainIsLower(host, ip);
    HostOfRendered(host, port);
  }

  lemma RenderIsCanonical(host: string, port: nat, ip: string -> bool)
    requires PlainHost(host, ip) && 1 <= port <= 65535
    ensures var text := if port == 443 then "" else Itoa(port);
            Canonicalize(Origin("https", host, text)) == Some(Render("https", host, port))
  {
    AtoiItoa(port);
    PlainIsLower(host, ip);
  }

  lemma PlainIsLower(host: string, ip: string -> bool)
    requires PlainHost(host, ip)
    ensures Lower(host) == host && BracketFree(host)
  {
  }

  lemma RenderIsTrimmed(host: string, port: nat, ip: string -> bool)
    requires PlainHost(host, ip)
    ensures Trimmed(Render("https", host, port))
  {
    RenderSplits(host, port);
    var origin, tail := Render("https", host, port), HostAndPort(host, port);
    assert tail != "" && origin[|origin| - 1] == tail[|tail| - 1] && origin[0] == 'h';
    if port == 443 {
      assert tail == Bracketed(host);
    } else {
      assert tail[|tail| - 1] == Itoa(port)[|Itoa(port)| - 1];
    }
  }

  /**
   * Two accepted values have the same normal form exactly when their hosts agree in lower case and
   * their effective ports are equal (section 6.2 of RFC 6454).
   */
  lemma SameFormIffSameHostAndPort(a: string, b: string, ip: string -> bool)
    requires IpTexts(ip) && NormalizePublicOrigin(a, ip).Ok? && NormalizePublicOrigin(b, ip).Ok?
    ensures Parse(Trim(a), ip).Some? && Digits(Parse(Trim(a), ip).value.port)
    ensures Parse(Trim(b), ip).Some? && Digits(Parse(Trim(b), ip).value.port)
    ensures var o, p := Parse(Trim(a), ip).value, Parse(Trim(b), ip).value;
            NormalizePublicOrigin(a, ip) == NormalizePublicOrigin(b, ip) <==>
              Lower(o.host) == Lower(p.host) && EffectivePort(o) == EffectivePort(p)
  {
    var host, port := AcceptedForm(a, ip);
    var host', port' := AcceptedForm(b, ip);
    ParseRender("https", host, port, ip);
    ParseRender("https", host', port', ip);
    AtoiItoa(port);
    AtoiItoa(port');
  }

  // ----- Lists -----

  /** What happens to one origin of a list; lists are treated alike for every such function. */
  type Normal = string -> Result<string, Error>

  function Normalizer(ip: string -> bool): Normal {
    origin => NormalizePublicOrigin(origin, ip)
  }

  /** Accepted origins are their own normal forms. */
  ghost predicate Idempotent(normal: Normal) {
    forall value :: normal(value).Ok? ==> normal(normal(value).value) == normal(value)
  }

  lemma NormalizerIsIdempotent(ip: string -> bool)
    requires IpTexts(ip)
    ensures Idempotent(Normalizer(ip))
  {
    var normal := Normalizer(ip);
    forall value | normal(value).Ok? ensures normal(normal(value).value) == normal(value) {
      NormalizeIsIdempotent(value, ip);
    }
  }

  function NormalizeEach(origins: seq<string>, normal: Normal): Result<seq<string>, Error> {
    CollectDistinct(origins, normal, Duplicate)
  }

  function NormalizeOrigins(origins: seq<string>, normal: Normal): Result<seq<string>, Error> {
    if |origins| > MAXIMUM_PUBLIC_ORIGINS then Err(TooMany) else NormalizeEach(origins, normal)
  }

  /** NormalizePublicOrigins: a result list and the set of what it already holds. */
  method NormalizePublicOrigins(origins: seq<string>, normal: Normal) returns (r: Result<seq<string>, Error>)
    ensures r == NormalizeOrigins(origins, normal)
  {
    if |origins| > MAXIMUM_PUBLIC_ORIGINS {
      return Err(TooMany);
    }
    var result: seq<string> := [];
    var seen: set<string> := {};
    for i := 0 to |origins|
      invariant NormalizeEach(origins[..i], normal) == Ok(result)
      invariant forall o :: o in seen <==> o in result
    {
      assert origins[..i + 1][..i] == origins[..i];
      var origin := normal(origins[i]);
      if origin.Err? {
        CollectedErrorsPersist(origins, normal, Duplicate, i + 1);
        return Err(origin.error);
      }
      if origin.value in seen {
        CollectedErrorsPersist(origins, normal, Duplicate, i + 1);
        return Err(Duplicate);
      }
      seen := seen + {origin.value};
      result := result + [origin.value];
    }
    assert origins[..|origins|] == origins;
    return Ok(result);
  }

  /** A stored allowlist: bounded, free of repetitions, every entry its own normal form. */
  ghost predicate Canonical(origins: seq<string>, normal: Normal) {
    && |origins| <= MAXIMUM_PUBLIC_ORIGINS && Distinct(origins)
    && forall i :: 0 <= i < |origins| ==> normal(origins[i]) == Ok(origins[i])
  }

  /**
   * The list that is saved and the list that is activated coincide: normalizing gives canonical lists
   * and leaves exactly those as they are.
   */
  lemma FixedIffCanonical(origins: seq<string>, normal: Normal)
    requires Idempotent(normal)
    ensures NormalizeOrigins(origins, normal).Ok? ==> Canonical(NormalizeOrigins(origins, normal).value, normal)
    ensures NormalizeOrigins(origins, normal) == Ok(origins) <==> Canonical(origins, normal)
  {
    if NormalizeOrigins(origins, normal).Ok? {
      CollectedAreDistinct(origins, normal, Duplicate);
    }
    if Canonical(origins, normal) {
      DistinctFixedPoints(origins, normal, Duplicate);
    }
  }

  /**
   * A list is accepted exactly when it has at most 16 entries, every one of them is, and no two have the
   * same normal form; it becomes the list of the normal forms.
   */
  lemma ListIsAcceptedIff(origins: seq<string>, normal: Normal)
    ensures var r := NormalizeOrigins(origins, normal);
            && (r.Ok? <==>
                  && |origins| <= 16
                  && (forall i :: 0 <= i < |origins| ==> normal(origins[i]).Ok?)
                  && (forall i, j :: 0 <= i < j < |origins| ==> normal(origins[i]) != normal(origins[j])))
            && (r.Ok? ==>
                  |r.value| == |origins| && forall i :: 0 <= i < |origins| ==> normal(origins[i]) == Ok(r.value[i]))
  {
    if NormalizeEach(origins, normal).Ok? {
      CollectedAreDistinct(origins, normal, Duplicate);
      var r := NormalizeEach(origins, normal).value;
      forall i, j | 0 <= i < j < |origins| ensures normal(origins[i]) != normal(origins[j]) {
        assert r[i] != r[j];
      }
    }
    if (forall i :: 0 <= i < |origins| ==> normal(origins[i]).Ok?)
       && (forall i, j :: 0 <= i < j < |origins| ==> normal(origins[i]) != normal(origins[j])) {
      DistinctAreCollected(origins, normal, Duplicate);
    }
  }

  /** The allowlist the transport policy enforces. */
  class TransportPolicy {
    const behindHttpsProxy: bool
    var publicOrigins: set<string>

    constructor (behindHttpsProxy: bool)
      ensures this.behindHttpsProxy == behindHttpsProxy && publicOrigins == {}
    {
      this.behindHttpsProxy, publicOrigins := behindHttpsProxy, {};
    }

    /** Swap in a new snapshot. */
    method ReplacePublicOrigins(origins: seq<string>)
      modifies this`publicOrigins
      ensures publicOrigins == set o | o in origins
    {
      var values: set<string> := {};
      for i := 0 to |origins|
        invariant values == set o | o in origins[..i]
      {
        assert origins[..i + 1] == origins[..i] + [origins[i]];
        values := values + {origins[i]};
      }
      assert origins[..|origins|] == origins;
      publicOrigins := values;
    }
  }

  /** ValidatePublicOrigins: behind a proxy the list may not be empty. */
  function ValidateOrigins(proxy: bool, origins: seq<string>, normal: Normal): Result<seq<string>, Error> {
    var normalized := NormalizeOrigins(origins, normal);
    if normalized.Ok? && proxy && normalized.value == [] then Err(InvalidOrigin) else normalized
  }
}
