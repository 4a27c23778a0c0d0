/**
 * Which management origins are accepted: those with a DNS name or an IP address as host and a port in
 * range, however scheme and host are capitalized, and nothing else.
 */
module OriginNames {
  import opened Common
  import opened Text
  import opened Origins

  predicate NameChar(c: char) {
    'a' <= c <= 'z' || '0' <= c <= '9' || c == '-'
  }

  /** 1 to 63 letters, digits and hyphens, with no hyphen at either end. */
  predicate DnsLabel(name: string) {
    && 1 <= |name| <= 63 && (forall i :: 0 <= i < |name| ==> NameChar(name[i]))
    && name[0] != '-' && name[|name| - 1] != '-'
  }

  function Dotted(labels: seq<string>): string {
    if labels == [] then ""
    else if |labels| == 1 then labels[0]
    else labels[0] + ['.'] + Dotted(labels[1..])
  }

  ghost predicate DnsName(host: string) {
    exists labels: seq<string> :: labels != [] && (forall i :: 0 <= i < |labels| ==> DnsLabel(labels[i]))
                                  && host == Dotted(labels)
  }

  /** A name or an address, of 1 to 253 characters. */
  ghost predicate PublicHost(host: string, ip: string -> bool) {
    1 <= |host| <= 253 && (DnsName(host) || ip(host))
  }

  lemma {:induction false} DottedIsValid(labels: seq<string>)
    requires labels != [] && forall i :: 0 <= i < |labels| ==> DnsLabel(labels[i])
    ensures ValidLabels(Dotted(labels))
  {
    var first, host := labels[0], Dotted(labels);
    assert DnsLabel(first);
    assert ValidLabel(first) by {
      assert forall i :: 0 <= i < |first| ==> NameChar(first[i]) && LabelChar(first[i]);
    }
    if |labels| == 1 {
      assert First(host, '.') == |host| by {
        assert forall i :: 0 <= i < |host| ==> NameChar(host[i]);
      }
      assert host[..|host|] == host;
    } else {
      DottedIsValid(labels[1..]);
      assert forall i :: 0 <= i < |first| ==> host[i] == first[i] && NameChar(first[i]);
      assert host[|first|] == '.' && First(host, '.') == |first|;
      assert host[..|first|] == first && host[|first| + 1..] == Dotted(labels[1..]);
    }
  }

  lemma {:induction false} ValidIsDotted(host: string) returns (labels: seq<string>)
    requires ValidLabels(host)
    ensures labels != [] && (forall i :: 0 <= i < |labels| ==> DnsLabel(labels[i])) && host == Dotted(labels)
  {
    var k := First(host, '.');
    var first := host[..k];
    assert DnsLabel(first) by {
      assert forall i :: 0 <= i < |first| ==> LabelChar(first[i]) && NameChar(first[i]);
    }
    if k == |host| {
      labels := [first];
      assert first == host;
    } else {
      var rest := ValidIsDotted(host[k + 1..]);
      labels := [first] + rest;
      assert labels[1..] == rest;
      assert host == first + ['.'] + host[k + 1..];
    }
  }

  lemma ValidIffPublic(host: string, ip: string -> bool)
    ensures ValidPublicHostname(host, ip) <==> PublicHost(host, ip)
  {
    if ValidLabels(host) {
      var labels := ValidIsDotted(host);
    }
    if DnsName(host) {
      var labels: seq<string> :| labels != [] && (forall i :: 0 <= i < |labels| ==> DnsLabel(labels[i]))
                                 && host == Dotted(labels);
      DottedIsValid(labels);
    }
  }

  function PortNumber(port: string): nat
    requires Digits(port)
  {
    if port == "" then 443 else Atoi(port)
  }

  /** What was read may be a management origin. */
  ghost predicate Acceptable(o: Origin, ip: string -> bool) {
    && o.scheme == "https" && PublicHost(Lower(o.host), ip)
    && Digits(o.port) && 1 <= PortNumber(o.port) <= 65535
  }

  lemma AcceptedIsAcceptable(value: string, ip: string -> bool)
    requires IpTexts(ip) && NormalizePublicOrigin(value, ip).Ok?
    ensures Parse(Trim(value), ip).Some? && Acceptable(Parse(Trim(value), ip).value, ip)
    ensures var o := Parse(Trim(value), ip).value;
            NormalizePublicOrigin(value, ip) == Ok(Render("https", Lower(o.host), PortNumber(o.port)))
  {
    var host, port := AcceptedForm(value, ip);
    ValidIffPublic(host, ip);
  }

  lemma AcceptableIsAccepted(value: string, ip: string -> bool)
    requires IpTexts(ip) && Parse(Trim(value), ip).Some? && Acceptable(Parse(Trim(value), ip).value, ip)
    ensures NormalizePublicOrigin(value, ip).Ok?
  {
    ParsedHost(Trim(value), ip);
    RenderedIsAccepted(Parse(Trim(value), ip).value, ip);
  }

  lemma RenderedIsAccepted(o: Origin, ip: string -> bool)
    requires BracketFree(Lower(o.host)) && Digits(o.port) && Acceptable(o, ip)
    ensures Accept(Canonicalize(o), ip).Ok?
  {
    ValidIffPublic(Lower(o.host), ip);
    HostOfRendered(Lower(o.host), PortNumber(o.port));
  }

  /**
   * Exactly the values that read as an https origin with a public host and a port in range are accepted,
   * and they become that origin with its host in lower case and without the default port.
   */
  lemma AcceptedIffAcceptable(value: string, ip: string -> bool)
    requires IpTexts(ip)
    ensures var o, r := Parse(Trim(value), ip), Normalizer(ip)(value);
            && (r.Ok? <==> o.Some? && Acceptable(o.value, ip))
            && (r.Ok? ==> r == Ok(Render("https", Lower(o.value.host), PortNumber(o.value.port))))
  {
    if Normalizer(ip)(value).Ok? {
      AcceptedIsAcceptable(value, ip);
    } else if Parse(Trim(value), ip).Some? && Acceptable(Parse(Trim(value), ip).value, ip) {
      AcceptableIsAccepted(value, ip);
    }
  }

  // ----- Printed origins -----

  lemma PublicIsPlain(host: string, ip: string -> bool)
    requires IpTexts(ip) && PublicHost(host, ip) && Lower(host) == host
    ensures PlainHost(host, ip) && ValidPublicHostname(host, ip)
  {
    ValidIffPublic(host, ip);
    ValidIsPlain(host, ip);
  }

  /**
   * A printed https origin is its own normal form exactly when its host is a DNS name of valid labels, or
   * an IP address, in lower case and of at most 253 characters.
   */
  lemma PrintedIsFixedIffPublic(host: string, port: nat, ip: string -> bool)
    requires IpTexts(ip) && host != "" && BracketFree(host) && 1 <= port <= 65535
    ensures var origin := Render("https", host, port);
            Normalizer(ip)(origin) == Ok(origin) <==> Lower(host) == host && PublicHost(host, ip)
  {
    var origin := Render("https", host, port);
    if Lower(host) == host && PublicHost(host, ip) {
      PublicIsPlain(host, ip);
      RenderIsFixed(host, port, ip);
    }
    if Normalizer(ip)(origin) == Ok(origin) {
      FixedIsPublic(host, port, ip);
    }
  }

  lemma FixedIsPrinted(origin: string, ip: string -> bool) returns (host: string, port: nat)
    requires IpTexts(ip) && Normalizer(ip)(origin) == Ok(origin)
    ensures origin == Render("https", host, port) && 1 <= port <= 65535
    ensures PlainHost(host, ip) && ValidPublicHostname(host, ip) && host != "" && BracketFree(host)
  {
    host, port := AcceptedForm(origin, ip);
  }

  lemma FixedIsPublic(host: string, port: nat, ip: string -> bool)
    requires IpTexts(ip) && host != "" && BracketFree(host) && 1 <= port <= 65535
    requires Normalizer(ip)(Render("https", host, port)) == Ok(Render("https", host, port))
    ensures Lower(host) == host && PublicHost(host, ip)
  {
    var host', port' := FixedIsPrinted(Render("https", host, port), ip);
    SamePrintedHost(host, port, host', port');
    PlainIsPublic(host', ip);
  }

  lemma PlainIsPublic(host: string, ip: string -> bool)
    requires PlainHost(host, ip) && ValidPublicHostname(host, ip)
    ensures Lower(host) == host && BracketFree(host) && PublicHost(host, ip)
  {
    ValidIffPublic(host, ip);
    PlainIsLower(host, ip);
  }

  lemma SamePrintedHost(host: string, port: nat, host': string, port': nat)
    requires host != "" && BracketFree(host) && 1 <= port <= 65535
    requires host' != "" && BracketFree(host') && 1 <= port' <= 65535
    requires Render("https", host, port) == Render("https", host', port')
    ensures host == host'
  {
    HostOfRendered(host, port);
    HostOfRendered(host', port');
  }

  // ----- Other spellings -----

  predicate SpelledChar(c: char) {
    'a' <= c <= 'z' || 'A' <= c <= 'Z' || '0' <= c <= '9' || c == '-' || c == '.' || c == ':'
  }

  lemma {:induction false} TrimLeftBlank(left: string, s: string)
    requires Blank(left) && s != "" && !IsSpace(s[0])
    ensures TrimLeft(left + s) == s
  {
    if left == "" {
      assert left + s == s;
    } else {
      assert (left + s)[0] == left[0] && (left + s)[1..] == left[1..] + s;
      TrimLeftBlank(left[1..], s);
    }
  }

  lemma {:induction false} TrimRightBlank(s: string, right: string)
    requires Blank(right) && s != "" && !IsSpace(s[|s| - 1])
    ensures TrimRight(s + right) == s
  {
    var all, n := s + right, |right| - 1;
    if right == "" {
      assert all == s;
    } else {
      assert all[|all| - 1] == right[n] && all[..|all| - 1] == s + right[..n];
      TrimRightBlank(s, right[..n]);
    }
  }

  lemma TrimOf(left: string, s: string, right: string)
    requires Blank(left) && Blank(right) && s != "" && !IsSpace(s[0]) && !IsSpace(s[|s| - 1])
    ensures Trim(left + s + right) == s
  {
    assert left + s + right == left + (s + right) && (s + right)[0] == s[0];
    TrimLeftBlank(left, s + right);
    TrimRightBlank(s, right);
  }

  lemma SpelledReads(scheme: string, host: string, port: string, fragment: string, ip: string -> bool)
    requires Lower(scheme) == "https" && fragment in {"", "#"} && Digits(port)
    requires host != "" && (forall i :: 0 <= i < |host| ==> SpelledChar(host[i])) && (':' in host ==> ip(host))
    ensures Parse(scheme + "://" + (Bracketed(host) + Colon(port)) + fragment, ip) == Some(Origin("https", host, port))
  {
    PlainAuthority(host, port, ip);
    PlainAuthorityChars(host, port);
    ParseAuthority(scheme, Bracketed(host) + Colon(port), fragment, ip);
  }

  lemma SpelledIsTrimmed(scheme: string, host: string, port: string, fragment: string)
    requires Lower(scheme) == "https" && fragment in {"", "#"} && Digits(port)
    requires host != "" && forall i :: 0 <= i < |host| ==> SpelledChar(host[i])
    ensures var s := scheme + "://" + (Bracketed(host) + Colon(port)) + fragment;
            s != "" && !IsSpace(s[0]) && !IsSpace(s[|s| - 1])
  {
    var authority := Bracketed(host) + Colon(port);
    var s := scheme + "://" + authority + fragment;
    assert LowerChar(scheme[0]) == Lower(scheme)[0] == 'h';
    assert s[0] == scheme[0];
    assert !IsSpace(authority[|authority| - 1]);
    assert s[|s| - 1] == if fragment == "" then authority[|authority| - 1] else '#';
  }

  /**
   * However scheme and host are capitalized, whatever leading zeros the port has, and with white space
   * around and an empty fragment behind, an origin with a public host and a port in range is accepted in
   * its one normal form.
   */
  lemma SpellingsAreAccepted(left: string, scheme: string, host: string, port: string, fragment: string,
                             right: string, ip: string -> bool)
    requires IpTexts(ip) && Blank(left) && Blank(right) && fragment in {"", "#"}
    requires Lower(scheme) == "https" && Digits(port) && 1 <= PortNumber(port) <= 65535
    requires (forall i :: 0 <= i < |host| ==> SpelledChar(host[i])) && (':' in host ==> ip(host))
    requires PublicHost(Lower(host), ip)
    ensures Normalizer(ip)(left + (scheme + "://" + (Bracketed(host) + Colon(port)) + fragment) + right)
            == Ok(Render("https", Lower(host), PortNumber(port)))
  {
    var s := scheme + "://" + (Bracketed(host) + Colon(port)) + fragment;
    SpelledReads(scheme, host, port, fragment, ip);
    SpelledIsTrimmed(scheme, host, port, fragment);
    TrimOf(left, s, right);
    AcceptedIffAcceptable(left + s + right, ip);
  }
}
