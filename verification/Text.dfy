/** The string operations the models share: white space, lower case and lexicographic order. */
module Text {

  /** unicode.IsSpace. */
  predicate IsSpace(c: char) {
    || '\t' <= c <= '\r' || c == ' ' || c == '\U{85}' || c == '\U{A0}' || c == '\U{1680}'
    || '\U{2000}' <= c <= '\U{200A}' || c == '\U{2028}' || c == '\U{2029}' || c == '\U{202F}'
    || c == '\U{205F}' || c == '\U{3000}'
  }

  function TrimLeft(s: string): string {
    if s != [] && IsSpace(s[0]) then TrimLeft(s[1..]) else s
  }

  function TrimRight(s: string): string {
    if s != [] && IsSpace(s[|s| - 1]) then TrimRight(s[..|s| - 1]) else s
  }

  /** strings.TrimSpace. */
  function Trim(s: string): string {
    TrimRight(TrimLeft(s))
  }

  predicate Blank(s: string) {
    forall i :: 0 <= i < |s| ==> IsSpace(s[i])
  }

  predicate Trimmed(s: string) {
    s != [] ==> !IsSpace(s[0]) && !IsSpace(s[|s| - 1])
  }

  lemma {:induction false} TrimLeftSplits(s: string) returns (left: string)
    ensures Blank(left) && s == left + TrimLeft(s)
    ensures TrimLeft(s) != [] ==> !IsSpace(TrimLeft(s)[0])
  {
    if s != [] && IsSpace(s[0]) {
      left := TrimLeftSplits(s[1..]);
      left := [s[0]] + left;
    } else {
      left := [];
    }
  }

  lemma {:induction false} TrimRightSplits(s: string) returns (right: string)
    ensures Blank(right) && s == TrimRight(s) + right
    ensures TrimRight(s) != [] ==> !IsSpace(TrimRight(s)[|TrimRight(s)| - 1])
  {
    if s != [] && IsSpace(s[|s| - 1]) {
      right := TrimRightSplits(s[..|s| - 1]);
      right := right + [s[|s| - 1]];
    } else {
      right := [];
    }
  }

  /** Trimming removes exactly the white space around a text. */
  lemma TrimSplits(s: string) returns (left: string, right: string)
    ensures Blank(left) && Blank(right) && Trimmed(Trim(s)) && s == left + Trim(s) + right
  {
    left := TrimLeftSplits(s);
    right := TrimRightSplits(TrimLeft(s));
    if Trim(s) != [] {
      assert Trim(s)[0] == TrimLeft(s)[0];
    }
  }

  lemma TrimmedIsFixed(s: string)
    requires Trimmed(s)
    ensures Trim(s) == s
  {
  }

  /**
   * unicode.ToLower as far as its result is ASCII: the letters A to Z, the Kelvin sign and the dotted
   * capital I. Other letters are left alone; none of them lowers to an ASCII character.
   */
  function LowerChar(c: char): char {
    if 'A' <= c <= 'Z' then c - 'A' + 'a'
    else if c == '\U{212A}' then 'k'
    else if c == '\U{130}' then 'i'
    else c
  }

  function Lower(s: string): (r: string)
    ensures |r| == |s| && forall i :: 0 <= i < |s| ==> r[i] == LowerChar(s[i])
  {
    seq(|s|, i requires 0 <= i < |s| => LowerChar(s[i]))
  }

  /** Comparison of strings in Go: by code point, a proper prefix first. */
  predicate Less(s: string, t: string) {
    if t == [] then false
    else if s == [] then true
    else s[0] < t[0] || (s[0] == t[0] && Less(s[1..], t[1..]))
  }

  lemma {:induction false} LessIsTotal(s: string, t: string)
    ensures Less(s, t) || Less(t, s) || s == t
  {
    if s != [] && t != [] && s[0] == t[0] {
      LessIsTotal(s[1..], t[1..]);
      assert s == [s[0]] + s[1..] && t == [t[0]] + t[1..];
    }
  }

  lemma {:induction false} LessIsAsymmetric(s: string, t: string)
    requires Less(s, t)
    ensures !Less(t, s) && s != t
  {
    if s != [] && s[0] == t[0] {
      LessIsAsymmetric(s[1..], t[1..]);
    }
  }

  lemma {:induction false} LessIsTransitive(s: string, t: string, u: string)
    requires Less(s, t) && Less(t, u)
    ensures Less(s, u)
  {
    if s != [] && s[0] == t[0] && t[0] == u[0] {
      LessIsTransitive(s[1..], t[1..], u[1..]);
    }
  }

  /** The texts agree up to some position, where s ends or has the smaller character. */
  ghost predicate LexicallyBefore(s: string, t: string) {
    exists k: nat :: AgreeBelow(s, t, k) && (k == |s| || s[k] < t[k])
  }

  predicate AgreeBelow(s: string, t: string, k: nat) {
    k <= |s| && k < |t| && forall i :: 0 <= i < k ==> s[i] == t[i]
  }

  lemma {:induction false} LessIsLexical(s: string, t: string)
    ensures Less(s, t) <==> LexicallyBefore(s, t)
  {
    if s == [] {
      assert t != [] ==> AgreeBelow(s, t, 0);
    } else if t != [] {
      if s[0] != t[0] {
        assert AgreeBelow(s, t, 0);
      } else {
        LessIsLexical(s[1..], t[1..]);
        if Less(s, t) {
          var k: nat :| AgreeBelow(s[1..], t[1..], k) && (k == |s[1..]| || s[1..][k] < t[1..][k]);
          assert forall i :: 0 < i < k + 1 ==> s[i] == s[1..][i - 1] && t[i] == t[1..][i - 1];
          assert AgreeBelow(s, t, k + 1);
        }
        if LexicallyBefore(s, t) {
          var k: nat :| AgreeBelow(s, t, k) && (k == |s| || s[k] < t[k]);
          assert AgreeBelow(s[1..], t[1..], k - 1);
        }
      }
    }
  }

  /** Upper-case letters become the lower-case ones in their place; lower-case texts stay. */
  lemma LowerOfLetters(s: string, t: string)
    requires |s| == |t|
    requires forall i :: 0 <= i < |s| ==>
               || (t[i] == s[i] && !('A' <= s[i] <= 'Z') && s[i] as int < 128)
               || ('A' <= s[i] <= 'Z' && t[i] as int == s[i] as int + 32)
    ensures Lower(s) == t && Lower(t) == t
  {
    forall i | 0 <= i < |s| ensures LowerChar(s[i]) == t[i] && LowerChar(t[i]) == t[i] {
      if 'A' <= s[i] <= 'Z' {
        assert (s[i] - 'A' + 'a') as int == s[i] as int + 32;
      }
    }
  }
}
