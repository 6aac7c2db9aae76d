/** The JavaScript string operations the services rely on: `toLowerCase`, `trim`,
    `includes`, `endsWith`, a global `replace` of a literal pattern by "", and
    integer-to-decimal conversion. */
module Strings {

  // ---------------------------------------------------------------- case

  predicate IsAsciiUpper(c: char) { 'A' <= c <= 'Z' }

  function LowerChar(c: char): (r: char)
    ensures IsAsciiUpper(c) ==> r as int == c as int + 32
    ensures !IsAsciiUpper(c) ==> r == c
  {
    if IsAsciiUpper(c) then (c as int + 32) as char else c
  }

  /** `s.toLowerCase()` restricted to the ASCII letters. */
  function ToLower(s: string): (r: string)
    ensures |r| == |s|
  {
    seq(|s|, i requires 0 <= i < |s| => LowerChar(s[i]))
  }

  /** Lowercasing maps each character on its own and is idempotent. */
  lemma ToLowerIdempotent(s: string)
    ensures forall i :: 0 <= i < |s| ==> ToLower(s)[i] == LowerChar(s[i]) && !IsAsciiUpper(ToLower(s)[i])
    ensures ToLower(ToLower(s)) == ToLower(s)
  {
  }

  predicate IsAsciiLower(c: char) { 'a' <= c <= 'z' }

  function UpperChar(c: char): char {
    if IsAsciiLower(c) then (c as int - 32) as char else c
  }

  /** `s.toUpperCase()` restricted to the ASCII letters. */
  function ToUpper(s: string): (r: string)
    ensures |r| == |s|
  {
    seq(|s|, i requires 0 <= i < |s| => UpperChar(s[i]))
  }

  // ---------------------------------------------------------------- trim

  /** ECMAScript WhiteSpace and LineTerminator code points, the set `trim` strips. */
  predicate IsJsWhitespace(c: char) {
    c == ' ' || c == '\t' || c == '\n' || c == '\r' || c == '\U{000B}' || c == '\U{000C}'
    || c == '\U{00A0}' || c == '\U{1680}' || ('\U{2000}' <= c <= '\U{200A}')
    || c == '\U{2028}' || c == '\U{2029}' || c == '\U{202F}' || c == '\U{205F}'
    || c == '\U{3000}' || c == '\U{FEFF}'
  }

  function TrimStart(s: string): string {
    if s != [] && IsJsWhitespace(s[0]) then TrimStart(s[1..]) else s
  }

  function TrimEnd(s: string): string {
    if s != [] && IsJsWhitespace(s[|s| - 1]) then TrimEnd(s[..|s| - 1]) else s
  }

  /** `s.trim()`. */
  function Trim(s: string): string {
    TrimEnd(TrimStart(s))
  }

  /** `trimStart` drops exactly the leading whitespace. */
  lemma {:induction false} TrimStartShape(s: string)
    ensures var r := TrimStart(s);
      |r| <= |s| && r == s[|s| - |r|..]
      && (r != [] ==> !IsJsWhitespace(r[0]))
      && (forall i :: 0 <= i < |s| - |r| ==> IsJsWhitespace(s[i]))
  {
    if s != [] && IsJsWhitespace(s[0]) {
      var t := s[1..];
      TrimStartShape(t);
      var r := TrimStart(s);
      assert r == TrimStart(t);
      assert t[|t| - |r|..] == s[|s| - |r|..];
      forall i | 0 <= i < |s| - |r|
        ensures IsJsWhitespace(s[i])
      {
        if i > 0 {
          assert s[i] == t[i - 1];
        }
      }
    }
  }

  /** `trimEnd` drops exactly the trailing whitespace. */
  lemma {:induction false} TrimEndShape(s: string)
    ensures var r := TrimEnd(s);
      |r| <= |s| && r == s[..|r|]
      && (r != [] ==> !IsJsWhitespace(r[|r| - 1]))
      && (forall i :: |r| <= i < |s| ==> IsJsWhitespace(s[i]))
  {
    if s != [] && IsJsWhitespace(s[|s| - 1]) {
      TrimEndShape(s[..|s| - 1]);
    }
  }

  /** `trim` returns the infix between the leading and the trailing whitespace: it
      starts and ends with a non-space, and everything it drops is whitespace. */
  lemma TrimShape(s: string)
    ensures exists i, j ::
              && 0 <= i <= j <= |s| && Trim(s) == s[i..j]
              && (forall k :: 0 <= k < i ==> IsJsWhitespace(s[k]))
              && (forall k :: j <= k < |s| ==> IsJsWhitespace(s[k]))
    ensures Trim(s) != [] ==> !IsJsWhitespace(Trim(s)[0]) && !IsJsWhitespace(Trim(s)[|Trim(s)| - 1])
  {
    var t := TrimStart(s);
    TrimStartShape(s);
    TrimEndShape(t);
    var i := |s| - |t|;
    var j := i + |TrimEnd(t)|;
    assert TrimEnd(t) == s[i..j];
    forall k | j <= k < |s|
      ensures IsJsWhitespace(s[k])
    {
      assert s[k] == t[k - i];
    }
    if Trim(s) != [] {
      assert Trim(s)[0] == t[0];
    }
  }

  /** A string with no whitespace at either end is its own trim. */
  lemma TrimUnchanged(s: string)
    requires s != [] ==> !IsJsWhitespace(s[0]) && !IsJsWhitespace(s[|s| - 1])
    ensures Trim(s) == s
  {
  }

  lemma TrimIdempotent(s: string)
    ensures Trim(Trim(s)) == Trim(s)
  {
    TrimShape(s);
    TrimUnchanged(Trim(s));
  }

  // ---------------------------------------------------------------- search

  predicate StartsWith(s: string, p: string) { |p| <= |s| && s[..|p|] == p }

  predicate EndsWith(s: string, p: string) { |p| <= |s| && s[|s| - |p|..] == p }

  predicate OccursAt(s: string, p: string, i: int) {
    0 <= i && i + |p| <= |s| && s[i..i + |p|] == p
  }

  /** `s.includes(p)`. */
  predicate Contains(s: string, p: string) {
    exists i | 0 <= i <= |s| - |p| :: OccursAt(s, p, i)
  }

  lemma ContainsWitness(s: string, p: string, i: int)
    requires OccursAt(s, p, i)
    ensures Contains(s, p)
  {
  }

  /** A pattern found in an infix is found in the whole string. */
  lemma InfixContains(s: string, p: string, i: int, j: int)
    requires 0 <= i <= j <= |s| && Contains(s[i..j], p)
    ensures Contains(s, p)
  {
    var t := s[i..j];
    var k :| 0 <= k <= |t| - |p| && OccursAt(t, p, k);
    forall m | 0 <= m < |p|
      ensures s[i + k + m] == p[m]
    {
      assert t[k + m] == p[m];
    }
    assert s[i + k..i + k + |p|] == p;
    ContainsWitness(s, p, i + k);
  }

  /** A string that contains `q` contains every prefix of `q`. */
  lemma PrefixContains(s: string, q: string, p: string)
    requires Contains(s, q) && StartsWith(q, p)
    ensures Contains(s, p)
  {
    var k :| 0 <= k <= |s| - |q| && OccursAt(s, q, k);
    assert s[k..k + |p|] == s[k..k + |q|][..|p|];
    ContainsWitness(s, p, k);
  }

  // ---------------------------------------------------------------- replace

  /** `s.replace(/p/g, '')` for a literal, non-empty pattern: matches are taken
      leftmost first and do not overlap. */
  function RemoveAll(s: string, p: string): (r: string)
    requires p != []
    ensures |r| <= |s|
    decreases |s|
  {
    if |s| < |p| then s
    else if s[..|p|] == p then RemoveAll(s[|p|..], p)
    else [s[0]] + RemoveAll(s[1..], p)
  }

  const Fence := "```"

  /** A string that does not start with a backtick keeps its first character. */
  lemma RemoveFenceHead(t: string)
    requires t != [] && t[0] != '`'
    ensures RemoveAll(t, Fence) != [] && RemoveAll(t, Fence)[0] == t[0]
  {
  }

  /** A string that does not start with two backticks cannot lose them to the fence removal. */
  lemma RemoveFenceNoDoubleHead(t: string)
    requires !StartsWith(t, "``")
    ensures !StartsWith(RemoveAll(t, Fence), "``")
  {
    if t != [] && t[0] == '`' {
      assert |t| < 2 || t[1] != '`';
      if |t| >= 3 {
        assert t[..3] != Fence;
      }
      var rest := t[1..];
      if rest != [] {
        RemoveFenceHead(rest);
      }
    } else if t != [] {
      RemoveFenceHead(t);
    }
  }

  lemma NoOccurrenceInShort(s: string, p: string)
    requires |s| < |p|
    ensures !Contains(s, p)
  {
  }

  /** Putting one character in front of a fence-free string creates no fence, unless it
      is a backtick in front of two more. */
  lemma FenceFreeCons(c: char, x: string)
    requires !Contains(x, Fence)
    requires c == '`' ==> !StartsWith(x, "``")
    ensures !Contains([c] + x, Fence)
  {
    var r := [c] + x;
    forall i | 0 <= i <= |r| - 3
      ensures !OccursAt(r, Fence, i)
    {
      if i > 0 {
        assert r[i..i + 3] == x[i - 1..i + 2];
        assert !OccursAt(x, Fence, i - 1);
      } else {
        assert r[0] == c && r[1..3] == x[..2];
      }
    }
  }

  /** After `replace(/```/g, '')` no fence is left, even where removals bring backticks together. */
  lemma {:induction false} RemoveFenceComplete(s: string)
    ensures !Contains(RemoveAll(s, Fence), Fence)
    decreases |s|
  {
    if |s| < 3 {
      NoOccurrenceInShort(s, Fence);
    } else if s[..3] == Fence {
      RemoveFenceComplete(s[3..]);
    } else {
      var rest := s[1..];
      RemoveFenceComplete(rest);
      if s[0] == '`' {
        assert !StartsWith(rest, "``") by {
          assert s[..3] == [s[0], s[1], s[2]];
        }
        RemoveFenceNoDoubleHead(rest);
      }
      FenceFreeCons(s[0], RemoveAll(rest, Fence));
    }
  }

  // ---------------------------------------------------------------- numbers

  function DigitChar(d: nat): (c: char)
    requires d < 10
  {
    "0123456789"[d]
  }

  /** `n.toString()` for a natural number. */
  function NatToString(n: nat): (r: string)
    ensures r != []
    ensures forall i :: 0 <= i < |r| ==> '0' <= r[i] <= '9'
    decreases n
  {
    if n < 10 then [DigitChar(n)] else NatToString(n / 10) + [DigitChar(n % 10)]
  }

  /** `String(n)` for an integer. */
  function IntToString(n: int): (r: string)
    ensures r != []
  {
    if n < 0 then "-" + NatToString(-n) else NatToString(n)
  }
}
