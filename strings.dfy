// The JavaScript string operations the source relies on: `indexOf`,
// `lastIndexOf`, the first and last pieces of `split`, `trim`, and the
// decimal rendering of an integer in a template literal.
module Strings {

  /** `s.indexOf(c)`: the first position of c, or -1. */
  function IndexOf(s: string, c: char): (r: int)
    ensures -1 <= r < |s|
    ensures r == -1 <==> c !in s
    ensures r >= 0 ==> s[r] == c && c !in s[..r]
  {
    if s == [] then -1
    else if s[0] == c then 0
    else
      var k := IndexOf(s[1..], c);
      assert s == [s[0]] + s[1..];
      if k < 0 then -1
      else
        assert s[..k + 1] == [s[0]] + s[1..][..k];
        k + 1
  }

  /** `s.lastIndexOf(c)`: the last position of c, or -1. */
  function LastIndexOf(s: string, c: char): (r: int)
    ensures -1 <= r < |s|
    ensures r == -1 <==> c !in s
    ensures r >= 0 ==> s[r] == c && c !in s[r + 1..]
  {
    if s == [] then -1
    else if s[|s| - 1] == c then |s| - 1
    else
      var init := s[..|s| - 1];
      var k := LastIndexOf(init, c);
      assert s == init + [s[|s| - 1]];
      if k >= 0 then
        assert s[k + 1..] == init[k + 1..] + [s[|s| - 1]];
        k
      else -1
  }

  /** r occurs in s as one contiguous run of characters. */
  ghost predicate IsInfix(r: string, s: string) {
    exists a :: 0 <= a <= |s| && r <= s[a..]
  }

  /** `s.split(c)[0]`: the text before the first c, or all of s. */
  function BeforeFirst(s: string, c: char): (r: string)
    ensures c !in r
    ensures r <= s
    ensures c in s ==> s[|r|] == c
    ensures c !in s ==> r == s
  {
    var i := IndexOf(s, c);
    if i < 0 then s else s[..i]
  }

  /** The text before the first c of head + [c] + tail is head, when head has no c. */
  lemma BeforeFirstAt(head: string, c: char, tail: string)
    requires c !in head
    ensures BeforeFirst(head + [c] + tail, c) == head
  {
    var s := head + [c] + tail;
    var r := BeforeFirst(s, c);
    assert s[|head|] == c;
  }

  /** `s.split(c).pop()`: the text after the last c, or all of s. */
  function AfterLast(s: string, c: char): (r: string)
    ensures c !in r
    ensures |r| <= |s| && r == s[|s| - |r|..]
    ensures c in s ==> s[|s| - |r| - 1] == c
    ensures c !in s ==> r == s
  {
    var i := LastIndexOf(s, c);
    if i < 0 then s else s[i + 1..]
  }

  /**
   * The characters `String.prototype.trim` removes: the ECMAScript
   * WhiteSpace (tab, vertical tab, form feed, space, no-break space, the
   * byte-order mark and the Unicode space separators) and LineTerminator
   * (line feed, carriage return, line and paragraph separators) sets.
   */
  predicate IsWhitespace(ch: char) {
    || ch == '\t' || ch == '\U{000B}' || ch == '\U{000C}' || ch == ' '
    || ch == '\U{00A0}' || ch == '\U{FEFF}' || ch == '\n' || ch == '\r'
    || ch == '\U{2028}' || ch == '\U{2029}' || ch == '\U{1680}'
    || ('\U{2000}' <= ch <= '\U{200A}') || ch == '\U{202F}' || ch == '\U{205F}'
    || ch == '\U{3000}'
  }

  function TrimStart(s: string): (r: string)
    ensures |r| <= |s| && r == s[|s| - |r|..]
    ensures r != [] ==> !IsWhitespace(r[0])
    ensures forall i :: 0 <= i < |s| - |r| ==> IsWhitespace(s[i])
  {
    if s != [] && IsWhitespace(s[0]) then TrimStart(s[1..]) else s
  }

  function TrimEnd(s: string): (r: string)
    ensures r <= s
    ensures r != [] ==> !IsWhitespace(r[|r| - 1])
    ensures forall i :: |r| <= i < |s| ==> IsWhitespace(s[i])
  {
    if s != [] && IsWhitespace(s[|s| - 1]) then TrimEnd(s[..|s| - 1]) else s
  }

  /** r is the piece of s at offset a, and everything of s around it is whitespace. */
  ghost predicate IsTrimAt(r: string, s: string, a: int) {
    && 0 <= a && a + |r| <= |s| && r == s[a..a + |r|]
    && (forall i :: 0 <= i < a ==> IsWhitespace(s[i]))
    && (forall i :: a + |r| <= i < |s| ==> IsWhitespace(s[i]))
  }

  /** r is s with a run of whitespace removed from each end. */
  ghost predicate IsTrimOf(r: string, s: string) {
    exists a :: IsTrimAt(r, s, a)
  }

  /** `s.trim()`: s without its leading and trailing whitespace. */
  function Trim(s: string): (r: string)
    ensures r != [] ==> !IsWhitespace(r[0]) && !IsWhitespace(r[|r| - 1])
    ensures IsTrimOf(r, s)
    ensures IsInfix(r, s)
    ensures forall ch :: ch in r ==> ch in s
  {
    var t := TrimStart(s);
    var r := TrimEnd(t);
    TrimAtOfParts(s, t, r);
    TrimAtInfix(r, s, |s| - |t|);
    r
  }

  /**
   * Cutting whitespace off the start of s, giving t, and then off the end
   * of t, giving r, cuts only whitespace off s around r.
   */
  lemma TrimAtOfParts(s: string, t: string, r: string)
    requires |t| <= |s| && t == s[|s| - |t|..]
    requires forall i :: 0 <= i < |s| - |t| ==> IsWhitespace(s[i])
    requires r <= t
    requires forall i :: |r| <= i < |t| ==> IsWhitespace(t[i])
    requires t != [] ==> !IsWhitespace(t[0])
    requires r != [] ==> !IsWhitespace(r[|r| - 1])
    ensures IsTrimAt(r, s, |s| - |t|) && IsTrimOf(r, s)
    ensures r != [] ==> !IsWhitespace(r[0]) && !IsWhitespace(r[|r| - 1])
  {
    if r != [] {
      assert r[0] == t[0];
    }
    var a := |s| - |t|;
    assert r == s[a..a + |r|];
    forall i | a + |r| <= i < |s| ensures IsWhitespace(s[i]) {
      assert s[i] == t[i - a];
    }
    assert IsTrimAt(r, s, a);
  }

  /** A piece cut out of s at an offset occurs in s. */
  lemma TrimAtInfix(r: string, s: string, a: int)
    requires IsTrimAt(r, s, a)
    ensures IsInfix(r, s)
    ensures forall ch :: ch in r ==> ch in s
  {
    assert r <= s[a..];
    forall ch | ch in r ensures ch in s {
      var i :| 0 <= i < |r| && r[i] == ch;
      assert s[a + i] == ch;
    }
  }

  /**
   * The characterisation pins the value: a piece of s with only whitespace
   * cut from its ends, and no whitespace left at its own ends, is `s.trim()`.
   */
  lemma TrimUnique(r: string, s: string)
    requires IsTrimOf(r, s)
    requires r != [] ==> !IsWhitespace(r[0]) && !IsWhitespace(r[|r| - 1])
    ensures r == Trim(s)
  {
    var t := Trim(s);
    var a :| IsTrimAt(r, s, a);
    var b :| IsTrimAt(t, s, b);
    TrimAtUnique(r, t, s, a, b);
  }

  /** Two pieces of s, each with only whitespace around it and none at its own ends, are one. */
  lemma TrimAtUnique(r: string, t: string, s: string, a: int, b: int)
    requires IsTrimAt(r, s, a) && IsTrimAt(t, s, b)
    requires r != [] ==> !IsWhitespace(r[0]) && !IsWhitespace(r[|r| - 1])
    requires t != [] ==> !IsWhitespace(t[0]) && !IsWhitespace(t[|t| - 1])
    ensures r == t
  {
    if r == [] {
      if t != [] {
        assert false;
      }
    } else if t == [] {
      assert false;
    } else {
      assert r[0] == s[a] && t[0] == s[b];
      assert a == b;
      assert r[|r| - 1] == s[a + |r| - 1] && t[|t| - 1] == s[b + |t| - 1];
      assert |r| == |t|;
    }
  }

  /** Trimming a trimmed string changes nothing. */
  lemma TrimIdempotent(s: string)
    ensures Trim(Trim(s)) == Trim(s)
  {
    var r := Trim(s);
    assert TrimStart(r) == r;
    assert TrimEnd(r) == r;
  }

  // ---------------------------------------------------------------------------
  // Decimal rendering, as `${n}` renders an integer-valued number.

  function DigitChar(d: nat): (c: char)
    requires d < 10
    ensures '0' <= c <= '9'
  {
    ('0' as int + d) as char
  }

  function DigitValue(c: char): nat
    requires '0' <= c <= '9'
  {
    (c as int - '0' as int) as nat
  }

  predicate IsDigits(s: string) {
    forall i :: 0 <= i < |s| ==> '0' <= s[i] <= '9'
  }

  /** The number a string of decimal digits denotes. */
  function DigitsValue(s: string): nat
    requires IsDigits(s)
  {
    if s == [] then 0 else DigitsValue(s[..|s| - 1]) * 10 + DigitValue(s[|s| - 1])
  }

  /** The shortest decimal numeral of n. */
  function NatToString(n: nat): (r: string)
    ensures r != [] && IsDigits(r)
    ensures r[0] == '0' ==> n == 0 && r == "0"
  {
    if n < 10 then [DigitChar(n)]
    else NatToString(n / 10) + [DigitChar(n % 10)]
  }

  /** Reading the numeral back gives the number. */
  lemma {:induction false} NatToStringValue(n: nat)
    ensures DigitsValue(NatToString(n)) == n
  {
    var r := NatToString(n);
    if n < 10 {
      assert r[..0] == [];
      assert DigitValue(DigitChar(n)) == n;
    } else {
      NatToStringValue(n / 10);
      assert r[..|r| - 1] == NatToString(n / 10);
      assert DigitValue(DigitChar(n % 10)) == n % 10;
    }
  }

  /** `${i}` for an integer i: a minus sign before the numeral of a negative value. */
  function IntToString(i: int): (r: string)
    ensures r != [] && (r[0] == '-' <==> i < 0)
  {
    if i < 0 then "-" + NatToString(-i) else NatToString(i)
  }
}
