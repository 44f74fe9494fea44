/** The few JavaScript string primitives the application relies on, restricted to
    ASCII: `toLowerCase`, `includes`, `trim` and the decimal `toString` of a
    non-negative integer (used for `Date.now()` based identifiers). */
module Strings {

  // ---------------------------------------------------------------------------
  // toLowerCase

  predicate IsUpper(c: char) {
    'A' <= c <= 'Z'
  }

  /** ASCII lower-casing of one character; every other character is kept. */
  function LowerChar(c: char): (d: char)
    ensures !IsUpper(d)
    ensures IsUpper(c) ==> d as int == c as int + 32
    ensures !IsUpper(c) ==> d == c
  {
    if IsUpper(c) then (c as int + 32) as char else c
  }

  /** `s.toLowerCase()` over ASCII. */
  function ToLower(s: string): (r: string)
    ensures |r| == |s|
    ensures forall i :: 0 <= i < |s| ==> r[i] == LowerChar(s[i])
  {
    seq(|s|, i requires 0 <= i < |s| => LowerChar(s[i]))
  }

  /** Lower-casing twice is lower-casing once. */
  lemma ToLowerIdempotent(s: string)
    ensures ToLower(ToLower(s)) == ToLower(s)
  {
  }

  // ---------------------------------------------------------------------------
  // includes

  /** `sub` occurs in `s` starting at index `i`. */
  predicate OccursAt(s: string, sub: string, i: nat) {
    i + |sub| <= |s| && s[i..i + |sub|] == sub
  }

  /** `s.includes(sub)`: scan `s` from the left for a position where `sub` starts.
      Every string includes the empty string; none includes a longer string, and one
      of the same length only when the two are equal. */
  function Includes(s: string, sub: string): (b: bool)
    ensures sub == [] ==> b
    ensures b ==> |sub| <= |s|
    ensures b && |sub| == |s| ==> sub == s
    decreases |s|
  {
    sub <= s || (s != [] && Includes(s[1..], sub))
  }

  /** Dropping the first character shifts every later occurrence one place left. */
  lemma OccursShift(s: string, sub: string, i: nat)
    requires s != [] && i > 0
    ensures OccursAt(s, sub, i) <==> OccursAt(s[1..], sub, i - 1)
  {
    if i + |sub| <= |s| {
      assert s[1..][i - 1..i - 1 + |sub|] == s[i..i + |sub|];
    }
  }

  /** The scan agrees with the positional definition of an occurrence, in both directions. */
  lemma {:induction false} IncludesIffOccurs(s: string, sub: string)
    ensures Includes(s, sub) <==> exists i: nat :: OccursAt(s, sub, i)
    decreases |s|
  {
    if sub <= s {
      assert OccursAt(s, sub, 0);
    } else if s == [] {
      forall i: nat ensures !OccursAt(s, sub, i) {
        assert OccursAt(s, sub, i) ==> sub <= s;
      }
    } else {
      IncludesIffOccurs(s[1..], sub);
      if Includes(s[1..], sub) {
        var i: nat :| OccursAt(s[1..], sub, i);
        OccursShift(s, sub, i + 1);
      } else {
        forall i: nat ensures !OccursAt(s, sub, i) {
          if i == 0 {
            assert OccursAt(s, sub, i) ==> sub <= s;
          } else {
            OccursShift(s, sub, i);
          }
        }
      }
    }
  }

  /** Every character of an included string occurs in the including one. */
  lemma IncludesCharacters(s: string, sub: string, c: char)
    requires Includes(s, sub) && c in sub
    ensures c in s
  {
    IncludesIffOccurs(s, sub);
    var i: nat :| OccursAt(s, sub, i);
    var k :| 0 <= k < |sub| && sub[k] == c;
    assert s[i + k] == s[i..i + |sub|][k] == c;
  }

  // ---------------------------------------------------------------------------
  // trim

  /** The ASCII members of JavaScript's white-space and line-terminator set:
      space, tab, line feed, vertical tab, form feed and carriage return. */
  predicate IsWhitespace(c: char) {
    c == ' ' || c == '\t' || c == '\n' || c == '\r' || c as int == 11 || c as int == 12
  }

  /** Drops leading white space: the result is a suffix of `s`, what was dropped is all
      white space, and the result does not start with white space. */
  function TrimStart(s: string): (r: string)
    ensures |r| <= |s| && r == s[|s| - |r|..]
    ensures forall i :: 0 <= i < |s| - |r| ==> IsWhitespace(s[i])
    ensures r != [] ==> !IsWhitespace(r[0])
  {
    if s != [] && IsWhitespace(s[0]) then TrimStart(s[1..]) else s
  }

  /** Drops trailing white space: the result is a prefix of `s`, what was dropped is all
      white space, and the result does not end with white space. */
  function TrimEnd(s: string): (r: string)
    ensures |r| <= |s| && r == s[..|r|]
    ensures forall i :: |r| <= i < |s| ==> IsWhitespace(s[i])
    ensures r != [] ==> !IsWhitespace(r[|r| - 1])
  {
    if s != [] && IsWhitespace(s[|s| - 1]) then TrimEnd(s[..|s| - 1]) else s
  }

  /** `s` is `r` surrounded by white space: `r` occurs in `s` at index `k`, and every
      character of `s` before or after that occurrence is white space. */
  predicate PaddedAt(s: string, r: string, k: nat) {
    OccursAt(s, r, k)
    && (forall i :: 0 <= i < k ==> IsWhitespace(s[i]))
    && (forall i :: k + |r| <= i < |s| ==> IsWhitespace(s[i]))
  }

  /** `s.trim()` over ASCII white space: the result is the piece of `s` left after
      dropping white space at both ends. It is empty exactly when `s` is all white
      space; otherwise it neither starts nor ends with white space. */
  function Trim(s: string): (r: string)
    ensures |r| <= |s|
    ensures exists k: nat :: PaddedAt(s, r, k)
    ensures r == [] <==> forall i :: 0 <= i < |s| ==> IsWhitespace(s[i])
    ensures r != [] ==> !IsWhitespace(r[0]) && !IsWhitespace(r[|r| - 1])
  {
    var t := TrimStart(s);
    var r := TrimEnd(t);
    PaddedCompose(s, t, r, |s| - |t|);
    assert r != [] ==> r[0] == t[0];
    assert r == [] ==> t == [];
    r
  }

  /** A white-space-padded piece of a white-space-padded piece of `s` is itself a
      white-space-padded piece of `s`; here the first padding is only in front and the
      second only behind. */
  lemma PaddedCompose(s: string, t: string, r: string, k: nat)
    requires k <= |s| && t == s[k..] && forall i :: 0 <= i < k ==> IsWhitespace(s[i])
    requires |r| <= |t| && r == t[..|r|] && forall i :: |r| <= i < |t| ==> IsWhitespace(t[i])
    ensures PaddedAt(s, r, k)
  {
    assert s[k..k + |r|] == r;
    forall i | k + |r| <= i < |s|
      ensures IsWhitespace(s[i])
    {
      assert s[i] == t[i - k];
    }
  }

  /** Trimming a trimmed string changes nothing. */
  lemma TrimIdempotent(s: string)
    ensures Trim(Trim(s)) == Trim(s)
  {
    var r := Trim(s);
    if r != [] {
      assert TrimStart(r) == r;
      assert TrimEnd(r) == r;
    }
  }

  // ---------------------------------------------------------------------------
  // Number.prototype.toString for non-negative integers

  predicate IsDigit(c: char) {
    '0' <= c <= '9'
  }

  function DigitChar(d: nat): (c: char)
    requires d < 10
    ensures IsDigit(c) && c as int - '0' as int == d
  {
    ('0' as int + d) as char
  }

  /** The decimal representation of `n`, most significant digit first. */
  function NatToString(n: nat): (r: string)
    ensures r != []
    ensures forall i :: 0 <= i < |r| ==> IsDigit(r[i])
    ensures (n < 10) == (|r| == 1)
  {
    if n < 10 then [DigitChar(n)] else NatToString(n / 10) + [DigitChar(n % 10)]
  }

  /** Different numbers print differently. */
  lemma {:induction false} NatToStringInjective(m: nat, n: nat)
    ensures NatToString(m) == NatToString(n) ==> m == n
    decreases m
  {
    if NatToString(m) == NatToString(n) {
      var s := NatToString(m);
      if m < 10 {
        assert s[0] == DigitChar(m) == DigitChar(n);
      } else {
        assert s[|s| - 1] == DigitChar(m % 10) == DigitChar(n % 10);
        assert NatToString(m / 10) == s[..|s| - 1] == NatToString(n / 10);
        NatToStringInjective(m / 10, n / 10);
      }
    }
  }

  /** A separator that occurs in neither of two prefixes splits their concatenations
      uniquely: `x + [sep] + y == x' + [sep] + y'` forces `x == x'` and `y == y'`. */
  lemma SplitAtSeparator(x: string, y: string, x': string, y': string, sep: char)
    requires sep !in x && sep !in x'
    ensures x + [sep] + y == x' + [sep] + y' ==> x == x' && y == y'
  {
    var w, w' := x + [sep] + y, x' + [sep] + y';
    if w == w' {
      assert w[|x|] == sep && w'[|x'|] == sep;
      assert forall i :: 0 <= i < |x| ==> w[i] == x[i] != sep;
      assert forall i :: 0 <= i < |x'| ==> w'[i] == x'[i] != sep;
      assert x == w[..|x|] == w'[..|x'|] == x';
      assert y == w[|x| + 1..] == w'[|x'| + 1..] == y';
    }
  }
}
