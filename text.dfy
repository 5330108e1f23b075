/** The string operations the source uses: `trim`, `startsWith`, `includes`, `toLowerCase`, `replace`, `toString`, `padStart`. */
module Text {

  /**
   * The characters `String.prototype.trim` removes: the WhiteSpace and
   * LineTerminator code points of ECMAScript (section 12.2 and 12.3 of ECMA-262).
   */
  predicate IsJsSpace(c: char) {
    c == '\t' || c == '\n' || c == '\U{000B}' || c == '\U{000C}' || c == '\r' || c == ' '
    || c == '\U{00A0}' || c == '\U{1680}' || ('\U{2000}' <= c <= '\U{200A}')
    || c == '\U{2028}' || c == '\U{2029}' || c == '\U{202F}' || c == '\U{205F}'
    || c == '\U{3000}' || c == '\U{FEFF}'
  }

  /** `trimStart`: the leading whitespace is dropped and the rest kept. */
  function TrimStart(s: string): (r: string)
    ensures |r| <= |s| && r == s[|s| - |r|..]
    ensures r != [] ==> !IsJsSpace(r[0])
    ensures forall i :: 0 <= i < |s| - |r| ==> IsJsSpace(s[i])
  {
    if s != [] && IsJsSpace(s[0]) then
      var r := TrimStart(s[1..]);
      assert s[1..][|s| - 1 - |r|..] == s[|s| - |r|..];
      r
    else s
  }

  /** `trimEnd`: the trailing whitespace is dropped and the rest kept. */
  function TrimEnd(s: string): (r: string)
    ensures |r| <= |s| && r == s[..|r|]
    ensures r != [] ==> !IsJsSpace(r[|r| - 1])
    ensures forall i :: |r| <= i < |s| ==> IsJsSpace(s[i])
  {
    if s != [] && IsJsSpace(s[|s| - 1]) then
      var r := TrimEnd(s[..|s| - 1]);
      assert s[..|s| - 1][..|r|] == s[..|r|];
      r
    else s
  }

  /**
   * `s.trim()`: whitespace goes from both ends and every other character stays;
   * `TrimIsSlice` shows that what is kept is one contiguous slice of `s`.
   */
  function Trim(s: string): (r: string)
    ensures |r| <= |s|
    ensures r != [] ==> !IsJsSpace(r[0]) && !IsJsSpace(r[|r| - 1])
    ensures forall i :: 0 <= i < |s| && !IsJsSpace(s[i]) ==> s[i] in r
  {
    TrimEndsClean(s);
    TrimStartKeepsNonSpace(s);
    TrimEndKeepsNonSpace(TrimStart(s));
    TrimEnd(TrimStart(s))
  }

  lemma TrimEndsClean(s: string)
    ensures var r := TrimEnd(TrimStart(s));
      r != [] ==> !IsJsSpace(r[0]) && !IsJsSpace(r[|r| - 1])
  {
    var t := TrimStart(s);
    var r := TrimEnd(t);
    if r != [] {
      assert r[0] == t[0];
    }
  }

  /** The number of whitespace characters `trimStart` drops. */
  function LeadingSpace(s: string): (n: nat)
    ensures n <= |s| && TrimStart(s) == s[n..]
  {
    |s| - |TrimStart(s)|
  }

  /** Trimming keeps one contiguous slice of `s`, with only whitespace on either side of it. */
  lemma TrimIsSlice(s: string)
    ensures var r := Trim(s); var a := LeadingSpace(s);
      a + |r| <= |s| && r == s[a..a + |r|] && AllSpace(s[..a]) && AllSpace(s[a + |r|..])
  {
    var r := TrimEnd(TrimStart(s));
    assert Trim(s) == r;
    var a := LeadingSpace(s);
    SpacePrefix(s, a);
    SpaceSuffix(s, a, r);
  }

  lemma SpacePrefix(s: string, a: int)
    requires 0 <= a <= |s|
    requires forall i :: 0 <= i < a ==> IsJsSpace(s[i])
    ensures AllSpace(s[..a])
  {
    var head := s[..a];
    forall i | 0 <= i < |head| ensures IsJsSpace(head[i]) {
      assert head[i] == s[i];
    }
  }

  lemma SpaceSuffix(s: string, a: int, r: string)
    requires 0 <= a <= |s| && |r| <= |s| - a && r == s[a..][..|r|]
    requires forall i :: |r| <= i < |s[a..]| ==> IsJsSpace(s[a..][i])
    ensures r == s[a..a + |r|] && AllSpace(s[a + |r|..])
  {
    var t, tail := s[a..], s[a + |r|..];
    forall i | 0 <= i < |tail| ensures IsJsSpace(tail[i]) {
      assert tail[i] == t[|r| + i];
    }
  }

  lemma TrimStartKeepsNonSpace(s: string)
    ensures forall i :: 0 <= i < |s| && !IsJsSpace(s[i]) ==> s[i] in TrimStart(s)
  {
    forall i | 0 <= i < |s| && !IsJsSpace(s[i]) ensures s[i] in TrimStart(s) {
      TrimStartKeepsAt(s, i);
    }
  }

  lemma TrimStartKeepsAt(s: string, i: int)
    requires 0 <= i < |s| && !IsJsSpace(s[i])
    ensures s[i] in TrimStart(s)
  {
    var t := TrimStart(s);
    var d := |s| - |t|;
    assert i >= d;
    assert t == s[d..];
    assert t[i - d] == s[i];
  }

  lemma TrimEndKeepsNonSpace(s: string)
    ensures forall c :: c in s && !IsJsSpace(c) ==> c in TrimEnd(s)
  {
    var t := TrimEnd(s);
    forall c | c in s && !IsJsSpace(c) ensures c in t {
      var i :| 0 <= i < |s| && s[i] == c;
      assert t[i] == c;
    }
  }

  /** The source's guard `!s.trim()`: nothing is left after trimming. */
  predicate IsBlank(s: string) {
    Trim(s) == ""
  }

  /** Every character is one that `trim` removes. */
  ghost predicate AllSpace(s: string) {
    forall i :: 0 <= i < |s| ==> IsJsSpace(s[i])
  }

  lemma {:induction false} TrimStartEmpty(s: string)
    ensures TrimStart(s) == "" <==> AllSpace(s)
  {
    if s != [] {
      TrimStartEmpty(s[1..]);
      if IsJsSpace(s[0]) {
        assert AllSpace(s) <==> AllSpace(s[1..]) by {
          if AllSpace(s[1..]) {
            forall i | 0 <= i < |s| ensures IsJsSpace(s[i]) {
              if i > 0 { assert s[i] == s[1..][i - 1]; }
            }
          }
        }
      }
    }
  }

  lemma {:induction false} TrimEndKeepsNonSpaceStart(s: string)
    requires s != [] && !IsJsSpace(s[0])
    ensures TrimEnd(s) != ""
  {
    if IsJsSpace(s[|s| - 1]) {
      TrimEndKeepsNonSpaceStart(s[..|s| - 1]);
    }
  }

  /** A title is blank exactly when it is made only of whitespace (the empty title included). */
  lemma BlankIffAllSpace(s: string)
    ensures IsBlank(s) <==> AllSpace(s)
  {
    TrimStartEmpty(s);
    var t := TrimStart(s);
    if t != "" {
      TrimEndKeepsNonSpaceStart(t);
    }
  }

  /** `s.startsWith(prefix)`. */
  predicate StartsWith(s: string, prefix: string) {
    |prefix| <= |s| && s[..|prefix|] == prefix
  }

  /** `s.includes(sub)`: `sub` occurs at some position of `s`. */
  predicate Contains(s: string, sub: string) {
    StartsWith(s, sub) || (s != [] && Contains(s[1..], sub))
  }

  /** `sub` occurs in `s` starting at position `k`. */
  predicate OccursAt(s: string, sub: string, k: int) {
    0 <= k && k + |sub| <= |s| && s[k..k + |sub|] == sub
  }

  /** `Contains` finds exactly the positions where `sub` occurs. */
  lemma {:induction false} ContainsIffOccurs(s: string, sub: string)
    ensures Contains(s, sub) <==> exists k :: OccursAt(s, sub, k)
    decreases |s|
  {
    if s != [] {
      ContainsIffOccurs(s[1..], sub);
      if StartsWith(s, sub) {
        assert OccursAt(s, sub, 0);
      }
      if Contains(s[1..], sub) {
        var k :| OccursAt(s[1..], sub, k);
        assert s[1..][k..k + |sub|] == s[k + 1..k + 1 + |sub|];
        assert OccursAt(s, sub, k + 1);
      }
      if exists k :: OccursAt(s, sub, k) {
        var k :| OccursAt(s, sub, k);
        if k > 0 {
          assert s[1..][k - 1..k - 1 + |sub|] == s[k..k + |sub|];
          assert OccursAt(s[1..], sub, k - 1);
        }
      }
    } else {
      if sub == [] {
        assert OccursAt(s, sub, 0);
      }
      if exists k :: OccursAt(s, sub, k) {
        var k :| OccursAt(s, sub, k);
        assert sub == [];
      }
    }
  }

  /** `toLowerCase` restricted to ASCII letters. */
  function LowerChar(c: char): char {
    if 'A' <= c <= 'Z' then (c as int + 32) as char else c
  }

  function Lower(s: string): (r: string)
    ensures |r| == |s|
    ensures forall i :: 0 <= i < |s| ==> r[i] == LowerChar(s[i])
  {
    if s == [] then [] else [LowerChar(s[0])] + Lower(s[1..])
  }

  /**
   * `s.replace(from, to)` with a one-character string pattern: only the first
   * occurrence is replaced.
   */
  function ReplaceFirst(s: string, from: char, to: char): (r: string)
    ensures |r| == |s|
    ensures forall k :: 0 <= k < |s| ==>
      r[k] == if s[k] == from && from !in s[..k] then to else s[k]
  {
    if s == [] then []
    else if s[0] == from then
      ReplaceAtHead(s, from, to);
      [to] + s[1..]
    else
      var rest := ReplaceFirst(s[1..], from, to);
      ReplaceAfterHead(s, from, to, rest);
      [s[0]] + rest
  }

  lemma ReplaceAtHead(s: string, from: char, to: char)
    requires s != [] && s[0] == from
    ensures forall k :: 0 <= k < |s| ==>
      ([to] + s[1..])[k] == if s[k] == from && from !in s[..k] then to else s[k]
  {
    assert forall k :: 1 <= k < |s| ==> s[..k][0] == from;
  }

  lemma ReplaceAfterHead(s: string, from: char, to: char, rest: string)
    requires s != [] && s[0] != from && |rest| == |s| - 1
    requires forall k :: 0 <= k < |s[1..]| ==>
      rest[k] == if s[1..][k] == from && from !in s[1..][..k] then to else s[1..][k]
    ensures forall k :: 0 <= k < |s| ==>
      ([s[0]] + rest)[k] == if s[k] == from && from !in s[..k] then to else s[k]
  {
    var r := [s[0]] + rest;
    forall k | 1 <= k < |s| ensures r[k] == if s[k] == from && from !in s[..k] then to else s[k] {
      assert s[..k] == [s[0]] + s[1..][..k - 1];
      assert r[k] == rest[k - 1] && s[k] == s[1..][k - 1];
    }
  }

  function DigitChar(d: nat): (c: char)
    requires d < 10
    ensures '0' <= c <= '9' && c as int - '0' as int == d
  {
    "0123456789"[d]
  }

  predicate AllDigits(s: string) {
    forall i :: 0 <= i < |s| ==> '0' <= s[i] <= '9'
  }

  /** Decimal representation of `n` without leading zeros (`n.toString()`). */
  function NatToString(n: nat): (r: string)
    ensures |r| >= 1 && AllDigits(r)
    ensures n < 10 <==> |r| == 1
    ensures n < 100 ==> |r| <= 2
  {
    if n < 10 then [DigitChar(n)] else NatToString(n / 10) + [DigitChar(n % 10)]
  }

  /** The number a string of decimal digits denotes. */
  function DigitsValue(s: string): nat
    requires AllDigits(s)
  {
    if s == [] then 0
    else DigitsValue(s[..|s| - 1]) * 10 + (s[|s| - 1] as int - '0' as int)
  }

  lemma {:induction false} NatToStringRoundTrip(n: nat)
    ensures DigitsValue(NatToString(n)) == n
  {
    if n >= 10 {
      NatToStringRoundTrip(n / 10);
      var r := NatToString(n);
      assert r[..|r| - 1] == NatToString(n / 10);
    }
  }

  lemma {:induction false} LeadingZero(s: string)
    requires AllDigits(s)
    ensures AllDigits("0" + s) && DigitsValue("0" + s) == DigitsValue(s)
  {
    var z := "0" + s;
    if s != [] {
      LeadingZero(s[..|s| - 1]);
      assert z[..|z| - 1] == "0" + s[..|s| - 1];
    }
  }

  /** `n.toString().padStart(2, '0')`. */
  function Pad2(n: nat): (r: string)
    ensures |r| >= 2 && AllDigits(r)
    ensures n < 100 ==> |r| == 2
  {
    if n < 10 then "0" + NatToString(n) else NatToString(n)
  }

  /** Padding never changes the value the digits denote. */
  lemma Pad2Value(n: nat)
    ensures DigitsValue(Pad2(n)) == n
  {
    NatToStringRoundTrip(n);
    if n < 10 {
      LeadingZero(NatToString(n));
    }
  }
}
