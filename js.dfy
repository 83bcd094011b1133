/**
 * The JavaScript built-ins the reporting core relies on, on `string` values:
 * `undefined` as an `Option`, `a || b` on strings, `toLowerCase`, `trim`,
 * `split`, `includes`, `startsWith` and `Number.prototype.toString` on integers,
 * and the order that `Array.prototype.filter` keeps.
 */
module Js {

  /** A value that may be `undefined` (or `null`). */
  datatype Option<+T> = None | Some(value: T)

  /** `o || fallback` for an optional string: `undefined` and `""` are falsy. */
  function OrDefault(o: Option<string>, fallback: string): (r: string)
    ensures r == fallback || (o == Some(r) && r != "")
    ensures o.Some? && o.value != "" ==> r == o.value
  {
    if o.Some? && o.value != "" then o.value else fallback
  }

  /** The truthiness of an optional string. */
  predicate Truthy(o: Option<string>) {
    o.Some? && o.value != ""
  }

  // ---------------------------------------------------------------------------
  // Case mapping

  /** `toLowerCase` on one character; only the ASCII letters are mapped. */
  function LowerChar(c: char): char {
    if 'A' <= c <= 'Z' then (c as int + 32) as char else c
  }

  function Lower(s: string): (r: string)
    ensures |r| == |s|
    ensures forall i :: 0 <= i < |s| ==> r[i] == LowerChar(s[i])
  {
    if s == [] then [] else [LowerChar(s[0])] + Lower(s[1..])
  }

  lemma {:induction false} LowerAppend(a: string, b: string)
    ensures Lower(a + b) == Lower(a) + Lower(b)
  {
    if a == [] {
      assert a + b == b;
    } else {
      assert (a + b)[1..] == a[1..] + b;
      LowerAppend(a[1..], b);
    }
  }

  // ---------------------------------------------------------------------------
  // Whitespace and trim

  /** ECMAScript WhiteSpace and LineTerminator code points: what `trim` removes. */
  predicate IsSpace(c: char) {
    c == '\t' || c == '\n' || c == '\U{B}' || c == '\U{C}' || c == '\r' || c == ' ' ||
    c == '\U{A0}' || c == '\U{1680}' || ('\U{2000}' <= c <= '\U{200A}') ||
    c == '\U{2028}' || c == '\U{2029}' || c == '\U{202F}' || c == '\U{205F}' ||
    c == '\U{3000}' || c == '\U{FEFF}'
  }

  /** Where the run of whitespace that starts at `i` ends: the first non-blank at or after `i`. */
  function SkipSpaces(s: string, i: nat): (j: nat)
    requires i <= |s|
    ensures i <= j <= |s|
    ensures forall k :: i <= k < j ==> IsSpace(s[k])
    ensures j < |s| ==> !IsSpace(s[j])
    decreases |s| - i
  {
    if i < |s| && IsSpace(s[i]) then SkipSpaces(s, i + 1) else i
  }

  /** Where the run of whitespace that ends at `j` starts, looking no further back than `lo`. */
  function SkipSpacesBack(s: string, lo: nat, j: nat): (e: nat)
    requires lo <= j <= |s|
    ensures lo <= e <= j
    ensures forall k :: e <= k < j ==> IsSpace(s[k])
    ensures e > lo ==> !IsSpace(s[e - 1])
    decreases j
  {
    if j > lo && IsSpace(s[j - 1]) then SkipSpacesBack(s, lo, j - 1) else j
  }

  /**
   * `s.trim()`: the infix `s[i..j]` where `i` is the first non-blank
   * character; only whitespace lies outside it, and none is left at either
   * of its ends.
   */
  function Trim(s: string): (r: string)
    ensures var i := SkipSpaces(s, 0);
            i + |r| <= |s| && r == s[i..i + |r|] &&
            (forall k :: 0 <= k < i ==> IsSpace(s[k])) &&
            (forall k :: i + |r| <= k < |s| ==> IsSpace(s[k]))
    ensures r != [] ==> !IsSpace(r[0]) && !IsSpace(r[|r| - 1])
    ensures r == [] <==> forall k :: 0 <= k < |s| ==> IsSpace(s[k])
  {
    var i := SkipSpaces(s, 0);
    s[i..SkipSpacesBack(s, i, |s|)]
  }

  // ---------------------------------------------------------------------------
  // Substrings

  /** `t` occurs in `s` starting at index `k`. */
  predicate OccursAt(s: string, t: string, k: int) {
    0 <= k && k + |t| <= |s| && s[k..k + |t|] == t
  }

  /** `s.includes(t)`. */
  predicate Contains(s: string, t: string) {
    exists k :: 0 <= k <= |s| - |t| && OccursAt(s, t, k)
  }

  lemma PrefixIsContained(s: string, t: string)
    requires t <= s
    ensures Contains(s, t)
  {
    assert OccursAt(s, t, 0);
  }

  lemma ContainsTrans(s: string, t: string, u: string)
    requires Contains(s, t) && Contains(t, u)
    ensures Contains(s, u)
  {
    var k1 :| 0 <= k1 <= |s| - |t| && OccursAt(s, t, k1);
    var k2 :| 0 <= k2 <= |t| - |u| && OccursAt(t, u, k2);
    forall i | 0 <= i < |u| ensures s[k1 + k2 + i] == u[i] {
      assert u[i] == t[k2 + i] == s[k1 + k2 + i];
    }
    assert s[k1 + k2..k1 + k2 + |u|] == u;
    assert OccursAt(s, u, k1 + k2);
  }

  lemma ContainsInTail(s: string, t: string)
    requires s != [] && Contains(s[1..], t)
    ensures Contains(s, t)
  {
    var k :| 0 <= k <= |s[1..]| - |t| && OccursAt(s[1..], t, k);
    assert s[1..][k..k + |t|] == s[k + 1..k + 1 + |t|];
    assert OccursAt(s, t, k + 1);
  }

  // ---------------------------------------------------------------------------
  // split

  /** `s.split(sep)` for a one-character separator: always at least one part. */
  function Split(s: string, sep: char): (parts: seq<string>)
    ensures |parts| >= 1
  {
    if s == [] then [""]
    else if s[0] == sep then [""] + Split(s[1..], sep)
    else
      var rest := Split(s[1..], sep);
      [[s[0]] + rest[0]] + rest[1..]
  }

  /** `parts.join(sep)`, the inverse of `Split`. */
  function Join(parts: seq<string>, sep: char): string
    requires |parts| >= 1
  {
    if |parts| == 1 then parts[0] else parts[0] + [sep] + Join(parts[1..], sep)
  }

  function Last<T>(s: seq<T>): T
    requires |s| >= 1
  {
    s[|s| - 1]
  }

  /** Joining the parts of a split with the same separator gives back the string. */
  lemma {:induction false} SplitJoin(s: string, sep: char)
    ensures Join(Split(s, sep), sep) == s
  {
    if s == [] {
    } else if s[0] == sep {
      SplitJoin(s[1..], sep);
    } else {
      var rest := Split(s[1..], sep);
      SplitJoin(s[1..], sep);
      if |rest| == 1 {
      } else {
        assert Split(s, sep)[1..] == rest[1..];
        assert Join(Split(s, sep), sep) == [s[0]] + rest[0] + [sep] + Join(rest[1..], sep);
      }
    }
  }

  /** No part of a split contains the separator. */
  lemma {:induction false} SplitPartsAvoidSep(s: string, sep: char, i: int)
    requires 0 <= i < |Split(s, sep)|
    ensures sep !in Split(s, sep)[i]
  {
    if s == [] {
    } else if s[0] == sep {
      if i > 0 { SplitPartsAvoidSep(s[1..], sep, i - 1); }
    } else {
      if i == 0 { SplitPartsAvoidSep(s[1..], sep, 0); }
      else { SplitPartsAvoidSep(s[1..], sep, i); }
    }
  }

  /** Every part of a split occurs in the string; the first one is a prefix. */
  lemma {:induction false} SplitPartOccurs(s: string, sep: char, i: int)
    requires 0 <= i < |Split(s, sep)|
    ensures Split(s, sep)[0] <= s
    ensures Contains(s, Split(s, sep)[i])
  {
    if s == [] {
      assert OccursAt(s, "", 0);
    } else if s[0] == sep {
      SplitPartOccurs(s[1..], sep, if i > 0 then i - 1 else 0);
      if i > 0 { ContainsInTail(s, Split(s, sep)[i]); } else { assert OccursAt(s, "", 0); }
    } else {
      var rest := Split(s[1..], sep);
      SplitPartOccurs(s[1..], sep, i);
      if i == 0 { PrefixIsContained(s, Split(s, sep)[0]); }
      else { ContainsInTail(s, Split(s, sep)[i]); }
    }
  }

  lemma {:induction false} SplitWithoutSep(t: string, sep: char)
    requires sep !in t
    ensures Split(t, sep) == [t]
  {
    if t != [] {
      SplitWithoutSep(t[1..], sep);
      assert [t[0]] + t[1..] == t;
    }
  }

  /** A separator followed by separator-free text adds that text as the last part. */
  lemma {:induction false} SplitAppendPart(a: string, sep: char, t: string)
    requires sep !in t
    ensures Split(a + [sep] + t, sep) == Split(a, sep) + [t]
  {
    var s := a + [sep] + t;
    if a == [] {
      assert s[1..] == t;
      SplitWithoutSep(t, sep);
    } else {
      assert s[1..] == a[1..] + [sep] + t;
      SplitAppendPart(a[1..], sep, t);
    }
  }

  // ---------------------------------------------------------------------------
  // Array order

  /** `a` is `b` with some elements dropped and the rest in their order: what `filter` yields. */
  predicate IsSubsequence<T(==)>(a: seq<T>, b: seq<T>)
    decreases |b|
  {
    a == [] || (b != [] && ((a[0] == b[0] && IsSubsequence(a[1..], b[1..])) || IsSubsequence(a, b[1..])))
  }

  // ---------------------------------------------------------------------------
  // Number.prototype.toString on integers

  function DigitChar(d: nat): char
    requires d < 10
  {
    "0123456789"[d]
  }

  predicate IsDigit(c: char) { '0' <= c <= '9' }

  /** The decimal rendering of a natural number, without leading zeros. */
  function NatToString(n: nat): (r: string)
    ensures 1 <= |r| && (n < 10 <==> |r| == 1)
    ensures forall i :: 0 <= i < |r| ==> IsDigit(r[i])
  {
    if n < 10 then [DigitChar(n)] else NatToString(n / 10) + [DigitChar(n % 10)]
  }

  /** The number a string of decimal digits denotes, most significant digit first. */
  function DecimalValue(s: string): int
    requires forall i :: 0 <= i < |s| ==> IsDigit(s[i])
  {
    if s == [] then 0 else 10 * DecimalValue(s[..|s| - 1]) + (s[|s| - 1] as int - '0' as int)
  }

  function IntToString(i: int): string {
    if i < 0 then "-" + NatToString(-i) else NatToString(i)
  }

  /** The rendering denotes the number: reading its digits back gives `n`. */
  lemma {:induction false} NatToStringValue(n: nat)
    ensures DecimalValue(NatToString(n)) == n
  {
    var r := NatToString(n);
    assert DigitChar(n % 10) as int - '0' as int == n % 10;
    if n >= 10 {
      assert r[..|r| - 1] == NatToString(n / 10);
      NatToStringValue(n / 10);
    }
  }

  /** Different numbers have different renderings. */
  lemma {:induction false} NatToStringInjective(m: nat, n: nat)
    requires NatToString(m) == NatToString(n)
    ensures m == n
  {
    if m >= 10 && n >= 10 {
      var rm, rn := NatToString(m), NatToString(n);
      assert rm[..|rm| - 1] == NatToString(m / 10);
      assert rn[..|rn| - 1] == NatToString(n / 10);
      NatToStringInjective(m / 10, n / 10);
      assert DigitChar(m % 10) == rm[|rm| - 1] == DigitChar(n % 10);
    }
  }

  /** A rendering followed by a non-digit can be read back unambiguously. */
  lemma NatToStringDelimited(m: nat, n: nat, c: char, rest1: string, rest2: string)
    requires !IsDigit(c)
    requires NatToString(m) + [c] + rest1 == NatToString(n) + [c] + rest2
    ensures m == n && rest1 == rest2
  {
    var a, b := NatToString(m), NatToString(n);
    var s := a + [c] + rest1;
    var j := if |a| < |b| then |a| else |b|;
    assert s[j] == (b + [c] + rest2)[j];
    assert |a| == |b|;
    assert a == s[..|a|] == b;
    NatToStringInjective(m, n);
    assert rest1 == s[|a| + 1..] == rest2;
  }
}
