/**
  The few pieces of JavaScript string behaviour the service relies on:
  `String.prototype.includes`, the decimal rendering of a non-negative integer
  in a template literal, `s.charAt(0).toUpperCase() + s.slice(1)`, and
  `v || fallback` on an optional string.
 */
module Strings {
  import opened Wrappers

  // ---------------------------------------------------------------------------
  // Substring search
  // ---------------------------------------------------------------------------

  /** `s.includes(sub)`: scans `s` from the left; the empty string is included everywhere. */
  predicate Includes(s: string, sub: string)
    decreases |s|
  {
    sub <= s || (|s| > 0 && Includes(s[1..], sub))
  }

  /** Reference definition: `sub` occurs in `s` starting at index `i`. */
  predicate OccursAt(s: string, sub: string, i: int)
  {
    0 <= i && i + |sub| <= |s| && s[i..i + |sub|] == sub
  }

  /** An occurrence at index `i` is found by the scan. */
  lemma {:induction false} OccursImpliesIncludes(s: string, sub: string, i: int)
    requires OccursAt(s, sub, i)
    ensures Includes(s, sub)
    decreases i
  {
    if i > 0 {
      assert s[1..][i - 1..i - 1 + |sub|] == s[i..i + |sub|];
      OccursImpliesIncludes(s[1..], sub, i - 1);
    } else {
      assert s[..|sub|] == sub;
    }
  }

  /** What the scan finds occurs at some index. */
  lemma {:induction false} IncludesImpliesOccurs(s: string, sub: string)
    requires Includes(s, sub)
    ensures exists i :: OccursAt(s, sub, i)
    decreases |s|
  {
    if sub <= s {
      assert s[0..|sub|] == sub;
      assert OccursAt(s, sub, 0);
    } else {
      IncludesImpliesOccurs(s[1..], sub);
      var i :| OccursAt(s[1..], sub, i);
      assert s[i + 1..i + 1 + |sub|] == s[1..][i..i + |sub|];
      assert OccursAt(s, sub, i + 1);
    }
  }

  /** The scan finds `sub` exactly when it occurs at some index. */
  lemma IncludesIffOccurs(s: string, sub: string)
    ensures Includes(s, sub) <==> exists i :: OccursAt(s, sub, i)
  {
    if Includes(s, sub) {
      IncludesImpliesOccurs(s, sub);
    }
    if exists i :: OccursAt(s, sub, i) {
      var i :| OccursAt(s, sub, i);
      OccursImpliesIncludes(s, sub, i);
    }
  }

  /** A string that lacks one of the characters of `sub` does not include `sub`. */
  lemma MissingCharExcludes(s: string, sub: string, c: char)
    requires c in sub && c !in s
    ensures !Includes(s, sub)
  {
    if Includes(s, sub) {
      IncludesImpliesOccurs(s, sub);
    }
  }

  /** Text added on either side never hides an occurrence. */
  lemma IncludesInConcat(s: string, t: string, sub: string)
    ensures Includes(s, sub) ==> Includes(s + t, sub)
    ensures Includes(t, sub) ==> Includes(s + t, sub)
  {
    IncludesIffOccurs(s, sub);
    IncludesIffOccurs(t, sub);
    IncludesIffOccurs(s + t, sub);
    if Includes(s, sub) {
      var i :| OccursAt(s, sub, i);
      assert (s + t)[i..i + |sub|] == s[i..i + |sub|];
      assert OccursAt(s + t, sub, i);
    }
    if Includes(t, sub) {
      var i :| OccursAt(t, sub, i);
      assert (s + t)[|s| + i..|s| + i + |sub|] == t[i..i + |sub|];
      assert OccursAt(s + t, sub, |s| + i);
    }
  }

  // ---------------------------------------------------------------------------
  // Decimal numerals
  // ---------------------------------------------------------------------------

  predicate IsDigit(c: char)
  {
    '0' <= c <= '9'
  }

  predicate AllDigits(s: string)
  {
    forall i :: 0 <= i < |s| ==> IsDigit(s[i])
  }

  /** The numeral a template literal prints for a non-negative integer: digits, no leading zero. */
  predicate Canonical(s: string)
  {
    |s| > 0 && AllDigits(s) && (s[0] == '0' ==> |s| == 1)
  }

  function DigitChar(d: nat): (c: char)
    requires d < 10
  {
    ('0' as int + d) as char
  }

  function DigitValue(c: char): (d: nat)
    requires IsDigit(c)
  {
    (c as int - '0' as int) as nat
  }

  /** `${n}` for a non-negative integer `n` below 10^21. */
  function Decimal(n: nat): (s: string)
    ensures |s| > 0
    decreases n
  {
    if n < 10 then [DigitChar(n)] else Decimal(n / 10) + [DigitChar(n % 10)]
  }

  /** The value of a string of digits, read most significant digit first. */
  function ParseDecimal(s: string): (n: nat)
    requires AllDigits(s)
  {
    if s == [] then 0 else ParseDecimal(s[..|s| - 1]) * 10 + DigitValue(s[|s| - 1])
  }

  /** Printing a number gives a canonical numeral that reads back as the same number. */
  lemma {:induction false} DecimalRoundTrip(n: nat)
    ensures Canonical(Decimal(n))
    ensures ParseDecimal(Decimal(n)) == n
    decreases n
  {
    var s := Decimal(n);
    if n >= 10 {
      DecimalRoundTrip(n / 10);
      var head := Decimal(n / 10);
      assert s == head + [DigitChar(n % 10)];
      assert s[..|s| - 1] == head;
      assert s[0] == head[0];
    }
  }

  /** A string of digits whose first digit is not zero denotes a positive number. */
  lemma {:induction false} ParseDecimalPositive(s: string)
    requires |s| > 0 && AllDigits(s) && s[0] != '0'
    ensures ParseDecimal(s) >= 1
    decreases |s|
  {
    if |s| > 1 {
      ParseDecimalPositive(s[..|s| - 1]);
    }
  }

  /** Reading a canonical numeral and printing it again gives the same string. */
  lemma {:induction false} CanonicalRoundTrip(s: string)
    requires Canonical(s)
    ensures Decimal(ParseDecimal(s)) == s
    decreases |s|
  {
    if |s| > 1 {
      var init := s[..|s| - 1];
      var n := ParseDecimal(s);
      ParseDecimalPositive(init);
      CanonicalRoundTrip(init);
      assert n / 10 == ParseDecimal(init);
      assert n % 10 == DigitValue(s[|s| - 1]);
      assert s == init + [s[|s| - 1]];
    }
  }

  // ---------------------------------------------------------------------------
  // Small JavaScript idioms
  // ---------------------------------------------------------------------------

  /** `v || fallback` where `v` is an optional string: `undefined` and `""` are both falsy. */
  function OrElse(v: Option<string>, fallback: string): (s: string)
  {
    if v.Some? && v.value != "" then v.value else fallback
  }

  /** `toUpperCase` restricted to one ASCII character. */
  function UpperAscii(c: char): (u: char)
  {
    if 'a' <= c <= 'z' then (c as int - 'a' as int + 'A' as int) as char else c
  }

  /** `s.charAt(0).toUpperCase() + s.slice(1)` for ASCII text. */
  function Capitalize(s: string): (r: string)
  {
    if s == "" then "" else [UpperAscii(s[0])] + s[1..]
  }

  /** Only the first character changes, and it becomes its upper-case letter. */
  lemma CapitalizeChangesOnlyFirst(s: string)
    ensures |Capitalize(s)| == |s|
    ensures |s| > 0 ==> Capitalize(s)[1..] == s[1..]
    ensures |s| > 0 && 'a' <= s[0] <= 'z' ==> Capitalize(s)[0] as int == s[0] as int - ('a' as int - 'A' as int)
    ensures |s| > 0 && !('a' <= s[0] <= 'z') ==> Capitalize(s) == s
  {
    if |s| > 0 && !('a' <= s[0] <= 'z') {
      assert Capitalize(s) == [s[0]] + s[1..];
      assert [s[0]] + s[1..] == s;
    }
  }
}
