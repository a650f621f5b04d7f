/** The few pieces of JavaScript string semantics the core relies on:
    the `\s` character class (which is also what `String.prototype.trim`
    strips), `trim`, ASCII lower-casing, `includes`, and the decimal
    rendering of an integer in a template literal. */
module JsText {

  /** The characters matched by `\s` in a JavaScript regular expression:
      the WhiteSpace and LineTerminator code points of ECMAScript. */
  predicate IsJsSpace(c: char) {
    var n := c as int;
    n == 0x09 || n == 0x0A || n == 0x0B || n == 0x0C || n == 0x0D || n == 0x20
    || n == 0xA0 || n == 0x1680 || (0x2000 <= n <= 0x200A) || n == 0x2028
    || n == 0x2029 || n == 0x202F || n == 0x205F || n == 0x3000 || n == 0xFEFF
  }

  /** The characters `.` refuses to match in a regular expression without
      the `s` flag. */
  predicate IsLineTerminator(c: char) {
    var n := c as int;
    n == 0x0A || n == 0x0D || n == 0x2028 || n == 0x2029
  }

  function TrimStart(s: string): string {
    if s != [] && IsJsSpace(s[0]) then TrimStart(s[1..]) else s
  }

  /** `TrimStart` drops exactly the leading white space. */
  lemma {:induction false} TrimStartDropsLeadingSpace(s: string)
    ensures var r := TrimStart(s);
      |r| <= |s| && r == s[|s| - |r|..] && (r != [] ==> !IsJsSpace(r[0])) &&
      forall i :: 0 <= i < |s| - |r| ==> IsJsSpace(s[i])
  {
    if s != [] && IsJsSpace(s[0]) {
      var t := s[1..];
      TrimStartDropsLeadingSpace(t);
      var r := TrimStart(t);
      assert TrimStart(s) == r;
      assert r == s[|s| - |r|..] by { assert t[|t| - |r|..] == s[|s| - |r|..]; }
      forall i | 0 <= i < |s| - |r| ensures IsJsSpace(s[i]) {
        if i > 0 {
          assert s[i] == t[i - 1];
        }
      }
    }
  }

  function TrimEnd(s: string): string {
    if s != [] && IsJsSpace(s[|s| - 1]) then TrimEnd(s[..|s| - 1]) else s
  }

  /** `TrimEnd` drops exactly the trailing white space. */
  lemma {:induction false} TrimEndDropsTrailingSpace(s: string)
    ensures var r := TrimEnd(s);
      |r| <= |s| && r == s[..|r|] && (r != [] ==> !IsJsSpace(r[|r| - 1])) &&
      forall i :: |r| <= i < |s| ==> IsJsSpace(s[i])
  {
    if s != [] && IsJsSpace(s[|s| - 1]) {
      TrimEndDropsTrailingSpace(s[..|s| - 1]);
    }
  }

  /** `s` is `r` with only white space added in front of it and after it. */
  predicate PaddedBySpace(s: string, r: string, k: int) {
    OccursAt(s, r, k) &&
    (forall i :: 0 <= i < k ==> IsJsSpace(s[i])) &&
    (forall i :: k + |r| <= i < |s| ==> IsJsSpace(s[i]))
  }

  /** `s.trim()`: leading and trailing white space removed, and nothing
      else. The result is the only substring with both properties. */
  function Trim(s: string): (r: string)
    ensures r != [] ==> !IsJsSpace(r[0]) && !IsJsSpace(r[|r| - 1])
    ensures r == [] <==> forall i :: 0 <= i < |s| ==> IsJsSpace(s[i])
    ensures exists k :: PaddedBySpace(s, r, k)
  {
    var t := TrimStart(s);
    var r := TrimEnd(t);
    TrimStartDropsLeadingSpace(s);
    TrimEndDropsTrailingSpace(t);
    assert r == s[|s| - |t|..][..|r|];
    assert PaddedBySpace(s, r, |s| - |t|) by {
      forall i | |s| - |t| + |r| <= i < |s| ensures IsJsSpace(s[i]) {
        assert s[i] == t[i - (|s| - |t|)];
      }
    }
    r
  }

  /** Trimming keeps the inner text: any string of the form
      space + `r` + space, where `r` neither starts nor ends with white
      space, trims to exactly `r`. */
  lemma {:induction false} TrimUnpads(s: string, r: string, k: int)
    requires PaddedBySpace(s, r, k)
    requires r != [] ==> !IsJsSpace(r[0]) && !IsJsSpace(r[|r| - 1])
    ensures Trim(s) == r
  {
    var t := Trim(s);
    var m :| PaddedBySpace(s, t, m);
    if r == [] {
      assert forall i :: 0 <= i < |s| ==> IsJsSpace(s[i]) by {
        forall i | 0 <= i < |s| ensures IsJsSpace(s[i]) {
          if i >= k + |r| {
          }
        }
      }
    } else {
      assert !IsJsSpace(s[k]) by { assert s[k] == r[0]; }
      assert !IsJsSpace(s[k + |r| - 1]) by { assert s[k + |r| - 1] == r[|r| - 1]; }
      assert t != [];
      assert !IsJsSpace(s[m]) by { assert s[m] == t[0]; }
      assert !IsJsSpace(s[m + |t| - 1]) by { assert s[m + |t| - 1] == t[|t| - 1]; }
      assert m == k;
      assert m + |t| == k + |r|;
    }
  }

  function LowerChar(c: char): (d: char)
    ensures 'A' <= c <= 'Z' ==> d as int == c as int + 32
    ensures !('A' <= c <= 'Z') ==> d == c
  {
    if 'A' <= c <= 'Z' then (c as int + 32) as char else c
  }

  /** `s.toLowerCase()` restricted to ASCII letters. */
  function Lower(s: string): (r: string)
    ensures |r| == |s|
    ensures forall i :: 0 <= i < |s| ==> r[i] == LowerChar(s[i])
  {
    if s == [] then [] else [LowerChar(s[0])] + Lower(s[1..])
  }

  /** `needle` occurs in `hay` starting at index `k`. */
  predicate OccursAt(hay: string, needle: string, k: int) {
    0 <= k <= |hay| - |needle| && hay[k..k + |needle|] == needle
  }

  /** `hay.includes(needle)`. */
  predicate Contains(hay: string, needle: string) {
    exists k | 0 <= k <= |hay| :: OccursAt(hay, needle, k)
  }

  function DigitChar(d: nat): (c: char)
    requires d < 10
    ensures '0' <= c <= '9' && c as int - '0' as int == d
  {
    ('0' as int + d) as char
  }

  /** The number a string of decimal digits denotes, most significant
      digit first. */
  function DigitsValue(r: string): nat
    requires forall i :: 0 <= i < |r| ==> '0' <= r[i] <= '9'
  {
    if r == [] then 0
    else DigitsValue(r[..|r| - 1]) * 10 + (r[|r| - 1] as int - '0' as int)
  }

  /** The decimal digits of `n`: they denote `n`, and there is no leading
      zero except in "0" itself. */
  function NatDecimal(n: nat): (r: string)
    ensures r != []
    ensures forall i :: 0 <= i < |r| ==> '0' <= r[i] <= '9'
    ensures DigitsValue(r) == n
    ensures r[0] == '0' ==> r == "0"
    decreases n
  {
    if n < 10 then [DigitChar(n)]
    else
      var a := NatDecimal(n / 10);
      var r := a + [DigitChar(n % 10)];
      assert r[..|r| - 1] == a;
      r
  }

  /** Reads back what `Decimal` prints: an optional '-' and digits. */
  function DecimalValue(r: string): int
    requires r != []
    requires forall i :: 0 < i < |r| ==> '0' <= r[i] <= '9'
    requires r[0] != '-' ==> '0' <= r[0] <= '9'
  {
    if r[0] == '-' then -(DigitsValue(r[1..]) as int) else DigitsValue(r)
  }

  /** `${n}` for an integer-valued number: a '-' exactly for negative
      numbers, then the digits of the magnitude, which read back as `n`. */
  function Decimal(n: int): (r: string)
    ensures r != []
    ensures r[0] == '-' <==> n < 0
    ensures forall i :: 0 < i < |r| ==> '0' <= r[i] <= '9'
    ensures r[0] != '-' ==> '0' <= r[0] <= '9'
    ensures DecimalValue(r) == n
  {
    if n < 0 then
      var r := "-" + NatDecimal(-n);
      assert r[1..] == NatDecimal(-n);
      r
    else NatDecimal(n)
  }

  /** Two numbers as a template literal prints them. */
  lemma DecimalExamples()
    ensures Decimal(10) == "10"
    ensures Decimal(-5) == "-5"
  {
    assert NatDecimal(1) == "1" && NatDecimal(0) == "0";
    assert NatDecimal(5) == "5";
  }

  /** Different numbers print differently. */
  lemma DecimalInjective(m: int, n: int)
    ensures Decimal(m) == Decimal(n) <==> m == n
  {
    if Decimal(m) == Decimal(n) {
      assert DecimalValue(Decimal(m)) == DecimalValue(Decimal(n));
    }
  }
}
