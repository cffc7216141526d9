/**
 * The JavaScript string operations the widget relies on: `trim`,
 * `toLowerCase` (on ASCII letters) and `includes`.
 */
module Strings {

  /** The characters `String.prototype.trim` removes: white space and line terminators. */
  predicate IsSpace(c: char) {
    || c == ' ' || c == '\t' || c == '\n' || c == '\r'
    || c == '\U{000B}' || c == '\U{000C}' || c == '\U{00A0}' || c == '\U{FEFF}'
    || c == '\U{1680}' || ('\U{2000}' <= c <= '\U{200A}')
    || c == '\U{2028}' || c == '\U{2029}' || c == '\U{202F}' || c == '\U{205F}'
    || c == '\U{3000}'
  }

  predicate IsUpper(c: char) {
    'A' <= c <= 'Z'
  }

  predicate AllSpace(s: string) {
    forall i :: 0 <= i < |s| ==> IsSpace(s[i])
  }

  /** Neither end of `s` is white space. */
  predicate Trimmed(s: string) {
    s == [] || (!IsSpace(s[0]) && !IsSpace(s[|s| - 1]))
  }

  /**
   * `s.trim()`: white space is dropped from the front, then from the back,
   * until neither end is white space.
   */
  function Trim(s: string): (r: string)
    ensures Trimmed(r)
    decreases |s|
  {
    if s != [] && IsSpace(s[0]) then Trim(s[1..])
    else if s != [] && IsSpace(s[|s| - 1]) then Trim(s[..|s| - 1])
    else s
  }

  /** `s` is white space, then `Trim(s)`, then white space. */
  lemma {:induction false} TrimSlice(s: string)
    ensures exists a, b :: 0 <= a <= b <= |s| && Trim(s) == s[a..b] && AllSpace(s[..a]) && AllSpace(s[b..])
    decreases |s|
  {
    if s != [] && IsSpace(s[0]) {
      var t := s[1..];
      TrimSlice(t);
      var a, b :| 0 <= a <= b <= |t| && Trim(t) == t[a..b] && AllSpace(t[..a]) && AllSpace(t[b..]);
      DropFrontSlices(s, a, b);
      AllSpaceConcat([s[0]], t[..a]);
      assert Trim(s) == s[a + 1..b + 1];
    } else if s != [] && IsSpace(s[|s| - 1]) {
      var t := s[..|s| - 1];
      TrimSlice(t);
      var a, b :| 0 <= a <= b <= |t| && Trim(t) == t[a..b] && AllSpace(t[..a]) && AllSpace(t[b..]);
      DropBackSlices(s, a, b);
      AllSpaceConcat(t[b..], [s[|s| - 1]]);
      assert Trim(s) == s[a..b];
    } else {
      assert s[0..|s|] == s && s[..0] == [] && s[|s|..] == [];
    }
  }

  lemma AllSpaceConcat(x: string, y: string)
    ensures AllSpace(x + y) <==> AllSpace(x) && AllSpace(y)
  {
    if AllSpace(x) && AllSpace(y) {
      forall i | 0 <= i < |x + y| ensures IsSpace((x + y)[i]) {
        if i >= |x| {
          assert (x + y)[i] == y[i - |x|];
        }
      }
    }
    if AllSpace(x + y) {
      forall i | 0 <= i < |x| ensures IsSpace(x[i]) {
        assert (x + y)[i] == x[i];
      }
      forall i | 0 <= i < |y| ensures IsSpace(y[i]) {
        assert (x + y)[i + |x|] == y[i];
      }
    }
  }

  /** Slices of `s[1..]` are slices of `s` shifted by one. */
  lemma DropFrontSlices(s: string, a: nat, b: nat)
    requires s != [] && a <= b <= |s| - 1
    ensures s[1..][a..b] == s[a + 1..b + 1]
    ensures s[..a + 1] == [s[0]] + s[1..][..a]
    ensures s[1..][b..] == s[b + 1..]
  {
  }

  /** Slices of `s` without its last character are slices of `s`. */
  lemma DropBackSlices(s: string, a: nat, b: nat)
    requires s != [] && a <= b <= |s| - 1
    ensures s[..|s| - 1][a..b] == s[a..b]
    ensures s[..|s| - 1][..a] == s[..a]
    ensures s[b..] == s[..|s| - 1][b..] + [s[|s| - 1]]
  {
  }

  lemma TrimOfTrimmed(s: string)
    requires Trimmed(s)
    ensures Trim(s) == s
  {
  }

  /** White space in front of a string is all dropped: `(w + t).trim()` is `t.trim()`. */
  lemma {:induction false} TrimDropsLeadingSpace(w: string, t: string)
    requires AllSpace(w)
    ensures Trim(w + t) == Trim(t)
    decreases |w|
  {
    if w == [] {
      assert w + t == t;
    } else {
      assert IsSpace((w + t)[0]);
      assert Trim(w + t) == Trim((w + t)[1..]);
      assert (w + t)[1..] == w[1..] + t;
      assert AllSpace(w[1..]) by {
        assert forall i :: 0 <= i < |w| - 1 ==> w[1..][i] == w[i + 1];
      }
      TrimDropsLeadingSpace(w[1..], t);
    }
  }

  /** A string trims to "" exactly when it is all white space. */
  lemma {:induction false} TrimEmptyIffAllSpace(s: string)
    ensures Trim(s) == [] <==> AllSpace(s)
    decreases |s|
  {
    if s != [] && IsSpace(s[0]) {
      var t := s[1..];
      TrimEmptyIffAllSpace(t);
      assert AllSpace(s) <==> AllSpace(t) by {
        assert forall i :: 0 <= i < |t| ==> t[i] == s[i + 1];
      }
    } else if s != [] && IsSpace(s[|s| - 1]) {
      var t := s[..|s| - 1];
      TrimEmptyIffAllSpace(t);
      assert AllSpace(s) <==> AllSpace(t) by {
        assert forall i :: 0 <= i < |t| ==> t[i] == s[i];
      }
    } else if s != [] {
      assert !AllSpace(s) by {
        assert !IsSpace(s[0]);
      }
    }
  }

  /** `toLowerCase` on one character (ASCII letters only). */
  function LowerChar(c: char): (r: char)
    ensures !IsUpper(r)
    ensures IsUpper(c) ==> r as int == c as int + 32
    ensures !IsUpper(c) ==> r == c
    ensures IsSpace(r) == IsSpace(c)
  {
    if IsUpper(c) then (c as int + 32) as char else c
  }

  /** `s.toLowerCase()`: the same length, every character lowered, nothing upper-case left. */
  function Lower(s: string): (r: string)
    ensures |r| == |s|
    ensures forall i :: 0 <= i < |s| ==> r[i] == LowerChar(s[i])
    ensures forall i :: 0 <= i < |r| ==> !IsUpper(r[i])
  {
    if s == [] then [] else [LowerChar(s[0])] + Lower(s[1..])
  }

  /** `needle` occurs in `hay` starting at position `i`. */
  predicate OccursAt(hay: string, needle: string, i: nat) {
    i + |needle| <= |hay| && hay[i..i + |needle|] == needle
  }

  /** `hay.includes(needle)`, computed by trying each start position in turn. */
  function Contains(hay: string, needle: string): bool
    decreases |hay|
  {
    if |needle| > |hay| then false
    else if hay[..|needle|] == needle then true
    else Contains(hay[1..], needle)
  }

  /** The front-to-back search succeeds exactly when `needle` occurs somewhere in `hay`. */
  lemma {:induction false} ContainsIff(hay: string, needle: string)
    ensures Contains(hay, needle) <==> exists i: nat :: OccursAt(hay, needle, i)
    decreases |hay|
  {
    if |needle| > |hay| {
    } else if hay[..|needle|] == needle {
      assert OccursAt(hay, needle, 0);
    } else {
      ContainsIff(hay[1..], needle);
      if Contains(hay[1..], needle) {
        var i: nat :| OccursAt(hay[1..], needle, i);
        DropFirstSlice(hay, i, |needle|);
        assert OccursAt(hay, needle, i + 1);
      } else {
        forall i: nat | 0 < i ensures OccursAt(hay, needle, i) == OccursAt(hay[1..], needle, i - 1) {
          if i + |needle| <= |hay| {
            DropFirstSlice(hay, i - 1, |needle|);
          }
        }
        assert !OccursAt(hay, needle, 0);
      }
    }
  }

  /** A slice of `s[1..]` is the slice of `s` one position further on. */
  lemma DropFirstSlice(s: string, j: nat, n: nat)
    requires j + 1 + n <= |s|
    ensures s[1..][j..j + n] == s[j + 1..j + 1 + n]
  {
    var a, b := s[1..][j..j + n], s[j + 1..j + 1 + n];
    forall k | 0 <= k < n ensures a[k] == b[k] {
      assert a[k] == s[1..][j + k] == s[j + 1 + k];
    }
  }

  predicate IsDigit(c: char) {
    '0' <= c <= '9'
  }

  predicate AllDigits(s: string) {
    forall i :: 0 <= i < |s| ==> IsDigit(s[i])
  }

  function DigitChar(d: nat): (c: char)
    requires d < 10
    ensures IsDigit(c) && c as int - '0' as int == d
  {
    ('0' as int + d) as char
  }

  /** `String(n)` for a non-negative integer: its decimal digits, without leading zeros. */
  function Decimal(n: nat): (r: string)
    ensures r != [] && AllDigits(r)
    ensures r[0] == '0' ==> n == 0
  {
    if n < 10 then [DigitChar(n)] else Decimal(n / 10) + [DigitChar(n % 10)]
  }

  /** The number a string of decimal digits denotes. */
  function DigitsValue(s: string): nat
    requires AllDigits(s)
  {
    if s == [] then 0 else DigitsValue(s[..|s| - 1]) * 10 + (s[|s| - 1] as int - '0' as int)
  }

  /** Reading the digits back gives the number. */
  lemma {:induction false} DecimalValue(n: nat)
    ensures DigitsValue(Decimal(n)) == n
  {
    if n >= 10 {
      DecimalValue(n / 10);
      var r := Decimal(n);
      assert r[..|r| - 1] == Decimal(n / 10);
    }
  }
}
