/**
 * The string operations the front end relies on: JavaScript's `<` on strings,
 * `toLowerCase`, `includes`, `Number.prototype.toString` and `parseInt`, and the
 * clock reading of an `HH:MM` value that the comparisons are meant to agree with.
 */
module Strings {
  import opened Wrappers

  // ---------------------------------------------------------------------------
  // JavaScript's relational operators on strings
  // ---------------------------------------------------------------------------

  /** `a < b` on strings: lexicographic on code units; a proper prefix is smaller. */
  predicate StrLt(a: string, b: string)
    decreases |a|
  {
    if a == [] then b != []
    else if b == [] then false
    else if a[0] != b[0] then a[0] < b[0]
    else StrLt(a[1..], b[1..])
  }

  /** `a >= b` on strings, which JavaScript defines as `!(a < b)`. */
  predicate StrGe(a: string, b: string) {
    !StrLt(a, b)
  }

  lemma {:induction false} StrLtIrreflexive(a: string)
    ensures !StrLt(a, a)
    decreases |a|
  {
    if a != [] {
      StrLtIrreflexive(a[1..]);
    }
  }

  lemma {:induction false} StrLtAsymmetric(a: string, b: string)
    ensures StrLt(a, b) ==> !StrLt(b, a)
    decreases |a|
  {
    if a != [] && b != [] && a[0] == b[0] {
      StrLtAsymmetric(a[1..], b[1..]);
    }
  }

  lemma {:induction false} StrLtTransitive(a: string, b: string, c: string)
    requires StrLt(a, b) && StrLt(b, c)
    ensures StrLt(a, c)
    decreases |a|
  {
    if a != [] && a[0] == b[0] && b[0] == c[0] {
      StrLtTransitive(a[1..], b[1..], c[1..]);
    }
  }

  lemma {:induction false} StrLtTotal(a: string, b: string)
    ensures a == b || StrLt(a, b) || StrLt(b, a)
    decreases |a|
  {
    if a != [] && b != [] && a[0] == b[0] {
      StrLtTotal(a[1..], b[1..]);
      if a[1..] == b[1..] {
        assert a == [a[0]] + a[1..] && b == [b[0]] + b[1..];
      }
    }
  }

  // ---------------------------------------------------------------------------
  // Clock times
  // ---------------------------------------------------------------------------

  predicate IsDigit(c: char) {
    '0' <= c <= '9'
  }

  function DigitValue(c: char): (d: nat)
    requires IsDigit(c)
    ensures d < 10
  {
    c as int - '0' as int
  }

  function DigitChar(d: nat): (c: char)
    requires d < 10
    ensures IsDigit(c) && DigitValue(c) == d
  {
    ('0' as int + d) as char
  }

  /** A zero-padded 24-hour `HH:MM` value, five characters long. */
  predicate IsHhmm(t: string) {
    && |t| == 5
    && IsDigit(t[0]) && IsDigit(t[1]) && t[2] == ':'
    && '0' <= t[3] <= '5' && IsDigit(t[4])
    && DigitValue(t[0]) * 10 + DigitValue(t[1]) < 24
  }

  /** A zero-padded `HH:MM:SS` value, eight characters long. */
  predicate IsHhmmss(t: string) {
    && |t| == 8
    && IsHhmm(t[..5])
    && t[5] == ':' && '0' <= t[6] <= '5' && IsDigit(t[7])
  }

  /** Minutes since midnight of an `HH:MM` value. */
  function Minutes(t: string): (m: nat)
    requires IsHhmm(t)
    ensures m < 24 * 60
  {
    (DigitValue(t[0]) * 10 + DigitValue(t[1])) * 60 + DigitValue(t[3]) * 10 + DigitValue(t[4])
  }

  /** `StrLt` on non-empty strings compares the first characters, then the rest. */
  lemma StrLtStep(a: string, b: string)
    requires a != [] && b != []
    ensures StrLt(a, b) <==> a[0] < b[0] || (a[0] == b[0] && StrLt(a[1..], b[1..]))
  {
  }

  /**
   * On zero-padded `HH:MM` values, string order is clock order. This is why the
   * slot grid may compare times as strings while every value has this shape.
   */
  lemma {:induction false} StrLtIsClockOrder(a: string, b: string)
    requires IsHhmm(a) && IsHhmm(b)
    ensures StrLt(a, b) <==> Minutes(a) < Minutes(b)
  {
    StrLtStep(a, b);
    StrLtStep(a[1..], b[1..]);
    StrLtStep(a[2..], b[2..]);
    StrLtStep(a[3..], b[3..]);
    StrLtStep(a[4..], b[4..]);
    assert a[1..][1..] == a[2..] && b[1..][1..] == b[2..];
    assert a[2..][1..] == a[3..] && b[2..][1..] == b[3..];
    assert a[3..][1..] == a[4..] && b[3..][1..] == b[4..];
    assert a[4..][1..] == [] && b[4..][1..] == [];
    var a0, a1, a3, a4 := DigitValue(a[0]), DigitValue(a[1]), DigitValue(a[3]), DigitValue(a[4]);
    var b0, b1, b3, b4 := DigitValue(b[0]), DigitValue(b[1]), DigitValue(b[3]), DigitValue(b[4]);
    assert a[0] < b[0] <==> a0 < b0;
    assert a[1] < b[1] <==> a1 < b1;
    assert a[3] < b[3] <==> a3 < b3;
    assert a[4] < b[4] <==> a4 < b4;
    assert a[0] == b[0] <==> a0 == b0;
    assert a[1] == b[1] <==> a1 == b1;
    assert a[3] == b[3] <==> a3 == b3;
  }

  // ---------------------------------------------------------------------------
  // toLowerCase and includes
  // ---------------------------------------------------------------------------

  /** Lower-casing of one character, on the ASCII letters. */
  function LowerChar(c: char): (l: char)
    ensures 'A' <= c <= 'Z' ==> 'a' <= l <= 'z' && l as int == c as int + 32
    ensures !('A' <= c <= 'Z') ==> l == c
  {
    if 'A' <= c <= 'Z' then (c as int + 32) as char else c
  }

  /** `s.toLowerCase()`, character by character. */
  function Lower(s: string): (r: string)
    ensures |r| == |s|
    ensures forall i :: 0 <= i < |s| ==> r[i] == LowerChar(s[i])
  {
    seq(|s|, i requires 0 <= i < |s| => LowerChar(s[i]))
  }

  /** `s.includes(t)`: `t` occurs in `s` at some position. */
  predicate Contains(s: string, t: string)
    decreases |s|
  {
    t <= s || (s != [] && Contains(s[1..], t))
  }

  /** `t` occurs in `s` starting at index `i`. */
  predicate OccursAt(s: string, t: string, i: int) {
    0 <= i && i + |t| <= |s| && s[i..i + |t|] == t
  }

  /** `Contains` holds exactly when `t` occurs in `s` at some index. */
  lemma {:induction false} ContainsIff(s: string, t: string)
    ensures Contains(s, t) <==> exists i :: OccursAt(s, t, i)
    decreases |s|
  {
    if t <= s {
      assert OccursAt(s, t, 0);
    } else if s == [] {
    } else {
      ContainsIff(s[1..], t);
      forall i | OccursAt(s[1..], t, i) ensures OccursAt(s, t, i + 1) {
        assert s[i + 1..i + 1 + |t|] == s[1..][i..i + |t|];
      }
      forall i | OccursAt(s, t, i) ensures OccursAt(s[1..], t, i - 1) {
        assert i != 0;
        assert s[1..][i - 1..i - 1 + |t|] == s[i..i + |t|];
      }
    }
  }

  // ---------------------------------------------------------------------------
  // Decimal ids: toString on a server id, parseInt on a client id
  // ---------------------------------------------------------------------------

  predicate AllDigits(s: string) {
    forall i :: 0 <= i < |s| ==> IsDigit(s[i])
  }

  /** `n.toString()` for a non-negative integer id. */
  function NatToString(n: nat): (s: string)
    ensures s != [] && AllDigits(s)
    decreases n
  {
    if n < 10 then [DigitChar(n)] else NatToString(n / 10) + [DigitChar(n % 10)]
  }

  /**
   * `parseInt(s)` on a string of decimal digits; `None` (JavaScript's NaN)
   * for the empty string and for any string holding another character.
   */
  function ParseDecimal(s: string): (r: Option<nat>)
    ensures r.Some? <==> s != [] && AllDigits(s)
    decreases |s|
  {
    if s == [] || !IsDigit(s[|s| - 1]) then None
    else if |s| == 1 then Some(DigitValue(s[0]))
    else match ParseDecimal(s[..|s| - 1])
      case None => None
      case Some(v) => Some(v * 10 + DigitValue(s[|s| - 1]))
  }

  /** A server id that went through `toString` comes back unchanged through `parseInt`. */
  lemma {:induction false} ParseDecimalOfNatToString(n: nat)
    ensures ParseDecimal(NatToString(n)) == Some(n)
    decreases n
  {
    var s := NatToString(n);
    if n >= 10 {
      ParseDecimalOfNatToString(n / 10);
      assert s[..|s| - 1] == NatToString(n / 10);
    }
  }

  /** Distinct ids give distinct decimal strings. */
  lemma NatToStringInjective(m: nat, n: nat)
    ensures NatToString(m) == NatToString(n) ==> m == n
  {
    ParseDecimalOfNatToString(m);
    ParseDecimalOfNatToString(n);
  }
}
