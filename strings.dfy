/** String helpers the source takes from JavaScript: `||` used as a default
    for strings, `String(n)` of a natural number, `padStart` with a fill
    character, `includes`, `toLowerCase`/`toUpperCase` (ASCII letters only)
    and `replace` of the first occurrence of a character. */
module Strings {
  import opened Types

  /** `s || d` for a string `s`: the empty string counts as absent. */
  function Or(s: string, d: string): (r: string)
    ensures r == s || r == d
    ensures r == d <==> s == "" || s == d
  {
    if s != "" then s else d
  }

  /** `o || d` for an optional string: absent and empty both give `d`. */
  function OrOpt(o: Option<string>, d: string): (r: string)
    ensures o.None? ==> r == d
    ensures o.Some? ==> r == Or(o.value, d)
  {
    match o
    case None => d
    case Some(s) => Or(s, d)
  }

  // ---------------------------------------------------------------------
  // Decimal digits

  function Pow10(k: nat): (p: nat)
    ensures p >= 1
  {
    if k == 0 then 1 else 10 * Pow10(k - 1)
  }

  function DigitChar(d: nat): (c: char)
    requires d < 10
    ensures '0' <= c <= '9'
  {
    "0123456789"[d]
  }

  predicate IsDigit(c: char)
  {
    '0' <= c <= '9'
  }

  function DigitValue(c: char): (d: nat)
    requires IsDigit(c)
    ensures d < 10
  {
    c as int - '0' as int
  }

  lemma DigitRoundTrip(d: nat)
    requires d < 10
    ensures DigitValue(DigitChar(d)) == d
  {
  }

  predicate AllDigits(s: string)
  {
    forall i :: 0 <= i < |s| ==> IsDigit(s[i])
  }

  /** `String(n)` for a natural number: its decimal digits, without leading zeros. */
  function NatToString(n: nat): (s: string)
    ensures |s| >= 1 && AllDigits(s)
  {
    if n < 10 then [DigitChar(n)] else NatToString(n / 10) + [DigitChar(n % 10)]
  }

  /** The natural number a string of decimal digits denotes. */
  function DecimalValue(s: string): nat
    requires AllDigits(s)
  {
    if s == [] then 0 else 10 * DecimalValue(s[..|s| - 1]) + DigitValue(s[|s| - 1])
  }

  /** Reading the decimal digits of `n` back gives `n`. */
  lemma {:induction false} NatToStringRoundTrip(n: nat)
    ensures DecimalValue(NatToString(n)) == n
  {
    var s := NatToString(n);
    if n < 10 {
      DigitRoundTrip(n);
    } else {
      assert s[..|s| - 1] == NatToString(n / 10);
      NatToStringRoundTrip(n / 10);
      DigitRoundTrip(n % 10);
    }
  }

  /** `n` has exactly `k` decimal digits when 10^(k-1) <= n < 10^k. */
  lemma {:induction false} NatToStringLength(n: nat, k: nat)
    requires k >= 1 && (k == 1 || Pow10(k - 1) <= n) && n < Pow10(k)
    ensures |NatToString(n)| == k
  {
    if n >= 10 {
      assert Pow10(1) == 10;
      NatToStringLength(n / 10, k - 1);
    }
  }

  /** `n` has at most `k` decimal digits when n < 10^k. */
  lemma {:induction false} NatToStringShort(n: nat, k: nat)
    requires k >= 1 && n < Pow10(k)
    ensures |NatToString(n)| <= k
  {
    if n >= 10 {
      assert Pow10(1) == 10;
      NatToStringShort(n / 10, k - 1);
    }
  }

  function Repeat(c: char, k: nat): (s: string)
    ensures |s| == k && forall i :: 0 <= i < k ==> s[i] == c
  {
    if k == 0 then [] else [c] + Repeat(c, k - 1)
  }

  /** `s.padStart(w, c)`: `s` preceded by enough copies of `c` to reach length `w`. */
  function PadStart(s: string, w: nat, c: char): (r: string)
    ensures |r| == if |s| >= w then |s| else w
    ensures r[|r| - |s|..] == s
    ensures forall i :: 0 <= i < |r| - |s| ==> r[i] == c
  {
    if |s| >= w then s else Repeat(c, w - |s|) + s
  }

  /** A leading zero does not change the value of a digit string. */
  lemma {:induction false} LeadingZero(s: string)
    requires AllDigits(s)
    ensures AllDigits("0" + s) && DecimalValue("0" + s) == DecimalValue(s)
  {
    var t := "0" + s;
    assert AllDigits(t) by {
      forall i | 0 <= i < |t| ensures IsDigit(t[i]) {
        if i > 0 { assert t[i] == s[i - 1]; }
      }
    }
    if s != [] {
      assert t[..|t| - 1] == "0" + s[..|s| - 1];
      assert t[|t| - 1] == s[|s| - 1];
      LeadingZero(s[..|s| - 1]);
    }
  }

  lemma {:induction false} LeadingZeros(k: nat, s: string)
    requires AllDigits(s)
    ensures AllDigits(Repeat('0', k) + s)
    ensures DecimalValue(Repeat('0', k) + s) == DecimalValue(s)
  {
    if k > 0 {
      LeadingZeros(k - 1, s);
      var t := Repeat('0', k - 1) + s;
      assert Repeat('0', k) == "0" + Repeat('0', k - 1);
      assert Repeat('0', k) + s == "0" + t;
      LeadingZero(t);
    } else {
      assert Repeat('0', 0) + s == s;
    }
  }

  /** Zero-padding a digit string to width `w` keeps it a digit string of the same value. */
  lemma PadStartDigits(s: string, w: nat)
    requires AllDigits(s) && |s| <= w
    ensures |PadStart(s, w, '0')| == w
    ensures AllDigits(PadStart(s, w, '0'))
    ensures DecimalValue(PadStart(s, w, '0')) == DecimalValue(s)
  {
    LeadingZeros(w - |s|, s);
    if |s| < w {
      assert PadStart(s, w, '0') == Repeat('0', w - |s|) + s;
    } else {
      assert PadStart(s, w, '0') == s == Repeat('0', 0) + s;
    }
  }

  /** `String(n).padStart(w, '0')` has length `w` when n < 10^w, and reads back as `n`. */
  lemma ZeroPadded(n: nat, w: nat)
    requires w >= 1 && n < Pow10(w)
    ensures |PadStart(NatToString(n), w, '0')| == w
    ensures AllDigits(PadStart(NatToString(n), w, '0'))
    ensures DecimalValue(PadStart(NatToString(n), w, '0')) == n
  {
    NatToStringShort(n, w);
    NatToStringRoundTrip(n);
    PadStartDigits(NatToString(n), w);
  }

  // ---------------------------------------------------------------------
  // Searching and case mapping

  predicate IsPrefix(t: string, s: string)
  {
    |t| <= |s| && s[..|t|] == t
  }

  /** In `a + b + c`, `a` is a prefix and `c` is what follows `a + b`. */
  lemma ConcatEnds(a: string, b: string, c: string)
    ensures IsPrefix(a, a + b + c)
    ensures (a + b + c)[|a + b|..] == c
  {
    assert (a + b + c)[..|a|] == a;
  }

  /** `s.includes(t)`. */
  function Contains(s: string, t: string): (b: bool)
    decreases |s|
  {
    IsPrefix(t, s) || (|s| > 0 && Contains(s[1..], t))
  }

  /** `t` occurs in `s` starting at position `i`. */
  predicate OccursAt(s: string, t: string, i: int)
  {
    0 <= i && i + |t| <= |s| && s[i..i + |t|] == t
  }

  /** `Contains` finds `t` exactly when `t` occurs at some position of `s`. */
  lemma {:induction false} ContainsOccurs(s: string, t: string)
    ensures Contains(s, t) <==> exists i :: OccursAt(s, t, i)
    decreases |s|
  {
    if IsPrefix(t, s) {
      assert OccursAt(s, t, 0);
    } else if |s| == 0 {
      assert !Contains(s, t);
      forall i | OccursAt(s, t, i) ensures false {
      }
    } else {
      ContainsOccurs(s[1..], t);
      forall i | OccursAt(s, t, i) && i > 0 ensures OccursAt(s[1..], t, i - 1) {
        assert s[1..][i - 1..i - 1 + |t|] == s[i..i + |t|];
      }
      if Contains(s[1..], t) {
        var i :| OccursAt(s[1..], t, i);
        assert s[i + 1..i + 1 + |t|] == s[1..][i..i + |t|];
        assert OccursAt(s, t, i + 1);
      }
    }
  }

  /** The empty string occurs in every string. */
  lemma ContainsEmpty(s: string)
    ensures Contains(s, "")
  {
    assert IsPrefix("", s);
  }

  function LowerChar(c: char): char
  {
    if 'A' <= c <= 'Z' then (c as int + 32) as char else c
  }

  function UpperChar(c: char): char
  {
    if 'a' <= c <= 'z' then (c as int - 32) as char else c
  }

  /** `toLowerCase`, on ASCII letters. */
  function Lower(s: string): (r: string)
    ensures |r| == |s| && forall i :: 0 <= i < |s| ==> r[i] == LowerChar(s[i])
  {
    seq(|s|, i requires 0 <= i < |s| => LowerChar(s[i]))
  }

  /** `toUpperCase`, on ASCII letters. */
  function Upper(s: string): (r: string)
    ensures |r| == |s| && forall i :: 0 <= i < |s| ==> r[i] == UpperChar(s[i])
  {
    seq(|s|, i requires 0 <= i < |s| => UpperChar(s[i]))
  }

  /** `s.indexOf(a)` for a single character: the first position holding
      `a`, or -1 when there is none. */
  function FirstIndex(s: string, a: char): (i: int)
    ensures -1 <= i < |s|
    ensures i >= 0 ==> s[i] == a && forall j :: 0 <= j < i ==> s[j] != a
    ensures i == -1 <==> a !in s
  {
    if s == [] then -1
    else if s[0] == a then 0
    else
      var k := FirstIndex(s[1..], a);
      assert a in s <==> a in s[1..] by {
        assert s == [s[0]] + s[1..];
      }
      if k < 0 then -1 else k + 1
  }

  /** `s.replace(a, b)` for single characters: only the first `a` is replaced. */
  function ReplaceFirst(s: string, a: char, b: char): (r: string)
    ensures |r| == |s|
    ensures a !in s ==> r == s
    ensures a in s ==> exists i :: 0 <= i < |s| && s[i] == a && a !in s[..i] && r == s[i := b]
  {
    var i := FirstIndex(s, a);
    if i < 0 then s
    else
      assert a !in s[..i];
      s[i := b]
  }
}
