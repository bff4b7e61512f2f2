/**
 String facts the wire names and the version comparison rest on: UTF-8 widths,
 decimal numerals and the lexicographic order of strings.
 A string is a sequence of Unicode scalar values; its encoded length is the sum
 of the widths below (Rust's `str::len`).
 */
module Text {

  // ----- UTF-8 lengths ---------------------------------------------------

  function Utf8Width(c: char): (w: nat)
    ensures 1 <= w <= 4
  {
    if c as int < 0x80 then 1 else if c as int < 0x800 then 2 else if c as int < 0x1_0000 then 3 else 4
  }

  /** The least number of bytes whose payload bits hold the code point: 7, 11, 16 or 21 of them. */
  lemma WidthIsLeast(c: char)
    ensures var (w, payload) := (Utf8Width(c), [0, 0x80, 0x800, 0x1_0000, 0x20_0000]);
            payload[w - 1] <= c as int < payload[w]
  {
  }

  function Utf8Len(s: string): nat
  {
    if s == [] then 0 else Utf8Len(s[..|s| - 1]) + Utf8Width(s[|s| - 1])
  }

  lemma {:induction false} Utf8LenConcat(a: string, b: string)
    ensures Utf8Len(a + b) == Utf8Len(a) + Utf8Len(b)
  {
    if b == [] {
      assert a + b == a;
    } else {
      var front := b[..|b| - 1];
      assert (a + b)[..|a + b| - 1] == a + front;
      Utf8LenConcat(a, front);
    }
  }

  lemma {:induction false} Utf8LenBounds(s: string)
    ensures |s| <= Utf8Len(s) <= 4 * |s|
  {
    if s != [] {
      Utf8LenBounds(s[..|s| - 1]);
    }
  }

  lemma {:induction false} Utf8LenAscii(s: string)
    requires forall i :: 0 <= i < |s| ==> s[i] as int < 0x80
    ensures Utf8Len(s) == |s|
  {
    if s != [] {
      Utf8LenAscii(s[..|s| - 1]);
    }
  }

  /** The longest prefix of at most `limit` bytes that whole characters make. */
  function Truncated(s: string, limit: nat): (r: string)
    ensures r <= s && Utf8Len(r) <= limit
    ensures Utf8Len(s) <= limit ==> r == s
  {
    if Utf8Len(s) <= limit then s else Truncated(s[..|s| - 1], limit)
  }

  /** No longer prefix fits: truncation drops as few characters as it can. */
  lemma {:induction false} TruncatedIsLongest(s: string, limit: nat, p: string)
    requires p <= s && Utf8Len(p) <= limit
    ensures p <= Truncated(s, limit)
  {
    if Utf8Len(s) > limit {
      assert p != s;
      TruncatedIsLongest(s[..|s| - 1], limit, p);
    }
  }

  /** `truncate_utf8`: pop characters until the byte length fits. */
  method TruncateUtf8(value: string, limit: nat) returns (r: string)
    ensures r == Truncated(value, limit)
  {
    r := value;
    while Utf8Len(r) > limit
      invariant r <= value
      invariant Truncated(r, limit) == Truncated(value, limit)
      decreases |r|
    {
      r := r[..|r| - 1];
    }
  }

  // ----- decimal numerals ------------------------------------------------

  predicate IsDigit(c: char) { '0' <= c <= '9' }

  predicate AllDigits(s: string) { forall i :: 0 <= i < |s| ==> IsDigit(s[i]) }

  function DigitChar(d: nat): (c: char)
    requires d < 10
    ensures IsDigit(c)
  {
    ('0' as int + d) as char
  }

  /** Rust's `{}` for an unsigned integer. */
  function Decimal(n: nat): (s: string)
    ensures |s| >= 1
    ensures AllDigits(s)
  {
    if n < 10 then [DigitChar(n)] else Decimal(n / 10) + [DigitChar(n % 10)]
  }

  /** The number a digit string denotes. */
  function Value(s: string): nat
    requires AllDigits(s)
  {
    if s == [] then 0 else 10 * Value(s[..|s| - 1]) + (s[|s| - 1] as int - '0' as int)
  }

  lemma {:induction false} ValueOfDecimal(n: nat)
    ensures Value(Decimal(n)) == n
  {
    if n >= 10 {
      ValueOfDecimal(n / 10);
      var s := Decimal(n);
      assert s[..|s| - 1] == Decimal(n / 10);
    } else {
      assert Decimal(n)[..0] == [];
    }
  }

  lemma DecimalInjective(m: nat, n: nat)
    requires Decimal(m) == Decimal(n)
    ensures m == n
  {
    ValueOfDecimal(m);
    ValueOfDecimal(n);
  }

  lemma {:induction false} DecimalLength(n: nat, digits: nat)
    requires digits >= 1 && n < Pow10(digits)
    ensures |Decimal(n)| <= digits
  {
    if n >= 10 {
      DecimalLength(n / 10, digits - 1);
    }
  }

  function Pow10(k: nat): (p: nat)
    ensures p >= 1
  {
    if k == 0 then 1 else 10 * Pow10(k - 1)
  }

  /** Digits after a non-digit are found again: the last numeral of a string is unique. */
  lemma {:induction false} LastNumeralUnique(a: string, m: string, b: string, n: string)
    requires AllDigits(m) && AllDigits(n)
    requires a != [] && !IsDigit(a[|a| - 1])
    requires b != [] && !IsDigit(b[|b| - 1])
    requires a + m == b + n
    ensures a == b && m == n
  {
    var s := a + m;
    assert forall i :: |a| <= i < |s| ==> s[i] == m[i - |a|];
    assert forall i :: |b| <= i < |s| ==> s[i] == n[i - |b|];
    assert s[|a| - 1] == a[|a| - 1] && s[|b| - 1] == b[|b| - 1];
    assert |a| == |b|;
    assert a == s[..|a|] == b;
    assert m == s[|a|..] == n;
  }

  // ----- lexicographic order --------------------------------------------

  /** The order of Rust's `String` and of JavaScript's `<` on these alphabets. */
  predicate Less(a: string, b: string)
    decreases |a|
  {
    if b == [] then false
    else if a == [] then true
    else a[0] < b[0] || (a[0] == b[0] && Less(a[1..], b[1..]))
  }

  lemma {:induction false} LessTotal(a: string, b: string)
    ensures Less(a, b) || a == b || Less(b, a)
    decreases |a|
  {
    if a != [] && b != [] && a[0] == b[0] {
      LessTotal(a[1..], b[1..]);
      assert a == [a[0]] + a[1..] && b == [b[0]] + b[1..];
    }
  }

  lemma {:induction false} LessIrreflexive(a: string)
    ensures !Less(a, a)
    decreases |a|
  {
    if a != [] {
      LessIrreflexive(a[1..]);
    }
  }

  lemma {:induction false} LessTransitive(a: string, b: string, c: string)
    requires Less(a, b) && Less(b, c)
    ensures Less(a, c)
    decreases |a|
  {
    if a != [] && a[0] == b[0] && b[0] == c[0] {
      LessTransitive(a[1..], b[1..], c[1..]);
    }
  }

  lemma LessAsymmetric(a: string, b: string)
    requires Less(a, b)
    ensures !Less(b, a)
  {
    if Less(b, a) {
      LessTransitive(a, b, a);
      LessIrreflexive(a);
    }
  }
}
