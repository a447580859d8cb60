/** Helpers shared by the models of the PHP backend and the React frontend:
    optional values, decimal rendering with zero padding, and the few string
    operations the source relies on (lower-casing, substring search, the
    code-unit ordering used by JavaScript's default sort). */
module Common {

  datatype Option<+T> = None | Some(value: T)

  datatype Result<+T> = Ok(value: T) | Err(message: string)

  /** A calendar date as year, month (1..12) and day of month. */
  datatype Date = Date(year: int, month: int, day: int)

  // ---------------------------------------------------------------------
  // Decimal digits

  predicate IsDigit(c: char) { '0' <= c <= '9' }

  predicate AllDigits(s: string) { forall i :: 0 <= i < |s| ==> IsDigit(s[i]) }

  function DigitChar(d: nat): (c: char)
    requires d < 10
    ensures IsDigit(c) && c as int - '0' as int == d
  {
    (48 + d) as char
  }

  function DigitValue(c: char): (d: nat)
    requires IsDigit(c)
    ensures d < 10 && DigitChar(d) == c
  {
    c as int - 48
  }

  function Pow10(k: nat): (p: nat)
    ensures p >= 1
  {
    if k == 0 then 1 else 10 * Pow10(k - 1)
  }

  /** Value of a digit string read most significant digit first. */
  function DigitsValue(s: string): nat
    requires AllDigits(s)
  {
    if s == [] then 0 else DigitValue(s[0]) * Pow10(|s| - 1) + DigitsValue(s[1..])
  }

  /** PHP's string conversion of a non-negative integer and JavaScript's `String(n)`. */
  function NatToString(n: nat): (s: string)
    ensures 1 <= |s| && AllDigits(s)
  {
    if n < 10 then [DigitChar(n)] else NatToString(n / 10) + [DigitChar(n % 10)]
  }

  /** Number of decimal digits of `n`. */
  function NumDigits(n: nat): (k: nat)
    ensures k >= 1
  {
    if n < 10 then 1 else 1 + NumDigits(n / 10)
  }

  lemma {:induction false} DigitsValueBound(s: string)
    requires AllDigits(s)
    ensures DigitsValue(s) < Pow10(|s|)
  {
    if s != [] {
      DigitsValueBound(s[1..]);
      DigitStep(DigitValue(s[0]), |s| - 1);
    }
  }

  /** One more leading digit stays below the next power of ten. */
  lemma DigitStep(d: nat, k: nat)
    requires d < 10
    ensures d * Pow10(k) + Pow10(k) <= Pow10(k + 1)
  {
    var p := Pow10(k);
    assert d * p + p == (d + 1) * p;
    assert (d + 1) * p <= 10 * p;
  }

  lemma {:induction false} DigitsValueSnoc(s: string, c: char)
    requires AllDigits(s) && IsDigit(c)
    ensures AllDigits(s + [c])
    ensures DigitsValue(s + [c]) == DigitsValue(s) * 10 + DigitValue(c)
  {
    var t := s + [c];
    if s == [] {
      assert t == [c];
    } else {
      assert t[1..] == s[1..] + [c];
      assert t[0] == s[0];
      DigitsValueSnoc(s[1..], c);
      var d, p, r := DigitValue(s[0]), Pow10(|s| - 1), DigitsValue(s[1..]);
      assert DigitsValue(t) == d * Pow10(|s|) + (r * 10 + DigitValue(c));
      assert DigitsValue(s) == d * p + r;
      ShiftDigit(d, p, r);
    }
  }

  lemma ShiftDigit(d: nat, p: nat, r: nat)
    ensures d * (10 * p) + r * 10 == (d * p + r) * 10
  {
  }

  /** Reading back the decimal rendering gives the number: rendering is injective. */
  lemma {:induction false} NatToStringRoundTrip(n: nat)
    ensures DigitsValue(NatToString(n)) == n
    ensures |NatToString(n)| == NumDigits(n)
  {
    if n >= 10 {
      NatToStringRoundTrip(n / 10);
      DigitsValueSnoc(NatToString(n / 10), DigitChar(n % 10));
    }
  }

  lemma NatToStringInjective(a: nat, b: nat)
    requires NatToString(a) == NatToString(b)
    ensures a == b
  {
    NatToStringRoundTrip(a);
    NatToStringRoundTrip(b);
  }

  /** Numbers from 1000 to 9999 (four-digit years) render as four characters. */
  lemma FourDigits(n: nat)
    requires 1000 <= n <= 9999
    ensures |NatToString(n)| == 4
  {
    NatToStringRoundTrip(n);
    assert NumDigits(n / 10 / 10 / 10) == 1;
    assert NumDigits(n / 10 / 10) == 2;
    assert NumDigits(n / 10) == 3;
  }

  // ---------------------------------------------------------------------
  // Padding (PHP str_pad(..., STR_PAD_LEFT), JavaScript padStart)

  function Repeat(c: char, k: nat): (r: string)
    ensures |r| == k && forall i :: 0 <= i < k ==> r[i] == c
  {
    if k == 0 then [] else [c] + Repeat(c, k - 1)
  }

  /** Left-pads `s` with `c` up to `width`; a longer `s` is kept whole, never truncated. */
  function PadLeft(s: string, width: nat, c: char): (r: string)
    ensures |r| == if |s| >= width then |s| else width
    ensures r[|r| - |s|..] == s
    ensures forall i :: 0 <= i < |r| - |s| ==> r[i] == c
  {
    if |s| >= width then s else Repeat(c, width - |s|) + s
  }

  lemma {:induction false} ZerosPrefixValue(k: nat, s: string)
    requires AllDigits(s)
    ensures AllDigits(Repeat('0', k) + s)
    ensures DigitsValue(Repeat('0', k) + s) == DigitsValue(s)
  {
    if k > 0 {
      var t := Repeat('0', k) + s;
      assert t[1..] == Repeat('0', k - 1) + s;
      ZerosPrefixValue(k - 1, s);
      assert t[0] == '0' && DigitValue('0') == 0;
      assert AllDigits(t);
      assert DigitsValue(t) == DigitValue(t[0]) * Pow10(|t| - 1) + DigitsValue(t[1..]);
    } else {
      assert Repeat('0', k) + s == s;
    }
  }

  /** Zero padding of a decimal rendering does not change the value it denotes. */
  lemma PaddedValue(n: nat, width: nat)
    ensures AllDigits(PadLeft(NatToString(n), width, '0'))
    ensures DigitsValue(PadLeft(NatToString(n), width, '0')) == n
  {
    var s := NatToString(n);
    NatToStringRoundTrip(n);
    if |s| < width {
      ZerosPrefixValue(width - |s|, s);
    }
  }

  /** A value below 100 padded to two digits takes exactly two characters and
      reads back as itself. */
  lemma TwoDigits(n: nat)
    requires n < 100
    ensures |PadLeft(NatToString(n), 2, '0')| == 2
    ensures AllDigits(PadLeft(NatToString(n), 2, '0'))
    ensures DigitsValue(PadLeft(NatToString(n), 2, '0')) == n
  {
    NatToStringRoundTrip(n);
    assert NumDigits(n) <= 2 by {
      if n >= 10 {
        assert NumDigits(n / 10) == 1;
      }
    }
    PaddedValue(n, 2);
  }

  /** The record-number format both controllers use: the four-digit year, the day's
      row count padded to two digits, then the row id padded to three digits. */
  function DailySequenceNumber(year: nat, dailyCount: nat, id: nat): string
  {
    NatToString(year) + PadLeft(NatToString(dailyCount), 2, '0') + PadLeft(NatToString(id), 3, '0')
  }

  /** Width a value takes once padded to `width` digits. */
  function PaddedWidth(n: nat, width: nat): nat
  {
    if NumDigits(n) >= width then NumDigits(n) else width
  }

  lemma ThreeParts(a: string, b: string, c: string)
    requires AllDigits(a) && AllDigits(b) && AllDigits(c)
    ensures AllDigits(a + b + c)
    ensures (a + b + c)[..|a|] == a
    ensures (a + b + c)[|a|..|a| + |b|] == b
    ensures (a + b + c)[|a| + |b|..] == c
  {
    var r := a + b + c;
    forall i | 0 <= i < |r| ensures IsDigit(r[i]) {
      if i < |a| { assert r[i] == a[i]; }
      else if i < |a| + |b| { assert r[i] == b[i - |a|]; }
      else { assert r[i] == c[i - |a| - |b|]; }
    }
  }

  /** The parts of a `y-mm-dd` shaped string sit at fixed offsets from the end of `y`. */
  lemma DashedParts(y: string, m: string, d: string)
    requires |m| == 2 && |d| == 2
    ensures var s := y + "-" + m + "-" + d;
      && |s| == |y| + 6
      && s[|y|] == '-' && s[|y| + 3] == '-'
      && s[..|y|] == y && s[|y| + 1..|y| + 3] == m && s[|y| + 4..] == d
  {
    var s := y + "-" + m + "-" + d;
    assert s == y + ("-" + m + "-" + d);
    assert s[|y|..] == "-" + m + "-" + d;
  }

  /** The three parts can be read back from a sequence number, whatever their size:
      padding never truncates, so the year, the daily count and the id are all
      recovered once the widths of the first two are known. */
  lemma DailySequenceNumberDecode(year: nat, dailyCount: nat, id: nat)
    ensures AllDigits(DailySequenceNumber(year, dailyCount, id))
    ensures |DailySequenceNumber(year, dailyCount, id)|
            == NumDigits(year) + PaddedWidth(dailyCount, 2) + PaddedWidth(id, 3)
    ensures DigitsValue(DailySequenceNumber(year, dailyCount, id)[..NumDigits(year)]) == year
    ensures DigitsValue(DailySequenceNumber(year, dailyCount, id)
              [NumDigits(year)..NumDigits(year) + PaddedWidth(dailyCount, 2)]) == dailyCount
    ensures DigitsValue(DailySequenceNumber(year, dailyCount, id)
              [NumDigits(year) + PaddedWidth(dailyCount, 2)..]) == id
  {
    var ys := NatToString(year);
    var ds := PadLeft(NatToString(dailyCount), 2, '0');
    var ids := PadLeft(NatToString(id), 3, '0');
    NatToStringRoundTrip(year);
    NatToStringRoundTrip(dailyCount);
    NatToStringRoundTrip(id);
    PaddedValue(dailyCount, 2);
    PaddedValue(id, 3);
    assert |ys| == NumDigits(year);
    assert |ds| == PaddedWidth(dailyCount, 2);
    assert |ids| == PaddedWidth(id, 3);
    ThreeParts(ys, ds, ids);
    assert DailySequenceNumber(year, dailyCount, id) == ys + ds + ids;
  }

  // ---------------------------------------------------------------------
  // Case and substrings

  /** ASCII lower-casing (the model keeps to the ASCII letters the source's keys use). */
  function LowerChar(c: char): (d: char)
    ensures ('A' <= c <= 'Z') ==> d as int == c as int + 32
    ensures !('A' <= c <= 'Z') ==> d == c
  {
    if 'A' <= c <= 'Z' then (c as int + 32) as char else c
  }

  function Lower(s: string): (r: string)
    ensures |r| == |s| && forall i :: 0 <= i < |s| ==> r[i] == LowerChar(s[i])
  {
    if s == [] then [] else [LowerChar(s[0])] + Lower(s[1..])
  }

  /** `s` contains `pat` as a contiguous substring (JavaScript `includes`). */
  predicate Contains(s: string, pat: string)
  {
    pat <= s || (s != [] && Contains(s[1..], pat))
  }

  // ---------------------------------------------------------------------
  // JavaScript's default string order (code-unit lexicographic)

  predicate LexLess(a: string, b: string)
  {
    if a == [] then b != []
    else if b == [] then false
    else if a[0] != b[0] then a[0] < b[0]
    else LexLess(a[1..], b[1..])
  }

  lemma LeadingDigitOrder(da: nat, db: nat, p: nat, ra: nat, rb: nat)
    requires da < db && ra < p
    ensures da * p + ra < db * p + rb
  {
    assert (da + 1) * p <= db * p;
  }

  /** A leading digit outweighs any tail below the place value. */
  lemma LeadingDigitCompare(da: nat, db: nat, p: nat, ra: nat, rb: nat)
    requires ra < p && rb < p
    ensures da * p + ra < db * p + rb <==> da < db || (da == db && ra < rb)
  {
    if da < db {
      LeadingDigitOrder(da, db, p, ra, rb);
    } else if db < da {
      LeadingDigitOrder(db, da, p, rb, ra);
    }
  }

  /** For digit strings of one length, string order is numeric order. */
  lemma {:induction false} LexLessDigits(a: string, b: string)
    requires |a| == |b| && AllDigits(a) && AllDigits(b)
    ensures LexLess(a, b) <==> DigitsValue(a) < DigitsValue(b)
  {
    if a != [] {
      var ta, tb := a[1..], b[1..];
      DigitsValueBound(ta);
      DigitsValueBound(tb);
      LexLessDigits(ta, tb);
      LeadingDigitCompare(DigitValue(a[0]), DigitValue(b[0]), Pow10(|a| - 1), DigitsValue(ta), DigitsValue(tb));
      assert DigitValue(a[0]) == DigitValue(b[0]) <==> a[0] == b[0];
    }
  }

  lemma {:induction false} LexLessConcat(a: string, b: string, c: string, d: string)
    requires |a| == |c|
    ensures LexLess(a + b, c + d) <==> LexLess(a, c) || (a == c && LexLess(b, d))
  {
    if a != [] {
      assert (a + b)[1..] == a[1..] + b;
      assert (c + d)[1..] == c[1..] + d;
      assert (a + b)[0] == a[0] && (c + d)[0] == c[0];
      assert a + b != [] && c + d != [];
      if a[0] == c[0] {
        LexLessConcat(a[1..], b, c[1..], d);
        assert a == [a[0]] + a[1..] && c == [c[0]] + c[1..];
        assert a == c <==> a[1..] == c[1..];
      } else {
        assert a != c;
      }
    } else {
      assert a + b == b && c + d == d;
    }
  }

  lemma {:induction false} LexLessIrreflexive(a: string)
    ensures !LexLess(a, a)
  {
    if a != [] {
      LexLessIrreflexive(a[1..]);
    }
  }

  lemma {:induction false} LexLessTransitive(a: string, b: string, c: string)
    requires LexLess(a, b) && LexLess(b, c)
    ensures LexLess(a, c)
  {
    if a != [] && a[0] == b[0] && b[0] == c[0] {
      LexLessTransitive(a[1..], b[1..], c[1..]);
    }
  }

  /** Distinct strings are always ordered one way or the other. */
  lemma {:induction false} LexLessTotal(a: string, b: string)
    requires a != b
    ensures LexLess(a, b) || LexLess(b, a)
  {
    if a != [] && b != [] && a[0] == b[0] {
      assert a == [a[0]] + a[1..] && b == [b[0]] + b[1..];
      LexLessTotal(a[1..], b[1..]);
    }
  }
}
