/** Decimal formatting of naturals and the ordering Python applies to `str`
    values. The summary and the dashboard key their trends by formatted
    dates and sort those keys as strings, so both are needed to say what
    order the trends come out in. */
module Text {

  function Pow10(n: nat): (r: nat)
    ensures r >= 1
  {
    if n == 0 then 1 else 10 * Pow10(n - 1)
  }

  predicate IsDigit(c: char) {
    '0' <= c <= '9'
  }

  predicate IsDigits(s: string) {
    forall i :: 0 <= i < |s| ==> IsDigit(s[i])
  }

  function DigitChar(d: nat): (c: char)
    requires d < 10
    ensures IsDigit(c)
  {
    (48 + d) as char
  }

  function DigitValue(c: char): (d: nat)
    requires IsDigit(c)
    ensures d < 10
  {
    c as int - 48
  }

  /** Python's `format(n, "0<width>d")` for a natural `n`: its decimal digits,
      left-padded with zeros to at least `width` characters. `str(n)` is the
      case `width == 1`. */
  function Padded(n: nat, width: nat): (s: string)
    ensures |s| >= 1 && |s| >= width
    ensures IsDigits(s)
    decreases n + width
  {
    if n < 10 && width <= 1 then [DigitChar(n)]
    else Padded(n / 10, if width == 0 then 0 else width - 1) + [DigitChar(n % 10)]
  }

  /** The number a string of decimal digits denotes (Python's `int(s)`). */
  function Value(s: string): (n: nat)
    requires IsDigits(s)
  {
    if s == [] then 0 else 10 * Value(s[..|s| - 1]) + DigitValue(s[|s| - 1])
  }

  /** Reading a formatted number back gives the number: formatting is injective. */
  lemma {:induction false} ValueOfPadded(n: nat, width: nat)
    ensures Value(Padded(n, width)) == n
    decreases n + width
  {
    if n < 10 && width <= 1 {
      assert Padded(n, width) == [DigitChar(n)];
      assert [DigitChar(n)][..0] == [];
    } else {
      var p := Padded(n / 10, if width == 0 then 0 else width - 1);
      var c := DigitChar(n % 10);
      ValueOfPadded(n / 10, if width == 0 then 0 else width - 1);
      assert (p + [c])[..|p|] == p;
      assert Value(p + [c]) == 10 * (n / 10) + n % 10;
    }
  }

  /** Width 0 and width 1 format alike. */
  lemma PaddedWidthZero(n: nat)
    ensures Padded(n, 0) == Padded(n, 1)
  {
  }

  /** A number of exactly `width` digits formats the same with or without padding. */
  lemma {:induction false} PaddedUnpadded(n: nat, width: nat)
    requires width >= 1 && Pow10(width - 1) <= n
    ensures Padded(n, width) == Padded(n, 1)
  {
    if width > 1 {
      assert n >= 10 by {
        assert Pow10(width - 1) == 10 * Pow10(width - 2);
      }
      assert Pow10(width - 2) <= n / 10 by {
        assert Pow10(width - 1) == 10 * Pow10(width - 2);
      }
      PaddedUnpadded(n / 10, width - 1);
      PaddedWidthZero(n / 10);
    }
  }

  /** A number below `10^width` formats to exactly `width` characters. */
  lemma {:induction false} PaddedLength(n: nat, width: nat)
    requires width >= 1 && n < Pow10(width)
    ensures |Padded(n, width)| == width
  {
    if width > 1 {
      assert n / 10 < Pow10(width - 1) by {
        assert Pow10(width) == 10 * Pow10(width - 1);
      }
      PaddedLength(n / 10, width - 1);
    }
  }

  /** Python's `a < b` on strings: the first differing character decides by
      code point, and a proper prefix comes first. */
  predicate LexLess(a: string, b: string)
    decreases |a|
  {
    if a == [] then b != []
    else if b == [] then false
    else if a[0] != b[0] then a[0] < b[0]
    else LexLess(a[1..], b[1..])
  }

  lemma {:induction false} LexIrreflexive(a: string)
    ensures !LexLess(a, a)
    decreases |a|
  {
    if a != [] {
      LexIrreflexive(a[1..]);
    }
  }

  lemma {:induction false} LexTransitive(a: string, b: string, c: string)
    requires LexLess(a, b) && LexLess(b, c)
    ensures LexLess(a, c)
    decreases |a|
  {
    if a != [] && b != [] && c != [] && a[0] == b[0] && b[0] == c[0] {
      LexTransitive(a[1..], b[1..], c[1..]);
    }
  }

  lemma {:induction false} LexTotal(a: string, b: string)
    ensures a == b || LexLess(a, b) || LexLess(b, a)
    decreases |a|
  {
    if a != [] && b != [] && a[0] == b[0] {
      LexTotal(a[1..], b[1..]);
      if a[1..] == b[1..] {
        assert a == [a[0]] + a[1..] && b == [b[0]] + b[1..];
      }
    }
  }

  lemma LexAsymmetric(a: string, b: string)
    requires LexLess(a, b)
    ensures !LexLess(b, a)
  {
    if LexLess(b, a) {
      LexTransitive(a, b, a);
      LexIrreflexive(a);
    }
  }

  /** Two strings that start with parts of equal length compare by those parts
      first and by the rest only when the parts are equal. */
  lemma {:induction false} LexConcat(a: string, b: string, c: string, d: string)
    requires |a| == |b|
    ensures LexLess(a + c, b + d) <==> LexLess(a, b) || (a == b && LexLess(c, d))
    decreases |a|
  {
    if a == [] {
      assert a + c == c && b + d == d;
    } else {
      assert (a + c)[0] == a[0] && (b + d)[0] == b[0];
      assert (a + c)[1..] == a[1..] + c && (b + d)[1..] == b[1..] + d;
      LexConcat(a[1..], b[1..], c, d);
      if a[0] == b[0] && a[1..] == b[1..] {
        assert a == [a[0]] + a[1..] && b == [b[0]] + b[1..];
      }
    }
  }

  /** Zero-padded numbers of one width sort as strings exactly as they sort
      as numbers. */
  lemma {:induction false} PaddedOrder(m: nat, n: nat, width: nat)
    requires width >= 1 && m < n < Pow10(width)
    ensures LexLess(Padded(m, width), Padded(n, width))
  {
    if width == 1 {
      assert Padded(m, 1) == [DigitChar(m)] && Padded(n, 1) == [DigitChar(n)];
    } else {
      assert Pow10(width) == 10 * Pow10(width - 1);
      var pm, pn := Padded(m / 10, width - 1), Padded(n / 10, width - 1);
      PaddedLength(m / 10, width - 1);
      PaddedLength(n / 10, width - 1);
      LexConcat(pm, pn, [DigitChar(m % 10)], [DigitChar(n % 10)]);
      if m / 10 < n / 10 {
        PaddedOrder(m / 10, n / 10, width - 1);
      } else {
        assert m % 10 < n % 10;
      }
    }
  }

  lemma PaddedCompare(m: nat, n: nat, width: nat)
    requires width >= 1 && m < Pow10(width) && n < Pow10(width)
    ensures LexLess(Padded(m, width), Padded(n, width)) <==> m < n
    ensures Padded(m, width) == Padded(n, width) <==> m == n
  {
    ValueOfPadded(m, width);
    ValueOfPadded(n, width);
    if m < n {
      PaddedOrder(m, n, width);
    } else if n < m {
      PaddedOrder(n, m, width);
      LexAsymmetric(Padded(n, width), Padded(m, width));
    } else {
      LexIrreflexive(Padded(m, width));
    }
  }

  /** Two strings made of a zero-padded field, a separator and a tail compare
      by the field's number first and by the tail when the numbers agree. */
  lemma FieldThenCompare(x: nat, y: nat, width: nat, sep: char, r: string, s: string)
    requires width >= 1 && x < Pow10(width) && y < Pow10(width)
    ensures LexLess(Padded(x, width) + [sep] + r, Padded(y, width) + [sep] + s)
        <==> x < y || (x == y && LexLess(r, s))
  {
    var px, py := Padded(x, width), Padded(y, width);
    PaddedLength(x, width);
    PaddedLength(y, width);
    PaddedCompare(x, y, width);
    assert px + [sep] + r == px + ([sep] + r);
    assert py + [sep] + s == py + ([sep] + s);
    LexConcat(px, py, [sep] + r, [sep] + s);
    assert ([sep] + r)[1..] == r && ([sep] + s)[1..] == s;
  }

  /** Two strings made of a zero-padded field, a separator and a tail are equal
      exactly when the fields' numbers and the tails are. */
  lemma FieldThenEqual(x: nat, y: nat, width: nat, sep: char, r: string, s: string)
    requires width >= 1 && x < Pow10(width) && y < Pow10(width)
    ensures Padded(x, width) + [sep] + r == Padded(y, width) + [sep] + s <==> x == y && r == s
  {
    var px, py := Padded(x, width), Padded(y, width);
    PaddedLength(x, width);
    PaddedLength(y, width);
    PaddedCompare(x, y, width);
    if px + [sep] + r == py + [sep] + s {
      assert (px + [sep] + r)[..width] == px && (py + [sep] + s)[..width] == py;
      assert (px + [sep] + r)[width + 1..] == r && (py + [sep] + s)[width + 1..] == s;
    }
  }
}
