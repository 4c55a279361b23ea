/**
 * The `java.lang.String` and `Integer` operations the services apply to text:
 * `split` on a one-character separator, `trim`, `Integer.parseInt`, and the
 * decimal digit strings these are built on.
 */
module Strings {
  import opened Wrappers

  const IntMin: int := -0x8000_0000
  const IntMax: int := 0x7fff_ffff

  predicate IsDigit(c: char)
  {
    '0' <= c <= '9'
  }

  predicate AllDigits(s: string)
  {
    forall i :: 0 <= i < |s| ==> IsDigit(s[i])
  }

  function Pow10(n: nat): (p: nat)
    ensures p >= 1
  {
    if n == 0 then 1 else 10 * Pow10(n - 1)
  }

  /** The value of a string of decimal digits. */
  function DigitsValue(s: string): (v: nat)
    requires AllDigits(s)
    ensures v < Pow10(|s|)
  {
    if s == [] then 0
    else DigitsValue(s[..|s| - 1]) * 10 + ((s[|s| - 1] as int) - ('0' as int))
  }

  /** `n` written with exactly `width` digits, zero-padded on the left. */
  function Padded(n: nat, width: nat): (s: string)
    ensures |s| == width && AllDigits(s)
  {
    if width == 0 then []
    else Padded(n / 10, width - 1) + [(('0' as int) + n % 10) as char]
  }

  lemma {:induction false} PaddedValue(n: nat, width: nat)
    requires n < Pow10(width)
    ensures DigitsValue(Padded(n, width)) == n
  {
    if width > 0 {
      var s := Padded(n, width);
      PaddedValue(n / 10, width - 1);
      assert s[..|s| - 1] == Padded(n / 10, width - 1);
    }
  }

  lemma {:induction false} ValuePadded(s: string)
    requires AllDigits(s)
    ensures Padded(DigitsValue(s), |s|) == s
  {
    if s != [] {
      var init := s[..|s| - 1];
      ValuePadded(init);
      var c := (s[|s| - 1] as int) - ('0' as int);
      var v := DigitsValue(s);
      assert 0 <= c <= 9 && v == DigitsValue(init) * 10 + c;
      DivModTen(DigitsValue(init), c);
      assert Padded(v, |s|) == Padded(DigitsValue(init), |init|) + [(('0' as int) + c) as char];
      assert s == init + [s[|s| - 1]];
    }
  }

  lemma DivModTen(q: nat, c: int)
    requires 0 <= c <= 9
    ensures (q * 10 + c) / 10 == q && (q * 10 + c) % 10 == c
  {
  }

  /** The number of decimal digits of `n`, without leading zeros. */
  function NumDigits(n: nat): (k: nat)
    ensures k >= 1 && n < Pow10(k)
    ensures k > 1 ==> Pow10(k - 1) <= n
  {
    if n < 10 then 1 else 1 + NumDigits(n / 10)
  }

  /** `Integer.toString` for a value of zero or more. */
  function DecimalText(n: nat): (s: string)
    ensures |s| >= 1 && AllDigits(s)
    ensures |s| > 1 ==> s[0] != '0'
  {
    var k := NumDigits(n);
    assert k > 1 ==> Padded(n, k)[0] != '0' by {
      if k > 1 {
        FirstDigitOfPadded(n, k);
      }
    }
    Padded(n, k)
  }

  lemma {:induction false} FirstDigitOfPadded(n: nat, width: nat)
    requires width > 1 && Pow10(width - 1) <= n < Pow10(width)
    ensures Padded(n, width)[0] != '0'
  {
    if width == 2 {
      assert Padded(n, 2)[0] == Padded(n / 10, 1)[0];
    } else {
      FirstDigitOfPadded(n / 10, width - 1);
      assert Padded(n, width)[0] == Padded(n / 10, width - 1)[0];
    }
  }

  /** Reading the digits of a number's text gives the number back. */
  lemma DecimalTextValue(n: nat)
    ensures DigitsValue(DecimalText(n)) == n
  {
    PaddedValue(n, NumDigits(n));
  }

  /** A four-digit year is written as its zero-padded four digits. */
  lemma DecimalTextOfFourDigits(n: nat)
    requires 1000 <= n <= 9999
    ensures DecimalText(n) == Padded(n, 4)
  {
    assert NumDigits(n / 1000) == 1;
    assert NumDigits(n / 100) == 2;
    assert NumDigits(n / 10) == 3;
  }

  /** `Integer.parseInt`: an optional sign, then at least one decimal digit, within the `int` range. */
  function ParseJavaInt(s: string): (r: Option<int>)
    ensures r.Some? ==> IntMin <= r.value <= IntMax
    ensures r.Some? ==> |s| >= 1 && (IsDigit(s[0]) || s[0] == '-' || s[0] == '+')
  {
    if |s| == 0 then None
    else
      var digits := if s[0] == '-' || s[0] == '+' then s[1..] else s;
      if digits == [] || !AllDigits(digits) then None
      else
        var v: int := if s[0] == '-' then 0 - DigitsValue(digits) as int else DigitsValue(digits);
        if IntMin <= v <= IntMax then Some(v) else None
  }

  /** Zero-padded numerals, as in "03", parse to their value. */
  lemma ParseJavaIntPadded(n: nat, width: nat)
    requires 1 <= width && n < Pow10(width) && n <= IntMax
    ensures ParseJavaInt(Padded(n, width)) == Some(n)
  {
    PaddedValue(n, width);
  }

  /** Every piece between separators, empty ones included (one piece when `sep` does not occur). */
  function SplitAll(s: string, sep: char): (parts: seq<string>)
    ensures |parts| >= 1
    ensures forall i :: 0 <= i < |parts| ==> sep !in parts[i]
  {
    if s == [] then [""]
    else
      var rest := SplitAll(s[1..], sep);
      if s[0] == sep then [""] + rest
      else [[s[0]] + rest[0]] + rest[1..]
  }

  function Join(parts: seq<string>, sep: char): string
    requires |parts| >= 1
  {
    if |parts| == 1 then parts[0] else parts[0] + [sep] + Join(parts[1..], sep)
  }

  /** Joining the pieces with the separator gives back the text. */
  lemma {:induction false} JoinSplitAll(s: string, sep: char)
    ensures Join(SplitAll(s, sep), sep) == s
  {
    if s != [] {
      var rest := SplitAll(s[1..], sep);
      JoinSplitAll(s[1..], sep);
      if s[0] == sep {
        assert ([""] + rest)[1..] == rest;
      } else {
        var parts := [[s[0]] + rest[0]] + rest[1..];
        if |rest| > 1 {
          assert parts[1..] == rest[1..];
          assert Join(rest, sep) == rest[0] + [sep] + Join(rest[1..], sep);
        }
      }
    }
  }

  function DropTrailingEmpty(parts: seq<string>): (r: seq<string>)
    ensures |r| <= |parts| && r == parts[..|r|]
    ensures r == [] || r[|r| - 1] != ""
    ensures forall i :: |r| <= i < |parts| ==> parts[i] == ""
  {
    if parts != [] && parts[|parts| - 1] == "" then DropTrailingEmpty(parts[..|parts| - 1]) else parts
  }

  /**
   * `String.split` on a one-character separator: the text itself when the
   * separator does not occur, otherwise the pieces with trailing empty ones removed.
   */
  function JavaSplit(s: string, sep: char): (parts: seq<string>)
    ensures sep !in s ==> parts == [s]
    ensures sep in s ==> parts == DropTrailingEmpty(SplitAll(s, sep))
  {
    if sep !in s then [s] else DropTrailingEmpty(SplitAll(s, sep))
  }

  /** The separator splits text that has no separator into one piece, itself. */
  lemma {:induction false} SplitAllWithoutSep(s: string, sep: char)
    requires sep !in s
    ensures SplitAll(s, sep) == [s]
  {
    if s != [] {
      SplitAllWithoutSep(s[1..], sep);
      assert [s[0]] + s[1..] == s;
    }
  }

  /** Two separator-free pieces joined by the separator split back into those two pieces. */
  lemma {:induction false} SplitAllPair(a: string, b: string, sep: char)
    requires sep !in a && sep !in b
    ensures SplitAll(a + [sep] + b, sep) == [a, b]
  {
    var s := a + [sep] + b;
    if a == [] {
      assert s[1..] == b;
      SplitAllWithoutSep(b, sep);
    } else {
      assert s[1..] == a[1..] + [sep] + b;
      SplitAllPair(a[1..], b, sep);
      assert [a[0]] + a[1..] == a;
    }
  }

  predicate IsBlank(c: char)
  {
    c <= ' '
  }

  function TrimStart(s: string): (t: string)
    ensures t == [] || !IsBlank(t[0])
    ensures |t| <= |s| && t == s[|s| - |t|..]
  {
    if s != [] && IsBlank(s[0]) then TrimStart(s[1..]) else s
  }

  function TrimEnd(s: string): (t: string)
    ensures t == [] || !IsBlank(t[|t| - 1])
    ensures |t| <= |s| && t == s[..|t|]
  {
    if s != [] && IsBlank(s[|s| - 1]) then TrimEnd(s[..|s| - 1]) else s
  }

  /** `String.trim`: drops leading and trailing characters up to U+0020. */
  function Trim(s: string): (t: string)
    ensures t == [] || (!IsBlank(t[0]) && !IsBlank(t[|t| - 1]))
  {
    TrimEnd(TrimStart(s))
  }

  predicate AllBlank(s: string)
  {
    forall i :: 0 <= i < |s| ==> IsBlank(s[i])
  }

  lemma {:induction false} TrimStartPrefix(a: string, t: string)
    requires AllBlank(a) && (t == [] || !IsBlank(t[0]))
    ensures TrimStart(a + t) == t
  {
    if a != [] {
      assert (a + t)[1..] == a[1..] + t;
      TrimStartPrefix(a[1..], t);
    } else {
      assert a + t == t;
    }
  }

  lemma {:induction false} TrimEndSuffix(t: string, b: string)
    requires AllBlank(b) && (t == [] || !IsBlank(t[|t| - 1]))
    ensures TrimEnd(t + b) == t
  {
    if b != [] {
      assert (t + b)[..|t + b| - 1] == t + b[..|b| - 1];
      TrimEndSuffix(t, b[..|b| - 1]);
    } else {
      assert t + b == t;
    }
  }

  /** Trimming removes exactly the blank padding around a text that does not start or end blank. */
  lemma TrimRemovesPadding(a: string, t: string, b: string)
    requires AllBlank(a) && AllBlank(b)
    requires t == [] || (!IsBlank(t[0]) && !IsBlank(t[|t| - 1]))
    ensures Trim(a + t + b) == t
  {
    if t == [] {
      assert a + t + b == a + b;
      TrimStartPrefix(a + b, []);
      assert a + b + [] == a + b;
      TrimEndSuffix([], []);
    } else {
      assert a + t + b == a + (t + b);
      TrimStartPrefix(a, t + b);
      TrimEndSuffix(t, b);
    }
  }
}
