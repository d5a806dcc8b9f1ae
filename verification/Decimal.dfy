/**
 Decimal text for 6-decimal fixed-point amounts: `fixedString`, `priceString`
 and `trimDecimal` of the watcher's decode package.

 `Units` reads a text back as an exact number, independently of the printers.
 */
module Decimal {
  import opened Arith

  /** The fixed-point scale of USDC and share amounts, as a number of decimals. */
  const USDC_DECIMALS: nat := 6

  function Pow10(n: nat): (p: nat)
    ensures p >= 1
  {
    if n == 0 then 1 else 10 * Pow10(n - 1)
  }

  // ---- Digits ----

  predicate IsDigit(c: char) { '0' <= c <= '9' }

  ghost predicate AllDigits(s: string) { forall i :: 0 <= i < |s| ==> IsDigit(s[i]) }

  function DigitChar(d: nat): (c: char)
    requires d < 10
    ensures IsDigit(c)
  {
    '0' + (d as char)
  }

  function DigitOf(c: char): nat { if IsDigit(c) then (c as int) - ('0' as int) else 0 }

  /** Base-10 text of `n`, no leading zero. */
  function Digits(n: nat): (s: string)
    ensures s != [] && AllDigits(s)
    ensures |s| > 1 ==> s[0] != '0'
  {
    if n < 10 then [DigitChar(n)] else Digits(n / 10) + [DigitChar(n % 10)]
  }

  function Zeros(n: nat): (s: string)
    ensures |s| == n && forall i :: 0 <= i < n ==> s[i] == '0'
  {
    seq(n, _ => '0')
  }

  /** `%0*d`: `n` left-padded with zeros to at least `width` characters. */
  function Pad(n: nat, width: nat): (s: string)
    ensures AllDigits(s)
  {
    var d := Digits(n);
    if |d| >= width then d else Zeros(width - |d|) + d
  }

  /** The number that a run of digits stands for. */
  function NatOf(s: string): nat
  {
    if s == [] then 0 else 10 * NatOf(s[..|s| - 1]) + DigitOf(s[|s| - 1])
  }

  lemma {:induction false} NatOfDigits(n: nat)
    ensures NatOf(Digits(n)) == n
  {
    if n >= 10 {
      var s := Digits(n);
      assert s[..|s| - 1] == Digits(n / 10);
      NatOfDigits(n / 10);
    }
  }

  lemma {:induction false} NatOfConcat(a: string, b: string)
    ensures NatOf(a + b) == NatOf(a) * Pow10(|b|) + NatOf(b)
  {
    if b == [] {
      assert a + b == a;
    } else {
      var b' := b[..|b| - 1];
      assert (a + b)[..|a + b| - 1] == a + b';
      NatOfConcat(a, b');
      assert Pow10(|b|) == 10 * Pow10(|b'|);
      MulTen(NatOf(a), Pow10(|b'|));
      assert NatOf(a + b) == 10 * NatOf(a + b') + DigitOf(b[|b| - 1]);
    }
  }

  lemma {:induction false} NatOfZeros(n: nat)
    ensures NatOf(Zeros(n)) == 0
  {
    if n > 0 {
      assert Zeros(n)[..n - 1] == Zeros(n - 1);
      NatOfZeros(n - 1);
    }
  }

  lemma {:induction false} DigitsLength(n: nat, width: nat)
    requires n < Pow10(width) && width >= 1
    ensures |Digits(n)| <= width
  {
    if n >= 10 {
      assert width >= 2;
      DigitsLength(n / 10, width - 1);
    }
  }

  lemma PadReads(n: nat, width: nat)
    requires n < Pow10(width) && width >= 1
    ensures |Pad(n, width)| == width && NatOf(Pad(n, width)) == n
  {
    hide Digits, NatOf, Pow10;
    DigitsLength(n, width);
    NatOfDigits(n);
    var d := Digits(n);
    if |d| < width {
      NatOfConcat(Zeros(width - |d|), d);
      NatOfZeros(width - |d|);
    }
  }

  // ---- Reading decimal text ----

  /** Index of the first dot, or the length when there is none. */
  function Dot(s: string): (i: nat)
    ensures i <= |s|
    ensures i < |s| ==> s[i] == '.'
    ensures forall j :: 0 <= j < i ==> s[j] != '.'
  {
    if s == [] || s[0] == '.' then 0 else 1 + Dot(s[1..])
  }

  function IntegerPart(s: string): string { s[..Dot(s)] }

  function FractionPart(s: string): string { if Dot(s) < |s| then s[Dot(s) + 1..] else "" }

  /** The number a decimal text stands for, counted in units of 10^-decimals. */
  function Units(s: string, decimals: nat): nat
    requires |FractionPart(s)| <= decimals
  {
    NatOf(IntegerPart(s) + FractionPart(s)) * Pow10(decimals - |FractionPart(s)|)
  }

  /** No dot at all, or a fraction that does not end in a zero: nothing left to trim. */
  ghost predicate Canonical(s: string)
  {
    '.' in s ==> FractionPart(s) != "" && s[|s| - 1] != '0'
  }

  lemma {:induction false} DotAt(i: string, t: string)
    requires AllDigits(i) && (t == "" || t[0] == '.')
    ensures Dot(i + t) == |i|
  {
    if i == "" {
      assert i + t == t;
    } else {
      assert IsDigit(i[0]);
      assert (i + t)[1..] == i[1..] + t;
      DotAt(i[1..], t);
    }
  }

  lemma SplitText(i: string, f: string)
    requires AllDigits(i)
    ensures IntegerPart(i + "." + f) == i && FractionPart(i + "." + f) == f
  {
    DotAt(i, "." + f);
    assert i + "." + f == i + ("." + f);
  }

  lemma IntegerText(i: string, decimals: nat)
    requires AllDigits(i)
    ensures '.' !in i && IntegerPart(i) == i && FractionPart(i) == ""
    ensures Units(i, decimals) == NatOf(i) * Pow10(decimals)
  {
    hide Dot, NatOf, Pow10;
    DotAt(i, "");
    assert i + "" == i;
  }

  // ---- Trimming ----

  /** `strings.TrimRight(s, c)` for a one-character cutset. */
  function TrimRight(s: string, c: char): (t: string)
    ensures t <= s
    ensures t != [] ==> t[|t| - 1] != c
  {
    if s != [] && s[|s| - 1] == c then TrimRight(s[..|s| - 1], c) else s
  }

  /** Drops trailing zeros of a fraction, and then a trailing dot. */
  function TrimDecimal(s: string): string
  {
    if '.' !in s then s else TrimRight(TrimRight(s, '0'), '.')
  }

  /** Trimming zeros never reaches the dot. */
  lemma {:induction false} TrimZerosStopsAtDot(i: string, f: string)
    ensures TrimRight(i + "." + f, '0') == i + "." + TrimRight(f, '0')
  {
    var s := i + "." + f;
    if f != "" && f[|f| - 1] == '0' {
      assert s[..|s| - 1] == i + "." + f[..|f| - 1];
      TrimZerosStopsAtDot(i, f[..|f| - 1]);
    } else if f == "" {
      assert s[|s| - 1] == '.';
    }
  }

  /** Trailing zeros of a fraction add nothing to the number. */
  lemma {:induction false} ZerosAddNothing(i: string, f: string, decimals: nat)
    requires |f| <= decimals
    ensures var g := TrimRight(f, '0');
            NatOf(i + g) * Pow10(decimals - |g|) == NatOf(i + f) * Pow10(decimals - |f|)
  {
    if f != "" && f[|f| - 1] == '0' {
      var f' := f[..|f| - 1];
      assert (i + f)[..|i + f| - 1] == i + f';
      ZerosAddNothing(i, f', decimals);
      MulTen(NatOf(i + f'), Pow10(decimals - |f|));
    }
  }

  lemma TrimRightStops(s: string, c: char)
    requires s == [] || s[|s| - 1] != c
    ensures TrimRight(s, c) == s
  {}

  lemma TrimRightDrops(s: string, c: char)
    ensures TrimRight(s + [c], c) == TrimRight(s, c)
  {
    assert (s + [c])[..|s|] == s;
  }

  /** Trimming removes the zeros behind the fraction, and the dot when nothing else is left there. */
  lemma TrimDecimalShape(i: string, f: string)
    requires i != "" && AllDigits(i) && AllDigits(f)
    ensures var g := TrimRight(f, '0');
            TrimDecimal(i + "." + f) == if g == "" then i else i + "." + g
  {
    hide TrimRight;
    var s := i + "." + f;
    assert s[|i|] == '.';
    TrimZerosStopsAtDot(i, f);
    var g := TrimRight(f, '0');
    if g == "" {
      assert i + "." + g == i + ['.'];
      TrimRightDrops(i, '.');
      assert IsDigit(i[|i| - 1]);
      TrimRightStops(i, '.');
    } else {
      assert g[|g| - 1] == f[|g| - 1] && IsDigit(f[|g| - 1]);
      TrimRightStops(i + "." + g, '.');
    }
  }

  /** trimDecimal preserves the value of every digits-dot-digits text and leaves nothing to trim. */
  lemma TrimDecimalPreservesValue(i: string, f: string, decimals: nat)
    requires i != "" && AllDigits(i) && AllDigits(f) && |f| <= decimals
    ensures var t := TrimDecimal(i + "." + f);
            && Canonical(t) && |FractionPart(t)| <= decimals
            && Units(t, decimals) == NatOf(i + f) * Pow10(decimals - |f|)
  {
    hide TrimDecimal, TrimRight, NatOf, Pow10, Dot;
    TrimDecimalShape(i, f);
    ZerosAddNothing(i, f, decimals);
    var g := TrimRight(f, '0');
    if g == "" {
      IntegerText(i, decimals);
      assert i + g == i;
    } else {
      SplitText(i, g);
    }
  }

  // ---- Printers ----

  /** A fixed-point integer with `decimals` decimals, as a trimmed decimal. */
  function FixedString(n: nat, decimals: nat): string
  {
    var scale := Pow10(decimals);
    if Rem(n, scale) == 0 then Digits(Quot(n, scale))
    else TrimDecimal(Digits(Quot(n, scale)) + "." + Pad(Rem(n, scale), decimals))
  }

  /** Integer part, dot and padded remainder of n, once trimmed, read back as n. */
  lemma TrimmedQuotient(n: nat, q: nat, r: nat, decimals: nat)
    requires decimals >= 1 && r < Pow10(decimals) && n == q * Pow10(decimals) + r
    ensures var t := TrimDecimal(Digits(q) + "." + Pad(r, decimals));
            Canonical(t) && |FractionPart(t)| <= decimals && Units(t, decimals) == n
  {
    hide TrimDecimal, Digits, Pad, NatOf, Units;
    PadReads(r, decimals);
    TrimDecimalPreservesValue(Digits(q), Pad(r, decimals), decimals);
    assert NatOf(Digits(q) + Pad(r, decimals)) == n by {
      NatOfDigits(q);
      NatOfConcat(Digits(q), Pad(r, decimals));
    }
  }

  /** Reading back what fixedString prints gives exactly n / 10^decimals, in canonical text. */
  lemma FixedStringRoundTrip(n: nat, decimals: nat)
    ensures Canonical(FixedString(n, decimals))
    ensures |FractionPart(FixedString(n, decimals))| <= decimals
    ensures Units(FixedString(n, decimals), decimals) == n
  {
    var scale := Pow10(decimals);
    DivMod(n, scale);
    if Rem(n, scale) == 0 {
      NatOfDigits(Quot(n, scale));
      IntegerText(Digits(Quot(n, scale)), decimals);
    } else {
      assert decimals >= 1;
      TrimmedQuotient(n, Quot(n, scale), Rem(n, scale), decimals);
    }
  }

  /** The whole units stand before the dot, and a dot is printed exactly when something is left over. */
  lemma FixedStringParts(n: nat, decimals: nat)
    ensures NatOf(IntegerPart(FixedString(n, decimals))) == n / Pow10(decimals)
    ensures FractionPart(FixedString(n, decimals)) == "" <==> n % Pow10(decimals) == 0
  {
    hide *;
    QuotIsDiv(n, Pow10(decimals));
    FixedStringSplit(n, decimals);
    NatOfDigits(Quot(n, Pow10(decimals)));
  }

  lemma FixedStringSplit(n: nat, decimals: nat)
    ensures IntegerPart(FixedString(n, decimals)) == Digits(Quot(n, Pow10(decimals)))
    ensures FractionPart(FixedString(n, decimals)) == "" <==> Rem(n, Pow10(decimals)) == 0
  {
    hide *;
    FixedStringText(n, decimals);
    var i := Digits(Quot(n, Pow10(decimals)));
    IntegerText(i, decimals);
    SplitText(i, TrimRight(Pad(Rem(n, Pow10(decimals)), decimals), '0'));
  }

  lemma FixedStringText(n: nat, decimals: nat)
    ensures var i, r := Digits(Quot(n, Pow10(decimals))), Rem(n, Pow10(decimals));
            var g := TrimRight(Pad(r, decimals), '0');
            if r == 0 then FixedString(n, decimals) == i else FixedString(n, decimals) == i + "." + g && g != ""
  {
    hide Digits, Pad, NatOf, TrimDecimal, TrimRight, Quot, Rem;
    var r := Rem(n, Pow10(decimals));
    if r != 0 {
      PadReads(r, decimals);
      TrimDecimalShape(Digits(Quot(n, Pow10(decimals))), Pad(r, decimals));
      NonzeroKeepsDigits(Pad(r, decimals));
    }
  }

  lemma NonzeroKeepsDigits(f: string)
    requires NatOf(f) != 0
    ensures TrimRight(f, '0') != ""
  {
    hide TrimRight, Pow10;
    ZerosAddNothing("", f, |f|);
    assert "" + f == f && "" + "" == "";
  }

  /** Different amounts never print alike. */
  lemma FixedStringInjective(a: nat, b: nat, decimals: nat)
    requires FixedString(a, decimals) == FixedString(b, decimals)
    ensures a == b
  {
    FixedStringRoundTrip(a, decimals);
    FixedStringRoundTrip(b, decimals);
  }

  /** What a remainder of `den` adds when halves are rounded away from zero. */
  function HalfUp(rem: nat, den: nat): nat { if 2 * rem >= den then 1 else 0 }

  /** `big.Rat.FloatString(prec)`: nearest, halves away from zero, exactly `prec` fraction digits. */
  function FloatString(num: nat, den: nat, prec: nat): string
    requires den >= 1
  {
    var p := Pow10(prec);
    var rest := Times(Rem(num, den), p);
    var up := Quot(rest, den) + HalfUp(Rem(rest, den), den);
    if up >= p then Digits(Quot(num, den) + 1) + "." + Pad(up - p, prec)
    else Digits(Quot(num, den)) + "." + Pad(up, prec)
  }

  /** USDC per share, as a trimmed decimal; "0" when no shares changed hands. */
  function PriceString(usdc: nat, shares: nat): string
  {
    if shares == 0 then "0" else TrimDecimal(FloatString(usdc, shares, USDC_DECIMALS))
  }

  /** The integer that FloatString rounds num * p / den to, for p = 10^prec. */
  function Rounded(num: nat, den: nat, p: nat): nat
    requires den >= 1
  {
    var rest := Times(Rem(num, den), p);
    Times(Quot(num, den), p) + (Quot(rest, den) + HalfUp(Rem(rest, den), den))
  }

  lemma RoundedIsNearest(num: nat, den: nat, p: nat)
    requires den >= 1
    ensures -(den as int) < 2 * (Rounded(num, den, p) * den - num * p) <= den
  {
    hide Quot, Rem;
    var q, m := Quot(num, den), Rem(num, den);
    var rest := Times(m, p);
    DivMod(num, den);
    DivMod(rest, den);
    var k, s := Quot(rest, den), Rem(rest, den);
    RoundingError(num, den, p, q, m, k, s, HalfUp(s, den));
  }

  /** The rounding error in one equation: what rounding up adds, less the remainder. */
  lemma RoundingError(num: int, den: int, p: int, q: int, m: int, k: int, s: int, e: int)
    requires num == q * den + m && m * p == k * den + s
    ensures (q * p + (k + e)) * den - num * p == e * den - s
  {
    Distribute(q * p, k, e, den);
    Distribute(q * den, m, 0, p);
    Swap(q, p, den);
  }

  /** FloatString prints the rounded integer with its last `prec` digits behind the dot. */
  lemma FloatStringShape(num: nat, den: nat, prec: nat)
    requires den >= 1
    ensures var p := Pow10(prec);
            var n := Rounded(num, den, p);
            FloatString(num, den, prec) == Digits(Quot(n, p)) + "." + Pad(Rem(n, p), prec)
  {
    var p := Pow10(prec);
    var q, m := Quot(num, den), Rem(num, den);
    var rest := Times(m, p);
    FractionBelowOne(m, den, p);
    var up := Quot(rest, den) + HalfUp(Rem(rest, den), den);
    if up >= p {
      assert Times(q + 1, p) == Times(q, p) + p;
      QuotientOfSum(q + 1, 0, p);
    } else {
      QuotientOfSum(q, up, p);
    }
  }

  /**
   priceString is within half of 10^-6 of usdc/shares (both sides times 2 * 10^6 * shares), a tie
   rounding up, in canonical text.
   */
  lemma PriceStringNearest(usdc: nat, shares: nat)
    requires shares > 0
    ensures Canonical(PriceString(usdc, shares)) && |FractionPart(PriceString(usdc, shares))| <= USDC_DECIMALS
    ensures -(shares as int) < 2 * (Units(PriceString(usdc, shares), USDC_DECIMALS) * shares - usdc * Pow10(USDC_DECIMALS)) <= shares
  {
    var p := Pow10(USDC_DECIMALS);
    FloatStringShape(usdc, shares, USDC_DECIMALS);
    var n := Rounded(usdc, shares, p);
    DivMod(n, p);
    TrimmedQuotient(n, Quot(n, p), Rem(n, p), USDC_DECIMALS);
    RoundedIsNearest(usdc, shares, p);
  }
}
