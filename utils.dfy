// The hexadecimal and binary formatters of the editor's register, memory
// and disassembly panels: the digits of a number in base 16 or base 2,
// lowercase and without a prefix, padded on the left with '0' up to a
// minimum width (Python's `hex(i)[2:]` and `bin(i)[2:]` followed by
// `str.zfill` on a string that has no sign).
module EditorUtils {
  import opened Bytes
  import opened Machine

  /** The two bases the formatters write in. */
  predicate Radix(base: nat)
  {
    base == 2 || base == 16
  }

  /** `c` is a digit of `base`; the letters of base 16 are lowercase only. */
  predicate IsDigit(c: char, base: nat)
  {
    ('0' <= c <= '9' && (c as int) - ('0' as int) < base) || (base == 16 && 'a' <= c <= 'f')
  }

  /** The character of a digit value below 16. */
  function DigitChar(d: nat): (c: char)
    requires d < 16
    ensures IsDigit(c, 16) && (d < 2 ==> IsDigit(c, 2))
    ensures DigitValue(c) == d
    ensures c == '0' <==> d == 0
  {
    if d < 10 then (('0' as int) + d) as char else (('a' as int) + d - 10) as char
  }

  /** The value of a digit character ('0'-'9', 'a'-'f'). */
  function DigitValue(c: char): nat
  {
    if '0' <= c <= '9' then (c as int) - ('0' as int)
    else if 'a' <= c <= 'f' then (c as int) - ('a' as int) + 10
    else 0
  }

  function Pow(base: nat, k: nat): (p: nat)
    ensures base >= 2 ==> p >= 1
  {
    if k == 0 then 1 else base * Pow(base, k - 1)
  }

  lemma {:induction false} PowMonotone(base: nat, j: nat, k: nat)
    requires base >= 2 && j <= k
    ensures Pow(base, j) <= Pow(base, k)
    decreases k
  {
    if j < k {
      PowMonotone(base, j, k - 1);
      MulAtLeast(Pow(base, k - 1), base);
    }
  }

  /**
   * The digits of `n` in `base`, most significant first, with no leading
   * zero: "0" for zero (what `hex(n)[2:]` and `bin(n)[2:]` give for n >= 0).
   */
  function Numeral(n: nat, base: nat): (r: string)
    requires Radix(base)
    ensures |r| >= 1
    ensures forall k :: 0 <= k < |r| ==> IsDigit(r[k], base)
    ensures r[0] == '0' <==> n == 0
    decreases n
  {
    if n < base then [DigitChar(n)]
    else Numeral(n / base, base) + [DigitChar(n % base)]
  }

  /** The value of a string of digits read in `base`, most significant first. */
  function Parse(s: string, base: nat): nat
  {
    if s == [] then 0 else Parse(s[..|s| - 1], base) * base + DigitValue(s[|s| - 1])
  }

  function Zeros(k: nat): (z: string)
    ensures |z| == k && forall j :: 0 <= j < k ==> z[j] == '0'
  {
    seq(k, _ => '0')
  }

  /** `str.zfill(width)` on a string without a sign: '0's prepended up to `width` characters. */
  function ZFill(s: string, width: nat): string
  {
    if |s| >= width then s else Zeros(width - |s|) + s
  }

  /** `int_to_hex`: the hexadecimal digits of `i`, at least `fill` of them. */
  function IntToHex(i: nat, fill: nat := 2): string
  {
    ZFill(Numeral(i, 16), fill)
  }

  /** `int_to_bin`: the binary digits of `i`, at least `fill` of them. */
  function IntToBin(i: nat, fill: nat := 8): string
  {
    ZFill(Numeral(i, 2), fill)
  }

  // ---- the digits -------------------------------------------------------------------

  /** Reading the digits of `n` back gives `n`. */
  lemma {:induction false} NumeralParses(n: nat, base: nat)
    requires Radix(base)
    ensures Parse(Numeral(n, base), base) == n
    decreases n
  {
    if n >= base {
      var front := Numeral(n / base, base);
      var r := front + [DigitChar(n % base)];
      assert r[..|r| - 1] == front;
      NumeralParses(n / base, base);
      DivMod(n, base);
    }
  }

  /**
   * The number of digits is the least k >= 1 with n < base^k: n fits in
   * that many digits and, past the first, not in one fewer.
   */
  lemma {:induction false} NumeralLength(n: nat, base: nat)
    requires Radix(base)
    ensures n < Pow(base, |Numeral(n, base)|)
    ensures |Numeral(n, base)| > 1 ==> Pow(base, |Numeral(n, base)| - 1) <= n
    decreases n
  {
    if n < base {
      assert |Numeral(n, base)| == 1;
      assert Pow(base, 1) == base;
    } else {
      var k := |Numeral(n / base, base)|;
      assert |Numeral(n, base)| == k + 1;
      NumeralLength(n / base, base);
      LengthStep(n, base, k);
    }
  }

  /** One more digit: n / base fits in k digits (and needs k) iff n fits in k + 1 (and needs k + 1). */
  lemma LengthStep(n: nat, base: nat, k: nat)
    requires base >= 2 && n >= base && k >= 1
    requires n / base < Pow(base, k)
    requires k > 1 ==> Pow(base, k - 1) <= n / base
    ensures n < Pow(base, k + 1) && Pow(base, k) <= n
  {
    var q := n / base;
    DivMod(n, base);
    DigitsBound(base, q, n % base, Pow(base, k));
    if k > 1 {
      MulMonotone(base, Pow(base, k - 1), q);
    }
  }

  lemma DivMod(n: nat, d: nat)
    requires d > 0
    ensures (n / d) * d + n % d == n
  {
  }

  lemma DigitsBound(base: nat, q: nat, d: nat, p: nat)
    requires d < base && q < p
    ensures base * q + d < base * p
  {
    assert q <= p - 1;
    MulMonotone(base, q, p - 1);
    assert base * (p - 1) == base * p - base;
  }

  lemma MulMonotone(c: nat, a: nat, b: nat)
    requires a <= b
    ensures c * a <= c * b
  {
  }

  /** A leading '0' does not change the value. */
  lemma {:induction false} ParseLeadingZero(s: string, base: nat)
    ensures Parse(['0'] + s, base) == Parse(s, base)
    decreases |s|
  {
    if s != [] {
      var z := ['0'] + s;
      assert z[..|z| - 1] == ['0'] + s[..|s| - 1];
      ParseLeadingZero(s[..|s| - 1], base);
    }
  }

  /** Any number of leading '0's does not change the value. */
  lemma {:induction false} ParseLeadingZeros(k: nat, s: string, base: nat)
    ensures Parse(Zeros(k) + s, base) == Parse(s, base)
    decreases k
  {
    if k > 0 {
      var rest := Zeros(k - 1) + s;
      assert Zeros(k) + s == ['0'] + rest;
      ParseLeadingZero(rest, base);
      ParseLeadingZeros(k - 1, s, base);
    } else {
      assert Zeros(k) + s == s;
    }
  }

  function Max(a: nat, b: nat): nat
  {
    if a >= b then a else b
  }

  /** `zfill` keeps the string at the end and puts only '0's before it, up to `width`. */
  lemma ZFillLayout(s: string, width: nat)
    ensures var r := ZFill(s, width);
            && |r| == Max(width, |s|)
            && r[|r| - |s|..] == s
            && (forall k :: 0 <= k < |r| - |s| ==> r[k] == '0')
  {
    if |s| < width {
      assert (Zeros(width - |s|) + s)[width - |s|..] == s;
    }
  }

  /** Padding a string of digits keeps it a string of digits, of the same value. */
  lemma ZFillKeepsDigits(s: string, base: nat, width: nat)
    requires Radix(base)
    requires forall k :: 0 <= k < |s| ==> IsDigit(s[k], base)
    ensures var r := ZFill(s, width);
            && (forall k :: 0 <= k < |r| ==> IsDigit(r[k], base))
            && Parse(r, base) == Parse(s, base)
  {
    if |s| < width {
      var z := Zeros(width - |s|);
      ParseLeadingZeros(width - |s|, s, base);
      assert forall k :: 0 <= k < |z| + |s| ==> (z + s)[k] == if k < |z| then z[k] else s[k - |z|];
    }
  }

  /**
   * `int_to_hex`: the lowercase hex digits of `i` (no leading zero, as many
   * as `NumeralLength` says), preceded by '0's up to `fill` characters;
   * read back it is `i`.
   */
  lemma IntToHexSpec(i: nat, fill: nat)
    ensures var r := IntToHex(i, fill);
            var d := Numeral(i, 16);
            && (forall k :: 0 <= k < |r| ==> IsDigit(r[k], 16))
            && |r| == Max(fill, |d|)
            && r[|r| - |d|..] == d
            && (forall k :: 0 <= k < |r| - |d| ==> r[k] == '0')
            && Parse(r, 16) == i
  {
    var d := Numeral(i, 16);
    ZFillLayout(d, fill);
    ZFillKeepsDigits(d, 16, fill);
    NumeralParses(i, 16);
  }

  /**
   * `int_to_bin`: the binary digits of `i` (no leading zero), preceded by
   * '0's up to `fill` characters; read back it is `i`.
   */
  lemma IntToBinSpec(i: nat, fill: nat)
    ensures var r := IntToBin(i, fill);
            var d := Numeral(i, 2);
            && (forall k :: 0 <= k < |r| ==> r[k] == '0' || r[k] == '1')
            && |r| == Max(fill, |d|)
            && r[|r| - |d|..] == d
            && (forall k :: 0 <= k < |r| - |d| ==> r[k] == '0')
            && Parse(r, 2) == i
  {
    var d := Numeral(i, 2);
    ZFillLayout(d, fill);
    ZFillKeepsDigits(d, 2, fill);
    NumeralParses(i, 2);
    var r := IntToBin(i, fill);
    forall k | 0 <= k < |r|
      ensures r[k] == '0' || r[k] == '1'
    {
      BinaryDigit(r[k]);
    }
  }

  lemma BinaryDigit(c: char)
    ensures IsDigit(c, 2) <==> c == '0' || c == '1'
  {
  }

  /** Different numbers never print alike, whatever the widths. */
  lemma FormattingIsInjective(i: nat, j: nat, fill: nat, fill': nat)
    ensures IntToHex(i, fill) == IntToHex(j, fill') ==> i == j
    ensures IntToBin(i, fill) == IntToBin(j, fill') ==> i == j
  {
    IntToHexSpec(i, fill);
    IntToHexSpec(j, fill');
    IntToBinSpec(i, fill);
    IntToBinSpec(j, fill');
  }

  /** A value below base^fill has at most `fill` digits, so it prints in exactly `fill` characters. */
  lemma ExactWidth(i: nat, base: nat, fill: nat)
    requires Radix(base) && fill >= 1 && i < Pow(base, fill)
    ensures |ZFill(Numeral(i, base), fill)| == fill
  {
    var d := Numeral(i, base);
    NumeralLength(i, base);
    ZFillLayout(d, fill);
    PowMonotone(base, fill, Max(fill, |d| - 1));
  }

  /**
   * A byte (a register, a memory cell, the PSW) prints in two hex or eight
   * binary characters with the default widths.
   */
  lemma BytePanelWidths(b: byte)
    ensures |IntToHex(b)| == 2 && |IntToBin(b)| == 8
  {
    assert Pow(16, 2) == 0x100 && Pow(2, 8) == 0x100;
    ExactWidth(b, 16, 2);
    ExactWidth(b, 2, 8);
  }

  /** A word register prints in four hex or sixteen binary characters with the fills its panel passes. */
  lemma WordPanelWidths(w: word)
    ensures |IntToHex(w, 4)| == 4 && |IntToBin(w, 16)| == 16
  {
    assert Pow(16, 4) == 0x1_0000;
    assert Pow(2, 8) == 0x100;
    assert Pow(2, 16) == 0x1_0000;
    ExactWidth(w, 16, 4);
    ExactWidth(w, 2, 16);
  }

  // ---- binary digits are bits -----------------------------------------------------------

  /** Counting from the right, binary digit k of `n` is bit k; past the digits every bit is clear. */
  lemma {:induction false} NumeralBits(n: nat, k: nat)
    ensures var r := Numeral(n, 2);
            && (k < |r| ==> r[|r| - 1 - k] == Digit01(Bit(n, k)))
            && (k >= |r| ==> !Bit(n, k))
    decreases n
  {
    var r := Numeral(n, 2);
    if n < 2 {
      if k > 0 {
        SmallBitClear(n, k);
      }
    } else {
      var front := Numeral(n / 2, 2);
      assert r == front + [DigitChar(n % 2)];
      if k > 0 {
        BitHalve(n, k);
        NumeralBits(n / 2, k - 1);
        if k < |r| {
          assert r[|r| - 1 - k] == front[|front| - 1 - (k - 1)];
        }
      }
    }
  }

  lemma SmallBitClear(n: nat, k: nat)
    requires n < 2 && k > 0
    ensures !Bit(n, k)
  {
    assert Pow2(k) == 2 * Pow2(k - 1);
    DivUnique(n, Pow2(k), 0, n);
  }

  /** The same of the padded form: padding stands for clear bits. */
  lemma BinDigitIsBit(n: nat, fill: nat, k: nat)
    requires k < |IntToBin(n, fill)|
    ensures var r := IntToBin(n, fill);
            r[|r| - 1 - k] == Digit01(Bit(n, k))
  {
    var d := Numeral(n, 2);
    NumeralBits(n, k);
    if |d| < fill && k >= |d| {
      assert IntToBin(n, fill)[fill - 1 - k] == '0';
    }
  }

  /**
   * The registers panel prints the flags as `int_to_bin(PSW)`: that is the
   * state's PSW line, flag digits S Z 0 AC 0 P 1 CY.
   */
  lemma StatusWordPrintsAsBinary(s: Snapshot)
    ensures IntToBin(ProcessorStatusWord(s)) == StatusWordString(s)
  {
    var psw := ProcessorStatusWord(s);
    var r := IntToBin(psw);
    var t := StatusWordString(s);
    BytePanelWidths(psw);
    forall j | 0 <= j < 8
      ensures r[j] == t[j]
    {
      BinDigitIsBit(psw, 8, 7 - j);
    }
  }
}
