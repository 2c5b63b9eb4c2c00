/** Canonical scale-6 money strings: the parser `scale6` and the formatter that
    `admission_binding` applies to a micro-USD amount.  The two are proved to
    undo each other, in both directions. */
module Amounts {
  import opened Options

  const MICRO := 1_000_000

  predicate IsDigit(c: char) {
    '0' <= c <= '9'
  }

  predicate AllDigits(s: string) {
    forall i :: 0 <= i < |s| ==> IsDigit(s[i])
  }

  /** Position of the first '.', or the length when there is none (`str.partition`). */
  function FirstDot(s: string): (i: nat)
    ensures i <= |s|
    ensures forall k :: 0 <= k < i ==> s[k] != '.'
    ensures i < |s| ==> s[i] == '.'
  {
    if s == "" || s[0] == '.' then 0 else 1 + FirstDot(s[1..])
  }

  predicate WholeOk(w: string) {
    |w| > 0 && AllDigits(w) && w[0] != '0'
  }

  predicate FractionOk(f: string) {
    1 <= |f| <= 6 && AllDigits(f) && f[|f| - 1] != '0'
  }

  /** `value.partition(".")`: the text before the first dot, whether there is a dot, the rest. */
  datatype Parts = Parts(whole: string, dot: bool, fraction: string)

  function Partition(s: string): Parts {
    var i := FirstDot(s);
    if i < |s| then Parts(s[..i], true, s[i + 1..]) else Parts(s, false, "")
  }

  /** The `_AMOUNT` pattern: 0.fraction, or a whole part without a leading zero and an
      optional fraction; a fraction has 1..6 digits and no trailing zero. */
  predicate Canonical(s: string) {
    CanonicalParts(Partition(s))
  }

  predicate CanonicalParts(p: Parts) {
    if p.dot then (p.whole == "0" || WholeOk(p.whole)) && FractionOk(p.fraction)
    else WholeOk(p.whole)
  }

  function Digit(c: char): (d: nat)
    requires IsDigit(c)
    ensures d < 10
  {
    (c as int) - ('0' as int)
  }

  function DigitChar(d: nat): (c: char)
    requires d < 10
    ensures IsDigit(c) && Digit(c) == d
  {
    (d + '0' as int) as char
  }

  /** Python's `int(...)` on a string of decimal digits. */
  function IntOf(s: string): nat
    requires AllDigits(s)
  {
    if s == "" then 0 else 10 * IntOf(s[..|s| - 1]) + Digit(s[|s| - 1])
  }

  /** `(fraction + "000000")[:6]`. */
  function SixDigits(fraction: string): (f: string)
    requires FractionOk(fraction)
    ensures |f| == 6 && AllDigits(f)
  {
    (fraction + "000000")[..6]
  }

  /** `scale6`: micro-USD value of a canonical amount, or None where the source raises. */
  function Scale6(s: string): Option<nat> {
    if Canonical(s) then Scale6Parts(Partition(s)) else None
  }

  function Scale6Parts(p: Parts): Option<nat>
    requires CanonicalParts(p)
  {
    if |p.whole| + |p.fraction| > 18 then None
    else if p.dot then Some(IntOf(p.whole) * MICRO + IntOf(SixDigits(p.fraction)))
    else Some(IntOf(p.whole) * MICRO)
  }

  /** `str(n)` for a natural number. */
  function Decimal(n: nat): (s: string)
    ensures |s| > 0 && AllDigits(s)
  {
    if n < 10 then [DigitChar(n)] else Decimal(n / 10) + [DigitChar(n % 10)]
  }

  /** The low `width` decimal digits of n, zero padded (`:06d` at width 6). */
  function Padded(n: nat, width: nat): (s: string)
    ensures |s| == width && AllDigits(s)
  {
    if width == 0 then "" else Padded(n / 10, width - 1) + [DigitChar(n % 10)]
  }

  /** `s.rstrip(c)`. */
  function StripRight(s: string, c: char): string {
    if s != "" && s[|s| - 1] == c then StripRight(s[..|s| - 1], c) else s
  }

  /** The formatter in `admission_binding` and `_complete`.  Division and remainder by
      the positive MICRO floor in Python as they do here. */
  function Format(n: int): string {
    var whole := n / MICRO;
    var sign := if whole < 0 then "-" + Decimal(-whole) else Decimal(whole);
    StripRight(StripRight(sign + "." + Padded(n % MICRO, 6), '0'), '.')
  }

  function Pow10(k: nat): (p: nat)
    ensures p > 0
  {
    if k == 0 then 1 else 10 * Pow10(k - 1)
  }

  function Zeros(k: nat): (z: string)
    ensures |z| == k
    ensures forall i :: 0 <= i < k ==> z[i] == '0'
  {
    seq(k, _ => '0')
  }

  // ----- digits -----

  lemma IntOfSnoc(front: string, last: char)
    requires AllDigits(front) && IsDigit(last)
    ensures AllDigits(front + [last]) && IntOf(front + [last]) == 10 * IntOf(front) + Digit(last)
  {
    assert (front + [last])[..|front|] == front;
  }

  lemma {:induction false} IntOfPadded(n: nat, k: nat)
    requires n < Pow10(k)
    ensures IntOf(Padded(n, k)) == n
  {
    if k > 0 {
      var front, last := Padded(n / 10, k - 1), DigitChar(n % 10);
      IntOfPadded(n / 10, k - 1);
      IntOfSnoc(front, last);
    }
  }

  lemma SplitDigit(a: nat, d: nat)
    requires d < 10
    ensures (10 * a + d) / 10 == a && (10 * a + d) % 10 == d
  {
  }

  lemma DigitCharDigit(c: char)
    requires IsDigit(c)
    ensures DigitChar(Digit(c)) == c
  {
  }

  lemma PaddedSnoc(a: nat, c: char, k: nat)
    requires IsDigit(c)
    ensures Padded(10 * a + Digit(c), k + 1) == Padded(a, k) + [c]
  {
    SplitDigit(a, Digit(c));
    DigitCharDigit(c);
  }

  lemma {:induction false} IntOfBelow(s: string)
    requires AllDigits(s)
    ensures IntOf(s) < Pow10(|s|)
  {
    if s != "" {
      IntOfBelow(s[..|s| - 1]);
    }
  }

  lemma {:induction false} PaddedIntOf(s: string)
    requires AllDigits(s)
    ensures Padded(IntOf(s), |s|) == s
  {
    if s != "" {
      var k := |s| - 1;
      PaddedIntOf(s[..k]);
      PaddedSnoc(IntOf(s[..k]), s[k], k);
      assert s[..k] + [s[k]] == s;
    }
  }

  lemma {:induction false} IntOfDecimal(n: nat)
    ensures IntOf(Decimal(n)) == n
    ensures Decimal(n)[0] == '0' <==> n == 0
  {
    if n >= 10 {
      IntOfDecimal(n / 10);
      assert Decimal(n)[..|Decimal(n)| - 1] == Decimal(n / 10);
    }
  }

  lemma {:induction false} DecimalIntOf(w: string)
    requires w == "0" || WholeOk(w)
    ensures Decimal(IntOf(w)) == w
    ensures WholeOk(w) ==> IntOf(w) > 0
  {
    var front := w[..|w| - 1];
    assert w == front + [w[|w| - 1]];
    if |w| > 1 {
      DecimalIntOf(front);
      assert IntOf(w) / 10 == IntOf(front);
    } else {
      assert front == "";
    }
  }

  lemma {:induction false} DecimalLength(n: nat, k: nat)
    requires k > 0 && n < Pow10(k)
    ensures |Decimal(n)| <= k
  {
    if n >= 10 {
      DecimalLength(n / 10, k - 1);
    }
  }

  // ----- trailing zeros -----

  lemma {:induction false} StripAppend(s: string, t: string, c: char)
    ensures StripRight(s + t, c) == if StripRight(t, c) == "" then StripRight(s, c) else s + StripRight(t, c)
  {
    if t == "" {
      assert s + t == s;
    } else {
      var front := t[..|t| - 1];
      assert (s + t)[..|s + t| - 1] == s + front;
      StripAppend(s, front, c);
    }
  }

  lemma {:induction false} StripZeros(s: string)
    ensures |StripRight(s, '0')| <= |s|
    ensures s == StripRight(s, '0') + Zeros(|s| - |StripRight(s, '0')|)
    ensures StripRight(s, '0') != "" ==> StripRight(s, '0')[|StripRight(s, '0')| - 1] != '0'
  {
    if s != "" && s[|s| - 1] == '0' {
      StripZeros(s[..|s| - 1]);
      assert s == s[..|s| - 1] + ['0'];
    }
  }

  lemma {:induction false} StripAddedZeros(s: string, k: nat)
    requires s == "" || s[|s| - 1] != '0'
    ensures StripRight(s + Zeros(k), '0') == s
  {
    if k == 0 {
      assert s + Zeros(k) == s;
    } else {
      assert (s + Zeros(k))[..|s| + k - 1] == s + Zeros(k - 1);
      StripAddedZeros(s, k - 1);
    }
  }

  lemma {:induction false} IntOfZeros(k: nat)
    ensures AllDigits(Zeros(k)) && IntOf(Zeros(k)) == 0
  {
    if k > 0 {
      IntOfZeros(k - 1);
      assert Zeros(k)[..k - 1] == Zeros(k - 1);
    }
  }

  lemma PartitionWhole(w: string)
    requires AllDigits(w)
    ensures Partition(w) == Parts(w, false, "")
  {
    assert FirstDot(w) == |w|;
  }

  lemma PartitionDot(w: string, rest: string)
    requires AllDigits(w)
    ensures Partition(w + "." + rest) == Parts(w, true, rest)
  {
    var s := w + "." + rest;
    assert s[|w|] == '.';
    assert forall k :: 0 <= k < |w| ==> s[k] == w[k];
    assert FirstDot(s) == |w|;
    assert s[..|w|] == w && s[|w| + 1..] == rest;
  }

  lemma PartitionJoin(s: string)
    ensures var p := Partition(s);
            s == if p.dot then p.whole + "." + p.fraction else p.whole
  {
    var i := FirstDot(s);
    if i < |s| {
      assert s == s[..i] + "." + s[i + 1..];
    }
  }

  lemma StripDot(w: string, g: string)
    requires AllDigits(w) && w != "" && AllDigits(g)
    ensures StripRight(w + "." + g, '.') == if g == "" then w else w + "." + g
  {
    var s := w + "." + g;
    if g == "" {
      assert s[..|s| - 1] == w;
    } else {
      assert s[|s| - 1] == g[|g| - 1];
    }
  }

  /** Both `rstrip` calls together: the trailing zeros go, then a dot left bare. */
  lemma StripAmount(w: string, f: string)
    requires AllDigits(w) && w != "" && AllDigits(f) && |f| == 6
    ensures var g := StripRight(f, '0');
            && StripRight(StripRight(w + "." + f, '0'), '.') == (if g == "" then w else w + "." + g)
            && (g != "" ==> FractionOk(g))
            && g + Zeros(6 - |g|) == f
  {
    var g := StripRight(f, '0');
    StripZeros(f);
    assert forall i :: 0 <= i < |g| ==> g[i] == f[i];
    StripAppend(w + ".", f, '0');
    assert w + "." + "" == w + ".";
    StripDot(w, g);
  }

  /** The digits a formatted nonnegative amount consists of. */
  function FormatParts(n: nat): Parts {
    var g := StripRight(Padded(n % MICRO, 6), '0');
    Parts(Decimal(n / MICRO), g != "", g)
  }

  lemma FormatShape(n: nat)
    ensures var p := FormatParts(n);
            && Format(n) == (if p.dot then p.whole + "." + p.fraction else p.whole)
            && Partition(Format(n)) == p
  {
    var w := Decimal(n / MICRO);
    var f := Padded(n % MICRO, 6);
    StripAmount(w, f);
    PartitionWhole(w);
    PartitionDot(w, StripRight(f, '0'));
  }

  /** Six digits strip to nothing exactly when they are the digits of zero. */
  lemma StripsAwayIff(r: nat)
    requires r < MICRO
    ensures StripRight(Padded(r, 6), '0') == "" <==> r == 0
  {
    var f := Padded(r, 6);
    StripZeros(f);
    MicroIsPow();
    IntOfPadded(r, 6);
    IntOfZeros(6);
    PaddedZero(6);
    StripAddedZeros("", 6);
    assert "" + Zeros(6) == Zeros(6);
  }

  lemma FormatFraction(n: nat)
    ensures var p := FormatParts(n);
            && (p.dot <==> n % MICRO != 0)
            && (p.dot ==> FractionOk(p.fraction) && SixDigits(p.fraction) == Padded(n % MICRO, 6))
  {
    var f := Padded(n % MICRO, 6);
    StripAmount("0", f);
    PadRight(StripRight(f, '0'));
    StripsAwayIff(n % MICRO);
  }

  lemma MicroParts(q: nat, r: nat)
    requires r < MICRO
    ensures (q * MICRO + r) / MICRO == q && (q * MICRO + r) % MICRO == r
  {
  }

  lemma MicroIsPow()
    ensures Pow10(6) == MICRO
  {
    assert Pow10(3) == 1000;
  }

  /** `(fraction + "000000")[:6]` pads on the right to six digits. */
  lemma PadRight(g: string)
    requires |g| <= 6
    ensures (g + "000000")[..6] == g + Zeros(6 - |g|)
  {
    assert "000000" == Zeros(6);
  }

  lemma {:induction false} PaddedZero(k: nat)
    ensures Padded(0, k) == Zeros(k)
  {
    if k > 0 {
      PaddedZero(k - 1);
      assert Padded(0, k) == Zeros(k - 1) + ['0'];
    }
  }

  function DigitCount(s: string): nat {
    |Partition(s).whole| + |Partition(s).fraction|
  }

  /** Printing then parsing: for every positive amount the formatted string is canonical, and
      it is accepted, with the same value, exactly when it has at most 18 digits. */
  lemma ParseFormat(n: nat)
    requires n > 0
    ensures Canonical(Format(n))
    ensures Scale6(Format(n)) == (if DigitCount(Format(n)) <= 18 then Some(n) else None)
  {
    FormatShape(n);
    FormatFraction(n);
    IntOfDecimal(n / MICRO);
    MicroIsPow();
    IntOfPadded(n % MICRO, 6);
  }

  /** Every amount below 10^18 micro-USD survives the round trip. */
  lemma ParseFormatBelow(n: nat)
    requires 0 < n < 1_000_000_000_000_000_000
    ensures Scale6(Format(n)) == Some(n)
  {
    ParseFormat(n);
    FormatShape(n);
    FormatFraction(n);
    assert Pow10(12) == 1_000_000_000_000 by {
      assert Pow10(4) == 10_000;
      assert Pow10(8) == 100_000_000;
    }
    DecimalLength(n / MICRO, 12);
  }

  lemma FormatFrom(q: nat, r: nat, whole: string, fraction: string)
    requires r < MICRO && Decimal(q) == whole && StripRight(Padded(r, 6), '0') == fraction != ""
    ensures Format(q * MICRO + r) == whole + "." + fraction
  {
    MicroParts(q, r);
    FormatShape(q * MICRO + r);
  }

  lemma FormatWhole(whole: string)
    requires WholeOk(whole)
    ensures Format(IntOf(whole) * MICRO) == whole && IntOf(whole) > 0
  {
    DecimalIntOf(whole);
    MicroParts(IntOf(whole), 0);
    FormatShape(IntOf(whole) * MICRO);
    FormatFraction(IntOf(whole) * MICRO);
  }

  /** Parsing then printing: an accepted string is the only spelling of its value. */
  lemma FormatParse(s: string)
    requires Scale6(s).Some?
    ensures Scale6(s).value > 0
    ensures Format(Scale6(s).value) == s
  {
    var p := Partition(s);
    PartitionJoin(s);
    if p.dot {
      var q, r := IntOf(p.whole), IntOf(SixDigits(p.fraction));
      DecimalIntOf(p.whole);
      FractionValue(p.fraction);
      FormatFrom(q, r, p.whole, p.fraction);
    } else {
      FormatWhole(p.whole);
    }
  }

  lemma FractionNonzero(f: string, k: nat)
    requires |f| == 6 && AllDigits(f) && k < 6 && f[k] != '0'
    ensures IntOf(f) > 0
  {
    PaddedIntOf(f);
    PaddedZero(6);
    assert Zeros(6)[k] == '0';
  }

  lemma FractionStrips(g: string)
    requires FractionOk(g)
    ensures StripRight(SixDigits(g), '0') == g && SixDigits(g)[|g| - 1] == g[|g| - 1]
  {
    PadRight(g);
    StripAddedZeros(g, 6 - |g|);
  }

  lemma FractionValue(g: string)
    requires FractionOk(g)
    ensures 0 < IntOf(SixDigits(g)) < MICRO
    ensures Padded(IntOf(SixDigits(g)), 6) == SixDigits(g)
    ensures StripRight(SixDigits(g), '0') == g
  {
    var f := SixDigits(g);
    FractionStrips(g);
    FractionNonzero(f, |g| - 1);
    PaddedIntOf(f);
    IntOfBelow(f);
    MicroIsPow();
  }

  // ----- what a printed amount denotes -----

  /** The micro-USD value a reader takes from an unsigned decimal string. */
  function Magnitude(s: string): Option<nat> {
    MagnitudeOfParts(Partition(s))
  }

  function MagnitudeOfParts(p: Parts): Option<nat> {
    if p.whole != "" && AllDigits(p.whole) && AllDigits(p.fraction) && |p.fraction| <= 6
    then Some(IntOf(p.whole) * MICRO + IntOf(p.fraction + Zeros(6 - |p.fraction|))) else None
  }

  /** And from a string that may start with a minus sign. */
  function Denoted(s: string): Option<int> {
    if s != "" && s[0] == '-' then
      if Magnitude(s[1..]).Some? then Some(0 - Magnitude(s[1..]).value) else None
    else Magnitude(s)
  }

  lemma FractionDigits(n: nat)
    ensures var g := FormatParts(n).fraction;
            |g| <= 6 && AllDigits(g) && g + Zeros(6 - |g|) == Padded(n % MICRO, 6)
  {
    var f := Padded(n % MICRO, 6);
    StripZeros(f);
    var g := StripRight(f, '0');
    assert forall i :: 0 <= i < |g| ==> g[i] == f[i];
  }

  lemma PartsDenote(p: Parts, q: nat, r: nat)
    requires r < MICRO && p.whole == Decimal(q)
    requires |p.fraction| <= 6 && AllDigits(p.fraction) && p.fraction + Zeros(6 - |p.fraction|) == Padded(r, 6)
    ensures MagnitudeOfParts(p) == Some(q * MICRO + r)
  {
    IntOfDecimal(q);
    MicroIsPow();
    IntOfPadded(r, 6);
  }

  lemma FormatPartsDenote(m: nat)
    ensures MagnitudeOfParts(FormatParts(m)) == Some(m)
  {
    FractionDigits(m);
    PartsDenote(FormatParts(m), m / MICRO, m % MICRO);
  }

  lemma MagnitudeOfFormat(m: nat)
    ensures Magnitude(Format(m)) == Some(m)
  {
    FormatShape(m);
    FormatPartsDenote(m);
  }

  lemma FormatStart(m: nat)
    ensures Format(m) != "" && Format(m)[0] != '-'
  {
    FormatShape(m);
    assert Format(m)[0] == Decimal(m / MICRO)[0];
  }

  lemma StripMinus(x: string)
    requires StripRight(StripRight(x, '0'), '.') != ""
    ensures StripRight(StripRight("-" + x, '0'), '.') == "-" + StripRight(StripRight(x, '0'), '.')
  {
    StripAppend("-", x, '0');
    StripAppend("-", StripRight(x, '0'), '.');
  }

  /** A negative amount prints as a minus sign before its floor and its remainder. */
  lemma NegativeFormat(n: int, m: nat)
    requires n < 0 && m / MICRO == 0 - n / MICRO && m % MICRO == n % MICRO
    ensures Format(n) == "-" + Format(m)
  {
    var x := Decimal(m / MICRO) + "." + Padded(m % MICRO, 6);
    FormatStart(m);
    StripMinus(x);
    assert "-" + Decimal(m / MICRO) + "." + Padded(m % MICRO, 6) == "-" + x;
  }

  lemma DenotedMinus(text: string, m: nat)
    requires Magnitude(text) == Some(m)
    ensures Denoted("-" + text) == Some(0 - m)
  {
    assert ("-" + text)[1..] == text;
  }

  lemma NegativeTextDenotes(n: int, m: nat)
    requires n < 0 && m / MICRO == 0 - n / MICRO && m % MICRO == n % MICRO
    ensures Denoted(Format(n)) == Some(0 - m)
  {
    NegativeFormat(n, m);
    MagnitudeOfFormat(m);
    DenotedMinus(Format(m), m);
  }

  lemma MirrorParts(n: int)
    requires n < 0
    ensures var m := 2 * (n % MICRO) - n;
            m >= 0 && m / MICRO == 0 - n / MICRO && m % MICRO == n % MICRO
  {
  }

  lemma NegativeDenotes(n: int)
    requires n < 0
    ensures Denoted(Format(n)) == Some(n - 2 * (n % MICRO))
  {
    MirrorParts(n);
    NegativeTextDenotes(n, 2 * (n % MICRO) - n);
  }

  lemma NonnegativeDenotes(n: nat)
    ensures Denoted(Format(n)) == Some(n)
  {
    MagnitudeOfFormat(n);
    FormatStart(n);
  }

  /** The value that a reader takes from a printed amount. */
  function Printed(n: int): int {
    if n >= 0 then n else n - 2 * (n % MICRO)
  }

  lemma PrintedIff(n: int)
    ensures Printed(n) == n <==> n >= 0 || n % MICRO == 0
  {
  }

  lemma FormatDenotes(n: int)
    ensures Denoted(Format(n)) == Some(Printed(n))
  {
    if n >= 0 {
      NonnegativeDenotes(n);
    } else {
      NegativeDenotes(n);
    }
  }

  /** A printed amount denotes its value exactly when it is nonnegative or whole; otherwise it is
      off by twice the remainder. */
  lemma FormatDenotesIff(n: int)
    ensures Denoted(Format(n)) == Some(Printed(n))
    ensures Denoted(Format(n)) == Some(n) <==> n >= 0 || n % MICRO == 0
  {
    FormatDenotes(n);
    PrintedIff(n);
  }

  /** Distinct accepted strings denote distinct amounts. */
  lemma Scale6Injective(s: string, t: string)
    requires Scale6(s).Some? && Scale6(s) == Scale6(t)
    ensures s == t
  {
    FormatParse(s);
    FormatParse(t);
  }
}
