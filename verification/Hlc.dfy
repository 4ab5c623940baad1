/**
 Hybrid logical clocks: the string encoding, the local clock source, and the order embedding that
 lets the merge models use plain numbers for clocks.
 */
module Hlc {

  // ── byte order of strings ─────────────────────────────────────────────────

  /** The order `a < b` that both `registry-core.ts` and `registry.rs` use on clock strings. */
  predicate LexLess(a: string, b: string)
    decreases |a|
  {
    if b == "" then false
    else if a == "" then true
    else a[0] < b[0] || (a[0] == b[0] && LexLess(a[1..], b[1..]))
  }

  /** Every character is one place of a number in this base, read from the left. */
  const BASE: nat := 0x11_0001

  function Pow(n: nat): (p: nat)
    ensures p > 0
  {
    if n == 0 then 1 else BASE * Pow(n - 1)
  }

  function Rank(s: string, width: nat): nat
    decreases width
  {
    if width == 0 || s == "" then 0
    else (s[0] as int + 1) * Pow(width - 1) + Rank(s[1..], width - 1)
  }

  lemma {:induction false} RankBound(s: string, width: nat)
    ensures Rank(s, width) < Pow(width)
    decreases width
  {
    if width == 0 || s == "" {
      return;
    }
    RankBound(s[1..], width - 1);
    Scale(s[0] as int + 1, BASE, Pow(width - 1));
  }

  lemma {:induction false} Scale(d: nat, base: nat, p: nat)
    requires d < base
    ensures d * p + p <= base * p
  {
    if base > d + 1 {
      Scale(d, base - 1, p);
      assert (base - 1) * p + p == base * p;
    }
  }

  lemma PlaceValue(d: nat, e: nat, r: nat, q: nat, p: nat)
    requires r < p && q < p
    ensures d * p + r < e * p + q <==> d < e || (d == e && r < q)
  {
    if d < e {
      Scale(d, e, p);
    } else if e < d {
      Scale(e, d, p);
    }
  }

  /**
   The validated clock strings have bounded length, so their byte order embeds in the naturals:
   comparing two strings and comparing their ranks is the same test.
   */
  lemma {:induction false} RankOrder(a: string, b: string, width: nat)
    requires |a| <= width && |b| <= width
    ensures LexLess(a, b) <==> Rank(a, width) < Rank(b, width)
    decreases width
  {
    if a == "" && b == "" {
    } else if a == "" || b == "" {
      var s := if a == "" then b else a;
      var d := s[0] as int + 1;
      assert d * Pow(width - 1) > 0;
    } else {
      RankOrder(a[1..], b[1..], width - 1);
      RankBound(a[1..], width - 1);
      RankBound(b[1..], width - 1);
      PlaceValue(a[0] as int + 1, b[0] as int + 1, Rank(a[1..], width - 1), Rank(b[1..], width - 1), Pow(width - 1));
    }
  }

  lemma {:induction false} RankInjective(a: string, b: string, width: nat)
    requires |a| <= width && |b| <= width
    requires Rank(a, width) == Rank(b, width)
    ensures a == b
    decreases width
  {
    if a == "" || b == "" {
      RankOrder(a, b, width);
      RankOrder(b, a, width);
    } else {
      RankBound(a[1..], width - 1);
      RankBound(b[1..], width - 1);
      PlaceValue(a[0] as int + 1, b[0] as int + 1, Rank(a[1..], width - 1), Rank(b[1..], width - 1), Pow(width - 1));
      PlaceValue(b[0] as int + 1, a[0] as int + 1, Rank(b[1..], width - 1), Rank(a[1..], width - 1), Pow(width - 1));
      RankInjective(a[1..], b[1..], width - 1);
      assert a == [a[0]] + a[1..] && b == [b[0]] + b[1..];
    }
  }

  /** `HLC_RE` admits 13 + 1 + 6 + 1 + 128 characters. */
  const MAX_HLC_LENGTH: nat := 149

  /** The merge models compare clocks; any order-preserving stand-in for the string will do. */
  type Clock = nat

  ghost function ClockOf(h: string): Clock {
    Rank(h, MAX_HLC_LENGTH)
  }

  lemma ClockOfIsFaithful(a: string, b: string)
    requires |a| <= MAX_HLC_LENGTH && |b| <= MAX_HLC_LENGTH
    ensures LexLess(a, b) <==> ClockOf(a) < ClockOf(b)
    ensures a == b <==> ClockOf(a) == ClockOf(b)
  {
    RankOrder(a, b, MAX_HLC_LENGTH);
    if ClockOf(a) == ClockOf(b) {
      RankInjective(a, b, MAX_HLC_LENGTH);
    }
  }

  // ── the encoding ──────────────────────────────────────────────────────────

  function Digit(d: nat): char
    requires d < 10
  {
    '0' + d as char
  }

  function Decimal(n: nat): string {
    if n < 10 then [Digit(n)] else Decimal(n / 10) + [Digit(n % 10)]
  }

  function Zeros(n: nat): string {
    if n == 0 then "" else "0" + Zeros(n - 1)
  }

  function PadStart(s: string, width: nat): string {
    if |s| >= width then s else Zeros(width - |s|) + s
  }

  function EncodeWith(ms: nat, counter: nat, device: string, msWidth: nat, counterWidth: nat): string {
    PadStart(Decimal(ms), msWidth) + "-" + PadStart(Decimal(counter), counterWidth) + "-" + device
  }

  /** `{ms:013}-{counter:06}-{device}` */
  function EncodeHlc(ms: nat, counter: nat, device: string): string {
    EncodeWith(ms, counter, device, 13, 6)
  }

  /** Exactly `width` digits; only used to reason about `PadStart`. */
  function Fixed(n: nat, width: nat): string {
    if width == 0 then "" else Fixed(n / 10, width - 1) + [Digit(n % 10)]
  }

  function Ten(n: nat): (p: nat)
    ensures p > 0
  {
    if n == 0 then 1 else 10 * Ten(n - 1)
  }

  lemma {:induction false} FixedZero(width: nat)
    ensures Fixed(0, width) == Zeros(width)
  {
    if width > 0 {
      FixedZero(width - 1);
      ZerosSnoc(width - 1);
    }
  }

  lemma {:induction false} ZerosSnoc(n: nat)
    ensures Zeros(n) + "0" == "0" + Zeros(n)
    ensures |Zeros(n)| == n
  {
    if n > 0 {
      ZerosSnoc(n - 1);
      assert Zeros(n) + "0" == "0" + (Zeros(n - 1) + "0");
    }
  }

  lemma {:induction false} PadStartIsFixed(n: nat, width: nat)
    requires width > 0 && n < Ten(width)
    ensures |Decimal(n)| <= width
    ensures PadStart(Decimal(n), width) == Fixed(n, width)
  {
    if n < 10 {
      FixedZero(width - 1);
      ZerosSnoc(width - 1);
      assert n / 10 == 0;
    } else {
      if width == 1 {
        assert false;
      } else {
        assert n / 10 < Ten(width - 1);
        PadStartIsFixed(n / 10, width - 1);
        var z := Zeros(width - |Decimal(n)|);
        assert z + Decimal(n) == (z + Decimal(n / 10)) + [Digit(n % 10)];
        assert PadStart(Decimal(n), width) == PadStart(Decimal(n / 10), width - 1) + [Digit(n % 10)] by {
          if |Decimal(n)| == width {
            assert Zeros(0) == "";
          }
        }
      }
    }
  }

  /** Fixed-width digits compare like the numbers; equal digits defer to whatever follows them. */
  lemma {:induction false} FixedOrder(a: nat, b: nat, width: nat, x: string, y: string)
    requires a < Ten(width) && b < Ten(width)
    ensures LexLess(Fixed(a, width) + x, Fixed(b, width) + y) <==> a < b || (a == b && LexLess(x, y))
    decreases width
  {
    if width == 0 {
      assert Fixed(a, 0) + x == x && Fixed(b, 0) + y == y;
    } else {
      var xa := [Digit(a % 10)] + x;
      var yb := [Digit(b % 10)] + y;
      FixedOrder(a / 10, b / 10, width - 1, xa, yb);
      assert Fixed(a, width) + x == Fixed(a / 10, width - 1) + xa;
      assert Fixed(b, width) + y == Fixed(b / 10, width - 1) + yb;
      assert xa[1..] == x && yb[1..] == y;
      assert LexLess(xa, yb) <==> a % 10 < b % 10 || (a % 10 == b % 10 && LexLess(x, y));
    }
  }

  datatype Stamp = Stamp(ms: nat, counter: nat)

  predicate StampLess(a: Stamp, b: Stamp) {
    a.ms < b.ms || (a.ms == b.ms && a.counter < b.counter)
  }

  /** What the fixed widths leave room for. */
  predicate Fits(s: Stamp) {
    s.ms < 10_000_000_000_000 && s.counter < 1_000_000
  }

  lemma TenPowers()
    ensures Ten(13) == 10_000_000_000_000 && Ten(6) == 1_000_000
  {
  }

  lemma EncodedShape(s: Stamp, device: string, msWidth: nat, counterWidth: nat)
    requires 0 < msWidth && s.ms < Ten(msWidth)
    requires 0 < counterWidth && s.counter < Ten(counterWidth)
    ensures EncodeWith(s.ms, s.counter, device, msWidth, counterWidth)
         == Fixed(s.ms, msWidth) + ("-" + (Fixed(s.counter, counterWidth) + ("-" + device)))
  {
    PadStartIsFixed(s.ms, msWidth);
    PadStartIsFixed(s.counter, counterWidth);
    var x, y := Fixed(s.ms, msWidth), Fixed(s.counter, counterWidth);
    assert x + "-" + y + "-" + device == x + ("-" + (y + ("-" + device)));
  }

  lemma AfterDash(x: string, y: string)
    ensures LexLess("-" + x, "-" + y) <==> LexLess(x, y)
  {
  }

  lemma ShapeOrder(a: Stamp, b: Stamp, d: string, e: string, msWidth: nat, counterWidth: nat)
    requires a.ms < Ten(msWidth) && b.ms < Ten(msWidth)
    requires a.counter < Ten(counterWidth) && b.counter < Ten(counterWidth)
    ensures LexLess(Fixed(a.ms, msWidth) + ("-" + (Fixed(a.counter, counterWidth) + ("-" + d))),
                    Fixed(b.ms, msWidth) + ("-" + (Fixed(b.counter, counterWidth) + ("-" + e))))
       <==> StampLess(a, b) || (a == b && LexLess(d, e))
  {
    var x := Fixed(a.counter, counterWidth) + ("-" + d);
    var y := Fixed(b.counter, counterWidth) + ("-" + e);
    AfterDash(d, e);
    FixedOrder(a.counter, b.counter, counterWidth, "-" + d, "-" + e);
    AfterDash(x, y);
    FixedOrder(a.ms, b.ms, msWidth, "-" + x, "-" + y);
  }

  /**
   Byte order of the encoded strings is the order on (ms, counter, device), in both directions,
   while ms stays below 10^13 and the counter below 10^6.
   */
  lemma EncodedOrder(a: Stamp, b: Stamp, d: string, e: string)
    requires Fits(a) && Fits(b)
    ensures LexLess(EncodeHlc(a.ms, a.counter, d), EncodeHlc(b.ms, b.counter, e))
       <==> StampLess(a, b) || (a == b && LexLess(d, e))
  {
    TenPowers();
    var msWidth: nat, counterWidth: nat :| msWidth == 13 && counterWidth == 6;
    EncodedShape(a, d, msWidth, counterWidth);
    EncodedShape(b, e, msWidth, counterWidth);
    ShapeOrder(a, b, d, e, msWidth, counterWidth);
  }

  lemma LeadingDecides(a: nat, ca: nat, b: nat, cb: nat, device: string)
    requires |Decimal(a)| >= 13 && |Decimal(b)| >= 13
    requires Leading(b) < Leading(a)
    ensures LexLess(EncodeHlc(b, cb, device), EncodeHlc(a, ca, device))
    ensures !LexLess(EncodeHlc(a, ca, device), EncodeHlc(b, cb, device))
  {
    FirstDigit(a);
    FirstDigit(b);
    assert EncodeHlc(a, ca, device)[0] == Decimal(a)[0];
    assert EncodeHlc(b, cb, device)[0] == Decimal(b)[0];
  }

  lemma LeadingOf(n: nat, places: nat)
    requires n > 0
    ensures Leading(n * Ten(places)) == Leading(n)
  {
    if places > 0 {
      assert n * Ten(places) == 10 * (n * Ten(places - 1));
      LeadingOf(n, places - 1);
      assert n * Ten(places - 1) > 0;
    }
  }

  /** One millisecond past the last 13-digit value the padding overflows and the order flips. */
  lemma EncodedOrderBreaksAtTenToThe13(device: string)
    ensures Tick(Stamp(9_999_999_999_999, 999_999), 0) == Stamp(10_000_000_000_000, 0)
    ensures LexLess(EncodeHlc(10_000_000_000_000, 0, device), EncodeHlc(9_999_999_999_999, 999_999, device))
  {
    var a: nat, b: nat, w: nat :| a == 9_999_999_999_999 && b == 10_000_000_000_000 && w == 13;
    TenPowers();
    assert Ten(w) == b;
    assert Ten(w - 1) == 1_000_000_000_000;
    DecimalLength(a, w);
    DecimalLength(b, w + 1);
    LeadingOf(1, w);
    assert Leading(b) == 1;
    assert Leading(a) == 9 by {
      assert Leading(9_999_999_999_999) == Leading(9_999_999);
      assert Leading(9_999_999) == Leading(9);
    }
    LeadingDecides(a, 999_999, b, 0, device);
  }

  function Leading(n: nat): nat {
    if n < 10 then n else Leading(n / 10)
  }

  lemma {:induction false} FirstDigit(n: nat)
    ensures Leading(n) < 10 && |Decimal(n)| > 0 && Decimal(n)[0] == Digit(Leading(n))
  {
    if n >= 10 {
      FirstDigit(n / 10);
    }
  }

  lemma {:induction false} DecimalLength(n: nat, width: nat)
    requires width > 0 && n < Ten(width)
    requires width == 1 || Ten(width - 1) <= n
    ensures |Decimal(n)| == width
  {
    if n >= 10 {
      if width == 1 {
        assert false;
      } else {
        DecimalLength(n / 10, width - 1);
      }
    } else if width > 1 {
      assert false;
    }
  }

  // ── the order at any date ─────────────────────────────────────────────────

  /** How many digits the milliseconds take when they are padded to `pad`. */
  function Places(n: nat, pad: nat): nat {
    if |Decimal(n)| < pad then pad else |Decimal(n)|
  }

  lemma {:induction false} TenMonotone(j: nat, k: nat)
    requires j <= k
    ensures Ten(j) <= Ten(k)
    decreases k
  {
    if j < k {
      TenMonotone(j, k - 1);
    }
  }

  lemma {:induction false} DecimalBounds(n: nat)
    ensures |Decimal(n)| > 0 && n < Ten(|Decimal(n)|)
    ensures n > 0 ==> Ten(|Decimal(n)| - 1) <= n
  {
    if n >= 10 {
      DecimalBounds(n / 10);
      assert Ten(|Decimal(n)|) == 10 * Ten(|Decimal(n / 10)|);
      assert Ten(|Decimal(n)| - 1) == 10 * Ten(|Decimal(n / 10)| - 1);
    } else {
      assert Ten(1) == 10 && Ten(0) == 1;
    }
  }

  lemma PaddedIsFixed(n: nat, pad: nat)
    requires pad > 0
    ensures n < Ten(Places(n, pad)) && PadStart(Decimal(n), pad) == Fixed(n, Places(n, pad))
  {
    DecimalBounds(n);
    TenMonotone(|Decimal(n)|, Places(n, pad));
    PadStartIsFixed(n, Places(n, pad));
  }

  /** The digits of a number are those of its leading part followed by the rest. */
  lemma {:induction false} FixedSplit(q: nat, r: nat, width: nat, k: nat)
    requires r < Ten(k)
    ensures |Fixed(r, k)| == k && Fixed(q * Ten(k) + r, width + k) == Fixed(q, width) + Fixed(r, k)
    decreases k
  {
    if k == 0 {
      assert Ten(0) == 1 && q * 1 == q;
      assert Fixed(q, width) + Fixed(r, 0) == Fixed(q, width);
    } else {
      var p := q * Ten(k - 1);
      assert q * Ten(k) == 10 * p;
      FixedSplit(q, r / 10, width, k - 1);
      assert (10 * p + r) / 10 == p + r / 10 && (10 * p + r) % 10 == r % 10;
      assert Fixed(q, width) + Fixed(r / 10, k - 1) + [Digit(r % 10)] == Fixed(q, width) + (Fixed(r / 10, k - 1) + [Digit(r % 10)]);
    }
  }

  lemma {:induction false} FixedIsDigits(n: nat, width: nat)
    ensures |Fixed(n, width)| == width && AllDigits(Fixed(n, width))
  {
    if width > 0 {
      FixedIsDigits(n / 10, width - 1);
    }
  }

  lemma Quotient(b: nat, width: nat, k: nat)
    requires b < Ten(width + k)
    ensures b / Ten(k) < Ten(width)
  {
    TenSum(width, k);
    BelowProduct(b, Ten(width), Ten(k));
  }

  lemma BelowProduct(b: nat, t: nat, u: nat)
    requires u > 0 && b < t * u
    ensures b / u < t
  {
    var q := b / u;
    assert q * u <= b;
    if q >= t {
      Times(t, q, u);
    }
  }

  lemma Times(a: nat, b: nat, c: nat)
    requires a <= b
    ensures a * c <= b * c
  {
  }

  /** A dash comes before any digit, so the shorter number is the smaller of two with the same leading digits. */
  lemma DashBeforeDigits(a: nat, q: nat, width: nat, digits: string, x: string, y: string)
    requires a < Ten(width) && q < Ten(width) && digits != "" && AllDigits(digits)
    ensures LexLess(Fixed(a, width) + ("-" + x), (Fixed(q, width) + digits) + ("-" + y)) <==> a <= q
    ensures LexLess((Fixed(q, width) + digits) + ("-" + y), Fixed(a, width) + ("-" + x)) <==> q < a
  {
    var tail := digits + ("-" + y);
    assert (Fixed(q, width) + digits) + ("-" + y) == Fixed(q, width) + tail;
    assert ("-" + x)[0] < tail[0];
    FixedOrder(a, q, width, "-" + x, tail);
    FixedOrder(q, a, width, tail, "-" + x);
  }

  lemma SplitOrder(a: nat, q: nat, r: nat, width: nat, k: nat, x: string, y: string)
    requires k > 0 && a < Ten(width) && q < Ten(width) && r < Ten(k)
    ensures LexLess(Fixed(a, width) + ("-" + x), Fixed(q * Ten(k) + r, width + k) + ("-" + y)) <==> a <= q
    ensures LexLess(Fixed(q * Ten(k) + r, width + k) + ("-" + y), Fixed(a, width) + ("-" + x)) <==> q < a
  {
    FixedSplit(q, r, width, k);
    FixedIsDigits(r, k);
    DashBeforeDigits(a, q, width, Fixed(r, k), x, y);
  }

  lemma DivMod(b: nat, t: nat)
    requires t > 0
    ensures b == (b / t) * t + b % t && 0 <= b % t < t && 0 <= b / t
  {
  }

  lemma ShorterOrder(a: nat, b: nat, width: nat, k: nat, x: string, y: string)
    requires k > 0 && a < Ten(width) && b < Ten(width + k)
    ensures LexLess(Fixed(a, width) + ("-" + x), Fixed(b, width + k) + ("-" + y)) <==> a <= b / Ten(k)
    ensures LexLess(Fixed(b, width + k) + ("-" + y), Fixed(a, width) + ("-" + x)) <==> b / Ten(k) < a
  {
    var t := Ten(k);
    DivMod(b, t);
    var q, r := b / t, b % t;
    Quotient(b, width, k);
    SplitOrder(a, q, r, width, k, x, y);
  }

  lemma {:induction false} TenSum(j: nat, k: nat)
    ensures Ten(j + k) == Ten(j) * Ten(k)
    decreases k
  {
    if k > 0 {
      TenSum(j, k - 1);
      assert Ten(j) * Ten(k) == 10 * (Ten(j) * Ten(k - 1));
    } else {
      assert Ten(j) * Ten(0) == Ten(j);
    }
  }

  /** The shorter of the two is no more than the leading digits of the longer. */
  predicate LeadingNoLess(m: nat, n: nat, pad: nat) {
    if Places(m, pad) == Places(n, pad) then true
    else if Places(m, pad) < Places(n, pad) then m <= n / Ten(Places(n, pad) - Places(m, pad))
    else n <= m / Ten(Places(m, pad) - Places(n, pad))
  }

  /** Between lengths past the padding the longer number is the larger. */
  lemma LongerIsLarger(m: nat, n: nat, pad: nat)
    requires pad > 0 && Places(m, pad) < Places(n, pad)
    ensures m < n
  {
    PaddedIsFixed(m, pad);
    DecimalBounds(n);
    TenMonotone(Places(m, pad), Places(n, pad) - 1);
  }

  lemma EncodedParts(s: Stamp, device: string, pad: nat, counterWidth: nat)
    requires pad > 0 && 0 < counterWidth && s.counter < Ten(counterWidth)
    ensures s.ms < Ten(Places(s.ms, pad))
    ensures EncodeWith(s.ms, s.counter, device, pad, counterWidth)
         == Fixed(s.ms, Places(s.ms, pad)) + ("-" + (Fixed(s.counter, counterWidth) + ("-" + device)))
  {
    PaddedIsFixed(s.ms, pad);
    PadStartIsFixed(s.counter, counterWidth);
    var x, y := Fixed(s.ms, Places(s.ms, pad)), Fixed(s.counter, counterWidth);
    assert x + "-" + y + "-" + device == x + ("-" + (y + ("-" + device)));
  }

  lemma EncodedWithOrderIff(a: Stamp, b: Stamp, d: string, e: string, pad: nat, counterWidth: nat)
    requires pad > 0 && counterWidth > 0 && a.counter < Ten(counterWidth) && b.counter < Ten(counterWidth)
    ensures (LexLess(EncodeWith(a.ms, a.counter, d, pad, counterWidth), EncodeWith(b.ms, b.counter, e, pad, counterWidth))
             <==> StampLess(a, b) || (a == b && LexLess(d, e)))
       <==> LeadingNoLess(a.ms, b.ms, pad)
  {
    var wa, wb := Places(a.ms, pad), Places(b.ms, pad);
    EncodedParts(a, d, pad, counterWidth);
    EncodedParts(b, e, pad, counterWidth);
    var x, y := Fixed(a.counter, counterWidth) + ("-" + d), Fixed(b.counter, counterWidth) + ("-" + e);
    if wa == wb {
      ShapeOrder(a, b, d, e, wa, counterWidth);
    } else if wa < wb {
      LongerIsLarger(a.ms, b.ms, pad);
      ShorterOrder(a.ms, b.ms, wa, wb - wa, x, y);
    } else {
      LongerIsLarger(b.ms, a.ms, pad);
      ShorterOrder(b.ms, a.ms, wb, wa - wb, y, x);
    }
  }

  /**
   Exactly when two encoded strings compare as their stamps do, at any date: always between milliseconds
   of one length, padding included, and otherwise when the shorter is at most the leading digits of the longer.
   */
  lemma EncodedOrderIff(a: Stamp, b: Stamp, d: string, e: string)
    requires a.counter < 1_000_000 && b.counter < 1_000_000
    ensures (LexLess(EncodeHlc(a.ms, a.counter, d), EncodeHlc(b.ms, b.counter, e))
             <==> StampLess(a, b) || (a == b && LexLess(d, e)))
       <==> LeadingNoLess(a.ms, b.ms, 13)
  {
    TenPowers();
    var pad: nat, counterWidth: nat :| pad == 13 && counterWidth == 6;
    EncodedWithOrderIff(a, b, d, e, pad, counterWidth);
  }

  // ── the encoding is injective ─────────────────────────────────────────────

  predicate AllDigits(s: string) {
    forall i :: 0 <= i < |s| ==> '0' <= s[i] <= '9'
  }

  function Value(s: string): int {
    if s == "" then 0 else 10 * Value(s[..|s| - 1]) + (s[|s| - 1] as int - '0' as int)
  }

  lemma {:induction false} ValueOfDecimal(n: nat)
    ensures AllDigits(Decimal(n)) && Value(Decimal(n)) == n
  {
    if n >= 10 {
      ValueOfDecimal(n / 10);
      assert Decimal(n)[..|Decimal(n)| - 1] == Decimal(n / 10);
    } else {
      assert Decimal(n)[..0] == "";
    }
  }

  lemma {:induction false} ZerosAreWorthNothing(n: nat, s: string)
    ensures AllDigits(Zeros(n)) && Value(Zeros(n) + s) == Value(s)
    decreases n, |s|
  {
    if s == "" {
      assert Zeros(n) + s == Zeros(n);
      if n > 0 {
        ZerosSnoc(n - 1);
        assert Zeros(n)[..n - 1] == Zeros(n - 1);
        ZerosAreWorthNothing(n - 1, s);
        assert Zeros(n - 1) + s == Zeros(n - 1);
      }
    } else {
      var front := s[..|s| - 1];
      ZerosAreWorthNothing(n, front);
      assert (Zeros(n) + s)[..|Zeros(n) + s| - 1] == Zeros(n) + front;
    }
  }

  lemma PaddedValue(n: nat, width: nat)
    ensures AllDigits(PadStart(Decimal(n), width)) && Value(PadStart(Decimal(n), width)) == n
  {
    ValueOfDecimal(n);
    if |Decimal(n)| < width {
      ZerosAreWorthNothing(width - |Decimal(n)|, Decimal(n));
    }
  }

  lemma SplitAtDash(p: string, x: string, q: string, y: string)
    requires AllDigits(p) && AllDigits(q)
    requires p + "-" + x == q + "-" + y
    ensures p == q && x == y
  {
    var s := p + "-" + x;
    assert s == q + "-" + y;
    assert s[|p|] == '-' && s[|q|] == '-';
    assert |p| == |q|;
    assert p == s[..|p|] && q == s[..|q|];
    assert x == s[|p| + 1..] && y == s[|q| + 1..];
  }

  lemma EncodedWithUnique(a: Stamp, b: Stamp, device: string, msWidth: nat, counterWidth: nat)
    requires EncodeWith(a.ms, a.counter, device, msWidth, counterWidth) == EncodeWith(b.ms, b.counter, device, msWidth, counterWidth)
    ensures a == b
  {
    PaddedValue(a.ms, msWidth);
    PaddedValue(b.ms, msWidth);
    PaddedValue(a.counter, counterWidth);
    PaddedValue(b.counter, counterWidth);
    var p, q := PadStart(Decimal(a.ms), msWidth), PadStart(Decimal(b.ms), msWidth);
    var u, v := PadStart(Decimal(a.counter), counterWidth), PadStart(Decimal(b.counter), counterWidth);
    assert p + "-" + u + "-" + device == p + "-" + (u + "-" + device);
    assert q + "-" + v + "-" + device == q + "-" + (v + "-" + device);
    SplitAtDash(p, u + "-" + device, q, v + "-" + device);
    SplitAtDash(u, device, v, device);
  }

  /** No two ticks of one device share a clock string, at any date. */
  lemma EncodedTickIsUnique(a: Stamp, b: Stamp, device: string)
    requires EncodeHlc(a.ms, a.counter, device) == EncodeHlc(b.ms, b.counter, device)
    ensures a == b
  {
    var msWidth: nat, counterWidth: nat :| msWidth == 13 && counterWidth == 6;
    EncodedWithUnique(a, b, device, msWidth, counterWidth);
  }

  /** An encoded clock has the form the rooms validate: 13 digits, 6 digits and the device, dashes in between. */
  lemma EncodedForm(s: Stamp, device: string)
    requires Fits(s)
    ensures var h := EncodeHlc(s.ms, s.counter, device);
            && |h| == 21 + |device| && h[13] == '-' && h[20] == '-' && h[21..] == device
            && AllDigits(h[..13]) && Value(h[..13]) == s.ms && AllDigits(h[14..20]) && Value(h[14..20]) == s.counter
  {
    TenPowers();
    var msWidth: nat, counterWidth: nat :| msWidth == 13 && counterWidth == 6;
    PadStartIsFixed(s.ms, msWidth);
    PadStartIsFixed(s.counter, counterWidth);
    FixedIsDigits(s.ms, msWidth);
    FixedIsDigits(s.counter, counterWidth);
    PaddedValue(s.ms, msWidth);
    PaddedValue(s.counter, counterWidth);
    FormOf(PadStart(Decimal(s.ms), msWidth), PadStart(Decimal(s.counter), counterWidth), device);
  }

  lemma FormOf(ms: string, counter: string, device: string)
    requires |ms| == 13 && |counter| == 6
    ensures var h := ms + "-" + counter + "-" + device;
            && |h| == 21 + |device| && h[13] == '-' && h[20] == '-' && h[21..] == device
            && h[..13] == ms && h[14..20] == counter
  {
  }

  // ── the clock source ──────────────────────────────────────────────────────

  /** One tick: follow the wall clock when it moved forward, count otherwise, carry at 10^6. */
  function Tick(s: Stamp, nowMs: int): Stamp {
    if nowMs > s.ms then Stamp(nowMs, 0)
    else if s.counter + 1 > 999_999 then Stamp(s.ms + 1, 0)
    else Stamp(s.ms, s.counter + 1)
  }

  /**
   A tick is the least stamp after the last one that is not behind the wall clock and whose counter keeps
   to its width: it stands at the reading if the reading is ahead, and moves one millisecond on only where
   the counter carries.
   */
  lemma TickIsTheLeast(s: Stamp, nowMs: int)
    requires s.counter < 1_000_000
    ensures var t := Tick(s, nowMs);
            && StampLess(s, t) && t.ms >= nowMs && t.counter < 1_000_000
            && (forall u: Stamp :: StampLess(s, u) && u.ms >= nowMs && u.counter < 1_000_000 ==> !StampLess(u, t))
            && t.ms == (if nowMs > s.ms then nowMs else if s.counter == 999_999 then s.ms + 1 else s.ms)
  {
  }

  /** The stamps emitted for a list of wall-clock readings. */
  function Ticks(s: Stamp, readings: seq<int>): (out: seq<Stamp>)
    ensures |out| == |readings|
    decreases |readings|
  {
    if readings == [] then []
    else
      var t := Tick(s, readings[0]);
      [t] + Ticks(t, readings[1..])
  }

  lemma {:induction false} TicksIncrease(s: Stamp, readings: seq<int>, i: nat, j: nat)
    requires i < j < |readings|
    ensures StampLess(Ticks(s, readings)[i], Ticks(s, readings)[j])
    decreases j
  {
    var t := Tick(s, readings[0]);
    if i > 0 {
      TicksIncrease(t, readings[1..], i - 1, j - 1);
    } else {
      FirstTickIsLater(t, readings[1..], j - 1);
    }
  }

  lemma {:induction false} FirstTickIsLater(s: Stamp, readings: seq<int>, j: nat)
    requires j < |readings|
    ensures StampLess(s, Ticks(s, readings)[j])
    decreases j
  {
    if j > 0 {
      FirstTickIsLater(Tick(s, readings[0]), readings[1..], j - 1);
    }
  }

  lemma {:induction false} CounterStaysInWidth(s: Stamp, readings: seq<int>, j: nat)
    requires j < |readings|
    requires s.counter < 1_000_000
    ensures Ticks(s, readings)[j].counter < 1_000_000
    decreases j
  {
    if j > 0 {
      CounterStaysInWidth(Tick(s, readings[0]), readings[1..], j - 1);
    }
  }

  /**
   A device never emits the same or an earlier clock string twice, whatever the wall clock does
   (regressions and repeated readings included), until 10^13 ms.
   */
  lemma SourceIsStrictlyIncreasing(s: Stamp, readings: seq<int>, device: string, i: nat, j: nat)
    requires i < j < |readings|
    requires s.counter < 1_000_000
    requires Ticks(s, readings)[j].ms < 10_000_000_000_000
    ensures var out := Ticks(s, readings);
            LexLess(EncodeHlc(out[i].ms, out[i].counter, device), EncodeHlc(out[j].ms, out[j].counter, device))
  {
    TicksIncrease(s, readings, i, j);
    CounterStaysInWidth(s, readings, i);
    CounterStaysInWidth(s, readings, j);
    EncodedOrder(Ticks(s, readings)[i], Ticks(s, readings)[j], device, device);
  }

  function Highest(ms: nat, readings: seq<int>): (h: nat)
    ensures ms <= h && forall i :: 0 <= i < |readings| ==> readings[i] <= h
    ensures h == ms || h in readings
    decreases |readings|
  {
    if readings == [] then ms
    else
      var h := Highest(ms, readings[..|readings| - 1]);
      if readings[|readings| - 1] > h then readings[|readings| - 1] else h
  }

  lemma {:induction false} TicksSnoc(s: Stamp, readings: seq<int>)
    requires readings != []
    ensures var front := readings[..|readings| - 1];
            Ticks(s, readings) == Ticks(s, front) + [Tick(if front == [] then s else Ticks(s, front)[|front| - 1], readings[|readings| - 1])]
    decreases |readings|
  {
    if |readings| > 1 {
      var t, rest := Tick(s, readings[0]), readings[1..];
      TicksSnoc(t, rest);
      var front := readings[..|readings| - 1];
      assert front[1..] == readings[1..|readings| - 1] == rest[..|rest| - 1];
      assert front[0] == readings[0] && Ticks(s, front) == [t] + Ticks(t, front[1..]);
    }
  }

  /** How far a stamp may run ahead of everything read so far: one millisecond for each million ticks. */
  ghost predicate Ahead(t: Stamp, counter: nat, highest: nat, ticks: nat) {
    highest <= t.ms && (t.ms - highest) * 1_000_000 + t.counter <= counter + ticks && t.counter < 1_000_000
  }

  lemma TickStaysClose(t: Stamp, counter: nat, highest: nat, ticks: nat, nowMs: int)
    requires Ahead(t, counter, highest, ticks)
    ensures Ahead(Tick(t, nowMs), counter, if nowMs > highest then nowMs else highest, ticks + 1)
  {
  }

  lemma {:induction false} TicksStayClose(s: Stamp, readings: seq<int>)
    requires s.counter < 1_000_000 && readings != []
    ensures Ahead(Ticks(s, readings)[|readings| - 1], s.counter, Highest(s.ms, readings), |readings|)
    decreases |readings|
  {
    var front := readings[..|readings| - 1];
    TicksSnoc(s, readings);
    if front == [] {
      assert Highest(s.ms, front) == s.ms;
      TickStaysClose(s, s.counter, s.ms, 0, readings[0]);
    } else {
      TicksStayClose(s, front);
      TickStaysClose(Ticks(s, front)[|front| - 1], s.counter, Highest(s.ms, front), |front|, readings[|readings| - 1]);
    }
  }

  lemma {:induction false} TicksPrefix(s: Stamp, readings: seq<int>, n: nat)
    requires n <= |readings|
    ensures Ticks(s, readings)[..n] == Ticks(s, readings[..n])
    decreases |readings|
  {
    if n < |readings| {
      var front := readings[..|readings| - 1];
      TicksSnoc(s, readings);
      TicksPrefix(s, front, n);
      assert front[..n] == readings[..n];
    } else {
      assert readings[..n] == readings;
    }
  }

  /**
   The source follows the wall clock: over any list of readings each stamp is at or past the start and every
   reading up to it, and past the highest of them by at most one millisecond for each million ticks.
   */
  lemma SourceFollowsTheWallClock(s: Stamp, readings: seq<int>, j: nat)
    requires s.counter < 1_000_000 && j < |readings|
    ensures var t, highest := Ticks(s, readings)[j], Highest(s.ms, readings[..j + 1]);
            && s.ms <= t.ms && (forall i :: 0 <= i <= j ==> readings[i] <= t.ms)
            && highest <= t.ms <= highest + (s.counter + j + 1) / 1_000_000
  {
    var upTo := readings[..j + 1];
    TicksStayClose(s, upTo);
    TicksPrefix(s, readings, j + 1);
    assert Ticks(s, readings)[j] == Ticks(s, readings)[..j + 1][j];
    assert forall i :: 0 <= i <= j ==> upTo[i] == readings[i];
  }

  /** The source as the registry document holds it. */
  class HlcClock {
    var lastMs: nat
    var counter: nat

    constructor ()
      ensures Now() == Stamp(0, 0)
    {
      lastMs, counter := 0, 0;
    }

    function Now(): Stamp
      reads this
    {
      Stamp(lastMs, counter)
    }

    method Next(nowMs: int, device: string) returns (h: string)
      modifies this
      ensures Now() == Tick(old(Now()), nowMs)
      ensures StampLess(old(Now()), Now()) && nowMs <= Now().ms
      ensures nowMs > old(Now()).ms ==> Now() == Stamp(nowMs, 0)
      ensures h == EncodeHlc(Now().ms, Now().counter, device)
    {
      if nowMs > lastMs {
        lastMs := nowMs;
        counter := 0;
      } else {
        counter := counter + 1;
        if counter > 999_999 {
          lastMs := lastMs + 1;
          counter := 0;
        }
      }
      h := EncodeHlc(lastMs, counter, device);
    }
  }
}
