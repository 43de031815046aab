/** UUIDv7 generation (core/identity.py), section 5.7 of RFC 9562, with a per-process counter. */
module Identity {

  const MASK_48: nat := 0xFFFF_FFFF_FFFF
  const MASK_12: nat := 0xFFF
  const MASK_62: nat := 0x3FFF_FFFF_FFFF_FFFF
  const TICKS: nat := 0x1_0000_0000_0000
  const VERSION: nat := 0x7
  const VARIANT: nat := 0x2

  // ---------------------------------------------------------------------------------------------
  // Python's unbounded bit operations on non-negative integers
  // ---------------------------------------------------------------------------------------------

  function BitAnd(a: nat, b: nat): nat {
    if a == 0 || b == 0 then 0 else (if a % 2 == 1 && b % 2 == 1 then 1 else 0) + 2 * BitAnd(a / 2, b / 2)
  }

  function BitOr(a: nat, b: nat): nat
    decreases a + b
  {
    if a == 0 && b == 0 then 0 else (if a % 2 == 1 || b % 2 == 1 then 1 else 0) + 2 * BitOr(a / 2, b / 2)
  }

  function Pow2(k: nat): (p: nat)
    ensures p >= 1
  {
    if k == 0 then 1 else 2 * Pow2(k - 1)
  }

  function ShiftLeft(a: nat, k: nat): nat {
    if k == 0 then a else 2 * ShiftLeft(a, k - 1)
  }

  function LowBits(a: nat, k: nat): nat {
    if k == 0 then 0 else a % 2 + 2 * LowBits(a / 2, k - 1)
  }

  lemma {:induction false} MaskKeepsLowBits(a: nat, k: nat)
    ensures BitAnd(a, Pow2(k) - 1) == LowBits(a, k)
  {
    if k > 0 {
      MaskKeepsLowBits(a / 2, k - 1);
      OddHalf(Pow2(k - 1));
      if a == 0 { assert LowBits(a / 2, k - 1) == 0; }
    }
  }

  lemma {:induction false} LowBitsIsRemainder(a: nat, k: nat)
    ensures LowBits(a, k) == a % Pow2(k)
  {
    if k > 0 {
      LowBitsIsRemainder(a / 2, k - 1);
      HalvingRemainder(a, Pow2(k - 1));
    }
  }

  /** Masking with 12, 48 or 62 one-bits keeps the remainder. */
  lemma MaskKeepsRemainder(a: nat)
    ensures BitAnd(a, MASK_12) == a % 0x1000
    ensures BitAnd(a, MASK_48) == a % TICKS
    ensures BitAnd(a, MASK_62) == a % 0x4000_0000_0000_0000
  {
    Powers();
    MaskKeepsLowBits(a, 12);
    MaskKeepsLowBits(a, 48);
    MaskKeepsLowBits(a, 62);
    LowBitsIsRemainder(a, 12);
    LowBitsIsRemainder(a, 48);
    LowBitsIsRemainder(a, 62);
  }

  lemma OddHalf(p: nat)
    requires p > 0
    ensures (2 * p - 1) / 2 == p - 1 && (2 * p - 1) % 2 == 1
  {
  }

  lemma HalvingRemainder(a: nat, p: nat)
    requires p > 0
    ensures a % (2 * p) == a % 2 + 2 * ((a / 2) % p)
  {
    var q, r := a / 2 / p, (a / 2) % p;
    assert (2 * p) * q == 2 * (p * q);
    RemainderUnique(a, 2 * p, q, a % 2 + 2 * r);
  }

  lemma RemainderUnique(a: nat, d: nat, q: nat, r: nat)
    requires 0 <= r < d
    requires a == d * q + r
    ensures a / d == q && a % d == r
  {
    var q', r' := a / d, a % d;
    assert d * (q + 1) == d * q + d && d * (q' + 1) == d * q' + d;
    if q' > q {
      Scale(d, q + 1, q');
    } else if q' < q {
      Scale(d, q' + 1, q);
    }
  }

  lemma Scale(d: nat, a: nat, b: nat)
    requires a <= b
    ensures d * a <= d * b
  {
    assert d * b == d * a + d * (b - a);
  }

  /** Setting bits below a shifted value adds them. */
  lemma {:induction false} OrBelowShiftAdds(a: nat, k: nat, low: nat)
    requires low < Pow2(k)
    ensures BitOr(ShiftLeft(a, k), low) == ShiftLeft(a, k) + low
  {
    if k == 0 {
      OrZero(a);
    } else {
      OrBelowShiftAdds(a, k - 1, low / 2);
    }
  }

  lemma {:induction false} OrZero(a: nat)
    ensures BitOr(a, 0) == a
  {
    if a > 0 { OrZero(a / 2); }
  }

  /** One `|=` step: a field placed below everything set so far. */
  lemma {:induction false} OrField(high: nat, field: nat, width: nat, k: nat)
    requires field < Pow2(width)
    ensures BitOr(ShiftLeft(high, width + k), ShiftLeft(field, k)) == ShiftLeft(ShiftLeft(high, width) + field, k)
  {
    if k == 0 {
      OrBelowShiftAdds(high, width, field);
    } else {
      OrField(high, field, width, k - 1);
    }
  }

  lemma {:induction false} ShiftMultiplies(a: nat, k: nat)
    ensures ShiftLeft(a, k) == a * Pow2(k)
  {
    if k > 0 { ShiftMultiplies(a, k - 1); }
  }

  // ---------------------------------------------------------------------------------------------
  // The 128-bit value
  // ---------------------------------------------------------------------------------------------

  /** The fields of one identifier. */
  datatype Fields = Fields(timestamp: nat, version: nat, randA: nat, variant: nat, randB: nat)

  ghost predicate WellSized(f: Fields) {
    && f.timestamp < 0x1_0000_0000_0000
    && f.version < 0x10
    && f.randA < 0x1000
    && f.variant < 4
    && f.randB < 0x4000_0000_0000_0000
  }

  /** The field layout as plain arithmetic: 48 + 4 + 12 + 2 + 62 bits. */
  function Layout(f: Fields): nat {
    (((f.timestamp * 0x10 + f.version) * 0x1000 + f.randA) * 4 + f.variant) * 0x4000_0000_0000_0000 + f.randB
  }

  /** The value as `generate_id` builds it, by successive `|=` of shifted fields. */
  function Pack(timestamp: nat, randA: nat, randB: nat): nat {
    var value := ShiftLeft(BitAnd(timestamp, MASK_48), 80);
    var value := BitOr(value, ShiftLeft(VERSION, 76));
    var value := BitOr(value, ShiftLeft(randA, 64));
    var value := BitOr(value, ShiftLeft(VARIANT, 62));
    BitOr(value, randB)
  }

  lemma Powers()
    ensures Pow2(2) == 4 && Pow2(4) == 0x10 && Pow2(12) == 0x1000
    ensures Pow2(48) == 0x1_0000_0000_0000
    ensures Pow2(62) == 0x4000_0000_0000_0000
  {
    PowersAdd(12, 12);
    PowersAdd(24, 24);
    PowersAdd(48, 14);
  }

  lemma {:induction false} PowersAdd(j: nat, k: nat)
    ensures Pow2(j + k) == Pow2(j) * Pow2(k)
  {
    if k > 0 { PowersAdd(j, k - 1); }
  }

  lemma OrFields(f: Fields)
    requires WellSized(f)
    ensures BitOr(BitOr(BitOr(BitOr(ShiftLeft(f.timestamp, 80), ShiftLeft(f.version, 76)), ShiftLeft(f.randA, 64)),
                        ShiftLeft(f.variant, 62)), f.randB) == Layout(f)
  {
    hide BitOr, ShiftLeft, Pow2;
    var c := f.timestamp * 0x10 + f.version;
    var b := c * 0x1000 + f.randA;
    var a := b * 4 + f.variant;
    Powers();
    ShiftMultiplies(f.timestamp, 4);
    ShiftMultiplies(c, 12);
    ShiftMultiplies(b, 2);
    ShiftMultiplies(a, 62);
    OrField(f.timestamp, f.version, 4, 76);
    OrField(c, f.randA, 12, 64);
    OrField(b, f.variant, 2, 62);
    OrBelowShiftAdds(a, 62, f.randB);
  }

  /** The bit operations build exactly the field layout, with the timestamp cut to 48 bits. */
  lemma PackIsLayout(timestamp: nat, randA: nat, randB: nat)
    requires randA <= MASK_12 && randB <= MASK_62
    ensures Pack(timestamp, randA, randB) == Layout(Fields(timestamp % TICKS, VERSION, randA, VARIANT, randB))
  {
    MaskKeepsRemainder(timestamp);
    OrFields(Fields(timestamp % TICKS, VERSION, randA, VARIANT, randB));
  }

  /** Reads the fields back out of a value. */
  function Unpack(value: nat): Fields {
    var a := value / 0x4000_0000_0000_0000;
    var b := a / 4;
    var c := b / 0x1000;
    Fields(c / 0x10, c % 0x10, b % 0x1000, a % 4, value % 0x4000_0000_0000_0000)
  }

  lemma UnpackLayout(f: Fields)
    requires WellSized(f)
    ensures Unpack(Layout(f)) == f
    ensures Layout(f) < 0x1_0000_0000_0000_0000_0000_0000_0000_0000
  {
    var c := f.timestamp * 0x10 + f.version;
    var b := c * 0x1000 + f.randA;
    var a := b * 4 + f.variant;
    RemainderUnique(Layout(f), 0x4000_0000_0000_0000, a, f.randB);
    RemainderUnique(a, 4, b, f.variant);
    RemainderUnique(b, 0x1000, c, f.randA);
    RemainderUnique(c, 0x10, f.timestamp, f.version);
  }

  // ---------------------------------------------------------------------------------------------
  // The printed form
  // ---------------------------------------------------------------------------------------------

  const HEX: string := "0123456789abcdef"

  function HexDigit(d: nat): char
    requires d < 16
  {
    HEX[d]
  }

  /** `f"{value:0{width}x}"` for a value that fits the width. */
  function Hex(value: nat, width: nat): (s: string)
    ensures |s| == width
  {
    if width == 0 then "" else Hex(value / 16, width - 1) + [HexDigit(value % 16)]
  }

  /** Splits 32 digits into groups of 8-4-4-4-12. */
  function Hyphenate(h: string): (s: string)
    requires |h| == 32
    ensures |s| == 36
  {
    h[..8] + "-" + h[8..12] + "-" + h[12..16] + "-" + h[16..20] + "-" + h[20..]
  }

  function Dehyphenate(s: string): (h: string)
    requires |s| == 36
    ensures |h| == 32
  {
    s[..8] + s[9..13] + s[14..18] + s[19..23] + s[24..]
  }

  /** The rendering of a 128-bit value. */
  function Print(value: nat): (s: string)
    ensures |s| == 36
  {
    Hyphenate(Hex(value, 32))
  }

  function DigitValue(c: char): nat {
    if '0' <= c <= '9' then (c - '0') as nat
    else if 'a' <= c <= 'f' then (c - 'a') as nat + 10
    else 0
  }

  function HexValue(s: string): nat {
    if s == "" then 0 else HexValue(s[..|s| - 1]) * 16 + DigitValue(s[|s| - 1])
  }

  /** Parses the printed form: drops the hyphens, reads the digits, splits the fields. */
  function Parse(s: string): Fields
    requires |s| == 36
  {
    Unpack(HexValue(Dehyphenate(s)))
  }

  function Pow16(k: nat): nat {
    if k == 0 then 1 else 16 * Pow16(k - 1)
  }

  lemma {:induction false} HexRoundTrip(value: nat, width: nat)
    requires value < Pow16(width)
    ensures HexValue(Hex(value, width)) == value
  {
    if width > 0 {
      hide HexDigit, DigitValue;
      HexRoundTrip(value / 16, width - 1);
      var s := Hex(value, width);
      assert s[..|s| - 1] == Hex(value / 16, width - 1);
      DigitRoundTrip(value % 16);
    }
  }

  lemma DigitRoundTrip(d: nat)
    requires d < 16
    ensures DigitValue(HexDigit(d)) == d
  {}

  lemma Pow16Of32()
    ensures Pow16(32) == 0x1_0000_0000_0000_0000_0000_0000_0000_0000
  {
    assert Pow16(8) == 0x1_0000_0000;
    assert Pow16(16) == 0x1_0000_0000_0000_0000;
    assert Pow16(24) == 0x1_0000_0000_0000_0000_0000_0000;
  }

  /** Plain string order: the order of Python's `<` on strings. */
  predicate StringLess(a: string, b: string) {
    if a == "" then b != ""
    else if b == "" then false
    else a[0] < b[0] || (a[0] == b[0] && StringLess(a[1..], b[1..]))
  }

  lemma {:induction false} CommonPrefix(p: string, a: string, b: string)
    ensures StringLess(p + a, p + b) == StringLess(a, b)
  {
    if p == "" {
      assert p + a == a && p + b == b;
    } else {
      CommonPrefix(p[1..], a, b);
      assert (p + a)[1..] == p[1..] + a;
      assert (p + b)[1..] == p[1..] + b;
    }
  }

  lemma {:induction false} LessAppend(a: string, b: string, x: string, y: string)
    requires |a| == |b| && StringLess(a, b)
    ensures StringLess(a + x, b + y)
  {
    assert (a + x)[1..] == a[1..] + x;
    assert (b + y)[1..] == b[1..] + y;
    if a[0] == b[0] { LessAppend(a[1..], b[1..], x, y); }
  }

  /** Fixed-width hexadecimal text sorts as the numbers do. */
  lemma {:induction false} HexOrder(a: nat, b: nat, width: nat)
    requires a < b < Pow16(width)
    ensures StringLess(Hex(a, width), Hex(b, width))
  {
    if width > 0 {
      var x, y := [HexDigit(a % 16)], [HexDigit(b % 16)];
      if a / 16 < b / 16 {
        HexOrder(a / 16, b / 16, width - 1);
        LessAppend(Hex(a / 16, width - 1), Hex(b / 16, width - 1), x, y);
      } else {
        CommonPrefix(Hex(a / 16, width - 1), x, y);
      }
    }
  }

  /** The first difference decides the order. */
  lemma {:induction false} FirstDifference(a: string, b: string) returns (k: nat)
    requires |a| == |b| && StringLess(a, b)
    ensures k < |a| && a[..k] == b[..k] && a[k] < b[k]
  {
    if a[0] < b[0] {
      k := 0;
    } else {
      var j := FirstDifference(a[1..], b[1..]);
      k := j + 1;
      assert a[..k] == [a[0]] + a[1..][..j];
      assert b[..k] == [b[0]] + b[1..][..j];
    }
  }

  lemma {:induction false} DifferenceOrders(a: string, b: string, k: nat)
    requires k < |a| == |b| && a[..k] == b[..k] && a[k] < b[k]
    ensures StringLess(a, b)
  {
    if k > 0 {
      assert a[0] == a[..k][0] == b[..k][0] == b[0];
      assert a[1..][..k - 1] == a[..k][1..];
      assert b[1..][..k - 1] == b[..k][1..];
      DifferenceOrders(a[1..], b[1..], k - 1);
    }
  }

  /** Where the hyphens put digit k. */
  function Shifted(k: nat): nat {
    k + (if k >= 8 then 1 else 0) + (if k >= 12 then 1 else 0) + (if k >= 16 then 1 else 0) + (if k >= 20 then 1 else 0)
  }

  lemma HyphenateAt(h: string, k: nat)
    requires |h| == 32 && k < 32
    ensures Hyphenate(h)[Shifted(k)] == h[k]
  {
  }

  lemma HyphenateKeepsPrefix(a: string, b: string, k: nat)
    requires |a| == |b| == 32 && k < 32 && a[..k] == b[..k]
    ensures Hyphenate(a)[..Shifted(k)] == Hyphenate(b)[..Shifted(k)]
  {
    forall i | 0 <= i < Shifted(k) ensures Hyphenate(a)[i] == Hyphenate(b)[i] {
      var j := if i < 8 then i else if i < 13 then i - 1 else if i < 18 then i - 2 else if i < 23 then i - 3 else i - 4;
      if i !in {8, 13, 18, 23} {
        HyphenateAt(a, j);
        HyphenateAt(b, j);
        assert a[j] == a[..k][j] == b[..k][j] == b[j];
      }
    }
  }

  /** Printed identifiers sort as their values do. */
  lemma PrintOrder(a: nat, b: nat)
    requires a < b < 0x1_0000_0000_0000_0000_0000_0000_0000_0000
    ensures StringLess(Print(a), Print(b))
  {
    Pow16Of32();
    HexOrder(a, b, 32);
    var k := FirstDifference(Hex(a, 32), Hex(b, 32));
    HyphenateAt(Hex(a, 32), k);
    HyphenateAt(Hex(b, 32), k);
    HyphenateKeepsPrefix(Hex(a, 32), Hex(b, 32), k);
    DifferenceOrders(Print(a), Print(b), Shifted(k));
  }

  lemma DehyphenateHyphenate(h: string)
    requires |h| == 32
    ensures Dehyphenate(Hyphenate(h)) == h
  {
    forall k | 0 <= k < 32 ensures Dehyphenate(Hyphenate(h))[k] == h[k] {
      HyphenateAt(h, k);
    }
  }

  /** Parsing a printed value recovers the fields it was laid out from. */
  lemma ParsePrint(f: Fields)
    requires WellSized(f)
    ensures Parse(Print(Layout(f))) == f
  {
    UnpackLayout(f);
    Pow16Of32();
    HexRoundTrip(Layout(f), 32);
    DehyphenateHyphenate(Hex(Layout(f), 32));
  }

  // ---------------------------------------------------------------------------------------------
  // The generator
  // ---------------------------------------------------------------------------------------------

  /** The module state: the last timestamp and counter. */
  datatype State = State(lastTimestamp: int, lastRandA: nat)

  const INITIAL: State := State(-1, 0)

  /** What the outside world supplies to one call: the clock in milliseconds and two random draws. */
  datatype Draw = Draw(clock: nat, bytes2: nat, bytes8: nat)

  function SeedA(d: Draw): nat { d.bytes2 % 0x1000 }

  function SeedB(d: Draw): nat { d.bytes8 % 0x4000_0000_0000_0000 }

  function Advance(s: State, d: Draw): State {
    if d.clock > s.lastTimestamp then State(d.clock, SeedA(d))
    else if (s.lastRandA + 1) % 0x1000 == 0 then State(s.lastTimestamp + 1, SeedA(d))
    else State(s.lastTimestamp, (s.lastRandA + 1) % 0x1000)
  }

  /** The fields that the identifier generated in state `s` (after the call) carries. */
  function FieldsOf(s: State, d: Draw): Fields
    requires s.lastTimestamp >= 0
  {
    Fields(s.lastTimestamp % TICKS, VERSION, s.lastRandA, VARIANT, SeedB(d))
  }

  class Generator {
    var lastTimestamp: int
    var lastRandA: nat

    ghost predicate Valid()
      reads this
    {
      lastTimestamp >= -1 && lastRandA <= MASK_12
    }

    ghost function Snapshot(): State
      reads this
    {
      State(lastTimestamp, lastRandA)
    }

    constructor ()
      ensures Valid() && Snapshot() == State(-1, 0)
    {
      lastTimestamp, lastRandA := -1, 0;
    }

    method GenerateId(d: Draw) returns (id: string)
      requires Valid()
      modifies this
      ensures Valid() && lastTimestamp >= 0
      ensures Snapshot() == Advance(old(Snapshot()), d)
      ensures id == Print(Layout(FieldsOf(Snapshot(), d)))
    {
      hide BitAnd, Pack, Layout, Print;
      MaskKeepsRemainder(d.bytes2);
      MaskKeepsRemainder(lastRandA + 1);
      MaskKeepsRemainder(d.bytes8);
      var ts := d.clock;
      var randA: nat;
      if ts > lastTimestamp {
        randA := BitAnd(d.bytes2, MASK_12);
      } else {
        ts := lastTimestamp;
        randA := BitAnd(lastRandA + 1, MASK_12);
        if randA == 0 {
          ts := ts + 1;
          randA := BitAnd(d.bytes2, MASK_12);
        }
      }
      lastTimestamp := ts;
      lastRandA := randA;
      var randB := BitAnd(d.bytes8, MASK_62);
      PackIsLayout(ts, randA, randB);
      id := Print(Pack(ts, randA, randB));
    }
  }

  // ---------------------------------------------------------------------------------------------
  // Whole runs
  // ---------------------------------------------------------------------------------------------

  ghost predicate Reachable(s: State) {
    s.lastTimestamp >= -1 && s.lastRandA <= MASK_12
  }

  /** The state after the first k calls of a run. */
  function After(draws: seq<Draw>, k: nat): (s: State)
    requires k <= |draws|
    ensures Reachable(s) && (k > 0 ==> s.lastTimestamp >= 0)
  {
    if k == 0 then INITIAL else Advance(After(draws, k - 1), draws[k - 1])
  }

  /** The identifier that call number k (from 0) returns. */
  function Generated(draws: seq<Draw>, k: nat): string
    requires k < |draws|
  {
    Print(Layout(FieldsOf(After(draws, k + 1), draws[k])))
  }

  lemma {:induction false} TimestampsRise(draws: seq<Draw>, i: nat, j: nat)
    requires i < j <= |draws|
    ensures After(draws, i).lastTimestamp <= After(draws, j).lastTimestamp
    ensures After(draws, i).lastTimestamp == After(draws, j).lastTimestamp ==>
              After(draws, i).lastRandA < After(draws, j).lastRandA
  {
    if i < j - 1 { TimestampsRise(draws, i, j - 1); }
  }

  /**
   * Any two identifiers of a run are strictly increasing as plain strings, for every sequence of
   * clock readings and draws, while the later timestamp still fits in 48 bits.
   */
  lemma GeneratedStrictlyIncrease(draws: seq<Draw>, i: nat, j: nat)
    requires i < j < |draws|
    requires After(draws, j + 1).lastTimestamp < TICKS
    ensures StringLess(Generated(draws, i), Generated(draws, j))
    ensures Generated(draws, i) != Generated(draws, j)
  {
    hide Print, Layout, StringLess;
    TimestampsRise(draws, i + 1, j + 1);
    var f, g := FieldsOf(After(draws, i + 1), draws[i]), FieldsOf(After(draws, j + 1), draws[j]);
    UnpackLayout(f);
    UnpackLayout(g);
    LayoutOrder(f, g);
    PrintOrder(Layout(f), Layout(g));
    Irreflexive(Generated(draws, i));
  }

  lemma LayoutOrder(f: Fields, g: Fields)
    requires WellSized(f) && WellSized(g)
    requires f.version == g.version && f.variant == g.variant
    requires f.timestamp < g.timestamp || (f.timestamp == g.timestamp && f.randA < g.randA)
    ensures Layout(f) < Layout(g)
  {
    var c, d := f.timestamp * 0x10 + f.version, g.timestamp * 0x10 + g.version;
    assert c < d || (c == d && f.randA < g.randA);
    var a, b := c * 0x1000 + f.randA, d * 0x1000 + g.randA;
    assert a < b;
    assert a * 4 + f.variant < b * 4 + g.variant;
  }

  lemma {:induction false} Irreflexive(s: string)
    ensures !StringLess(s, s)
  {
    if s != "" { Irreflexive(s[1..]); }
  }

  lemma {:induction false} Asymmetric(a: string, b: string)
    requires StringLess(a, b)
    ensures !StringLess(b, a)
  {
    if a != "" && a[0] == b[0] { Asymmetric(a[1..], b[1..]); }
  }

  /** True when the next call overflows the counter in the last representable millisecond. */
  predicate OutOfTicks(s: State, d: Draw) {
    s.lastTimestamp == TICKS - 1 && d.clock <= s.lastTimestamp && s.lastRandA == MASK_12
  }

  /**
   * The exact limit of the ordering guarantee.  For clock readings that fit in 48 bits, the next
   * identifier sorts after the previous one if and only if the call does not have to borrow the
   * tick 2^48, which the 48-bit mask turns into timestamp zero.
   */
  lemma NextSortsAfterIff(draws: seq<Draw>, k: nat)
    requires 0 < k < |draws|
    requires After(draws, k).lastTimestamp < TICKS && draws[k].clock < TICKS
    ensures StringLess(Generated(draws, k - 1), Generated(draws, k)) <==> !OutOfTicks(After(draws, k), draws[k])
  {
    if OutOfTicks(After(draws, k), draws[k]) {
      var f, g := FieldsOf(After(draws, k), draws[k - 1]), FieldsOf(After(draws, k + 1), draws[k]);
      assert After(draws, k + 1).lastTimestamp == TICKS;
      assert g.timestamp == 0;
      UnpackLayout(f);
      LayoutOrder(g, f);
      PrintOrder(Layout(g), Layout(f));
      Asymmetric(Generated(draws, k), Generated(draws, k - 1));
    } else {
      GeneratedStrictlyIncrease(draws, k - 1, k);
    }
  }

  /** Parsing the text of call k gives back its five fields, the last one drawn by this very call. */
  lemma GeneratedParses(draws: seq<Draw>, k: nat)
    requires k < |draws|
    ensures Parse(Generated(draws, k)) ==
            Fields(After(draws, k + 1).lastTimestamp % 0x1_0000_0000_0000, 7, After(draws, k + 1).lastRandA, 2,
                   draws[k].bytes8 % 0x4000_0000_0000_0000)
  {
    ParsePrint(FieldsOf(After(draws, k + 1), draws[k]));
  }

  /** The first identifier carries the clock reading and the two draws. */
  lemma FirstFields(draws: seq<Draw>)
    requires draws != []
    ensures var d := draws[0];
      Parse(Generated(draws, 0)) ==
      Fields(d.clock % 0x1_0000_0000_0000, 7, d.bytes2 % 0x1000, 2, d.bytes8 % 0x4000_0000_0000_0000)
  {
    hide Parse, Generated;
    GeneratedParses(draws, 0);
    assert After(draws, 1) == Advance(After(draws, 0), draws[0]);
  }

  /**
   * The fields that successive texts carry: a later millisecond starts from a fresh draw, the same or
   * an earlier one counts on, and an exhausted counter borrows the next tick with a fresh draw.
   */
  lemma SuccessiveFields(draws: seq<Draw>, k: nat)
    requires 0 < k < |draws| && After(draws, k + 1).lastTimestamp < 0x1_0000_0000_0000
    ensures var d := draws[k]; var f := Parse(Generated(draws, k - 1)); var randB := d.bytes8 % 0x4000_0000_0000_0000;
      Parse(Generated(draws, k)) ==
      if d.clock > f.timestamp then Fields(d.clock, 7, d.bytes2 % 0x1000, 2, randB)
      else if f.randA == 0xFFF then Fields(f.timestamp + 1, 7, d.bytes2 % 0x1000, 2, randB)
      else Fields(f.timestamp, 7, f.randA + 1, 2, randB)
  {
    hide Parse, Generated;
    GeneratedParses(draws, k - 1);
    GeneratedParses(draws, k);
    TimestampsRise(draws, k, k + 1);
    assert After(draws, k + 1) == Advance(After(draws, k), draws[k]);
    assert (After(draws, k).lastRandA + 1) % 0x1000 == 0 <==> After(draws, k).lastRandA == 0xFFF;
  }

  function Greatest(draws: seq<Draw>, k: nat): nat
    requires 0 < k <= |draws|
  {
    if k == 1 || draws[k - 1].clock > Greatest(draws, k - 1) then draws[k - 1].clock else Greatest(draws, k - 1)
  }

  /**
   * After k calls the timestamp is at least every clock reading so far, and runs ahead of the
   * greatest one by at most k - 1 borrowed ticks.
   */
  lemma {:induction false} TimestampTracksClock(draws: seq<Draw>, k: nat)
    requires 0 < k <= |draws|
    ensures forall i :: 0 <= i < k ==> draws[i].clock <= After(draws, k).lastTimestamp
    ensures Greatest(draws, k) <= After(draws, k).lastTimestamp <= Greatest(draws, k) + k - 1
  {
    if k > 1 { TimestampTracksClock(draws, k - 1); }
  }
}
