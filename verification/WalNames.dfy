/** PostgreSQL WAL file names: the printer WALFilename, the decoder shared by Coverage and
    optionalFuture (shift, OR, multiply on 64-bit words), and the name validator. */
module WalNames {
  import opened Basics

  const TWO32: nat := 0x1_0000_0000
  const TWO64: nat := 0x1_0000_0000_0000_0000

  // ---------------------------------------------------------------- machine words

  function Pow2(k: nat): nat {
    if k == 0 then 1 else 2 * Pow2(k - 1)
  }

  /** Bitwise AND and OR of non-negative integers. */
  function And(a: nat, b: nat): nat {
    if a == 0 || b == 0 then 0 else (a % 2) * (b % 2) + 2 * And(a / 2, b / 2)
  }

  function Or(a: nat, b: nat): nat
    decreases a + b
  {
    if a == 0 then b else if b == 0 then a
    else (if a % 2 + b % 2 > 0 then 1 else 0) + 2 * Or(a / 2, b / 2)
  }

  lemma {:induction false} AndSelf(n: nat)
    ensures And(n, n) == n
  {
    if n > 0 {
      AndSelf(n / 2);
    }
  }

  lemma AndOddPredecessor(n: nat)
    requires n % 2 == 1
    ensures And(n, n - 1) == n - 1
  {
    assert (n - 1) / 2 == n / 2;
    AndSelf(n / 2);
  }

  lemma {:induction false} Pow2Positive(k: nat)
    ensures Pow2(k) >= 1
  {
    if k > 0 {
      Pow2Positive(k - 1);
    }
  }

  /** n & (n-1) == 0 is the power-of-two test. */
  lemma {:induction false} PowerOfTwoTest(n: nat) returns (k: nat)
    requires n > 0 && And(n, n - 1) == 0
    ensures n == Pow2(k)
  {
    if n % 2 == 1 {
      AndOddPredecessor(n);
      k := 0;
    } else {
      assert And(n, n - 1) == 2 * And(n / 2, (n - 1) / 2);
      assert (n - 1) / 2 == n / 2 - 1;
      var j := PowerOfTwoTest(n / 2);
      k := j + 1;
    }
  }

  lemma AndOfDouble(m: nat)
    requires m > 0
    ensures And(2 * m, 2 * m - 1) == 2 * And(m, m - 1)
  {
    assert (2 * m) % 2 == 0 && (2 * m) / 2 == m && (2 * m - 1) / 2 == m - 1;
  }

  /** Every power of two passes it. */
  lemma {:induction false} PowersPassTest(k: nat)
    ensures Pow2(k) > 0 && And(Pow2(k), Pow2(k) - 1) == 0
  {
    if k > 0 {
      PowersPassTest(k - 1);
      AndOfDouble(Pow2(k - 1));
    }
  }

  lemma {:induction false} Pow2Add(a: nat, b: nat)
    ensures Pow2(a + b) == Pow2(a) * Pow2(b)
  {
    if a > 0 {
      Pow2Add(a - 1, b);
      assert Pow2(a + b) == 2 * (Pow2(a - 1) * Pow2(b)) == (2 * Pow2(a - 1)) * Pow2(b);
    }
  }

  lemma {:induction false} Pow2Grows(a: nat, b: nat)
    requires a < b
    ensures Pow2(a) < Pow2(b)
  {
    Pow2Positive(b - 1);
    if a < b - 1 {
      Pow2Grows(a, b - 1);
    }
  }

  /** OR of a shifted word and a value below the shift is their sum. */
  lemma {:induction false} OrOfDisjoint(a: nat, b: nat, k: nat)
    requires b < Pow2(k)
    ensures Or(a * Pow2(k), b) == a * Pow2(k) + b
  {
    if k > 0 && a > 0 && b > 0 {
      var high := a * Pow2(k);
      assert high == 2 * (a * Pow2(k - 1));
      Pow2Positive(k - 1);
      assert a * Pow2(k - 1) > 0;
      assert high / 2 == a * Pow2(k - 1) && high % 2 == 0;
      OrOfDisjoint(a, b / 2, k - 1);
      assert Or(high, b) == b % 2 + 2 * Or(high / 2, b / 2);
    } else if a == 0 {
      assert a * Pow2(k) == 0;
    }
  }

  // ---------------------------------------------------------------- unsigned division

  /** Unsigned integer division and remainder, by repeated subtraction. */
  function Quot(n: nat, d: nat): nat
    requires d > 0
  {
    if n < d then 0 else 1 + Quot(n - d, d)
  }

  function Rem(n: nat, d: nat): nat
    requires d > 0
  {
    if n < d then n else Rem(n - d, d)
  }

  lemma MulSuccessor(q: nat, d: nat)
    ensures (q + 1) * d == q * d + d
  {
  }

  lemma MulAssociates(a: nat, b: nat, c: nat)
    ensures (a * b) * c == a * (b * c)
  {
  }

  lemma {:induction false} Division(n: nat, d: nat)
    requires d > 0
    ensures n == Quot(n, d) * d + Rem(n, d) && Rem(n, d) < d
  {
    if n >= d {
      Division(n - d, d);
      MulSuccessor(Quot(n - d, d), d);
    }
  }

  lemma {:induction false} DivideUnique(n: nat, d: nat, q: nat, r: nat)
    requires d > 0 && n == q * d + r && r < d
    ensures Quot(n, d) == q && Rem(n, d) == r
    decreases q
  {
    if q > 0 {
      MulSuccessor(q - 1, d);
      DivideUnique(n - d, d, q - 1, r);
    }
  }

  /** They are Dafny's own operators on non-negative numbers. */
  lemma DivisionIsNative(n: nat, d: nat)
    requires d > 0
    ensures Quot(n, d) == n / d && Rem(n, d) == n % d
  {
    DivideUnique(n, d, n / d, n % d);
  }

  // ---------------------------------------------------------------- segment size

  /** The admitted WAL segment sizes: powers of two from 1 MiB to 1 GiB. */
  predicate SegmentSize(size: nat) {
    0x10_0000 <= size <= 0x4000_0000 && And(size, size - 1) == 0
  }

  /** Segments in one 4 GiB log file. */
  function PerLog(size: nat): nat
    requires size > 0
  {
    Quot(TWO32, size)
  }

  lemma Pow2Word()
    ensures Pow2(32) == TWO32
  {
    assert Pow2(8) == 256;
    Pow2Add(8, 8);
    Pow2Add(16, 16);
  }

  /** A segment size divides the 4 GiB of one log file exactly. */
  lemma SegmentsPerLog(size: nat)
    requires SegmentSize(size)
    ensures PerLog(size) * size == TWO32 && 4 <= PerLog(size) < TWO32
  {
    var k := PowerOfTwoTest(size);
    Pow2Word();
    if k > 32 {
      Pow2Grows(32, k);
    }
    Pow2Add(32 - k, k);
    var per := Pow2(32 - k);
    DivideUnique(TWO32, size, per, 0);
    PerBounds(per, size);
  }

  lemma PerBounds(per: nat, size: nat)
    requires per * size == TWO32 && 0x10_0000 <= size <= 0x4000_0000
    ensures 4 <= per < TWO32
  {
    if per < 4 {
      MulMonotone(per, 3, size);
    }
    if per >= TWO32 {
      MulMonotone(TWO32, per, size);
    }
  }

  // ---------------------------------------------------------------- hexadecimal text

  function LowerDigit(d: nat): char
    requires d < 16
  {
    "0123456789abcdef"[d]
  }

  function UpperDigit(d: nat): char
    requires d < 16
  {
    "0123456789ABCDEF"[d]
  }

  /** strconv.FormatUint(n, 16). */
  function FormatHex(n: nat): string {
    if n < 16 then [LowerDigit(n)] else FormatHex(n / 16) + [LowerDigit(n % 16)]
  }

  function ToUpper(s: string): (r: string)
    ensures |r| == |s|
    ensures forall i :: 0 <= i < |s| ==> r[i] == if 'a' <= s[i] <= 'z' then s[i] - 'a' + 'A' else s[i]
  {
    if s == [] then [] else [if 'a' <= s[0] <= 'z' then s[0] - 'a' + 'A' else s[0]] + ToUpper(s[1..])
  }

  function Zeros(n: nat): string {
    seq(n, _ => '0')
  }

  /** leftHex; None is the panic of strings.Repeat on a negative count. */
  function LeftHex(n: nat): Option<string> {
    var s := FormatHex(n);
    if |s| > 8 then None else Some(Zeros(8 - |s|) + s)
  }

  /** WALFilename; None when one of its fields would panic. */
  function WalFilename(timeline: nat, lsn: nat, size: nat): Option<string>
    requires SegmentSize(size)
  {
    var n := Quot(lsn, size);
    var per := PerLog(size);
    if per == 0 then None
    else
      var t, log, seg := LeftHex(timeline), LeftHex(Quot(n, per)), LeftHex(Rem(n, per));
      if t.None? || log.None? || seg.None? then None
      else Some(ToUpper(t.value + log.value + seg.value))
  }

  predicate UpperHex(c: char) {
    '0' <= c <= '9' || 'A' <= c <= 'F'
  }

  predicate AllUpperHex(s: string) {
    forall i :: 0 <= i < |s| ==> UpperHex(s[i])
  }

  function DigitValue(c: char): (d: nat)
    ensures UpperHex(c) ==> d < 16 && UpperDigit(d) == c
  {
    if '0' <= c <= '9' then (c - '0') as nat
    else if 'A' <= c <= 'F' then (c - 'A') as nat + 10
    else if 'a' <= c <= 'f' then (c - 'a') as nat + 10
    else 16
  }

  function HexValue(s: string): nat {
    if s == [] then 0 else 16 * HexValue(s[..|s| - 1]) + DigitValue(s[|s| - 1])
  }

  /** strconv.ParseUint(s, 16, 32) with its error ignored. */
  function ParseHex32(s: string): (n: nat)
    ensures n < TWO32
  {
    if s == [] || exists i :: 0 <= i < |s| && DigitValue(s[i]) >= 16 then 0
    else if HexValue(s) >= TWO32 then TWO32 - 1
    else HexValue(s)
  }

  // ---------------------------------------------------------------- fixed-width digits

  function Pow16(w: nat): nat {
    if w == 0 then 1 else 16 * Pow16(w - 1)
  }

  /** The w low hexadecimal digits of n, the reference for both directions. */
  function Fixed(n: nat, w: nat): (s: string)
    ensures |s| == w && AllUpperHex(s)
  {
    if w == 0 then [] else Fixed(n / 16, w - 1) + [UpperDigit(n % 16)]
  }

  lemma UpperOfDigit(d: nat)
    requires d < 16
    ensures ToUpper([LowerDigit(d)]) == [UpperDigit(d)]
  {
  }

  lemma ToUpperConcat(a: string, b: string)
    ensures ToUpper(a + b) == ToUpper(a) + ToUpper(b)
  {
  }

  lemma {:induction false} FixedZero(w: nat)
    ensures Fixed(0, w) == Zeros(w)
  {
    if w > 0 {
      FixedZero(w - 1);
    }
  }

  lemma DigitIsFixed(n: nat, w: nat)
    requires n < 16 && w > 0
    ensures ToUpper(Zeros(w - 1) + [LowerDigit(n)]) == Fixed(n, w)
  {
    FixedZero(w - 1);
    UpperOfZeros(w - 1);
    assert n / 16 == 0 && n % 16 == n;
    assert Zeros(w - 1) + [] == Zeros(w - 1) && [] + [LowerDigit(n)] == [LowerDigit(n)];
    AppendIsFixed(n, w, Zeros(w - 1), []);
  }

  lemma UpperOfZeros(w: nat)
    ensures ToUpper(Zeros(w)) == Zeros(w)
  {
  }

  lemma AppendIsFixed(n: nat, w: nat, zeros: string, high: string)
    requires w > 0 && ToUpper(zeros + high) == Fixed(n / 16, w - 1)
    ensures ToUpper(zeros + (high + [LowerDigit(n % 16)])) == Fixed(n, w)
  {
    UpperOfDigit(n % 16);
    assert zeros + (high + [LowerDigit(n % 16)]) == (zeros + high) + [LowerDigit(n % 16)];
    ToUpperConcat(zeros + high, [LowerDigit(n % 16)]);
  }

  /** Padding the shortest form to w digits gives the fixed-width form, and it fits. */
  lemma {:induction false} FormatIsFixed(n: nat, w: nat)
    requires n < Pow16(w) && w > 0
    ensures 1 <= |FormatHex(n)| <= w
    ensures ToUpper(Zeros(w - |FormatHex(n)|) + FormatHex(n)) == Fixed(n, w)
  {
    if n < 16 {
      DigitIsFixed(n, w);
    } else {
      assert w > 1;
      FormatIsFixed(n / 16, w - 1);
      AppendIsFixed(n, w, Zeros(w - 1 - |FormatHex(n / 16)|), FormatHex(n / 16));
    }
  }

  lemma {:induction false} FixedValue(n: nat, w: nat)
    requires n < Pow16(w)
    ensures HexValue(Fixed(n, w)) == n
  {
    if w > 0 {
      FixedValue(n / 16, w - 1);
      var s := Fixed(n, w);
      assert s[..w - 1] == Fixed(n / 16, w - 1);
      DigitInverse(n % 16);
    }
  }

  lemma DigitInverse(d: nat)
    requires d < 16
    ensures DigitValue(UpperDigit(d)) == d
  {
  }

  lemma LastDigit(s: string)
    requires AllUpperHex(s) && s != []
    ensures AllUpperHex(s[..|s| - 1]) && DigitValue(s[|s| - 1]) < 16 && UpperDigit(DigitValue(s[|s| - 1])) == s[|s| - 1]
    ensures HexValue(s) == 16 * HexValue(s[..|s| - 1]) + DigitValue(s[|s| - 1])
  {
    assert UpperHex(s[|s| - 1]);
  }

  /** n is written as s. */
  ghost predicate Reads(n: nat, s: string) {
    n < Pow16(|s|) && Fixed(n, |s|) == s
  }

  lemma ReadsStep(n: nat, s: string, v: nat, init: string, d: nat)
    requires Reads(v, init) && d < 16 && n == 16 * v + d && s == init + [UpperDigit(d)]
    ensures Reads(n, s)
  {
    FixedAppend(v, d, |init| + 1);
  }

  lemma {:induction false} ValueFixed(s: string)
    requires AllUpperHex(s)
    ensures Reads(HexValue(s), s)
  {
    if s != [] {
      var init, d := s[..|s| - 1], DigitValue(s[|s| - 1]);
      LastDigit(s);
      var n, v := HexValue(s), HexValue(init);
      assert Reads(v, init) by {
        ValueFixed(init);
      }
      assert s == init + [UpperDigit(d)];
      ReadsStep(n, s, v, init, d);
    }
  }

  lemma FixedAppend(v: nat, d: nat, w: nat)
    requires w > 0 && d < 16 && v < Pow16(w - 1)
    ensures 16 * v + d < Pow16(w) && Fixed(16 * v + d, w) == Fixed(v, w - 1) + [UpperDigit(d)]
  {
    assert (16 * v + d) / 16 == v && (16 * v + d) % 16 == d;
  }

  lemma Pow16Word()
    ensures Pow16(8) == TWO32
  {
    assert Pow16(4) == 0x1_0000;
  }

  lemma ParseFixed(n: nat)
    requires n < TWO32
    ensures ParseHex32(Fixed(n, 8)) == n
  {
    Pow16Word();
    FixedValue(n, 8);
    var s := Fixed(n, 8);
    assert forall i :: 0 <= i < |s| ==> UpperHex(s[i]) && DigitValue(s[i]) < 16;
  }

  lemma FixedParse(s: string)
    requires |s| == 8 && AllUpperHex(s)
    ensures Fixed(ParseHex32(s), 8) == s
  {
    Pow16Word();
    ValueFixed(s);
    assert forall i :: 0 <= i < |s| ==> UpperHex(s[i]) && DigitValue(s[i]) < 16;
  }

  lemma LeftHexIsFixed(n: nat)
    requires n < TWO32
    ensures LeftHex(n).Some? && ToUpper(LeftHex(n).value) == Fixed(n, 8) && |LeftHex(n).value| == 8
  {
    Pow16Word();
    LeftHexAt(n, 8);
  }

  lemma LeftHexAt(n: nat, w: nat)
    requires w == 8 && n < Pow16(w)
    ensures LeftHex(n).Some? && ToUpper(LeftHex(n).value) == Fixed(n, w) && |LeftHex(n).value| == w
  {
    FormatIsFixed(n, w);
  }

  // ---------------------------------------------------------------- name arithmetic

  /** Log file number and segment number of a position. */
  function LogOf(lsn: nat, size: nat): nat
    requires size > 0 && PerLog(size) > 0
  {
    Quot(Quot(lsn, size), PerLog(size))
  }

  function SegOf(lsn: nat, size: nat): nat
    requires size > 0 && PerLog(size) > 0
  {
    Rem(Quot(lsn, size), PerLog(size))
  }

  /** First position of the segment holding lsn. */
  function SegmentStart(lsn: nat, size: nat): nat
    requires size > 0
  {
    Quot(lsn, size) * size
  }

  /** Log and segment number determine the segment start linearly. */
  lemma SegmentArithmetic(lsn: nat, size: nat)
    requires SegmentSize(size)
    ensures PerLog(size) > 0
    ensures SegOf(lsn, size) < PerLog(size) < TWO32
    ensures LogOf(lsn, size) * TWO32 + SegOf(lsn, size) * size == SegmentStart(lsn, size)
  {
    SegmentsPerLog(size);
    var per, n := PerLog(size), Quot(lsn, size);
    Division(n, per);
    Distribute(Quot(n, per), per, Rem(n, per), size);
  }

  /** Each of the three printed fields fits eight digits, so leftHex never underflows. */
  lemma FieldsFit(lsn: nat, size: nat)
    requires SegmentSize(size) && lsn < TWO64
    ensures PerLog(size) > 0 && LogOf(lsn, size) < TWO32 && SegOf(lsn, size) < TWO32
  {
    SegmentArithmetic(lsn, size);
    Division(lsn, size);
  }

  /** What WALFilename prints, in fixed-width digits. */
  lemma PrintedName(timeline: nat, lsn: nat, size: nat)
    requires SegmentSize(size) && lsn < TWO64 && timeline < TWO32
    ensures PerLog(size) > 0
    ensures WalFilename(timeline, lsn, size) ==
            Some(Fixed(timeline, 8) + Fixed(LogOf(lsn, size), 8) + Fixed(SegOf(lsn, size), 8))
  {
    FieldsFit(lsn, size);
    LeftHexIsFixed(timeline);
    LeftHexIsFixed(LogOf(lsn, size));
    LeftHexIsFixed(SegOf(lsn, size));
    var t, log, seg := LeftHex(timeline).value, LeftHex(LogOf(lsn, size)).value, LeftHex(SegOf(lsn, size)).value;
    ToUpperConcat(t + log, seg);
    ToUpperConcat(t, log);
  }

  /** The decoder: timeline, and log<<32 | seg*size in 64-bit arithmetic. */
  function DecodeTimeline(name: string): nat
    requires |name| == 24
  {
    ParseHex32(name[..8])
  }

  /** The low 64 bits. */
  function Word(x: nat): nat {
    x % TWO64
  }

  function Compose(log: nat, seg: nat, size: nat): nat {
    Or(Word(log * TWO32), Word(seg * size))
  }

  lemma WordOfSmall(x: nat)
    requires x < TWO64
    ensures Word(x) == x
  {
  }

  function DecodeStart(name: string, size: nat): nat
    requires |name| == 24
  {
    Compose(ParseHex32(name[8..16]), ParseHex32(name[16..]), size)
  }

  /** For an in-range segment number the bit operations are plain arithmetic. */
  lemma ComposeIsSum(log: nat, seg: nat, size: nat)
    requires SegmentSize(size) && log < TWO32 && seg < PerLog(size)
    ensures Compose(log, seg, size) == log * TWO32 + seg * size < TWO64
  {
    SegmentsPerLog(size);
    Pow2Word();
    MulSuccessor(PerLog(size) - 1, size);
    MulMonotone(seg, PerLog(size) - 1, size);
    var high, low := log * TWO32, seg * size;
    assert low < TWO32;
    assert high + low < TWO64;
    WordOfSmall(high);
    WordOfSmall(low);
    OrOfDisjoint(log, low, 32);
  }

  /** ROUND TRIP: decoding a printed name gives the timeline and the segment's first LSN. */
  lemma NameRoundTrip(timeline: nat, lsn: nat, size: nat)
    requires SegmentSize(size) && lsn < TWO64 && timeline < TWO32
    ensures var name := WalFilename(timeline, lsn, size);
            && name.Some? && |name.value| == 24 && AllUpperHex(name.value)
            && DecodeTimeline(name.value) == timeline
            && DecodeStart(name.value, size) == SegmentStart(lsn, size)
            && ParseHex32(name.value[16..]) < PerLog(size)
  {
    PrintedName(timeline, lsn, size);
    FieldsFit(lsn, size);
    SegmentArithmetic(lsn, size);
    var name := WalFilename(timeline, lsn, size).value;
    var log, seg := LogOf(lsn, size), SegOf(lsn, size);
    assert name[..8] == Fixed(timeline, 8) && name[8..16] == Fixed(log, 8) && name[16..] == Fixed(seg, 8);
    ParseFixed(timeline);
    ParseFixed(log);
    ParseFixed(seg);
    ComposeIsSum(log, seg, size);
  }

  lemma ComposeDecomposes(log: nat, seg: nat, size: nat, start: nat)
    requires SegmentSize(size) && seg < PerLog(size) && start == log * TWO32 + seg * size
    ensures LogOf(start, size) == log && SegOf(start, size) == seg && SegmentStart(start, size) == start
  {
    SegmentsPerLog(size);
    var per := PerLog(size);
    var n := log * per + seg;
    Distribute(log, per, seg, size);
    DivideUnique(start, size, n, 0);
    DivideUnique(n, per, log, seg);
  }

  lemma Distribute(log: nat, per: nat, seg: nat, size: nat)
    ensures (log * per + seg) * size == log * (per * size) + seg * size
  {
    MulAssociates(log, per, size);
  }

  /** ROUND TRIP, other direction: every well-formed segment name is the name of the
      segment it decodes to. */
  lemma DecodeRoundTrip(name: string, size: nat)
    requires SegmentSize(size) && |name| == 24 && AllUpperHex(name) && ParseHex32(name[16..]) < PerLog(size)
    ensures DecodeStart(name, size) < TWO64
    ensures SegmentStart(DecodeStart(name, size), size) == DecodeStart(name, size)
    ensures WalFilename(DecodeTimeline(name), DecodeStart(name, size), size) == Some(name)
  {
    DecodedFields(name, size);
    PrintedName(DecodeTimeline(name), DecodeStart(name, size), size);
    ThreeFields(name);
  }

  lemma DecodedFields(name: string, size: nat)
    requires SegmentSize(size) && |name| == 24 && AllUpperHex(name) && ParseHex32(name[16..]) < PerLog(size)
    ensures PerLog(size) > 0 && DecodeStart(name, size) < TWO64
    ensures SegmentStart(DecodeStart(name, size), size) == DecodeStart(name, size)
    ensures LogOf(DecodeStart(name, size), size) == ParseHex32(name[8..16])
    ensures SegOf(DecodeStart(name, size), size) == ParseHex32(name[16..])
  {
    var log, seg := ParseHex32(name[8..16]), ParseHex32(name[16..]);
    ComposeIsSum(log, seg, size);
    ComposeDecomposes(log, seg, size, DecodeStart(name, size));
  }

  lemma ThreeFields(name: string)
    requires |name| == 24 && AllUpperHex(name)
    ensures name == Fixed(ParseHex32(name[..8]), 8) + Fixed(ParseHex32(name[8..16]), 8) + Fixed(ParseHex32(name[16..]), 8)
  {
    var a, b, c := name[..8], name[8..16], name[16..];
    assert Fixed(ParseHex32(a), 8) == a by {
      FixedParse(a);
    }
    assert Fixed(ParseHex32(b), 8) == b by {
      FixedParse(b);
    }
    assert Fixed(ParseHex32(c), 8) == c by {
      FixedParse(c);
    }
    assert name == a + b + c;
  }

  /** Two positions share a file name exactly when they share timeline and segment. */
  lemma NamesIdentifySegments(t1: nat, l1: nat, t2: nat, l2: nat, size: nat)
    requires SegmentSize(size) && l1 < TWO64 && l2 < TWO64 && t1 < TWO32 && t2 < TWO32
    ensures WalFilename(t1, l1, size) == WalFilename(t2, l2, size)
            <==> t1 == t2 && SegmentStart(l1, size) == SegmentStart(l2, size)
  {
    NameRoundTrip(t1, l1, size);
    NameRoundTrip(t2, l2, size);
    if SegmentStart(l1, size) == SegmentStart(l2, size) {
      SegmentNumberFromStart(l1, size);
      SegmentNumberFromStart(l2, size);
    }
  }

  lemma SegmentNumberFromStart(lsn: nat, size: nat)
    requires size > 0
    ensures Quot(SegmentStart(lsn, size), size) == Quot(lsn, size)
  {
    DivideUnique(SegmentStart(lsn, size), size, Quot(lsn, size), 0);
  }

  // ---------------------------------------------------------------- order of names

  lemma {:induction false} AtMostConcat(a: string, b: string, x: string, y: string)
    requires |a| == |b|
    ensures AtMost(a + x, b + y) <==> (if a == b then AtMost(x, y) else AtMost(a, b))
  {
    if a == [] {
      assert a + x == x && b + y == y;
    } else {
      AtMostConcat(a[1..], b[1..], x, y);
      assert (a + x)[1..] == a[1..] + x && (b + y)[1..] == b[1..] + y;
      assert a == [a[0]] + a[1..] && b == [b[0]] + b[1..];
    }
  }

  lemma DigitOrder(c: nat, d: nat)
    requires c < 16 && d < 16
    ensures AtMost([UpperDigit(c)], [UpperDigit(d)]) <==> c <= d
  {
    assert AtMost([], []);
    assert [UpperDigit(c)][1..] == [] && [UpperDigit(d)][1..] == [];
  }

  lemma FixedSame(m: nat, n: nat, w: nat)
    requires m < Pow16(w) && n < Pow16(w)
    ensures Fixed(m, w) == Fixed(n, w) <==> m == n
  {
    FixedValue(m, w);
    FixedValue(n, w);
  }

  lemma DivideOrder(m: nat, n: nat)
    ensures m <= n <==> m / 16 < n / 16 || (m / 16 == n / 16 && m % 16 <= n % 16)
  {
  }

  lemma {:induction false} FixedOrder(m: nat, n: nat, w: nat)
    requires m < Pow16(w) && n < Pow16(w)
    ensures AtMost(Fixed(m, w), Fixed(n, w)) <==> m <= n
  {
    if w > 0 {
      var a, b := m / 16, n / 16;
      FixedSplit(m, w);
      FixedSplit(n, w);
      FixedOrder(a, b, w - 1);
      FixedOrderStep(a, b, w - 1, m % 16, n % 16);
      DivideOrder(m, n);
    }
  }

  /** The order of one more digit, from the order of the digits before it. */
  lemma FixedOrderStep(m: nat, n: nat, w: nat, c: nat, d: nat)
    requires m < Pow16(w) && n < Pow16(w) && c < 16 && d < 16 && (AtMost(Fixed(m, w), Fixed(n, w)) <==> m <= n)
    ensures AtMost(Fixed(m, w) + [UpperDigit(c)], Fixed(n, w) + [UpperDigit(d)]) <==> m < n || (m == n && c <= d)
  {
    FixedSame(m, n, w);
    FixedLength(m, w);
    FixedLength(n, w);
    AppendOrder(Fixed(m, w), Fixed(n, w), c, d);
  }

  lemma FixedLength(n: nat, w: nat)
    ensures |Fixed(n, w)| == w
  {
  }

  lemma FixedSplit(n: nat, w: nat)
    requires w > 0 && n < Pow16(w)
    ensures n / 16 < Pow16(w - 1) && |Fixed(n / 16, w - 1)| == w - 1
    ensures Fixed(n, w) == Fixed(n / 16, w - 1) + [UpperDigit(n % 16)]
  {
  }

  lemma AppendOrder(a: string, b: string, c: nat, d: nat)
    requires |a| == |b| && c < 16 && d < 16
    ensures AtMost(a + [UpperDigit(c)], b + [UpperDigit(d)]) <==> (if a == b then c <= d else AtMost(a, b))
  {
    AtMostConcat(a, b, [UpperDigit(c)], [UpperDigit(d)]);
    DigitOrder(c, d);
  }

  lemma {:induction false} QuotientOrder(m: nat, n: nat, d: nat)
    requires d > 0
    ensures m <= n <==> Quot(m, d) < Quot(n, d) || (Quot(m, d) == Quot(n, d) && Rem(m, d) <= Rem(n, d))
  {
    if m >= d && n >= d {
      QuotientOrder(m - d, n - d, d);
    }
  }

  lemma FieldOrder(t: string, logA: nat, segA: nat, logB: nat, segB: nat)
    requires logA < Pow16(8) && segA < Pow16(8) && logB < Pow16(8) && segB < Pow16(8)
    ensures AtMost(t + Fixed(logA, 8) + Fixed(segA, 8), t + Fixed(logB, 8) + Fixed(segB, 8))
            <==> logA < logB || (logA == logB && segA <= segB)
  {
    var la, sa, lb, sb := Fixed(logA, 8), Fixed(segA, 8), Fixed(logB, 8), Fixed(segB, 8);
    assert t + la + sa == t + (la + sa) && t + lb + sb == t + (lb + sb);
    AtMostConcat(t, t, la + sa, lb + sb);
    AtMostConcat(la, lb, sa, sb);
    FixedOrder(logA, logB, 8);
    FixedSame(logA, logB, 8);
    FixedOrder(segA, segB, 8);
  }

  /** Within a timeline, byte order of names is order of segments. */
  lemma NameOrderIsSegmentOrder(timeline: nat, l1: nat, l2: nat, size: nat)
    requires SegmentSize(size) && l1 < TWO64 && l2 < TWO64 && timeline < TWO32
    ensures var a, b := WalFilename(timeline, l1, size), WalFilename(timeline, l2, size);
            a.Some? && b.Some? && (AtMost(a.value, b.value) <==> Quot(l1, size) <= Quot(l2, size))
  {
    PrintedName(timeline, l1, size);
    PrintedName(timeline, l2, size);
    FieldsFit(l1, size);
    FieldsFit(l2, size);
    Pow16Word();
    FieldOrder(Fixed(timeline, 8), LogOf(l1, size), SegOf(l1, size), LogOf(l2, size), SegOf(l2, size));
    QuotientOrder(Quot(l1, size), Quot(l2, size), PerLog(size));
  }
}
