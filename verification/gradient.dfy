/**
 * The particle-ring colouring of src/lib/particals.utils.ts: a ratio is clamped
 * to [0, 1], two fixed hex colours are read octet by octet, blended channel by
 * channel, rounded, packed into 24 bits and printed as `#rrggbb`.
 */
module Gradient {
  import opened Wrappers

  const MAX_RADIUS: real := 90.0
  const LEFT_COLOR: string := "0078D7"
  const RIGHT_COLOR: string := "3FB950"
  const NUM_POINTS: nat := 1500

  // ----- hexadecimal digits -----

  /** A digit `parseInt(_, 16)` accepts, in either case. */
  predicate IsHexDigit(c: char)
  {
    '0' <= c <= '9' || 'a' <= c <= 'f' || 'A' <= c <= 'F'
  }

  predicate IsHexString(s: string)
  {
    forall i :: 0 <= i < |s| ==> IsHexDigit(s[i])
  }

  /** The digits `Number.prototype.toString(16)` prints: lower case only. */
  predicate IsLowerHexString(s: string)
  {
    forall i :: 0 <= i < |s| ==> '0' <= s[i] <= '9' || 'a' <= s[i] <= 'f'
  }

  function DigitValue(c: char): (d: nat)
    requires IsHexDigit(c)
    ensures d < 16
  {
    if c <= '9' then c as int - '0' as int
    else if c <= 'F' then c as int - 'A' as int + 10
    else c as int - 'a' as int + 10
  }

  function LowerDigit(d: nat): (c: char)
    requires d < 16
    ensures IsHexDigit(c) && DigitValue(c) == d
    ensures '0' <= c <= '9' || 'a' <= c <= 'f'
  {
    if d < 10 then ('0' as int + d) as char else ('a' as int + d - 10) as char
  }

  function Pow16(k: nat): (p: nat)
    ensures p > 0
  {
    if k == 0 then 1 else 16 * Pow16(k - 1)
  }

  /** The number a string of hex digits denotes, most significant digit first. */
  function HexValue(s: string): (n: nat)
    requires IsHexString(s)
    ensures n < Pow16(|s|)
  {
    if s == [] then 0 else HexValue(s[..|s| - 1]) * 16 + DigitValue(s[|s| - 1])
  }

  lemma {:induction false} HexValueConcat(a: string, b: string)
    requires IsHexString(a) && IsHexString(b)
    ensures IsHexString(a + b)
    ensures HexValue(a + b) == HexValue(a) * Pow16(|b|) + HexValue(b)
    decreases |b|
  {
    var ab := a + b;
    if b == [] {
      assert ab == a;
    } else {
      var b' := b[..|b| - 1];
      var d := DigitValue(b[|b| - 1]);
      assert ab[..|ab| - 1] == a + b' && ab[|ab| - 1] == b[|b| - 1];
      HexValueConcat(a, b');
      assert HexValue(ab) == HexValue(a + b') * 16 + d;
      assert HexValue(b) == HexValue(b') * 16 + d;
      Regroup(HexValue(a), Pow16(|b'|), HexValue(b'), d);
    }
  }

  lemma Regroup(x: int, p: int, y: int, d: int)
    ensures (x * p + y) * 16 + d == x * (16 * p) + (y * 16 + d)
  {
  }

  /**
   * A colour string split by a regular expression into two-character chunks
   * (the last one shorter when the length is odd), each chunk then read by
   * `parseInt` in base 16.
   */
  function Octets(hex: string): (r: seq<nat>)
    requires |hex| > 0 && IsHexString(hex)
    ensures |r| == (|hex| + 1) / 2
    ensures forall i :: 0 <= i < |r| ==> r[i] < 256
    decreases |hex|
  {
    if |hex| <= 2 then [HexValue(hex)]
    else [HexValue(hex[..2])] + Octets(hex[2..])
  }

  /** The two endpoint colours, octet by octet. */
  lemma EndpointOctets()
    ensures Octets(LEFT_COLOR) == [0, 120, 215]
    ensures Octets(RIGHT_COLOR) == [63, 185, 80]
  {
    LeftOctets();
    RightOctets();
  }

  lemma LeftOctets()
    ensures Octets(LEFT_COLOR) == [0, 120, 215]
  {
    assert LEFT_COLOR[..2] == "00" && LEFT_COLOR[2..][..2] == "78" && LEFT_COLOR[2..][2..] == "D7";
    assert HexValue("00") == 0 by { assert "00"[..1] == "0"; }
    assert HexValue("78") == 120 by { assert "78"[..1] == "7"; }
    assert HexValue("D7") == 215 by { assert "D7"[..1] == "D"; }
  }

  lemma RightOctets()
    ensures Octets(RIGHT_COLOR) == [63, 185, 80]
  {
    assert RIGHT_COLOR[..2] == "3F" && RIGHT_COLOR[2..][..2] == "B9" && RIGHT_COLOR[2..][2..] == "50";
    assert HexValue("3F") == 63 by { assert "3F"[..1] == "3"; }
    assert HexValue("B9") == 185 by { assert "B9"[..1] == "B"; }
    assert HexValue("50") == 80 by { assert "50"[..1] == "5"; }
  }


  // ----- blending -----

  /** The ratio pulled into [0, 1]: above 1 becomes 1, below 0 becomes 0. */
  function Clamp(ratio: real): (r: real)
    ensures 0.0 <= r <= 1.0
    ensures 0.0 <= ratio <= 1.0 ==> r == ratio
    ensures ratio < 0.0 ==> r == 0.0
    ensures ratio > 1.0 ==> r == 1.0
  {
    if ratio > 1.0 then 1.0 else if ratio < 0.0 then 0.0 else ratio
  }

  /** `Math.round`: the nearest integer, halves rounding up. */
  function Round(v: real): int
  {
    (v + 0.5).Floor
  }

  function Min(a: int, b: int): int
  {
    if a < b then a else b
  }

  /**
   * One channel of the blend: the left octet weighted by 1 - ratio plus the
   * right octet weighted by ratio, rounded and capped at 255.
   */
  function Channel(left: nat, right: nat, ratio: real): int
  {
    Min(Round(left as real * (1.0 - ratio) + right as real * ratio), 255)
  }

  /** The three blended channels for a ratio (already clamped by the caller). */
  function Channels(ratio: real): (cs: seq<int>)
    ensures |cs| == 3
  {
    var c0 := Octets(LEFT_COLOR);
    var c1 := Octets(RIGHT_COLOR);
    seq(3, i requires 0 <= i < 3 => Channel(c0[i], c1[i], ratio))
  }

  /** Rounding a value between two integers stays between them. */
  lemma RoundBetween(v: real, lo: int, hi: int)
    requires lo as real <= v <= hi as real
    ensures lo <= Round(v) <= hi
  {
  }

  /**
   * Each blended channel of the two endpoint colours lies between the
   * endpoints' octets for that channel; the cap at 255 never bites.
   */
  lemma EndpointChannelBounds(ratio: real)
    requires 0.0 <= ratio <= 1.0
    ensures 0 <= Channel(0, 63, ratio) <= 63
    ensures 120 <= Channel(120, 185, ratio) <= 185
    ensures 80 <= Channel(215, 80, ratio) <= 215
  {
    RoundBetween(0.0 * (1.0 - ratio) + 63.0 * ratio, 0, 63);
    RoundBetween(120.0 * (1.0 - ratio) + 185.0 * ratio, 120, 185);
    RoundBetween(215.0 * (1.0 - ratio) + 80.0 * ratio, 80, 215);
  }

  /** The three channels, with the endpoint octets written out. */
  lemma ChannelsOfRatio(ratio: real)
    ensures Channels(ratio) == [Channel(0, 63, ratio), Channel(120, 185, ratio), Channel(215, 80, ratio)]
  {
    EndpointOctets();
  }

  lemma ChannelsInRange(ratio: real)
    requires 0.0 <= ratio <= 1.0
    ensures forall i :: 0 <= i < 3 ==> 0 <= Channels(ratio)[i] < 256
  {
    ChannelsOfRatio(ratio);
    EndpointChannelBounds(ratio);
  }


  // ----- packing and printing -----

  /** ToInt32 of ECMAScript: reduce modulo 2^32 into the signed range. */
  function ToInt32(n: int): (r: int)
    ensures -0x8000_0000 <= r < 0x8000_0000
    ensures (n - r) % 0x1_0000_0000 == 0
    ensures -0x8000_0000 <= n < 0x8000_0000 ==> r == n
  {
    var m := n % 0x1_0000_0000;
    if m >= 0x8000_0000 then m - 0x1_0000_0000 else m
  }

  /** `a << 8` in JavaScript: a 32-bit signed shift, which wraps. */
  function ShiftLeft8(a: int): int
  {
    ToInt32(a * 256)
  }

  /** The channels folded left from 0, each step shifting the total left by 8 bits and adding the next channel. */
  function Pack(cs: seq<int>): int
  {
    if cs == [] then 0 else ShiftLeft8(Pack(cs[..|cs| - 1])) + cs[|cs| - 1]
  }

  /** Three bytes pack without wrap-around into one 24-bit number. */
  lemma PackThree(cs: seq<int>)
    requires |cs| == 3 && forall i :: 0 <= i < 3 ==> 0 <= cs[i] < 256
    ensures Pack(cs) == cs[0] * 0x1_0000 + cs[1] * 0x100 + cs[2]
    ensures 0 <= Pack(cs) < 0x100_0000
  {
    assert cs[..2][..1] == cs[..1] && cs[..1][..0] == [];
    assert Pack(cs[..1]) == cs[0];
    assert Pack(cs[..2]) == cs[0] * 256 + cs[1];
  }

  /** `n.toString(16)` for a non-negative integer: no leading zeros, "0" for zero. */
  function HexNat(n: nat): (s: string)
    ensures |s| > 0 && IsHexString(s) && IsLowerHexString(s)
    ensures HexValue(s) == n
  {
    if n < 16 then [LowerDigit(n)]
    else
      var s := HexNat(n / 16) + [LowerDigit(n % 16)];
      assert s[..|s| - 1] == HexNat(n / 16);
      s
  }

  /** `Number.prototype.toString(16)`, with its minus sign for negative numbers. */
  function ToHexString(n: int): string
  {
    if n < 0 then "-" + HexNat(-n) else HexNat(n)
  }

  lemma {:induction false} HexNatLength(n: nat, k: nat)
    requires k > 0 && n < Pow16(k)
    ensures |HexNat(n)| <= k
  {
    if n >= 16 {
      assert k > 1;
      assert n / 16 < Pow16(k - 1);
      HexNatLength(n / 16, k - 1);
    }
  }

  /** k zero digits. */
  function Zeros(k: nat): string
  {
    seq(k, _ => '0')
  }

  /** `padStart` with '0': zeros in front until the string is `width` long; a longer string is kept. */
  function PadStart(s: string, width: nat): string
  {
    if |s| >= width then s else Zeros(width - |s|) + s
  }

  lemma ZerosValue(k: nat)
    ensures IsHexString(Zeros(k)) && HexValue(Zeros(k)) == 0
  {
    if k > 0 {
      assert Zeros(k)[..k - 1] == Zeros(k - 1);
      ZerosValue(k - 1);
    }
  }

  /** `getGradientStop(ratio)`: clamp, blend, then print. */
  function GradientStop(ratio: real): string
  {
    var r := Clamp(ratio);
    EncodeChannels(Channels(r))
  }

  /** The printing half of `getGradientStop`: pack the channels and print `#` plus six padded hex digits. */
  function EncodeChannels(cs: seq<int>): string
  {
    "#" + PadStart(ToHexString(Pack(cs)), 6)
  }

  /** `calculateColor(x)`: the x coordinate mapped onto the gradient across [-90, 90]. */
  function CalculateColor(x: real): string
  {
    GradientStop(ColorRatio(x))
  }

  function ColorRatio(x: real): real
  {
    (x + MAX_RADIUS) / (MAX_RADIUS * 2.0)
  }

  // ----- properties of the encoder -----

  /** The printed form of a colour: `#` and six lower-case hex digits. */
  predicate WellFormedStop(s: string)
  {
    |s| == 7 && s[0] == '#' && IsHexString(s[1..]) && IsLowerHexString(s[1..])
  }

  /** Reads `#rrggbb` back into its three octets. */
  function DecodeStop(s: string): (r: Option<seq<int>>)
  {
    if |s| == 7 && s[0] == '#' && IsHexString(s[1..]) then Some(Octets(s[1..])) else None
  }

  /** A 24-bit number prints, once padded, as six digits that read back as the same number. */
  lemma PaddedHex(n: nat)
    requires n < 0x100_0000
    ensures |PadStart(HexNat(n), 6)| == 6
    ensures IsHexString(PadStart(HexNat(n), 6)) && IsLowerHexString(PadStart(HexNat(n), 6))
    ensures HexValue(PadStart(HexNat(n), 6)) == n
  {
    Pow16Six();
    HexNatLength(n, 6);
    PaddedValue(HexNat(n), 6);
  }

  /** Zero padding up to a width the string fits in gives exactly that width and keeps digits and value. */
  lemma PaddedValue(h: string, width: nat)
    requires IsHexString(h) && IsLowerHexString(h) && |h| <= width
    ensures |PadStart(h, width)| == width
    ensures IsHexString(PadStart(h, width)) && IsLowerHexString(PadStart(h, width))
    ensures HexValue(PadStart(h, width)) == HexValue(h)
  {
    if |h| < width {
      var z := Zeros(width - |h|);
      assert |z| == width - |h|;
      assert PadStart(h, width) == z + h;
      ZerosPrefix(h, width - |h|);
    }
  }

  /** Six hex digits span 24 bits. */
  lemma Pow16Six()
    ensures Pow16(6) == 0x100_0000
  {
  }

  /** Leading zeros keep a lower-case hex string lower-case hex and keep its value. */
  lemma ZerosPrefix(h: string, k: nat)
    requires IsHexString(h) && IsLowerHexString(h)
    ensures IsHexString(Zeros(k) + h) && IsLowerHexString(Zeros(k) + h)
    ensures HexValue(Zeros(k) + h) == HexValue(h)
  {
    ZerosValue(k);
    HexValueConcat(Zeros(k), h);
    ZerosLower(k);
    LowerConcat(Zeros(k), h);
  }

  lemma ZerosLower(k: nat)
    ensures IsLowerHexString(Zeros(k))
  {
  }

  /** Joining two lower-case hex strings gives a lower-case hex string. */
  lemma LowerConcat(a: string, b: string)
    requires IsLowerHexString(a) && IsLowerHexString(b)
    ensures IsLowerHexString(a + b)
  {
    forall i | 0 <= i < |a + b| ensures '0' <= (a + b)[i] <= '9' || 'a' <= (a + b)[i] <= 'f' {
      if i >= |a| { assert (a + b)[i] == b[i - |a|]; }
    }
  }

  /** Six hex digits read as three octets: the base-256 digits of their value. */
  lemma SixDigitOctets(p: string)
    requires |p| == 6 && IsHexString(p)
    ensures Octets(p) == [HexValue(p) / 0x1_0000, HexValue(p) / 0x100 % 0x100, HexValue(p) % 0x100]
  {
    var a, b, c := p[..2], p[2..4], p[4..];
    SixDigitChunks(p);
    SixDigitValue(p);
    Base256Digits(HexValue(a), HexValue(b), HexValue(c));
  }

  lemma SixDigitChunks(p: string)
    requires |p| == 6 && IsHexString(p)
    ensures Octets(p) == [HexValue(p[..2]), HexValue(p[2..4]), HexValue(p[4..])]
  {
    assert p[2..][..2] == p[2..4] && p[2..][2..] == p[4..];
    assert Octets(p[2..][2..]) == [HexValue(p[4..])];
  }

  lemma SixDigitValue(p: string)
    requires |p| == 6 && IsHexString(p)
    ensures HexValue(p) == (HexValue(p[..2]) * 0x100 + HexValue(p[2..4])) * 0x100 + HexValue(p[4..])
  {
    var a, b, c := p[..2], p[2..4], p[4..];
    assert p[2..] == b + c && p == a + (b + c);
    HexValueConcat(b, c);
    HexValueConcat(a, b + c);
    assert Pow16(2) == 0x100 && Pow16(4) == 0x1_0000;
    var x, y, z := HexValue(a), HexValue(b), HexValue(c);
    assert HexValue(p) == x * 0x1_0000 + (y * 0x100 + z);
  }

  lemma Base256Digits(x: int, y: int, z: int)
    requires 0 <= x < 0x100 && 0 <= y < 0x100 && 0 <= z < 0x100
    ensures ((x * 0x100 + y) * 0x100 + z) / 0x1_0000 == x
    ensures ((x * 0x100 + y) * 0x100 + z) / 0x100 % 0x100 == y
    ensures ((x * 0x100 + y) * 0x100 + z) % 0x100 == z
  {
    var n := (x * 0x100 + y) * 0x100 + z;
    assert n / 0x100 == x * 0x100 + y;
    assert n == x * 0x1_0000 + (y * 0x100 + z);
  }

  /**
   * Packing round trip: three bytes print as `#` and six lower-case hex
   * digits, and reading those digits back as octets gives the three bytes.
   */
  lemma EncodeDecode(cs: seq<int>)
    requires |cs| == 3 && forall i :: 0 <= i < 3 ==> 0 <= cs[i] < 256
    ensures WellFormedStop(EncodeChannels(cs))
    ensures DecodeStop(EncodeChannels(cs)) == Some(cs)
  {
    PackThree(cs);
    var n := Pack(cs);
    PaddedHex(n);
    var p := PadStart(HexNat(n), 6);
    assert EncodeChannels(cs) == "#" + p;
    assert ("#" + p)[1..] == p;
    SixDigitOctets(p);
    Base256Digits(cs[0], cs[1], cs[2]);
    assert n == (cs[0] * 0x100 + cs[1]) * 0x100 + cs[2];
    assert Octets(p) == [cs[0], cs[1], cs[2]];
    assert [cs[0], cs[1], cs[2]] == cs;
  }

  /** Every stop is well formed and decodes to the rounded channel values of its clamped ratio. */
  lemma GradientStopRoundTrip(ratio: real)
    ensures WellFormedStop(GradientStop(ratio))
    ensures DecodeStop(GradientStop(ratio)) == Some(Channels(Clamp(ratio)))
  {
    ChannelsInRange(Clamp(ratio));
    EncodeDecode(Channels(Clamp(ratio)));
  }

  /** Each channel of a stop lies between the two endpoint channels and never exceeds 255. */
  lemma ChannelsBetweenEndpoints(ratio: real, i: nat)
    requires i < 3
    ensures var lo := Min(Octets(LEFT_COLOR)[i], Octets(RIGHT_COLOR)[i]);
            var hi := if Octets(LEFT_COLOR)[i] < Octets(RIGHT_COLOR)[i] then Octets(RIGHT_COLOR)[i] else Octets(LEFT_COLOR)[i];
            lo <= Channels(Clamp(ratio))[i] <= hi <= 255
  {
    EndpointOctets();
    ChannelsOfRatio(Clamp(ratio));
    EndpointChannelBounds(Clamp(ratio));
  }

  /** Ratios outside [0, 1] give the colour of the nearer end. */
  lemma ClampedStops(ratio: real)
    ensures ratio < 0.0 ==> GradientStop(ratio) == GradientStop(0.0)
    ensures ratio > 1.0 ==> GradientStop(ratio) == GradientStop(1.0)
  {
  }

  lemma EndpointChannels()
    ensures Channels(0.0) == [0, 120, 215]
    ensures Channels(1.0) == [63, 185, 80]
  {
    ChannelsOfRatio(0.0);
    ChannelsOfRatio(1.0);
  }

  lemma LeftDigits()
    ensures HexNat(0x78d7) == "78d7"
  {
    assert HexNat(0x7) == "7";
    assert HexNat(0x78) == "78";
    assert HexNat(0x78d) == "78d";
  }

  lemma RightDigits()
    ensures HexNat(0x3fb950) == "3fb950"
  {
    assert HexNat(0x3) == "3";
    assert HexNat(0x3f) == "3f";
    assert HexNat(0x3fb) == "3fb";
    assert HexNat(0x3fb9) == "3fb9";
    assert HexNat(0x3fb95) == "3fb95";
  }

  /** The two ends of the gradient are the two configured colours, printed in lower case. */
  lemma EndpointStops()
    ensures GradientStop(0.0) == "#0078d7"
    ensures GradientStop(1.0) == "#3fb950"
  {
    EndpointChannels();
    LeftStop();
    RightStop();
  }

  lemma LeftStop()
    ensures EncodeChannels([0, 120, 215]) == "#0078d7"
  {
    PackThree([0, 120, 215]);
    LeftDigits();
    EncodeDigits([0, 120, 215], "78d7");
    LeftPadding();
  }

  /** Three octets whose packed value prints as `h` are encoded as `h` padded to six digits. */
  lemma EncodeDigits(cs: seq<int>, h: string)
    requires |cs| == 3 && forall i :: 0 <= i < 3 ==> 0 <= cs[i] < 256
    requires 0 <= Pack(cs) && HexNat(Pack(cs)) == h
    ensures EncodeChannels(cs) == "#" + PadStart(h, 6)
  {
    PackThree(cs);
  }

  lemma LeftPadding()
    ensures PadStart("78d7", 6) == "0078d7"
  {
    assert Zeros(2) == "00";
  }

  lemma RightStop()
    ensures EncodeChannels([63, 185, 80]) == "#3fb950"
  {
    PackThree([63, 185, 80]);
    RightDigits();
    EncodeDigits([63, 185, 80], "3fb950");
  }

  /** Left of x = -90 the colour is the left end, right of x = 90 the right end, x = 0 is half-way. */
  lemma CalculateColorEnds(x: real)
    ensures x <= -MAX_RADIUS ==> CalculateColor(x) == "#0078d7"
    ensures x >= MAX_RADIUS ==> CalculateColor(x) == "#3fb950"
    ensures ColorRatio(0.0) == 0.5
  {
    EndpointStops();
    if x <= -MAX_RADIUS {
      assert ColorRatio(x) <= 0.0;
      assert GradientStop(ColorRatio(x)) == GradientStop(0.0);
    }
    if x >= MAX_RADIUS {
      assert ColorRatio(x) >= 1.0;
      assert GradientStop(ColorRatio(x)) == GradientStop(1.0);
    }
  }

  lemma MidpointChannels()
    ensures Channels(0.5) == [32, 153, 148]
  {
    EndpointOctets();
    assert Round(31.5) == 32 && Round(152.5) == 153 && Round(147.5) == 148;
  }

  lemma MidpointDigits()
    ensures HexNat(0x209994) == "209994"
  {
    assert HexNat(0x2) == "2";
    assert HexNat(0x20) == "20";
    assert HexNat(0x209) == "209";
    assert HexNat(0x2099) == "2099";
    assert HexNat(0x20999) == "20999";
  }

  /** At x = 0 every channel is the exact mean of the two ends, and the halves round up. */
  lemma MidpointStop()
    ensures ColorRatio(0.0) == 0.5
    ensures CalculateColor(0.0) == "#209994"
  {
    MidpointChannels();
    PackThree([32, 153, 148]);
    MidpointDigits();
  }

  // ----- the particle point sets -----

  datatype Position = Position(x: real, y: real, z: real)

  datatype Point = Point(idx: nat, position: Position, color: string)

  /**
   * `Array.from({ length: count }, (_v, k) => k + 1).map(...)`: points
   * numbered 1..count. The random position of point k is the parameter
   * `sample(k)`; its colour comes from its x coordinate.
   */
  function MakePoints(count: nat, sample: nat -> Position): (ps: seq<Point>)
    ensures |ps| == count
    ensures forall k :: 0 <= k < count ==> ps[k].idx == k + 1 && ps[k].position == sample(k)
    ensures forall k :: 0 <= k < count ==> ps[k].color == CalculateColor(sample(k).x)
  {
    seq(count, k requires 0 <= k < count => Point(k + 1, sample(k), CalculateColor(sample(k).x)))
  }

  function PointsInner(sample: nat -> Position): seq<Point>
  {
    MakePoints(NUM_POINTS, sample)
  }

  function PointsOuter(sample: nat -> Position): seq<Point>
  {
    MakePoints(NUM_POINTS / 4, sample)
  }

  /** The inner ring numbers its points 1..1500 and the outer ring 1..375, each with a well-formed colour. */
  lemma PointNumbering(inner: nat -> Position, outer: nat -> Position)
    ensures |PointsInner(inner)| == 1500 && |PointsOuter(outer)| == 375
    ensures forall k :: 0 <= k < 1500 ==> PointsInner(inner)[k].idx == k + 1 && WellFormedStop(PointsInner(inner)[k].color)
    ensures forall k :: 0 <= k < 375 ==> PointsOuter(outer)[k].idx == k + 1 && WellFormedStop(PointsOuter(outer)[k].color)
  {
    forall k | 0 <= k < 1500 ensures WellFormedStop(PointsInner(inner)[k].color) {
      GradientStopRoundTrip(ColorRatio(inner(k).x));
    }
    forall k | 0 <= k < 375 ensures WellFormedStop(PointsOuter(outer)[k].color) {
      GradientStopRoundTrip(ColorRatio(outer(k).x));
    }
  }
}
