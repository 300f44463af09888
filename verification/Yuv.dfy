/** Fixed-point colour conversion of single pixels (src/driver/camera/pinephone/yuv_rgb.c). */
module YuvPixels {

  const PRECISION_FACTOR: int := 64

  /** The fixed-point value of a non-negative coefficient, rounded to the nearest. */
  function V(value: real): int
    requires 0.0 <= value
  {
    (value * 64.0 + 0.5).Floor
  }

  datatype Standard = T871 | BT601 | BT709

  datatype YuvToRgb = YuvToRgb(yShift: int, y: int, vr: int, ug: int, vg: int, ub: int)

  datatype RgbToYuv = RgbToYuv(yShift: int, yr: int, yg: int, yb: int,
                               ur: int, ug: int, ub: int, vr: int, vg: int, vb: int)

  function ToRgb(std: Standard): YuvToRgb {
    match std
    case T871 => YuvToRgb(0, V(1.0), V(1.402), -V(0.3441), -V(0.7141), V(1.772))
    case BT601 => YuvToRgb(16, V(1.1644), V(1.596), -V(0.3918), -V(0.813), V(2.0172))
    case BT709 => YuvToRgb(16, V(1.1644), V(1.7927), -V(0.2132), -V(0.5329), V(2.1124))
  }

  function ToYuv(std: Standard): RgbToYuv {
    match std
    case T871 => RgbToYuv(0, V(0.299), V(0.587), V(0.114), -V(0.1687), -V(0.3313), V(0.5),
                          V(0.5), -V(0.4187), -V(0.0813))
    case BT601 => RgbToYuv(16, V(0.2568), V(0.5041), V(0.0979), -V(0.1482), -V(0.291), V(0.4392),
                           V(0.4392), -V(0.3678), -V(0.0714))
    case BT709 => RgbToYuv(16, V(0.1826), V(0.6142), V(0.062), -V(0.1006), -V(0.3386), V(0.4392),
                           V(0.4392), -V(0.3989), -V(0.0403))
  }

  /** The coefficients as integers. */
  lemma Coefficients()
    ensures ToRgb(T871) == YuvToRgb(0, 64, 90, -22, -46, 113)
    ensures ToRgb(BT601) == YuvToRgb(16, 75, 102, -25, -52, 129)
    ensures ToRgb(BT709) == YuvToRgb(16, 75, 115, -14, -34, 135)
    ensures ToYuv(T871) == RgbToYuv(0, 19, 38, 7, -11, -21, 32, 32, -27, -5)
    ensures ToYuv(BT601) == RgbToYuv(16, 16, 32, 6, -9, -19, 28, 28, -24, -5)
    ensures ToYuv(BT709) == RgbToYuv(16, 12, 39, 4, -6, -22, 28, 28, -26, -3)
  {
  }

  // ---- the clamp table ----

  const TABLE_SIZE: int := 512

  /** Entry of the look-up table: 128 zeros, the values 0 to 255, and 128 times 255. */
  function Entry(i: int): int
    requires 0 <= i < TABLE_SIZE
  {
    if i < 128 then 0 else if i < 384 then i - 128 else 255
  }

  function TableIndex(v: int): int { (v + 128 * PRECISION_FACTOR) / PRECISION_FACTOR }

  /** The look-up stays inside the table. */
  predicate InTable(v: int) { 0 <= TableIndex(v) < TABLE_SIZE }

  function ClampU8(v: int): int
    requires InTable(v)
  {
    Entry(TableIndex(v))
  }

  /** Division by the precision factor, limited to the range of a byte. */
  function Clamped(v: int): (r: int)
    ensures 0 <= r <= 255
  {
    var q := v / PRECISION_FACTOR;
    if q < 0 then 0 else if q > 255 then 255 else q
  }

  /** The look-up is safe from -128 * 64 up to but excluding 384 * 64, and clamps correctly there. */
  lemma ClampIsCorrect(v: int)
    ensures InTable(v) <==> -128 * PRECISION_FACTOR <= v < 384 * PRECISION_FACTOR
    ensures InTable(v) ==> ClampU8(v) == Clamped(v)
  {
  }

  /** The upper end of the documented range is outside of the table. */
  lemma UpperEndIsOutside()
    ensures TableIndex(384 * PRECISION_FACTOR) == TABLE_SIZE && !InTable(384 * PRECISION_FACTOR)
  {
  }

  // ---- one pixel ----

  datatype Rgb = Rgb(r: int, g: int, b: int)

  predicate IsByte(v: int) { 0 <= v <= 255 }

  predicate Valid(c: Rgb) { IsByte(c.r) && IsByte(c.g) && IsByte(c.b) }

  /** The sums that the clamp is applied to, from YUV to RGB. */
  function Sums(std: Standard, y: int, u: int, v: int): Rgb {
    var p := ToRgb(std);
    var yTmp := (y - p.yShift) * p.y;
    Rgb(yTmp + (v - 128) * p.vr,
        yTmp + ((u - 128) * p.ug + (v - 128) * p.vg),
        yTmp + (u - 128) * p.ub)
  }

  predicate Convertible(std: Standard, y: int, u: int, v: int) {
    var s := Sums(std, y, u, v);
    InTable(s.r) && InTable(s.g) && InTable(s.b)
  }

  /** Bytes may well lead out of the table: full luma with full chroma does in every standard. */
  lemma SomeBytesAreNotConvertible(std: Standard)
    ensures !Convertible(std, 255, 255, 255)
  {
    Coefficients();
  }

  function RgbOf(std: Standard, y: int, u: int, v: int): (c: Rgb)
    requires Convertible(std, y, u, v)
    ensures Valid(c)
  {
    var s := Sums(std, y, u, v);
    Rgb(ClampU8(s.r), ClampU8(s.g), ClampU8(s.b))
  }

  function Luma(std: Standard, c: Rgb): int {
    var p := ToYuv(std);
    p.yr * c.r + p.yg * c.g + p.yb * c.b
  }

  function ChromaU(std: Standard, c: Rgb): int {
    var p := ToYuv(std);
    p.ur * c.r + p.ug * c.g + p.ub * c.b
  }

  function ChromaV(std: Standard, c: Rgb): int {
    var p := ToYuv(std);
    p.vr * c.r + p.vg * c.g + p.vb * c.b
  }

  /** Division by four towards zero. */
  function Quarter(v: int): int { if v >= 0 then v / 4 else -(-v / 4) }

  function YSum(std: Standard, c: Rgb): int { Luma(std, c) + ToYuv(std).yShift * PRECISION_FACTOR }

  function UVSum(total: int): int { Quarter(total) + 128 * PRECISION_FACTOR }

  /** From RGB, every look-up is inside the table. */
  lemma RgbIsConvertible(std: Standard, c1: Rgb, c2: Rgb, c3: Rgb, c4: Rgb)
    requires Valid(c1) && Valid(c2) && Valid(c3) && Valid(c4)
    ensures InTable(YSum(std, c1))
    ensures InTable(UVSum(ChromaU(std, c1) + ChromaU(std, c2) + ChromaU(std, c3) + ChromaU(std, c4)))
    ensures InTable(UVSum(ChromaV(std, c1) + ChromaV(std, c2) + ChromaV(std, c3) + ChromaV(std, c4)))
  {
    ChromaBounded(std, c1);
    ChromaBounded(std, c2);
    ChromaBounded(std, c3);
    ChromaBounded(std, c4);
    hide V, ChromaU, ChromaV, InTable, UVSum;
    assert InTable(YSum(std, c1)) by { LumaInTable(std, c1); }
    QuarterInTable(ChromaU(std, c1) + ChromaU(std, c2) + ChromaU(std, c3) + ChromaU(std, c4));
    QuarterInTable(ChromaV(std, c1) + ChromaV(std, c2) + ChromaV(std, c3) + ChromaV(std, c4));
  }

  lemma QuarterInTable(total: int)
    requires -4 * 8160 <= total <= 4 * 8160
    ensures InTable(UVSum(total))
  {
  }

  lemma LumaInTable(std: Standard, c: Rgb)
    requires Valid(c)
    ensures InTable(YSum(std, c)) && 0 <= YSum(std, c) <= 16383
  {
    Coefficients();
    hide V, ToYuv, ToRgb;
  }

  lemma ChromaBounded(std: Standard, c: Rgb)
    requires Valid(c)
    ensures -8160 <= ChromaU(std, c) <= 8160 && -8160 <= ChromaV(std, c) <= 8160
    ensures 0 <= Luma(std, c) <= 16320
  {
    Coefficients();
    hide V, ToYuv, ToRgb;
  }

  predicate Close(a: int, b: int, limit: int) { -limit <= a - b <= limit }

  /** Rounded down after division by the precision factor. */
  predicate Floors(q: int, v: int) { 64 * q <= v < 64 * q + 64 }

  /** Rounding the sum down gives the channel, up to 12. */
  predicate Near(sum: int, channel: int) { 64 * channel - 768 <= sum <= 64 * channel + 831 }

  /** A sum that is nearly a channel's value gives nearly this value back. */
  lemma ClampedClose(sum: int, channel: int)
    requires IsByte(channel) && Near(sum, channel)
    ensures InTable(sum) && Close(ClampU8(sum), channel, 12)
  {
  }

  lemma ChannelsT871(r: int, g: int, b: int, y: int, u: int, v: int)
    requires IsByte(r) && IsByte(g) && IsByte(b)
    requires Floors(y, 19 * r + 38 * g + 7 * b)
    requires Floors(u, -11 * r - 21 * g + 32 * b + 8192) && Floors(v, 32 * r - 27 * g - 5 * b + 8192)
    ensures Near(y * 64 + (v - 128) * 90, r)
    ensures Near(y * 64 + ((u - 128) * -22 + (v - 128) * -46), g)
    ensures Near(y * 64 + (u - 128) * 113, b)
    ensures IsByte(y) && IsByte(u) && IsByte(v)
  {
  }

  lemma ChannelsBT601(r: int, g: int, b: int, y: int, u: int, v: int)
    requires IsByte(r) && IsByte(g) && IsByte(b)
    requires Floors(y, 16 * r + 32 * g + 6 * b + 1024)
    requires Floors(u, -9 * r - 19 * g + 28 * b + 8192) && Floors(v, 28 * r - 24 * g - 5 * b + 8192)
    ensures Near((y - 16) * 75 + (v - 128) * 102, r)
    ensures Near((y - 16) * 75 + ((u - 128) * -25 + (v - 128) * -52), g)
    ensures Near((y - 16) * 75 + (u - 128) * 129, b)
    ensures IsByte(y) && IsByte(u) && IsByte(v)
  {
  }

  lemma ChannelsBT709(r: int, g: int, b: int, y: int, u: int, v: int)
    requires IsByte(r) && IsByte(g) && IsByte(b)
    requires Floors(y, 12 * r + 39 * g + 4 * b + 1024)
    requires Floors(u, -6 * r - 22 * g + 28 * b + 8192) && Floors(v, 28 * r - 26 * g - 3 * b + 8192)
    ensures Near((y - 16) * 75 + (v - 128) * 115, r)
    ensures Near((y - 16) * 75 + ((u - 128) * -14 + (v - 128) * -34), g)
    ensures Near((y - 16) * 75 + (u - 128) * 135, b)
    ensures IsByte(y) && IsByte(u) && IsByte(v)
  {
  }

  /** A look-up whose result is a byte anyway just divides. */
  lemma ClampedFloors(v: int)
    requires 0 <= v <= 16383
    ensures InTable(v) && Floors(ClampU8(v), v)
  {
  }

  lemma FourTimes(v: int)
    ensures UVSum(4 * v) == v + 128 * PRECISION_FACTOR
  {
  }

  /** The three codes of a colour, as they are stored. */
  function YuvOf(std: Standard, c: Rgb): (int, int, int)
    requires Valid(c)
  {
    RgbIsConvertible(std, c, c, c, c);
    (ClampU8(YSum(std, c)), ClampU8(UVSum(4 * ChromaU(std, c))), ClampU8(UVSum(4 * ChromaV(std, c))))
  }

  /** The codes are those of the colour. */
  predicate Codes(std: Standard, c: Rgb, y: int, u: int, v: int) {
    Floors(y, YSum(std, c)) && Floors(u, ChromaU(std, c) + 8192) && Floors(v, ChromaV(std, c) + 8192)
  }

  lemma YuvOfFloors(std: Standard, c: Rgb)
    requires Valid(c)
    ensures var yuv := YuvOf(std, c);
            Codes(std, c, yuv.0, yuv.1, yuv.2)
  {
    RgbIsConvertible(std, c, c, c, c);
    ChromaBounded(std, c);
    LumaInTable(std, c);
    FourTimes(ChromaU(std, c));
    FourTimes(ChromaV(std, c));
    hide V, ToYuv, ChromaU, ChromaV, YSum, ClampU8, InTable, UVSum;
    ClampedFloors(YSum(std, c));
    ClampedFloors(ChromaU(std, c) + 8192);
    ClampedFloors(ChromaV(std, c) + 8192);
  }

  /** The sums with their coefficients. */
  lemma SumsT871(c: Rgb, y: int, u: int, v: int)
    ensures Sums(T871, y, u, v) == Rgb(y * 64 + (v - 128) * 90, y * 64 + ((u - 128) * -22 + (v - 128) * -46),
                                       y * 64 + (u - 128) * 113)
    ensures YSum(T871, c) == 19 * c.r + 38 * c.g + 7 * c.b
    ensures ChromaU(T871, c) == -11 * c.r - 21 * c.g + 32 * c.b
    ensures ChromaV(T871, c) == 32 * c.r - 27 * c.g - 5 * c.b
  {
    Coefficients();
    hide V, ToYuv, ToRgb;
  }

  lemma SumsBT601(c: Rgb, y: int, u: int, v: int)
    ensures Sums(BT601, y, u, v) == Rgb((y - 16) * 75 + (v - 128) * 102,
                                        (y - 16) * 75 + ((u - 128) * -25 + (v - 128) * -52),
                                        (y - 16) * 75 + (u - 128) * 129)
    ensures YSum(BT601, c) == 16 * c.r + 32 * c.g + 6 * c.b + 1024
    ensures ChromaU(BT601, c) == -9 * c.r - 19 * c.g + 28 * c.b
    ensures ChromaV(BT601, c) == 28 * c.r - 24 * c.g - 5 * c.b
  {
    Coefficients();
    hide V, ToYuv, ToRgb;
  }

  lemma SumsBT709(c: Rgb, y: int, u: int, v: int)
    ensures Sums(BT709, y, u, v) == Rgb((y - 16) * 75 + (v - 128) * 115,
                                        (y - 16) * 75 + ((u - 128) * -14 + (v - 128) * -34),
                                        (y - 16) * 75 + (u - 128) * 135)
    ensures YSum(BT709, c) == 12 * c.r + 39 * c.g + 4 * c.b + 1024
    ensures ChromaU(BT709, c) == -6 * c.r - 22 * c.g + 28 * c.b
    ensures ChromaV(BT709, c) == 28 * c.r - 26 * c.g - 3 * c.b
  {
    Coefficients();
    hide V, ToYuv, ToRgb;
  }

  predicate AllNear(sums: Rgb, c: Rgb) { Near(sums.r, c.r) && Near(sums.g, c.g) && Near(sums.b, c.b) }

  lemma NearT871(c: Rgb, y: int, u: int, v: int)
    requires Valid(c) && Codes(T871, c, y, u, v)
    ensures AllNear(Sums(T871, y, u, v), c)
  {
    SumsT871(c, y, u, v);
    hide YSum, ChromaU, ChromaV, Near, Sums;
    ChannelsT871(c.r, c.g, c.b, y, u, v);
  }

  lemma NearBT601(c: Rgb, y: int, u: int, v: int)
    requires Valid(c) && Codes(BT601, c, y, u, v)
    ensures AllNear(Sums(BT601, y, u, v), c)
  {
    SumsBT601(c, y, u, v);
    hide YSum, ChromaU, ChromaV, Near, Sums;
    ChannelsBT601(c.r, c.g, c.b, y, u, v);
  }

  lemma NearBT709(c: Rgb, y: int, u: int, v: int)
    requires Valid(c) && Codes(BT709, c, y, u, v)
    ensures AllNear(Sums(BT709, y, u, v), c)
  {
    SumsBT709(c, y, u, v);
    hide YSum, ChromaU, ChromaV, Near, Sums;
    ChannelsBT709(c.r, c.g, c.b, y, u, v);
  }

  /** The sums on the way back are near the channels. */
  lemma SumsAreNear(std: Standard, c: Rgb)
    requires Valid(c)
    ensures var yuv := YuvOf(std, c);
            AllNear(Sums(std, yuv.0, yuv.1, yuv.2), c)
  {
    YuvOfFloors(std, c);
    var yuv := YuvOf(std, c);
    hide YuvOf, Sums, Codes, AllNear;
    match std {
      case T871 => NearT871(c, yuv.0, yuv.1, yuv.2);
      case BT601 => NearBT601(c, yuv.0, yuv.1, yuv.2);
      case BT709 => NearBT709(c, yuv.0, yuv.1, yuv.2);
    }
  }

  /** One colour there and back again: the look-ups stay inside the table, and no channel is off
      by more than 12. */
  lemma PixelRoundTrip(std: Standard, c: Rgb)
    requires Valid(c)
    ensures var yuv := YuvOf(std, c);
            && Convertible(std, yuv.0, yuv.1, yuv.2)
            && var back := RgbOf(std, yuv.0, yuv.1, yuv.2);
               Close(back.r, c.r, 12) && Close(back.g, c.g, 12) && Close(back.b, c.b, 12)
  {
    SumsAreNear(std, c);
    var yuv := YuvOf(std, c);
    var s := Sums(std, yuv.0, yuv.1, yuv.2);
    hide Sums, YuvOf, ClampU8, InTable;
    ClampedClose(s.r, c.r);
    ClampedClose(s.g, c.g);
    ClampedClose(s.b, c.b);
  }

  /** No smaller limit would do: this colour loses exactly 12 levels of red. */
  lemma RoundTripIsTight()
    ensures YuvOf(BT601, Rgb(179, 255, 253)) == (211, 137, 90)
    ensures Convertible(BT601, 211, 137, 90) && RgbOf(BT601, 211, 137, 90).r == 179 - 12
  {
    Coefficients();
    hide V, ToYuv, ToRgb;
  }
}
