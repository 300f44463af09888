/** Conversion of whole images, block by block (src/driver/camera/pinephone/yuv_rgb_std_func.h). */
module YuvImages {
  import opened YuvPixels

  type Byte = x: int | 0 <= x < 256

  /** How samples are laid out: distance between the luma samples of neighbouring pixels, distance
      between the chroma samples of neighbouring pixel pairs, and rows that share a chroma sample. */
  datatype Layout = Layout(yStep: nat, uvStep: nat, uvRows: nat)

  const YUV420 := Layout(1, 1, 2)
  const YUV422 := Layout(2, 4, 1)
  const NV12 := Layout(1, 2, 2)

  datatype Format = RGB565 | RGB24 | RGBA | BGRA | ARGB | ABGR

  function PixelSize(f: Format): (n: nat)
    ensures 2 <= n <= 4
  {
    match f case RGB565 => 2 case RGB24 => 3 case _ => 4
  }

  /** The bytes of a pixel in memory; words are stored with the least significant byte first. */
  function PixelBytes(f: Format, c: Rgb): (bytes: seq<Byte>)
    requires Valid(c)
    ensures |bytes| == PixelSize(f)
  {
    match f
    case RGB565 =>
      var word := c.r / 8 * 2048 + c.g / 4 * 32 + c.b / 8;
      [word % 256, word / 256]
    case RGB24 => [c.r, c.g, c.b]
    case RGBA => [255, c.b, c.g, c.r]
    case BGRA => [255, c.r, c.g, c.b]
    case ARGB => [c.b, c.g, c.r, 255]
    case ABGR => [c.r, c.g, c.b, 255]
  }

  /** A conversion: the image, its samples, and where its pixels go. */
  datatype Job = Job(std: Standard, layout: Layout, format: Format, width: nat, height: nat,
                     ys: seq<Byte>, us: seq<Byte>, vs: seq<Byte>, yStride: nat, uvStride: nat, stride: nat)

  predicate Inside(job: Job, x: int, y: int) { 0 <= x < job.width && 0 <= y < job.height }

  function YIndex(job: Job, x: nat, y: nat): nat { y * job.yStride + x * job.layout.yStep }

  function UvIndex(job: Job, x: nat, y: nat): nat
    requires job.layout.uvRows > 0
  {
    y / job.layout.uvRows * job.uvStride + x / 2 * job.layout.uvStep
  }

  /** The buffers hold the samples of every pixel. */
  ghost predicate Sampled(job: Job) {
    && (job.layout == YUV420 || job.layout == YUV422 || job.layout == NV12)
    && forall x: nat, y: nat :: Inside(job, x, y) ==>
         YIndex(job, x, y) < |job.ys| && UvIndex(job, x, y) < |job.us| && UvIndex(job, x, y) < |job.vs|
  }

  /** Every sum stays in the range of the clamp table. */
  ghost predicate InRange(job: Job)
    requires Sampled(job)
  {
    forall x: nat, y: nat :: Inside(job, x, y) ==>
      Convertible(job.std, job.ys[YIndex(job, x, y)], job.us[UvIndex(job, x, y)], job.vs[UvIndex(job, x, y)])
  }

  ghost predicate Ready(job: Job, size: nat) {
    && 0 < job.width && 0 < job.height && Sampled(job) && InRange(job)
    && job.width * PixelSize(job.format) <= job.stride
    && (job.height - 1) * job.stride + job.width * PixelSize(job.format) <= size
  }

  const BLACK_PIXEL := Job(T871, YUV420, RGB24, 1, 1, [0], [128], [128], 1, 1, 3)

  lemma BlackPixelIndices(x: nat, y: nat)
    requires Inside(BLACK_PIXEL, x, y)
    ensures YIndex(BLACK_PIXEL, x, y) == 0 && UvIndex(BLACK_PIXEL, x, y) == 0
  {
    assert x == 0 && y == 0;
  }

  lemma BlackIsConvertible()
    ensures Convertible(T871, 0, 128, 128)
  {
    hide V, ToRgb, ToYuv, Sums, InTable, Luma, ChromaU, ChromaV;
    SumsT871(Rgb(0, 0, 0), 0, 128, 128);
    var s := Sums(T871, 0, 128, 128);
    ClampIsCorrect(s.r);
    ClampIsCorrect(s.g);
    ClampIsCorrect(s.b);
  }

  /** A single black pixel, for instance. */
  lemma BlackPixelIsReady()
    ensures Ready(BLACK_PIXEL, 3)
  {
    hide Convertible, YIndex, UvIndex, Inside;
    BlackIsConvertible();
    forall x: nat, y: nat | Inside(BLACK_PIXEL, x, y)
      ensures YIndex(BLACK_PIXEL, x, y) == 0 && UvIndex(BLACK_PIXEL, x, y) == 0
    {
      BlackPixelIndices(x, y);
    }
  }

  /** The pixel that the conversion is to yield: its own luma with the chroma that it shares. */
  ghost function PixelAt(job: Job, x: nat, y: nat): (c: Rgb)
    requires Sampled(job) && InRange(job) && Inside(job, x, y)
    ensures Valid(c)
  {
    RgbOf(job.std, job.ys[YIndex(job, x, y)], job.us[UvIndex(job, x, y)], job.vs[UvIndex(job, x, y)])
  }

  // ---- addresses of the pixels ----

  function RgbIndex(job: Job, x: nat, y: nat): nat { y * job.stride + x * PixelSize(job.format) }

  /** Row, column and byte within the pixel of the byte at index `i`. Columns from the width on are
      padding. */
  function RowOf(job: Job, i: nat): nat
    requires job.stride > 0
  {
    i / job.stride
  }

  function ColumnOf(job: Job, i: nat): nat
    requires job.stride > 0
  {
    i % job.stride / PixelSize(job.format)
  }

  function PartOf(job: Job, i: nat): (k: nat)
    requires job.stride > 0
    ensures k < PixelSize(job.format)
  {
    i % job.stride % PixelSize(job.format)
  }

  lemma MulMono(a: nat, b: nat, c: nat)
    requires a <= b
    ensures a * c <= b * c
  {
    assert (b - a) * c >= 0;
    assert (b - a) * c == b * c - a * c;
  }

  lemma MulCancel(a: nat, b: nat, c: nat)
    requires a * c < b * c
    ensures a < b
  {
    if b <= a {
      MulMono(b, a, c);
    }
  }

  lemma MulNext(a: nat, b: nat, c: nat)
    requires a < b
    ensures a * c + c <= b * c
  {
    MulMono(a + 1, b, c);
    assert (a + 1) * c == a * c + c;
  }

  /** A number below `d` and its multiple of `d` can be told apart. */
  lemma DivMod(q: nat, d: nat, r: nat)
    requires r < d
    ensures (q * d + r) / d == q && (q * d + r) % d == r
  {
    var n := q * d + r;
    var q', r' := n / d, n % d;
    assert n == q' * d + r';
    if q' < q {
      MulNext(q', q, d);
    } else if q < q' {
      MulNext(q, q', d);
    }
  }

  /** The pixel lies inside its row, and the row inside the buffer. */
  lemma PixelInRange(job: Job, x: nat, y: nat, size: nat)
    requires Ready(job, size) && Inside(job, x, y)
    ensures job.stride > 0 && x * PixelSize(job.format) + PixelSize(job.format) <= job.stride
    ensures RgbIndex(job, x, y) + PixelSize(job.format) <= size
  {
    var p, s := PixelSize(job.format), job.stride;
    hide Sampled, InRange, PixelSize;
    MulNext(x, job.width, p);
    MulMono(y, job.height - 1, s);
  }

  /** The bytes of pixel (x, y) are those from its index on. */
  lemma PixelLocated(job: Job, x: nat, y: nat, i: nat)
    requires job.stride > 0 && x * PixelSize(job.format) + PixelSize(job.format) <= job.stride
    ensures RgbIndex(job, x, y) <= i < RgbIndex(job, x, y) + PixelSize(job.format) ==>
              RowOf(job, i) == y && ColumnOf(job, i) == x && PartOf(job, i) == i - RgbIndex(job, x, y)
    ensures RowOf(job, i) == y && ColumnOf(job, i) == x ==>
              RgbIndex(job, x, y) <= i < RgbIndex(job, x, y) + PixelSize(job.format)
  {
    var p, s, base := PixelSize(job.format), job.stride, RgbIndex(job, x, y);
    hide PixelSize;
    if base <= i < base + p {
      var k := i - base;
      DivMod(y, s, x * p + k);
      DivMod(x, p, k);
      assert i == y * s + (x * p + k);
    }
    if RowOf(job, i) == y && ColumnOf(job, i) == x {
      var o := i % s;
      assert i == i / s * s + o && o == o / p * p + o % p;
    }
  }

  // ---- how much of the image is done ----

  /** All rows above `y` are done, `c1` columns of row `y` and `c2` columns of the next one. */
  predicate Done(x: int, row: int, y: int, c1: int, c2: int) {
    row < y || (row == y && x < c1) || (row == y + 1 && x < c2)
  }

  ghost function ByteAt(job: Job, i: nat): Byte
    requires Sampled(job) && InRange(job) && job.stride > 0 && Inside(job, ColumnOf(job, i), RowOf(job, i))
  {
    PixelBytes(job.format, PixelAt(job, ColumnOf(job, i), RowOf(job, i)))[PartOf(job, i)]
  }

  /** The done pixels hold their colours, everything else is as before. */
  ghost predicate Painted(job: Job, was: seq<Byte>, now: seq<Byte>, y: nat, c1: nat, c2: nat)
    requires Ready(job, |was|) && job.stride > 0
  {
    && |now| == |was|
    && forall i :: 0 <= i < |was| ==>
         now[i] == if Inside(job, ColumnOf(job, i), RowOf(job, i)) && Done(ColumnOf(job, i), RowOf(job, i), y, c1, c2)
                   then ByteAt(job, i) else was[i]
  }

  /** The result of a conversion. */
  ghost predicate Converted(job: Job, was: seq<Byte>, now: seq<Byte>)
    requires Ready(job, |was|)
  {
    && |now| == |was| && job.stride > 0
    && forall i :: 0 <= i < |was| ==>
         now[i] == if Inside(job, ColumnOf(job, i), RowOf(job, i)) then ByteAt(job, i) else was[i]
  }

  // ---- the conversion ----

  /** Store a pixel. */
  method PackPixel(out: array<Byte>, f: Format, ptr: nat, c: Rgb)
    requires Valid(c) && ptr + PixelSize(f) <= out.Length
    modifies out
    ensures forall i :: 0 <= i < out.Length ==>
              out[i] == if ptr <= i < ptr + PixelSize(f) then PixelBytes(f, c)[i - ptr] else old(out[i])
  {
    var bytes := PixelBytes(f, c);
    for k := 0 to |bytes|
      invariant forall i :: 0 <= i < out.Length ==>
                  out[i] == if ptr <= i < ptr + k then bytes[i - ptr] else old(out[i])
    {
      out[ptr + k] := bytes[k];
    }
  }

  /** Storing the next pixel of the first or the second row of a strip. */
  lemma PaintedNext(job: Job, was: seq<Byte>, before: seq<Byte>, now: seq<Byte>, y: nat, c1: nat, c2: nat, second: bool)
    requires Ready(job, |was|) && job.stride > 0
    requires Painted(job, was, before, y, c1, c2) && |now| == |was|
    requires var x := if second then c2 else c1;
             var row := if second then y + 1 else y;
             && Inside(job, x, row)
             && forall i :: 0 <= i < |was| ==>
                  now[i] == if RgbIndex(job, x, row) <= i < RgbIndex(job, x, row) + PixelSize(job.format)
                            then PixelBytes(job.format, PixelAt(job, x, row))[i - RgbIndex(job, x, row)] else before[i]
    ensures if second then Painted(job, was, now, y, c1, c2 + 1) else Painted(job, was, now, y, c1 + 1, c2)
  {
    var x := if second then c2 else c1;
    var row := if second then y + 1 else y;
    PixelInRange(job, x, row, |was|);
    forall i | 0 <= i < |was|
      ensures now[i] == if RowOf(job, i) == row && ColumnOf(job, i) == x then ByteAt(job, i) else before[i]
    {
      PixelLocated(job, x, row, i);
      hide PixelBytes, PixelSize, RgbOf, Sampled, InRange;
    }
    hide ByteAt, PixelBytes, PixelSize, RgbOf, RowOf, ColumnOf, RgbIndex, Sampled, InRange;
  }

  /** A finished strip. */
  lemma PaintedStrip(job: Job, was: seq<Byte>, now: seq<Byte>, y: nat, two: bool)
    requires Ready(job, |was|) && job.stride > 0
    requires Painted(job, was, now, y, job.width, if two then job.width else 0)
    ensures Painted(job, was, now, if two then y + 2 else y + 1, 0, 0)
  {
    hide ByteAt, PixelBytes, PixelSize, RowOf, ColumnOf, Sampled, InRange;
  }

  // ---- the loops ----

  /** What the chroma of a pixel contributes to its sums. */
  function Contribution(std: Standard, u: int, v: int): Rgb {
    var p := ToRgb(std);
    Rgb((v - 128) * p.vr, (u - 128) * p.ug + (v - 128) * p.vg, (u - 128) * p.ub)
  }

  lemma StepRight(job: Job, x: nat, y: nat)
    ensures YIndex(job, x + 1, y) == YIndex(job, x, y) + job.layout.yStep
    ensures RgbIndex(job, x + 1, y) == RgbIndex(job, x, y) + PixelSize(job.format)
  {
    assert (x + 1) * job.layout.yStep == x * job.layout.yStep + job.layout.yStep;
    assert (x + 1) * PixelSize(job.format) == x * PixelSize(job.format) + PixelSize(job.format);
  }

  /** A pair of pixels shares its chroma sample, also with the row below if the layout says so. */
  lemma SharedChroma(job: Job, x: nat, y: nat)
    requires x % 2 == 0 && job.layout.uvRows > 0
    ensures UvIndex(job, x + 1, y) == UvIndex(job, x, y)
    ensures UvIndex(job, x + 2, y) == UvIndex(job, x, y) + job.layout.uvStep
    ensures job.layout.uvRows == 2 && y % 2 == 0 ==> UvIndex(job, x, y + 1) == UvIndex(job, x, y)
  {
    assert (x + 1) / 2 == x / 2 && (x + 2) / 2 == x / 2 + 1;
    assert (x / 2 + 1) * job.layout.uvStep == x / 2 * job.layout.uvStep + job.layout.uvStep;
    if job.layout.uvRows == 2 && y % 2 == 0 {
      assert (y + 1) / 2 == y / 2;
    }
  }

  /** Compute and store the next pixel of a strip. */
  method PaintPixel(job: Job, out: array<Byte>, ghost was: seq<Byte>, ghost y: nat, ghost c1: nat, ghost c2: nat,
                    ghost second: bool, rgbPtr: nat, luma: int, t: Rgb) returns (rgbPtr': nat)
    requires Ready(job, |was|) && job.stride > 0 && Painted(job, was, out[..], y, c1, c2)
    requires var x := if second then c2 else c1;
             var row := if second then y + 1 else y;
             && Inside(job, x, row) && rgbPtr == RgbIndex(job, x, row)
             && luma == job.ys[YIndex(job, x, row)]
             && t == Contribution(job.std, job.us[UvIndex(job, x, row)], job.vs[UvIndex(job, x, row)])
    modifies out
    ensures if second then Painted(job, was, out[..], y, c1, c2 + 1) else Painted(job, was, out[..], y, c1 + 1, c2)
    ensures rgbPtr' == rgbPtr + PixelSize(job.format)
  {
    ghost var x := if second then c2 else c1;
    ghost var row := if second then y + 1 else y;
    ghost var before := out[..];
    PixelInRange(job, x, row, |was|);
    assert Convertible(job.std, luma, job.us[UvIndex(job, x, row)], job.vs[UvIndex(job, x, row)]);
    var p := ToRgb(job.std);
    var yTmp := (luma - p.yShift) * p.y;
    hide ToRgb, PixelBytes, PixelSize, InTable, Sampled, InRange, RgbIndex;
    var c := Rgb(ClampU8(yTmp + t.r), ClampU8(yTmp + t.g), ClampU8(yTmp + t.b));
    assert c == PixelAt(job, x, row);
    hide PixelAt, ClampU8, Painted;
    PackPixel(out, job.format, rgbPtr, c);
    PaintedNext(job, was, before, out[..], y, c1, c2, second);
    rgbPtr' := rgbPtr + PixelSize(job.format);
  }

  /** Pointers into the row at `y`, with `x` columns done. */
  ghost predicate Points(job: Job, x: nat, y: nat, yPtr: nat, rgbPtr: nat) {
    yPtr == YIndex(job, x, y) && rgbPtr == RgbIndex(job, x, y)
  }

  ghost predicate UvPoints(job: Job, x: nat, y: nat, uvPtr: nat) {
    job.layout.uvRows > 0 && uvPtr == UvIndex(job, x, y)
  }

  /** A strip of two rows shares its chroma samples. */
  ghost predicate Strip(job: Job, y: nat, two: bool) {
    && 0 < job.layout.uvRows <= 2 && (job.layout.uvRows == 2 ==> y % 2 == 0)
    && y < job.height && (two ==> job.layout.uvRows == 2 && y + 1 < job.height)
  }

  /** Convert a strip of one or two rows. */
  method ConvertStrip(job: Job, out: array<Byte>, ghost was: seq<Byte>, y: nat, two: bool)
    requires Ready(job, |was|) && job.stride > 0 && Strip(job, y, two)
    requires Painted(job, was, out[..], y, 0, 0)
    modifies out
    ensures Painted(job, was, out[..], if two then y + 2 else y + 1, 0, 0)
  {
    hide Ready, Painted, Points, UvPoints, PixelSize;
    var yPtr1: nat, yPtr2: nat := y * job.yStride, (y + 1) * job.yStride;
    var uvPtr: nat := y / job.layout.uvRows * job.uvStride;
    var rgbPtr1: nat, rgbPtr2: nat := y * job.stride, (y + 1) * job.stride;
    var x := 0;
    PointsAtStart(job, y);
    while x + 1 < job.width
      invariant x % 2 == 0 && x <= job.width
      invariant Points(job, x, y, yPtr1, rgbPtr1) && UvPoints(job, x, y, uvPtr)
      invariant two ==> Points(job, x, y + 1, yPtr2, rgbPtr2)
      invariant Painted(job, was, out[..], y, x, if two then x else 0)
    {
      PointsNext(job, x, y, yPtr1, rgbPtr1);
      UvPointsNext(job, x, y, uvPtr);
      rgbPtr1 := PaintPair(job, out, was, y, x, if two then x else 0, false, yPtr1, uvPtr, rgbPtr1);
      if two {
        PointsNext(job, x, y + 1, yPtr2, rgbPtr2);
        rgbPtr2 := PaintPair(job, out, was, y, x + 2, x, true, yPtr2, uvPtr, rgbPtr2);
      }
      yPtr1, yPtr2, uvPtr := yPtr1 + 2 * job.layout.yStep, yPtr2 + 2 * job.layout.yStep, uvPtr + job.layout.uvStep;
      x := x + 2;
    }
    if x == job.width - 1 {
      PaintSingle(job, out, was, y, x, if two then x else 0, false, yPtr1, uvPtr, rgbPtr1);
      if two {
        PaintSingle(job, out, was, y, x + 1, x, true, yPtr2, uvPtr, rgbPtr2);
      }
    }
    PaintedStrip(job, was, out[..], y, two);
  }

  lemma PointsAtStart(job: Job, y: nat)
    requires job.layout.uvRows > 0
    ensures Points(job, 0, y, y * job.yStride, y * job.stride)
    ensures Points(job, 0, y + 1, (y + 1) * job.yStride, (y + 1) * job.stride)
    ensures UvPoints(job, 0, y, y / job.layout.uvRows * job.uvStride)
  {
    hide PixelSize;
  }

  lemma UvPointsNext(job: Job, x: nat, y: nat, uvPtr: nat)
    requires x % 2 == 0 && UvPoints(job, x, y, uvPtr)
    ensures UvPoints(job, x + 2, y, uvPtr + job.layout.uvStep)
  {
    SharedChroma(job, x, y);
  }

  lemma PointsNext(job: Job, x: nat, y: nat, yPtr: nat, rgbPtr: nat)
    requires Points(job, x, y, yPtr, rgbPtr)
    ensures Points(job, x + 2, y, yPtr + 2 * job.layout.yStep, rgbPtr + 2 * PixelSize(job.format))
  {
    hide PixelSize;
    StepRight(job, x, y);
    StepRight(job, x + 1, y);
    hide YIndex, RgbIndex;
  }

  /** Two neighbouring pixels with the same chroma sample. */
  method PaintPair(job: Job, out: array<Byte>, ghost was: seq<Byte>, ghost y: nat, ghost c1: nat, ghost c2: nat,
                   ghost second: bool, yPtr: nat, uvPtr: nat, rgbPtr: nat) returns (rgbPtr': nat)
    requires Ready(job, |was|) && job.stride > 0 && Painted(job, was, out[..], y, c1, c2) && Strip(job, y, second)
    requires var x := if second then c2 else c1;
             var row := if second then y + 1 else y;
             && x % 2 == 0 && Inside(job, x + 1, row)
             && Points(job, x, row, yPtr, rgbPtr) && UvPoints(job, x, y, uvPtr)
    modifies out
    ensures if second then Painted(job, was, out[..], y, c1, c2 + 2) else Painted(job, was, out[..], y, c1 + 2, c2)
    ensures rgbPtr' == rgbPtr + 2 * PixelSize(job.format)
  {
    ghost var x := if second then c2 else c1;
    ghost var row := if second then y + 1 else y;
    SharedChroma(job, x, y);
    SharedChroma(job, x, row);
    StepRight(job, x, row);
    assert Inside(job, x, row);
    hide PixelAt, PixelSize, Painted, InRange, YIndex, UvIndex, RgbIndex, Contribution;
    var t := Contribution(job.std, job.us[uvPtr], job.vs[uvPtr]);
    rgbPtr' := PaintPixel(job, out, was, y, c1, c2, second, rgbPtr, job.ys[yPtr], t);
    rgbPtr' := PaintPixel(job, out, was, y, if second then c1 else c1 + 1, if second then c2 + 1 else c2, second,
                          rgbPtr', job.ys[yPtr + job.layout.yStep], t);
  }

  /** The last pixel of a row of odd width. */
  method PaintSingle(job: Job, out: array<Byte>, ghost was: seq<Byte>, ghost y: nat, ghost c1: nat, ghost c2: nat,
                     ghost second: bool, yPtr: nat, uvPtr: nat, rgbPtr: nat)
    requires Ready(job, |was|) && job.stride > 0 && Painted(job, was, out[..], y, c1, c2) && Strip(job, y, second)
    requires var x := if second then c2 else c1;
             var row := if second then y + 1 else y;
             && x % 2 == 0 && Inside(job, x, row)
             && Points(job, x, row, yPtr, rgbPtr) && UvPoints(job, x, y, uvPtr)
    modifies out
    ensures if second then Painted(job, was, out[..], y, c1, c2 + 1) else Painted(job, was, out[..], y, c1 + 1, c2)
  {
    ghost var x := if second then c2 else c1;
    SharedChroma(job, x, y);
    hide PixelAt, PixelSize, Painted, InRange, YIndex, UvIndex, RgbIndex, Contribution;
    var t := Contribution(job.std, job.us[uvPtr], job.vs[uvPtr]);
    var _ := PaintPixel(job, out, was, y, c1, c2, second, rgbPtr, job.ys[yPtr], t);
  }

  /** Convert an image: strips of as many rows as share a chroma sample, and a last single row if
      the height is odd. Every pixel of the image gets its colour, and all bytes outside of the
      image are left alone. */
  method Convert(job: Job, out: array<Byte>)
    requires Ready(job, out.Length)
    modifies out
    ensures Converted(job, old(out[..]), out[..])
  {
    hide Ready, Painted, Converted;
    ghost var was := out[..];
    NothingPainted(job, was);
    var rows := job.layout.uvRows;
    var y := 0;
    while y + (rows - 1) < job.height
      invariant y <= job.height && (rows == 2 ==> y % 2 == 0)
      invariant Painted(job, was, out[..], y, 0, 0)
    {
      ConvertStrip(job, out, was, y, rows == 2);
      y := y + rows;
    }
    if rows == 2 && y == job.height - 1 {
      ConvertStrip(job, out, was, y, false);
      y := y + 1;
    }
    AllPainted(job, was, out[..]);
  }

  lemma NothingPainted(job: Job, was: seq<Byte>)
    requires Ready(job, |was|)
    ensures job.stride > 0 && (job.layout.uvRows == 1 || job.layout.uvRows == 2)
    ensures Painted(job, was, was, 0, 0, 0)
  {
    PixelInRange(job, 0, 0, |was|);
    hide ByteAt, PixelSize, RowOf, ColumnOf, Sampled, InRange;
  }

  lemma AllPainted(job: Job, was: seq<Byte>, now: seq<Byte>)
    requires Ready(job, |was|) && job.stride > 0 && Painted(job, was, now, job.height, 0, 0)
    ensures Converted(job, was, now)
  {
    hide ByteAt, PixelSize, RowOf, ColumnOf, Sampled, InRange;
  }

  /** Read by pixels: wherever the pixel lies, its bytes are those of its colour, whether or not it
      is in the last column or row of an odd image. */
  lemma EveryPixelIsConverted(job: Job, was: seq<Byte>, now: seq<Byte>, x: nat, y: nat)
    requires Ready(job, |was|) && Converted(job, was, now) && Inside(job, x, y)
    ensures var at := RgbIndex(job, x, y);
            && at + PixelSize(job.format) <= |now|
            && now[at..at + PixelSize(job.format)] == PixelBytes(job.format, PixelAt(job, x, y))
  {
    hide PixelBytes, PixelSize, Sampled, InRange, RgbOf, RgbIndex;
    PixelInRange(job, x, y, |was|);
    var at := RgbIndex(job, x, y);
    forall k | 0 <= k < PixelSize(job.format)
      ensures now[at + k] == PixelBytes(job.format, PixelAt(job, x, y))[k]
    {
      PixelLocated(job, x, y, at + k);
    }
  }

  /** Bytes behind the width of a row, and behind the last row, are left alone. */
  lemma PaddingIsKept(job: Job, was: seq<Byte>, now: seq<Byte>, i: nat)
    requires Ready(job, |was|) && Converted(job, was, now) && i < |was|
    requires i % job.stride >= job.width * PixelSize(job.format) || i / job.stride >= job.height
    ensures now[i] == was[i]
  {
    var o, p := i % job.stride, PixelSize(job.format);
    hide PixelSize, Sampled, InRange;
    var q := o / p;
    assert o < q * p + p == (q + 1) * p;
    if o >= job.width * p {
      MulCancel(job.width, q + 1, p);
    }
  }

  // ---- the result in numbers ----

  /** The value of a byte whose sum in units of 1/64 is `sum`. */
  predicate IsClamped(value: int, sum: int) {
    if sum < 0 then value == 0 else if sum >= 256 * 64 then value == 255 else 64 * value <= sum < 64 * value + 64
  }

  /** The colour that a standard assigns to the samples. */
  predicate IsColour(std: Standard, y: int, u: int, v: int, c: Rgb) {
    match std
    case T871 =>
      && IsClamped(c.r, y * 64 + (v - 128) * 90)
      && IsClamped(c.g, y * 64 + ((u - 128) * -22 + (v - 128) * -46))
      && IsClamped(c.b, y * 64 + (u - 128) * 113)
    case BT601 =>
      && IsClamped(c.r, (y - 16) * 75 + (v - 128) * 102)
      && IsClamped(c.g, (y - 16) * 75 + ((u - 128) * -25 + (v - 128) * -52))
      && IsClamped(c.b, (y - 16) * 75 + (u - 128) * 129)
    case BT709 =>
      && IsClamped(c.r, (y - 16) * 75 + (v - 128) * 115)
      && IsClamped(c.g, (y - 16) * 75 + ((u - 128) * -14 + (v - 128) * -34))
      && IsClamped(c.b, (y - 16) * 75 + (u - 128) * 135)
  }

  lemma ClampedMeans(v: int)
    requires InTable(v)
    ensures IsClamped(ClampU8(v), v)
  {
  }

  lemma ColourT871(y: int, u: int, v: int)
    requires Convertible(T871, y, u, v)
    ensures IsColour(T871, y, u, v, RgbOf(T871, y, u, v))
  {
    hide Sums, V, ToYuv, ToRgb, InTable, ClampU8, IsClamped, YSum, ChromaU, ChromaV;
    var s := Sums(T871, y, u, v);
    ClampedMeans(s.r);
    ClampedMeans(s.g);
    ClampedMeans(s.b);
    SumsT871(Rgb(0, 0, 0), y, u, v);
  }

  lemma ColourBT601(y: int, u: int, v: int)
    requires Convertible(BT601, y, u, v)
    ensures IsColour(BT601, y, u, v, RgbOf(BT601, y, u, v))
  {
    hide Sums, V, ToYuv, ToRgb, InTable, ClampU8, IsClamped, YSum, ChromaU, ChromaV;
    var s := Sums(BT601, y, u, v);
    ClampedMeans(s.r);
    ClampedMeans(s.g);
    ClampedMeans(s.b);
    SumsBT601(Rgb(0, 0, 0), y, u, v);
  }

  lemma ColourBT709(y: int, u: int, v: int)
    requires Convertible(BT709, y, u, v)
    ensures IsColour(BT709, y, u, v, RgbOf(BT709, y, u, v))
  {
    hide Sums, V, ToYuv, ToRgb, InTable, ClampU8, IsClamped, YSum, ChromaU, ChromaV;
    var s := Sums(BT709, y, u, v);
    ClampedMeans(s.r);
    ClampedMeans(s.g);
    ClampedMeans(s.b);
    SumsBT709(Rgb(0, 0, 0), y, u, v);
  }

  lemma ColourMeans(std: Standard, y: int, u: int, v: int)
    requires Convertible(std, y, u, v)
    ensures IsColour(std, y, u, v, RgbOf(std, y, u, v))
  {
    hide IsColour, RgbOf, Convertible;
    match std
    case T871 => ColourT871(y, u, v);
    case BT601 => ColourBT601(y, u, v);
    case BT709 => ColourBT709(y, u, v);
  }

  function Word16(bytes: seq<int>): int
    requires |bytes| == 2
  {
    bytes[0] + 0x100 * bytes[1]
  }

  function Word32(bytes: seq<int>): int
    requires |bytes| == 4
  {
    bytes[0] + 0x100 * bytes[1] + 0x10000 * bytes[2] + 0x1000000 * bytes[3]
  }

  /** The bytes hold the colour in the given format: as a word, or byte by byte. */
  predicate IsPacked(f: Format, c: Rgb, bytes: seq<Byte>) {
    match f
    case RGB565 => |bytes| == 2 && Word16(bytes) == 0x800 * (c.r / 8) + 0x20 * (c.g / 4) + c.b / 8
    case RGB24 => |bytes| == 3 && bytes[0] == c.r && bytes[1] == c.g && bytes[2] == c.b
    case RGBA => |bytes| == 4 && Word32(bytes) == 0x1000000 * c.r + 0x10000 * c.g + 0x100 * c.b + 0xff
    case BGRA => |bytes| == 4 && Word32(bytes) == 0x1000000 * c.b + 0x10000 * c.g + 0x100 * c.r + 0xff
    case ARGB => |bytes| == 4 && Word32(bytes) == 0xff000000 + 0x10000 * c.r + 0x100 * c.g + c.b
    case ABGR => |bytes| == 4 && Word32(bytes) == 0xff000000 + 0x10000 * c.b + 0x100 * c.g + c.r
  }

  lemma PixelBytesArePacked(f: Format, c: Rgb)
    requires Valid(c)
    ensures IsPacked(f, c, PixelBytes(f, c))
  {
  }

  /** Where the samples of a pixel are: planar, interleaved with the luma, or as pairs. */
  predicate AreSamplesOf(job: Job, x: nat, y: nat, at: nat, chroma: nat) {
    && (job.layout == YUV420 ==> at == y * job.yStride + x && chroma == y / 2 * job.uvStride + x / 2)
    && (job.layout == YUV422 ==> at == y * job.yStride + 2 * x && chroma == y * job.uvStride + 4 * (x / 2))
    && (job.layout == NV12 ==> at == y * job.yStride + x && chroma == y / 2 * job.uvStride + 2 * (x / 2))
  }

  lemma SamplesAreWhere(job: Job, x: nat, y: nat)
    requires Sampled(job) && Inside(job, x, y)
    ensures AreSamplesOf(job, x, y, YIndex(job, x, y), UvIndex(job, x, y))
  {
    hide Sampled;
    assert job.layout == YUV420 || job.layout == YUV422 || job.layout == NV12 by { LayoutIsKnown(job); }
    assert y / 1 == y && x * 1 == x && x * 2 == 2 * x && x / 2 * 1 == x / 2;
  }

  lemma LayoutIsKnown(job: Job)
    requires Sampled(job)
    ensures job.layout == YUV420 || job.layout == YUV422 || job.layout == NV12
  {
  }

  lemma PixelIsColour(job: Job, x: nat, y: nat) returns (at: nat, chroma: nat)
    requires Sampled(job) && InRange(job) && Inside(job, x, y)
    ensures AreSamplesOf(job, x, y, at, chroma) && at < |job.ys| && chroma < |job.us| && chroma < |job.vs|
    ensures IsColour(job.std, job.ys[at], job.us[chroma], job.vs[chroma], PixelAt(job, x, y))
  {
    hide Convertible, RgbOf, IsColour, YIndex, UvIndex, AreSamplesOf;
    at, chroma := YIndex(job, x, y), UvIndex(job, x, y);
    SamplesAreWhere(job, x, y);
    ColourMeans(job.std, job.ys[at], job.us[chroma], job.vs[chroma]);
  }

  /** A pixel takes two, three or four bytes, next to its neighbours in the row. */
  predicate IsPlaceOf(job: Job, x: nat, y: nat, place: nat, size: nat) {
    && size == (if job.format == RGB565 then 2 else if job.format == RGB24 then 3 else 4)
    && place == y * job.stride + x * size
  }

  lemma PixelIsAt(job: Job, x: nat, y: nat)
    ensures IsPlaceOf(job, x, y, RgbIndex(job, x, y), PixelSize(job.format))
  {
  }

  /** The converted image in numbers: at its place, every pixel holds the word of the colour that the
      standard assigns to its luma sample and the chroma samples it shares. */
  lemma EveryPixelIsPacked(job: Job, was: seq<Byte>, now: seq<Byte>, x: nat, y: nat)
    returns (c: Rgb, at: nat, chroma: nat, place: nat, size: nat)
    requires Ready(job, |was|) && Converted(job, was, now) && Inside(job, x, y)
    ensures AreSamplesOf(job, x, y, at, chroma) && at < |job.ys| && chroma < |job.us| && chroma < |job.vs|
    ensures IsColour(job.std, job.ys[at], job.us[chroma], job.vs[chroma], c)
    ensures IsPlaceOf(job, x, y, place, size) && place + size <= |now|
    ensures IsPacked(job.format, c, now[place..place + size])
  {
    hide Sampled, InRange, Converted, Convertible, PixelBytes, PixelSize, RgbIndex, PixelAt, IsColour, IsPacked,
         AreSamplesOf, IsPlaceOf;
    at, chroma := PixelIsColour(job, x, y);
    c, place, size := PixelAt(job, x, y), RgbIndex(job, x, y), PixelSize(job.format);
    EveryPixelIsConverted(job, was, now, x, y);
    PixelBytesArePacked(job.format, c);
    PixelIsAt(job, x, y);
  }
}
