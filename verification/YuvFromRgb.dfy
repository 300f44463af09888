/** Conversion of RGB images to planar YUV with shared chroma samples
    (src/driver/camera/pinephone/yuv_rgb.c). */
module YuvFromRgb {
  import opened YuvPixels
  import opened YuvImages

  datatype Picture = Picture(std: Standard, width: nat, height: nat, rgb: seq<Byte>, rgbStride: nat,
                             yStride: nat, uvStride: nat)

  /** The conversion works on blocks of two by two pixels and leaves out an odd column or row. */
  function EvenWidth(p: Picture): nat { p.width / 2 * 2 }

  function EvenHeight(p: Picture): nat { p.height / 2 * 2 }

  predicate InBlocks(p: Picture, x: int, y: int) { 0 <= x < EvenWidth(p) && 0 <= y < EvenHeight(p) }

  function RgbPtr(p: Picture, x: nat, y: nat): nat { y * p.rgbStride + 3 * x }

  /** The buffer holds every pixel of the blocks. */
  ghost predicate HasPixels(p: Picture) {
    forall x: nat, y: nat :: InBlocks(p, x, y) ==> RgbPtr(p, x, y) + 2 < |p.rgb|
  }

  ghost function ColourAt(p: Picture, x: nat, y: nat): (c: Rgb)
    requires HasPixels(p) && InBlocks(p, x, y)
    ensures Valid(c)
  {
    var i := RgbPtr(p, x, y);
    Rgb(p.rgb[i], p.rgb[i + 1], p.rgb[i + 2])
  }

  // ---- the codes ----

  ghost function YCode(p: Picture, x: nat, y: nat): Byte {
    if HasPixels(p) && InBlocks(p, x, y) then
      var c := ColourAt(p, x, y);
      RgbIsConvertible(p.std, c, c, c, c);
      ClampU8(YSum(p.std, c))
    else 0
  }

  /** Sum over the block whose chroma sample is number (x, y). */
  ghost function BlockU(p: Picture, x: nat, y: nat): int
    requires HasPixels(p) && InBlocks(p, 2 * x, 2 * y)
  {
    ChromaU(p.std, ColourAt(p, 2 * x, 2 * y)) + ChromaU(p.std, ColourAt(p, 2 * x + 1, 2 * y))
    + ChromaU(p.std, ColourAt(p, 2 * x, 2 * y + 1)) + ChromaU(p.std, ColourAt(p, 2 * x + 1, 2 * y + 1))
  }

  ghost function BlockV(p: Picture, x: nat, y: nat): int
    requires HasPixels(p) && InBlocks(p, 2 * x, 2 * y)
  {
    ChromaV(p.std, ColourAt(p, 2 * x, 2 * y)) + ChromaV(p.std, ColourAt(p, 2 * x + 1, 2 * y))
    + ChromaV(p.std, ColourAt(p, 2 * x, 2 * y + 1)) + ChromaV(p.std, ColourAt(p, 2 * x + 1, 2 * y + 1))
  }

  lemma BlockInTable(p: Picture, x: nat, y: nat)
    requires HasPixels(p) && InBlocks(p, 2 * x, 2 * y)
    ensures InTable(UVSum(BlockU(p, x, y))) && InTable(UVSum(BlockV(p, x, y)))
  {
    RgbIsConvertible(p.std, ColourAt(p, 2 * x, 2 * y), ColourAt(p, 2 * x + 1, 2 * y),
                     ColourAt(p, 2 * x, 2 * y + 1), ColourAt(p, 2 * x + 1, 2 * y + 1));
  }

  ghost function UCode(p: Picture, x: nat, y: nat): Byte {
    if HasPixels(p) && InBlocks(p, 2 * x, 2 * y) then
      BlockInTable(p, x, y);
      ClampU8(UVSum(BlockU(p, x, y)))
    else 0
  }

  ghost function VCode(p: Picture, x: nat, y: nat): Byte {
    if HasPixels(p) && InBlocks(p, 2 * x, 2 * y) then
      BlockInTable(p, x, y);
      ClampU8(UVSum(BlockV(p, x, y)))
    else 0
  }

  ghost function YCodes(p: Picture): (nat, nat) -> Byte { (x, y) => YCode(p, x, y) }

  ghost function UCodes(p: Picture): (nat, nat) -> Byte { (x, y) => UCode(p, x, y) }

  ghost function VCodes(p: Picture): (nat, nat) -> Byte { (x, y) => VCode(p, x, y) }

  // ---- planes ----

  /** A plane of `width` times `height` codes, of which all rows above `y`, `c1` columns of row `y`
      and `c2` columns of the next row were written. All other bytes are as before. */
  ghost predicate Plane(was: seq<Byte>, now: seq<Byte>, stride: nat, width: nat, code: (nat, nat) -> Byte,
                        y: nat, c1: nat, c2: nat)
    requires stride > 0
  {
    && |now| == |was|
    && forall i :: 0 <= i < |was| ==>
         now[i] == if i % stride < width && Done(i % stride, i / stride, y, c1, c2)
                   then code(i % stride, i / stride) else was[i]
  }

  ghost predicate Holds(size: nat, stride: nat, width: nat, height: nat) {
    stride > 0 && width <= stride && (height > 0 ==> (height - 1) * stride + width <= size)
  }

  lemma CellInRange(size: nat, stride: nat, width: nat, height: nat, x: nat, y: nat)
    requires Holds(size, stride, width, height) && x < width && y < height
    ensures y * stride + x < size
  {
    MulMono(y, height - 1, stride);
  }

  /** Writing the next code of the first or the second row. */
  lemma PlaneNext(was: seq<Byte>, before: seq<Byte>, stride: nat, width: nat, code: (nat, nat) -> Byte,
                  y: nat, c1: nat, c2: nat, second: bool)
    requires stride > 0 && width <= stride && Plane(was, before, stride, width, code, y, c1, c2)
    requires (if second then c2 else c1) < width
    requires (if second then (y + 1) * stride + c2 else y * stride + c1) < |was|
    ensures var at: nat := if second then (y + 1) * stride + c2 else y * stride + c1;
            var now := before[at := if second then code(c2, y + 1) else code(c1, y)];
            if second then Plane(was, now, stride, width, code, y, c1, c2 + 1)
            else Plane(was, now, stride, width, code, y, c1 + 1, c2)
  {
    var x := if second then c2 else c1;
    var row := if second then y + 1 else y;
    DivMod(row, stride, x);
    forall i: nat ensures i == row * stride + x <==> i / stride == row && i % stride == x {
      assert i == i / stride * stride + i % stride;
    }
  }

  lemma PlaneRows(was: seq<Byte>, now: seq<Byte>, stride: nat, width: nat, code: (nat, nat) -> Byte, y: nat, two: bool)
    requires stride > 0 && Plane(was, now, stride, width, code, y, width, if two then width else 0)
    ensures Plane(was, now, stride, width, code, if two then y + 2 else y + 1, 0, 0)
  {
  }

  // ---- the loops ----

  /** The planes are large enough, and distinct. */
  ghost predicate Room(p: Picture, ya: array<Byte>, ua: array<Byte>, va: array<Byte>) {
    && ya != ua && ya != va && ua != va
    && Holds(ya.Length, p.yStride, EvenWidth(p), EvenHeight(p))
    && Holds(ua.Length, p.uvStride, p.width / 2, p.height / 2)
    && Holds(va.Length, p.uvStride, p.width / 2, p.height / 2)
  }

  function ReadPixel(p: Picture, i: nat): Rgb
    requires i + 2 < |p.rgb|
  {
    Rgb(p.rgb[i], p.rgb[i + 1], p.rgb[i + 2])
  }

  /** Write the luma of the next pixel of the first or the second row. */
  method PutLuma(p: Picture, ya: array<Byte>, ghost was: seq<Byte>, ghost y: nat, ghost c1: nat, ghost c2: nat,
                 ghost second: bool, c: Rgb, yPtr: nat)
    requires HasPixels(p) && Holds(ya.Length, p.yStride, EvenWidth(p), EvenHeight(p))
    requires Plane(was, ya[..], p.yStride, EvenWidth(p), YCodes(p), y, c1, c2)
    requires var x := if second then c2 else c1;
             var row := if second then y + 1 else y;
             InBlocks(p, x, row) && c == ColourAt(p, x, row) && yPtr == row * p.yStride + x
    modifies ya
    ensures if second then Plane(was, ya[..], p.yStride, EvenWidth(p), YCodes(p), y, c1, c2 + 1)
            else Plane(was, ya[..], p.yStride, EvenWidth(p), YCodes(p), y, c1 + 1, c2)
  {
    ghost var before := ya[..];
    ghost var x := if second then c2 else c1;
    ghost var row := if second then y + 1 else y;
    RgbIsConvertible(p.std, c, c, c, c);
    CellInRange(ya.Length, p.yStride, EvenWidth(p), EvenHeight(p), x, row);
    ya[yPtr] := ClampU8(YSum(p.std, c));
    assert YCodes(p)(x, row) == ClampU8(YSum(p.std, c));
    hide Plane, YCodes, YCode, InTable, ClampU8;
    PlaneNext(was, before, p.yStride, EvenWidth(p), YCodes(p), y, c1, c2, second);
    assert ya[..] == before[yPtr := ya[yPtr]];
  }

  /** Write a chroma sample. */
  method PutChroma(pa: array<Byte>, stride: nat, width: nat, height: nat, ghost code: (nat, nat) -> Byte,
                   ghost was: seq<Byte>, ghost x: nat, ghost y: nat, ptr: nat, value: Byte)
    requires Holds(pa.Length, stride, width, height) && x < width && y < height
    requires Plane(was, pa[..], stride, width, code, y, x, 0)
    requires ptr == y * stride + x && value == code(x, y)
    modifies pa
    ensures Plane(was, pa[..], stride, width, code, y, x + 1, 0)
  {
    ghost var before := pa[..];
    CellInRange(pa.Length, stride, width, height, x, y);
    pa[ptr] := value;
    hide Plane;
    PlaneNext(was, before, stride, width, code, y, x, 0, false);
    assert pa[..] == before[ptr := value];
  }

  /** The colours of block (x, y), read at the two pointers. */
  lemma BlockColours(p: Picture, x: nat, y: nat, ptr1: nat, ptr2: nat)
    requires HasPixels(p) && InBlocks(p, 2 * x, 2 * y)
    requires ptr1 == RgbPtr(p, 2 * x, 2 * y) && ptr2 == RgbPtr(p, 2 * x, 2 * y + 1)
    ensures ptr1 + 5 < |p.rgb| && ptr2 + 5 < |p.rgb|
    ensures InBlocks(p, 2 * x + 1, 2 * y + 1) && InBlocks(p, 2 * x + 1, 2 * y) && InBlocks(p, 2 * x, 2 * y + 1)
    ensures ReadPixel(p, ptr1) == ColourAt(p, 2 * x, 2 * y) && ReadPixel(p, ptr1 + 3) == ColourAt(p, 2 * x + 1, 2 * y)
    ensures ReadPixel(p, ptr2) == ColourAt(p, 2 * x, 2 * y + 1)
            && ReadPixel(p, ptr2 + 3) == ColourAt(p, 2 * x + 1, 2 * y + 1)
  {
    assert RgbPtr(p, 2 * x + 1, 2 * y) == ptr1 + 3 && RgbPtr(p, 2 * x + 1, 2 * y + 1) == ptr2 + 3;
  }

  /** The lumas of a block. */
  method PutLumas(p: Picture, ya: array<Byte>, ghost was: seq<Byte>, ghost x: nat, ghost y: nat,
                  ptr1: nat, ptr2: nat, yPtr1: nat, yPtr2: nat)
    requires HasPixels(p) && Holds(ya.Length, p.yStride, EvenWidth(p), EvenHeight(p)) && InBlocks(p, 2 * x, 2 * y)
    requires Plane(was, ya[..], p.yStride, EvenWidth(p), YCodes(p), 2 * y, 2 * x, 2 * x)
    requires ptr1 == RgbPtr(p, 2 * x, 2 * y) && ptr2 == RgbPtr(p, 2 * x, 2 * y + 1)
    requires yPtr1 == 2 * y * p.yStride + 2 * x && yPtr2 == (2 * y + 1) * p.yStride + 2 * x
    modifies ya
    ensures Plane(was, ya[..], p.yStride, EvenWidth(p), YCodes(p), 2 * y, 2 * x + 2, 2 * x + 2)
  {
    BlockColours(p, x, y, ptr1, ptr2);
    hide Plane, YCodes, HasPixels, ColourAt, ReadPixel, RgbPtr, Holds;
    PutLuma(p, ya, was, 2 * y, 2 * x, 2 * x, false, ReadPixel(p, ptr1), yPtr1);
    PutLuma(p, ya, was, 2 * y, 2 * x + 1, 2 * x, false, ReadPixel(p, ptr1 + 3), yPtr1 + 1);
    PutLuma(p, ya, was, 2 * y, 2 * x + 2, 2 * x, true, ReadPixel(p, ptr2), yPtr2);
    PutLuma(p, ya, was, 2 * y, 2 * x + 2, 2 * x + 1, true, ReadPixel(p, ptr2 + 3), yPtr2 + 1);
  }

  /** The chroma codes of a block, from the sums over its four pixels. */
  method BlockChroma(p: Picture, ghost x: nat, ghost y: nat, ptr1: nat, ptr2: nat) returns (u: Byte, v: Byte)
    requires HasPixels(p) && InBlocks(p, 2 * x, 2 * y)
    requires ptr1 == RgbPtr(p, 2 * x, 2 * y) && ptr2 == RgbPtr(p, 2 * x, 2 * y + 1)
    ensures u == UCode(p, x, y) && v == VCode(p, x, y)
  {
    BlockColours(p, x, y, ptr1, ptr2);
    BlockInTable(p, x, y);
    hide ReadPixel, ColourAt, ChromaU, ChromaV, ClampU8, InTable, UVSum;
    var uTmp, vTmp := ChromaU(p.std, ReadPixel(p, ptr1)), ChromaV(p.std, ReadPixel(p, ptr1));
    uTmp, vTmp := uTmp + ChromaU(p.std, ReadPixel(p, ptr1 + 3)), vTmp + ChromaV(p.std, ReadPixel(p, ptr1 + 3));
    uTmp, vTmp := uTmp + ChromaU(p.std, ReadPixel(p, ptr2)), vTmp + ChromaV(p.std, ReadPixel(p, ptr2));
    uTmp, vTmp := uTmp + ChromaU(p.std, ReadPixel(p, ptr2 + 3)), vTmp + ChromaV(p.std, ReadPixel(p, ptr2 + 3));
    assert uTmp == BlockU(p, x, y) && vTmp == BlockV(p, x, y);
    u, v := ClampU8(UVSum(uTmp)), ClampU8(UVSum(vTmp));
  }

  /** What was written when `x` blocks of block row `y` are done. */
  ghost predicate Written(p: Picture, ya: array<Byte>, ua: array<Byte>, va: array<Byte>,
                          wasY: seq<Byte>, wasU: seq<Byte>, wasV: seq<Byte>, x: nat, y: nat)
    requires p.yStride > 0 && p.uvStride > 0
    reads ya, ua, va
  {
    && Plane(wasY, ya[..], p.yStride, EvenWidth(p), YCodes(p), 2 * y, 2 * x, 2 * x)
    && Plane(wasU, ua[..], p.uvStride, p.width / 2, UCodes(p), y, x, 0)
    && Plane(wasV, va[..], p.uvStride, p.width / 2, VCodes(p), y, x, 0)
  }

  /** Pointers to the block (x, y). */
  ghost predicate PointsTo(p: Picture, x: nat, y: nat, ptr1: nat, ptr2: nat, yPtr1: nat, yPtr2: nat, uvPtr: nat) {
    && ptr1 == RgbPtr(p, 2 * x, 2 * y) && ptr2 == RgbPtr(p, 2 * x, 2 * y + 1)
    && yPtr1 == 2 * y * p.yStride + 2 * x && yPtr2 == (2 * y + 1) * p.yStride + 2 * x
    && uvPtr == y * p.uvStride + x
  }

  method ConvertBlock(p: Picture, ya: array<Byte>, ua: array<Byte>, va: array<Byte>,
                      ghost wasY: seq<Byte>, ghost wasU: seq<Byte>, ghost wasV: seq<Byte>,
                      ghost x: nat, ghost y: nat, ptr1: nat, ptr2: nat, yPtr1: nat, yPtr2: nat, uvPtr: nat)
    requires HasPixels(p) && Room(p, ya, ua, va) && InBlocks(p, 2 * x, 2 * y)
    requires Written(p, ya, ua, va, wasY, wasU, wasV, x, y) && PointsTo(p, x, y, ptr1, ptr2, yPtr1, yPtr2, uvPtr)
    modifies ya, ua, va
    ensures Written(p, ya, ua, va, wasY, wasU, wasV, x + 1, y)
  {
    hide Plane, HasPixels, RgbPtr, YCodes;
    PutLumas(p, ya, wasY, x, y, ptr1, ptr2, yPtr1, yPtr2);
    var u, v := BlockChroma(p, x, y, ptr1, ptr2);
    PutChroma(ua, p.uvStride, p.width / 2, p.height / 2, UCodes(p), wasU, x, y, uvPtr, u);
    PutChroma(va, p.uvStride, p.width / 2, p.height / 2, VCodes(p), wasV, x, y, uvPtr, v);
  }

  method ConvertBlockRow(p: Picture, ya: array<Byte>, ua: array<Byte>, va: array<Byte>,
                         ghost wasY: seq<Byte>, ghost wasU: seq<Byte>, ghost wasV: seq<Byte>, y: nat)
    requires HasPixels(p) && Room(p, ya, ua, va) && 0 < p.width && 2 * y + 1 < p.height
    requires p.yStride > 0 && p.uvStride > 0
    requires Written(p, ya, ua, va, wasY, wasU, wasV, 0, y)
    modifies ya, ua, va
    ensures Written(p, ya, ua, va, wasY, wasU, wasV, 0, y + 1)
  {
    hide Plane, HasPixels, Room, Written, PointsTo, Holds;
    var ptr1: nat, ptr2: nat := 2 * y * p.rgbStride, (2 * y + 1) * p.rgbStride;
    var yPtr1: nat, yPtr2: nat := 2 * y * p.yStride, (2 * y + 1) * p.yStride;
    var uvPtr: nat := 2 * y / 2 * p.uvStride;
    var x := 0;
    ghost var k := 0;
    PointersAtStart(p, y);
    while x < p.width - 1
      invariant x == 2 * k <= EvenWidth(p)
      invariant Written(p, ya, ua, va, wasY, wasU, wasV, k, y)
      invariant PointsTo(p, k, y, ptr1, ptr2, yPtr1, yPtr2, uvPtr)
    {
      ConvertBlock(p, ya, ua, va, wasY, wasU, wasV, k, y, ptr1, ptr2, yPtr1, yPtr2, uvPtr);
      PointersNext(p, k, y, ptr1, ptr2, yPtr1, yPtr2, uvPtr);
      ptr1, ptr2 := ptr1 + 6, ptr2 + 6;
      yPtr1, yPtr2, uvPtr := yPtr1 + 2, yPtr2 + 2, uvPtr + 1;
      x, k := x + 2, k + 1;
    }
    BlockRowWritten(p, ya, ua, va, wasY, wasU, wasV, y);
  }

  lemma BlockRowWritten(p: Picture, ya: array<Byte>, ua: array<Byte>, va: array<Byte>,
                        wasY: seq<Byte>, wasU: seq<Byte>, wasV: seq<Byte>, y: nat)
    requires p.yStride > 0 && p.uvStride > 0 && Written(p, ya, ua, va, wasY, wasU, wasV, p.width / 2, y)
    ensures Written(p, ya, ua, va, wasY, wasU, wasV, 0, y + 1)
  {
    hide Plane;
    PlaneRows(wasY, ya[..], p.yStride, EvenWidth(p), YCodes(p), 2 * y, true);
    PlaneRows(wasU, ua[..], p.uvStride, p.width / 2, UCodes(p), y, false);
    PlaneRows(wasV, va[..], p.uvStride, p.width / 2, VCodes(p), y, false);
  }

  lemma PointersAtStart(p: Picture, y: nat)
    ensures PointsTo(p, 0, y, 2 * y * p.rgbStride, (2 * y + 1) * p.rgbStride,
                     2 * y * p.yStride, (2 * y + 1) * p.yStride, 2 * y / 2 * p.uvStride)
  {
  }

  lemma PointersNext(p: Picture, x: nat, y: nat, ptr1: nat, ptr2: nat, yPtr1: nat, yPtr2: nat, uvPtr: nat)
    requires PointsTo(p, x, y, ptr1, ptr2, yPtr1, yPtr2, uvPtr)
    ensures PointsTo(p, x + 1, y, ptr1 + 6, ptr2 + 6, yPtr1 + 2, yPtr2 + 2, uvPtr + 1)
  {
  }

  /** A finished plane: its codes are written, and everything else is as before. */
  ghost predicate Complete(was: seq<Byte>, now: seq<Byte>, stride: nat, width: nat, height: nat, code: (nat, nat) -> Byte)
    requires stride > 0
  {
    && |now| == |was|
    && forall i :: 0 <= i < |was| ==>
         now[i] == if i % stride < width && i / stride < height then code(i % stride, i / stride) else was[i]
  }

  /** `rgb24_yuv420_std`: every block of two by two pixels gets four lumas and one pair of chroma
      codes. An odd last column or row is left out. */
  method Convert(p: Picture, ya: array<Byte>, ua: array<Byte>, va: array<Byte>)
    requires 0 < p.width && 0 < p.height && HasPixels(p) && Room(p, ya, ua, va)
    modifies ya, ua, va
    ensures Complete(old(ya[..]), ya[..], p.yStride, EvenWidth(p), EvenHeight(p), YCodes(p))
    ensures Complete(old(ua[..]), ua[..], p.uvStride, p.width / 2, p.height / 2, UCodes(p))
    ensures Complete(old(va[..]), va[..], p.uvStride, p.width / 2, p.height / 2, VCodes(p))
  {
    hide HasPixels, Room, Written, Complete;
    ghost var wasY, wasU, wasV := ya[..], ua[..], va[..];
    var y := 0;
    ghost var k := 0;
    NothingWritten(p, ya, ua, va);
    while y < p.height - 1
      invariant y == 2 * k && k <= p.height / 2
      invariant Written(p, ya, ua, va, wasY, wasU, wasV, 0, k)
    {
      ConvertBlockRow(p, ya, ua, va, wasY, wasU, wasV, y / 2);
      y, k := y + 2, k + 1;
    }
    AllWritten(p, ya, ua, va, wasY, wasU, wasV);
  }

  lemma NothingWritten(p: Picture, ya: array<Byte>, ua: array<Byte>, va: array<Byte>)
    requires Room(p, ya, ua, va)
    ensures p.yStride > 0 && p.uvStride > 0 && Written(p, ya, ua, va, ya[..], ua[..], va[..], 0, 0)
  {
    hide Plane, YCodes, UCodes, VCodes;
    NoneWritten(ya[..], p.yStride, EvenWidth(p), YCodes(p));
    NoneWritten(ua[..], p.uvStride, p.width / 2, UCodes(p));
    NoneWritten(va[..], p.uvStride, p.width / 2, VCodes(p));
  }

  lemma NoneWritten(was: seq<Byte>, stride: nat, width: nat, code: (nat, nat) -> Byte)
    requires stride > 0
    ensures Plane(was, was, stride, width, code, 0, 0, 0)
  {
  }

  lemma AllWritten(p: Picture, ya: array<Byte>, ua: array<Byte>, va: array<Byte>,
                   wasY: seq<Byte>, wasU: seq<Byte>, wasV: seq<Byte>)
    requires p.yStride > 0 && p.uvStride > 0 && Written(p, ya, ua, va, wasY, wasU, wasV, 0, p.height / 2)
    ensures Complete(wasY, ya[..], p.yStride, EvenWidth(p), EvenHeight(p), YCodes(p))
    ensures Complete(wasU, ua[..], p.uvStride, p.width / 2, p.height / 2, UCodes(p))
    ensures Complete(wasV, va[..], p.uvStride, p.width / 2, p.height / 2, VCodes(p))
  {
    hide Plane, Complete, YCodes, UCodes, VCodes;
    PlaneComplete(wasY, ya[..], p.yStride, EvenWidth(p), EvenHeight(p), YCodes(p));
    PlaneComplete(wasU, ua[..], p.uvStride, p.width / 2, p.height / 2, UCodes(p));
    PlaneComplete(wasV, va[..], p.uvStride, p.width / 2, p.height / 2, VCodes(p));
  }

  lemma PlaneComplete(was: seq<Byte>, now: seq<Byte>, stride: nat, width: nat, height: nat, code: (nat, nat) -> Byte)
    requires stride > 0 && Plane(was, now, stride, width, code, height, 0, 0)
    ensures Complete(was, now, stride, width, height, code)
  {
  }

  // ---- the result in numbers ----

  /** Byte `k` of a pixel: red, green, blue. */
  function Part(p: Picture, x: nat, y: nat, k: nat): int {
    var i := y * p.rgbStride + 3 * x + k;
    if i < |p.rgb| then p.rgb[i] else 0
  }

  function WeightedY(std: Standard, r: int, g: int, b: int): int {
    match std
    case T871 => 19 * r + 38 * g + 7 * b
    case BT601 => 16 * r + 32 * g + 6 * b + 1024
    case BT709 => 12 * r + 39 * g + 4 * b + 1024
  }

  function WeightedU(std: Standard, r: int, g: int, b: int): int {
    match std
    case T871 => -11 * r - 21 * g + 32 * b
    case BT601 => -9 * r - 19 * g + 28 * b
    case BT709 => -6 * r - 22 * g + 28 * b
  }

  function WeightedV(std: Standard, r: int, g: int, b: int): int {
    match std
    case T871 => 32 * r - 27 * g - 5 * b
    case BT601 => 28 * r - 24 * g - 5 * b
    case BT709 => 28 * r - 26 * g - 3 * b
  }

  lemma Weights(std: Standard, c: Rgb)
    ensures YSum(std, c) == WeightedY(std, c.r, c.g, c.b)
    ensures ChromaU(std, c) == WeightedU(std, c.r, c.g, c.b)
    ensures ChromaV(std, c) == WeightedV(std, c.r, c.g, c.b)
  {
    hide V, ToYuv, ToRgb, YSum, ChromaU, ChromaV;
    match std
    case T871 => SumsT871(c, 0, 0, 0);
    case BT601 => SumsBT601(c, 0, 0, 0);
    case BT709 => SumsBT709(c, 0, 0, 0);
  }

  function PixelY(p: Picture, x: nat, y: nat): int { WeightedY(p.std, Part(p, x, y, 0), Part(p, x, y, 1), Part(p, x, y, 2)) }

  function PixelU(p: Picture, x: nat, y: nat): int { WeightedU(p.std, Part(p, x, y, 0), Part(p, x, y, 1), Part(p, x, y, 2)) }

  function PixelV(p: Picture, x: nat, y: nat): int { WeightedV(p.std, Part(p, x, y, 0), Part(p, x, y, 1), Part(p, x, y, 2)) }

  lemma PixelWeights(p: Picture, x: nat, y: nat)
    requires HasPixels(p) && InBlocks(p, x, y)
    ensures YSum(p.std, ColourAt(p, x, y)) == PixelY(p, x, y)
    ensures ChromaU(p.std, ColourAt(p, x, y)) == PixelU(p, x, y)
    ensures ChromaV(p.std, ColourAt(p, x, y)) == PixelV(p, x, y)
  {
    var c := ColourAt(p, x, y);
    assert c == Rgb(Part(p, x, y, 0), Part(p, x, y, 1), Part(p, x, y, 2));
    hide ColourAt, Part, HasPixels, InBlocks, YSum, ChromaU, ChromaV, WeightedY, WeightedU, WeightedV;
    Weights(p.std, c);
  }

  /** A quarter of the total, rounded towards zero. */
  predicate IsQuarter(q: int, total: int) {
    if total >= 0 then 4 * q <= total < 4 * q + 4 else 4 * q - 4 < total <= 4 * q
  }

  ghost predicate IsChroma(value: int, total: int) {
    exists q :: IsQuarter(q, total) && IsClamped(value, q + 8192)
  }

  lemma ChromaMeans(total: int)
    requires InTable(UVSum(total))
    ensures IsChroma(ClampU8(UVSum(total)), total)
  {
    assert IsQuarter(Quarter(total), total);
    ClampedMeans(UVSum(total));
  }

  /** The luma of every pixel of the blocks, in numbers. */
  lemma EveryLumaIsCoded(p: Picture, was: seq<Byte>, ys: seq<Byte>, x: nat, y: nat)
    requires HasPixels(p) && Holds(|ys|, p.yStride, EvenWidth(p), EvenHeight(p))
    requires x / 2 * 2 + 1 < p.width && y / 2 * 2 + 1 < p.height
    requires Complete(was, ys, p.yStride, EvenWidth(p), EvenHeight(p), YCodes(p))
    ensures y * p.yStride + x < |ys| && IsClamped(ys[y * p.yStride + x], PixelY(p, x, y))
  {
    hide PixelY, ColourAt, YSum, ClampU8, InTable, IsClamped, HasPixels, Complete;
    assert InBlocks(p, x, y);
    CellHasCode(was, ys, p.yStride, EvenWidth(p), EvenHeight(p), YCodes(p), x, y);
    var c := ColourAt(p, x, y);
    RgbIsConvertible(p.std, c, c, c, c);
    ClampedMeans(YSum(p.std, c));
    PixelWeights(p, x, y);
  }

  /** The chroma of every block, in numbers: from the four pixels of the block. */
  lemma EveryChromaIsCoded(p: Picture, wasU: seq<Byte>, us: seq<Byte>, wasV: seq<Byte>, vs: seq<Byte>, x: nat, y: nat)
    requires HasPixels(p) && 2 * x + 1 < p.width && 2 * y + 1 < p.height
    requires Holds(|us|, p.uvStride, p.width / 2, p.height / 2) && Holds(|vs|, p.uvStride, p.width / 2, p.height / 2)
    requires Complete(wasU, us, p.uvStride, p.width / 2, p.height / 2, UCodes(p))
    requires Complete(wasV, vs, p.uvStride, p.width / 2, p.height / 2, VCodes(p))
    ensures var at := y * p.uvStride + x;
            && at < |us| && at < |vs|
            && IsChroma(us[at], PixelU(p, 2 * x, 2 * y) + PixelU(p, 2 * x + 1, 2 * y)
                                + PixelU(p, 2 * x, 2 * y + 1) + PixelU(p, 2 * x + 1, 2 * y + 1))
            && IsChroma(vs[at], PixelV(p, 2 * x, 2 * y) + PixelV(p, 2 * x + 1, 2 * y)
                                + PixelV(p, 2 * x, 2 * y + 1) + PixelV(p, 2 * x + 1, 2 * y + 1))
  {
    hide PixelU, PixelV, ColourAt, ChromaU, ChromaV, ClampU8, InTable, UVSum, IsChroma, HasPixels, Complete;
    CellHasCode(wasU, us, p.uvStride, p.width / 2, p.height / 2, UCodes(p), x, y);
    CellHasCode(wasV, vs, p.uvStride, p.width / 2, p.height / 2, VCodes(p), x, y);
    assert InBlocks(p, 2 * x, 2 * y) && InBlocks(p, 2 * x + 1, 2 * y + 1);
    BlockInTable(p, x, y);
    ChromaMeans(BlockU(p, x, y));
    ChromaMeans(BlockV(p, x, y));
    PixelWeights(p, 2 * x, 2 * y);
    PixelWeights(p, 2 * x + 1, 2 * y);
    PixelWeights(p, 2 * x, 2 * y + 1);
    PixelWeights(p, 2 * x + 1, 2 * y + 1);
  }

  // ---- there and back again ----

  /** An image of even size in which each block has one colour. */
  ghost predicate Uniform(p: Picture)
    requires HasPixels(p)
  {
    && p.width % 2 == 0 && p.height % 2 == 0
    && forall a: nat, b: nat :: 2 * a < p.width && 2 * b < p.height ==> OneColour(p, a, b)
  }

  /** The four pixels of block (a, b) are the same. */
  ghost predicate OneColour(p: Picture, a: nat, b: nat)
    requires HasPixels(p) && InBlocks(p, 2 * a, 2 * b)
  {
    ColourAt(p, 2 * a, 2 * b) == ColourAt(p, 2 * a + 1, 2 * b) == ColourAt(p, 2 * a, 2 * b + 1)
    == ColourAt(p, 2 * a + 1, 2 * b + 1)
  }

  /** The planes hold the codes of the image. */
  ghost predicate Coded(p: Picture, ys: seq<Byte>, us: seq<Byte>, vs: seq<Byte>) {
    && Holds(|ys|, p.yStride, EvenWidth(p), EvenHeight(p))
    && Holds(|us|, p.uvStride, p.width / 2, p.height / 2) && Holds(|vs|, p.uvStride, p.width / 2, p.height / 2)
    && (exists was :: Complete(was, ys, p.yStride, EvenWidth(p), EvenHeight(p), YCodes(p)))
    && (exists was :: Complete(was, us, p.uvStride, p.width / 2, p.height / 2, UCodes(p)))
    && (exists was :: Complete(was, vs, p.uvStride, p.width / 2, p.height / 2, VCodes(p)))
  }

  lemma CellHasCode(was: seq<Byte>, now: seq<Byte>, stride: nat, width: nat, height: nat, code: (nat, nat) -> Byte,
                    x: nat, y: nat)
    requires Holds(|now|, stride, width, height) && Complete(was, now, stride, width, height, code)
    requires x < width && y < height
    ensures y * stride + x < |now| && now[y * stride + x] == code(x, y)
  {
    CellInRange(|now|, stride, width, height, x, y);
    DivMod(y, stride, x);
  }

  function JobOf(p: Picture, ys: seq<Byte>, us: seq<Byte>, vs: seq<Byte>, stride: nat): Job {
    Job(p.std, YUV420, RGB24, p.width, p.height, ys, us, vs, p.yStride, p.uvStride, stride)
  }

  lemma SamplesOf(p: Picture, ys: seq<Byte>, us: seq<Byte>, vs: seq<Byte>, stride: nat, x: nat, y: nat)
    requires HasPixels(p) && p.width % 2 == 0 && p.height % 2 == 0 && Coded(p, ys, us, vs) && InBlocks(p, x, y)
    ensures var job := JobOf(p, ys, us, vs, stride);
            var i, k := YIndex(job, x, y), UvIndex(job, x, y);
            && i < |ys| && k < |us| && k < |vs|
            && ys[i] == YCode(p, x, y) && us[k] == UCode(p, x / 2, y / 2) && vs[k] == VCode(p, x / 2, y / 2)
  {
    hide Complete, HasPixels, YCode, UCode, VCode;
    var was :| Complete(was, ys, p.yStride, EvenWidth(p), EvenHeight(p), YCodes(p));
    var wasU :| Complete(wasU, us, p.uvStride, p.width / 2, p.height / 2, UCodes(p));
    var wasV :| Complete(wasV, vs, p.uvStride, p.width / 2, p.height / 2, VCodes(p));
    assert x / 2 < p.width / 2 && y / 2 < p.height / 2;
    CellHasCode(was, ys, p.yStride, EvenWidth(p), EvenHeight(p), YCodes(p), x, y);
    CellHasCode(wasU, us, p.uvStride, p.width / 2, p.height / 2, UCodes(p), x / 2, y / 2);
    CellHasCode(wasV, vs, p.uvStride, p.width / 2, p.height / 2, VCodes(p), x / 2, y / 2);
    hide Holds, EvenWidth, EvenHeight;
  }

  /** Every pixel has the colour of its block. */
  lemma ColourOfBlock(p: Picture, x: nat, y: nat)
    requires HasPixels(p) && Uniform(p) && InBlocks(p, x, y)
    ensures InBlocks(p, 2 * (x / 2), 2 * (y / 2)) && OneColour(p, x / 2, y / 2)
    ensures ColourAt(p, x, y) == ColourAt(p, 2 * (x / 2), 2 * (y / 2))
  {
    hide HasPixels, ColourAt;
    var a, b := x / 2, y / 2;
    assert OneColour(p, a, b);
    assert (x == 2 * a || x == 2 * a + 1) && (y == 2 * b || y == 2 * b + 1);
  }

  /** In a uniform block the codes are those of its colour. */
  lemma CodesOfColour(p: Picture, x: nat, y: nat)
    requires HasPixels(p) && Uniform(p) && InBlocks(p, x, y)
    ensures (YCode(p, x, y), UCode(p, x / 2, y / 2), VCode(p, x / 2, y / 2)) == YuvOf(p.std, ColourAt(p, x, y))
  {
    ColourOfBlock(p, x, y);
    LumaCode(p, x, y);
    var c := ColourAt(p, x, y);
    hide InBlocks, HasPixels, Uniform, ColourAt, YuvOf, YCode, UCode, VCode;
    ChromaCodes(p, x / 2, y / 2, c);
  }

  lemma LumaCode(p: Picture, x: nat, y: nat)
    requires HasPixels(p) && InBlocks(p, x, y)
    ensures YCode(p, x, y) == YuvOf(p.std, ColourAt(p, x, y)).0
  {
    var c := ColourAt(p, x, y);
    RgbIsConvertible(p.std, c, c, c, c);
    hide HasPixels, ColourAt, YSum, ClampU8, InTable;
  }

  /** The chroma codes of block (a, b) with the colour `c`. */
  lemma ChromaCodes(p: Picture, a: nat, b: nat, c: Rgb)
    requires HasPixels(p) && InBlocks(p, 2 * a, 2 * b) && OneColour(p, a, b) && ColourAt(p, 2 * a, 2 * b) == c
    ensures (UCode(p, a, b), VCode(p, a, b)) == (YuvOf(p.std, c).1, YuvOf(p.std, c).2)
  {
    BlockOfOneColour(p, a, b, c);
    BlockInTable(p, a, b);
    hide BlockU, BlockV, HasPixels, ColourAt, ChromaU, ChromaV, YSum, ClampU8, InTable, UVSum;
  }

  lemma BlockOfOneColour(p: Picture, a: nat, b: nat, c: Rgb)
    requires HasPixels(p) && InBlocks(p, 2 * a, 2 * b) && OneColour(p, a, b) && ColourAt(p, 2 * a, 2 * b) == c
    ensures BlockU(p, a, b) == 4 * ChromaU(p.std, c) && BlockV(p, a, b) == 4 * ChromaV(p.std, c)
  {
    hide ColourAt, ChromaU, ChromaV;
  }

  /** For every image of even size with uniform blocks: the way back stays inside the clamp table,
      and every channel of every pixel is within 12 levels of the original. */
  lemma ImageRoundTrip(p: Picture, ys: seq<Byte>, us: seq<Byte>, vs: seq<Byte>, stride: nat)
    requires HasPixels(p) && Uniform(p) && Coded(p, ys, us, vs)
    ensures var job := JobOf(p, ys, us, vs, stride);
            && Sampled(job) && InRange(job)
            && forall x: nat, y: nat :: Inside(job, x, y) ==>
                 var back, c := PixelAt(job, x, y), ColourAt(p, x, y);
                 Close(back.r, c.r, 12) && Close(back.g, c.g, 12) && Close(back.b, c.b, 12)
  {
    var job := JobOf(p, ys, us, vs, stride);
    hide HasPixels, Uniform, Coded, ColourAt, YIndex, UvIndex, YCode, UCode, VCode, YuvOf, Convertible, RgbOf;
    forall x: nat, y: nat | Inside(job, x, y)
      ensures YIndex(job, x, y) < |ys| && UvIndex(job, x, y) < |us| && UvIndex(job, x, y) < |vs|
      ensures InBlocks(p, x, y)
      ensures var yuv := YuvOf(p.std, ColourAt(p, x, y));
              (ys[YIndex(job, x, y)], us[UvIndex(job, x, y)], vs[UvIndex(job, x, y)]) == yuv
      ensures var yuv := YuvOf(p.std, ColourAt(p, x, y));
              Convertible(p.std, yuv.0, yuv.1, yuv.2)
    {
      assert p.width % 2 == 0 && p.height % 2 == 0 by { EvenSize(p); }
      SamplesOf(p, ys, us, vs, stride, x, y);
      CodesOfColour(p, x, y);
      PixelRoundTrip(p.std, ColourAt(p, x, y));
    }
    forall x: nat, y: nat | Inside(job, x, y)
      ensures var back, c := PixelAt(job, x, y), ColourAt(p, x, y);
              Close(back.r, c.r, 12) && Close(back.g, c.g, 12) && Close(back.b, c.b, 12)
    {
      PixelRoundTrip(p.std, ColourAt(p, x, y));
    }
  }

  lemma EvenSize(p: Picture)
    requires HasPixels(p) && Uniform(p)
    ensures p.width % 2 == 0 && p.height % 2 == 0
  {
  }
}
