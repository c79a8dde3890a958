/**
 * The command frames the driver builds in a caller's buffer before sending
 * them: an opcode byte followed by big-endian 16-bit fields (and, for a
 * blit, a marker byte and the raw pixel data).
 */
module Frames {
  import opened Wire
  import opened Wrappers

  const LineOp: u8 := 0x4C
  const RectOp: u8 := 0x72
  const CircleOp: u8 := 0x43
  const PenStyleOp: u8 := 0x70
  const BlitOp: u8 := 0x49
  /** The byte a blit frame carries after its four fields. */
  const BlitMarker: u8 := 0x10

  /** The commands whose frames the driver builds in a buffer. */
  datatype Command =
    | Line(x0: u16, y0: u16, x1: u16, y1: u16, color: u16)
    | Rect(x0: u16, y0: u16, x1: u16, y1: u16, color: u16)
    | Circle(x: u16, y: u16, radius: u16, color: u16)
    | PenStyle(style: u8)
    | Blit(x: u16, y: u16, w: u16, h: u16, pixels: seq<u8>)
  {
    /** A blit carries exactly two bytes of pixel data per pixel of its w-by-h area. */
    predicate WellFormed() {
      Blit? ==> |pixels| == PixelBytes(w, h)
    }
  }

  /** `w*h*2`: the size of the pixel data of a w-by-h blit, two bytes per pixel. */
  function PixelBytes(w: u16, h: u16): nat {
    w * h * 2
  }

  function Opcode(c: Command): u8 {
    match c
    case Line(_, _, _, _, _) => LineOp
    case Rect(_, _, _, _, _) => RectOp
    case Circle(_, _, _, _) => CircleOp
    case PenStyle(_) => PenStyleOp
    case Blit(_, _, _, _, _) => BlitOp
  }

  /** The length each `*_buf` encoder returns for its frame. */
  function FrameLength(c: Command): nat {
    match c
    case Line(_, _, _, _, _) => 11
    case Rect(_, _, _, _, _) => 11
    case Circle(_, _, _, _) => 9
    case PenStyle(_) => 2
    case Blit(_, _, _, _, pixels) => |pixels| + 10
  }

  /** The frame of a command: its opcode first, then its parameters. */
  function Encode(c: Command): (f: seq<u8>)
    ensures |f| == FrameLength(c) && f[0] == Opcode(c)
  {
    match c
    case Line(x0, y0, x1, y1, color) => [LineOp] + Fields([x0, y0, x1, y1, color])
    case Rect(x0, y0, x1, y1, color) => [RectOp] + Fields([x0, y0, x1, y1, color])
    case Circle(x, y, radius, color) => [CircleOp] + Fields([x, y, radius, color])
    case PenStyle(style) => [PenStyleOp, style]
    case Blit(x, y, w, h, pixels) => [BlitOp] + Fields([x, y, w, h]) + [BlitMarker] + pixels
  }

  /**
   * The inverse of `Encode`, defined for this model (the display module's
   * own parser is not part of it): the command whose frame `f` is, or None
   * when the bytes are not the frame of any command.
   */
  function Decode(f: seq<u8>): Option<Command> {
    if |f| == 11 && f[0] == LineOp then
      var ws := Words(f[1..]);
      Some(Line(ws[0], ws[1], ws[2], ws[3], ws[4]))
    else if |f| == 11 && f[0] == RectOp then
      var ws := Words(f[1..]);
      Some(Rect(ws[0], ws[1], ws[2], ws[3], ws[4]))
    else if |f| == 9 && f[0] == CircleOp then
      var ws := Words(f[1..]);
      Some(Circle(ws[0], ws[1], ws[2], ws[3]))
    else if |f| == 2 && f[0] == PenStyleOp then
      Some(PenStyle(f[1]))
    else if |f| >= 10 && f[0] == BlitOp && f[9] == BlitMarker then
      DecodeBlit(f)
    else
      None
  }

  /** A blit frame is in the image of `Encode` only when its data is exactly w*h*2 bytes long. */
  function DecodeBlit(f: seq<u8>): Option<Command>
    requires |f| >= 10
  {
    var ws := Words(f[1..9]);
    if |f| - 10 == PixelBytes(ws[2], ws[3]) then Some(Blit(ws[0], ws[1], ws[2], ws[3], f[10..])) else None
  }

  /** A run of bytes after an opcode that holds whole fields is the encoding of the fields read from it. */
  lemma OpcodeAndFields(f: seq<u8>, fields: nat)
    requires |f| == 1 + 2 * fields
    ensures f == [f[0]] + Fields(Words(f[1..]))
  {
    FieldsOfWords(f[1..]);
    assert f == [f[0]] + f[1..];
  }

  /** Whatever `Decode` maps to a command is exactly the frame of that command: the frames are the image of `Encode`. */
  lemma EncodeDecode(f: seq<u8>)
    ensures Decode(f).Some? ==> Decode(f).value.WellFormed() && Encode(Decode(f).value) == f
  {
    if |f| == 11 && (f[0] == LineOp || f[0] == RectOp) {
      FiveFields(f);
    } else if |f| == 9 && f[0] == CircleOp {
      FourFields(f);
    } else if |f| >= 10 && f[0] == BlitOp && f[9] == BlitMarker {
      EncodeDecodeBlit(f);
    }
  }

  lemma FiveFields(f: seq<u8>)
    requires |f| == 11
    ensures var ws := Words(f[1..]);
      f == [f[0]] + Fields([ws[0], ws[1], ws[2], ws[3], ws[4]])
  {
    OpcodeAndFields(f, 5);
    var ws := Words(f[1..]);
    assert ws == [ws[0], ws[1], ws[2], ws[3], ws[4]];
  }

  lemma FourFields(f: seq<u8>)
    requires |f| == 9
    ensures var ws := Words(f[1..]);
      f == [f[0]] + Fields([ws[0], ws[1], ws[2], ws[3]])
  {
    OpcodeAndFields(f, 4);
    var ws := Words(f[1..]);
    assert ws == [ws[0], ws[1], ws[2], ws[3]];
  }

  lemma EncodeDecodeBlit(f: seq<u8>)
    requires |f| >= 10 && f[0] == BlitOp && f[9] == BlitMarker
    ensures DecodeBlit(f).Some? ==> DecodeBlit(f).value.WellFormed() && Encode(DecodeBlit(f).value) == f
  {
    if DecodeBlit(f).Some? {
      var ws := Words(f[1..9]);
      FieldsOfWords(f[1..9]);
      assert ws == [ws[0], ws[1], ws[2], ws[3]];
      assert f == [f[0]] + f[1..9] + [f[9]] + f[10..];
    }
  }

  /** Every well-formed command survives the trip through its frame. */
  lemma DecodeEncode(c: Command)
    requires c.WellFormed()
    ensures Decode(Encode(c)) == Some(c)
  {
    var f := Encode(c);
    match c
    case Line(x0, y0, x1, y1, color) =>
      assert f[1..] == Fields([x0, y0, x1, y1, color]);
      WordsOfFields([x0, y0, x1, y1, color]);
    case Rect(x0, y0, x1, y1, color) =>
      assert f[1..] == Fields([x0, y0, x1, y1, color]);
      WordsOfFields([x0, y0, x1, y1, color]);
    case Circle(x, y, radius, color) =>
      assert f[1..] == Fields([x, y, radius, color]);
      WordsOfFields([x, y, radius, color]);
    case PenStyle(style) =>
    case Blit(x, y, w, h, pixels) =>
      assert f[1..9] == Fields([x, y, w, h]);
      assert f[10..] == pixels;
      WordsOfFields([x, y, w, h]);
      WordOfHiLo(w);
      WordOfHiLo(h);
  }

  /** Distinct well-formed commands never share a frame. */
  lemma EncodeInjective(a: Command, b: Command)
    requires a.WellFormed() && b.WellFormed() && Encode(a) == Encode(b)
    ensures a == b
  {
    DecodeEncode(a);
    DecodeEncode(b);
  }

  /** The line frame byte by byte: 0x4C, then x0, y0, x1, y1, color, each high byte first. */
  lemma LineLayout(x0: u16, y0: u16, x1: u16, y1: u16, color: u16)
    ensures Encode(Line(x0, y0, x1, y1, color))
         == [0x4C, Hi(x0), Lo(x0), Hi(y0), Lo(y0), Hi(x1), Lo(x1), Hi(y1), Lo(y1), Hi(color), Lo(color)]
  {
    var ws := [x0, y0, x1, y1, color];
    assert Fields(ws) == [Hi(x0), Lo(x0), Hi(y0), Lo(y0), Hi(x1), Lo(x1), Hi(y1), Lo(y1), Hi(color), Lo(color)] by {
      assert ws[0] == x0 && ws[1] == y0 && ws[2] == x1 && ws[3] == y1 && ws[4] == color;
    }
  }

  /** The rectangle frame byte by byte: 0x72, then x0, y0, x1, y1, color, each high byte first. */
  lemma RectLayout(x0: u16, y0: u16, x1: u16, y1: u16, color: u16)
    ensures Encode(Rect(x0, y0, x1, y1, color))
         == [0x72, Hi(x0), Lo(x0), Hi(y0), Lo(y0), Hi(x1), Lo(x1), Hi(y1), Lo(y1), Hi(color), Lo(color)]
  {
    var ws := [x0, y0, x1, y1, color];
    assert Fields(ws) == [Hi(x0), Lo(x0), Hi(y0), Lo(y0), Hi(x1), Lo(x1), Hi(y1), Lo(y1), Hi(color), Lo(color)] by {
      assert ws[0] == x0 && ws[1] == y0 && ws[2] == x1 && ws[3] == y1 && ws[4] == color;
    }
  }

  /** The circle frame byte by byte: 0x43, then x, y, radius, color, each high byte first. */
  lemma CircleLayout(x: u16, y: u16, radius: u16, color: u16)
    ensures Encode(Circle(x, y, radius, color))
         == [0x43, Hi(x), Lo(x), Hi(y), Lo(y), Hi(radius), Lo(radius), Hi(color), Lo(color)]
  {
    var ws := [x, y, radius, color];
    assert Fields(ws) == [Hi(x), Lo(x), Hi(y), Lo(y), Hi(radius), Lo(radius), Hi(color), Lo(color)] by {
      assert ws[0] == x && ws[1] == y && ws[2] == radius && ws[3] == color;
    }
  }

  /**
   * The blit frame: 0x49, then x, y, w, h each high byte first, then the
   * marker 0x10 at index 9, then the pixel data unchanged from index 10.
   */
  lemma BlitLayout(x: u16, y: u16, w: u16, h: u16, pixels: seq<u8>)
    ensures Encode(Blit(x, y, w, h, pixels))
         == [0x49, Hi(x), Lo(x), Hi(y), Lo(y), Hi(w), Lo(w), Hi(h), Lo(h), 0x10] + pixels
  {
    var ws := [x, y, w, h];
    assert Fields(ws) == [Hi(x), Lo(x), Hi(y), Lo(y), Hi(w), Lo(w), Hi(h), Lo(h)] by {
      assert ws[0] == x && ws[1] == y && ws[2] == w && ws[3] == h;
    }
  }

  /** `ulcd_draw_line_buf`: writes the 11-byte line frame at the start of `buf` and returns 11. */
  method DrawLineBuf(buf: array<u8>, x0: u16, y0: u16, x1: u16, y1: u16, color: u16) returns (n: int)
    requires buf.Length >= 11
    modifies buf
    ensures n == 11 == FrameLength(Line(x0, y0, x1, y1, color))
    ensures buf[..n] == Encode(Line(x0, y0, x1, y1, color))
    ensures buf[n..] == old(buf[n..])
  {
    buf[0] := LineOp;
    buf[1] := Hi(x0);
    buf[2] := Lo(x0);
    buf[3] := Hi(y0);
    buf[4] := Lo(y0);
    buf[5] := Hi(x1);
    buf[6] := Lo(x1);
    buf[7] := Hi(y1);
    buf[8] := Lo(y1);
    buf[9] := Hi(color);
    buf[10] := Lo(color);
    LineLayout(x0, y0, x1, y1, color);
    return 11;
  }

  /** `ulcd_draw_rect_buf`: writes the 11-byte rectangle frame at the start of `buf` and returns 11. */
  method DrawRectBuf(buf: array<u8>, x0: u16, y0: u16, x1: u16, y1: u16, color: u16) returns (n: int)
    requires buf.Length >= 11
    modifies buf
    ensures n == 11 == FrameLength(Rect(x0, y0, x1, y1, color))
    ensures buf[..n] == Encode(Rect(x0, y0, x1, y1, color))
    ensures buf[n..] == old(buf[n..])
  {
    buf[0] := RectOp;
    buf[1] := Hi(x0);
    buf[2] := Lo(x0);
    buf[3] := Hi(y0);
    buf[4] := Lo(y0);
    buf[5] := Hi(x1);
    buf[6] := Lo(x1);
    buf[7] := Hi(y1);
    buf[8] := Lo(y1);
    buf[9] := Hi(color);
    buf[10] := Lo(color);
    RectLayout(x0, y0, x1, y1, color);
    return 11;
  }

  /** `ulcd_draw_circle_buf`: writes the 9-byte circle frame at the start of `buf` and returns 9. */
  method DrawCircleBuf(buf: array<u8>, x: u16, y: u16, radius: u16, color: u16) returns (n: int)
    requires buf.Length >= 9
    modifies buf
    ensures n == 9 == FrameLength(Circle(x, y, radius, color))
    ensures buf[..n] == Encode(Circle(x, y, radius, color))
    ensures buf[n..] == old(buf[n..])
  {
    buf[0] := CircleOp;
    buf[1] := Hi(x);
    buf[2] := Lo(x);
    buf[3] := Hi(y);
    buf[4] := Lo(y);
    buf[5] := Hi(radius);
    buf[6] := Lo(radius);
    buf[7] := Hi(color);
    buf[8] := Lo(color);
    CircleLayout(x, y, radius, color);
    return 9;
  }

  /**
   * `ulcd_pen_style_buf`: writes [0x70, style] and returns 2. The `int`
   * style is stored into an `unsigned char`, that is, reduced modulo 256.
   */
  method PenStyleBuf(buf: array<u8>, style: i32) returns (n: int)
    requires buf.Length >= 2
    modifies buf
    ensures n == 2 == FrameLength(PenStyle(style % 0x100))
    ensures buf[..n] == Encode(PenStyle(style % 0x100)) == [0x70, style % 0x100]
    ensures buf[n..] == old(buf[n..])
  {
    buf[0] := PenStyleOp;
    buf[1] := style % 0x100;
    return 2;
  }

  /**
   * `ulcd_blit_buf`: writes the blit header, copies the first w*h*2 bytes
   * of `data` after it and returns the frame length w*h*2 + 10. The caller
   * supplies the data and a buffer large enough, and a w*h*2 + 10 that fits
   * in an `int`.
   */
  method BlitBuf(buf: array<u8>, x: u16, y: u16, w: u16, h: u16, data: seq<u8>) returns (n: int)
    requires PixelBytes(w, h) + 10 <= INT_MAX
    requires |data| >= PixelBytes(w, h)
    requires buf.Length >= PixelBytes(w, h) + 10
    modifies buf
    ensures n == PixelBytes(w, h) + 10 == FrameLength(Blit(x, y, w, h, data[..PixelBytes(w, h)]))
    ensures Blit(x, y, w, h, data[..PixelBytes(w, h)]).WellFormed()
    ensures buf[..n] == Encode(Blit(x, y, w, h, data[..PixelBytes(w, h)]))
    ensures buf[n..] == old(buf[n..])
  {
    buf[0] := BlitOp;
    buf[1] := Hi(x);
    buf[2] := Lo(x);
    buf[3] := Hi(y);
    buf[4] := Lo(y);
    buf[5] := Hi(w);
    buf[6] := Lo(w);
    buf[7] := Hi(h);
    buf[8] := Lo(h);
    buf[9] := BlitMarker;
    ghost var header := buf[..10];
    var size := PixelBytes(w, h);
    MemCopy(buf, 10, data, size);
    n := size + 10;
    BlitLayout(x, y, w, h, data[..size]);
    assert buf[..n] == header + data[..size];
  }

  /** `memcpy(dst + at, src, len)`: copies the first `len` bytes of `src` to `dst[at..]`, touching nothing else. */
  method MemCopy(dst: array<u8>, at: nat, src: seq<u8>, len: nat)
    requires at + len <= dst.Length && len <= |src|
    modifies dst
    ensures dst[..at] == old(dst[..at])
    ensures dst[at..at + len] == src[..len]
    ensures dst[at + len..] == old(dst[at + len..])
  {
    var k := 0;
    while k < len
      invariant 0 <= k <= len
      invariant dst[..at] == old(dst[..at])
      invariant dst[at..at + k] == src[..k]
      invariant dst[at + len..] == old(dst[at + len..])
    {
      dst[at + k] := src[k];
      k := k + 1;
    }
  }
}
