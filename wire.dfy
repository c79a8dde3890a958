/**
 * The integer widths of the display protocol and its big-endian 16-bit
 * fields: a field v travels as `v >> 8` followed by `v & 0xFF`, and the
 * driver's `read_word` puts two received bytes back together.
 */
module Wire {

  /** An `unsigned char` on the wire. */
  type u8 = b: int | 0 <= b < 0x100

  /** A `uint16_t` command parameter. */
  type u16 = v: int | 0 <= v < 0x1_0000

  /** An `int16_t`, as `read_word` returns it and `ulcd_event` stores it. */
  type i16 = v: int | -0x8000 <= v < 0x8000

  /** A C `int` on the 32-bit-int platforms the driver is built for. */
  type i32 = v: int | -0x8000_0000 <= v < 0x8000_0000

  const INT_MAX: int := 0x7FFF_FFFF

  /** `v >> 8`: the byte of a field that is sent first. */
  function Hi(v: u16): (h: u8)
    ensures 0x100 * h <= v < 0x100 * h + 0x100
  {
    v / 0x100
  }

  /** `v & 0xFF`: the byte of a field that is sent second, what is left of `v` after its high byte. */
  function Lo(v: u16): (l: u8)
    ensures v == 0x100 * Hi(v) + l
  {
    v % 0x100
  }

  /** The 16-bit pattern whose high byte is `hi` and whose low byte is `lo`. */
  function Word(hi: u8, lo: u8): (w: u16)
    ensures Hi(w) == hi && Lo(w) == lo
  {
    hi * 0x100 + lo
  }

  /** Splitting a field into its two wire bytes and joining them again gives the field back. */
  lemma WordOfHiLo(v: u16)
    ensures Word(Hi(v), Lo(v)) == v
  {
  }

  /** Conversion of an `int16_t` to `uint16_t`: reduction modulo 2^16. */
  function AsUint16(s: i16): u16 { s % 0x1_0000 }

  /**
   * Conversion of a 16-bit pattern to `int16_t`, two's complement, as the
   * compilers the driver targets perform it.
   */
  function AsInt16(w: u16): (s: i16)
    ensures s < 0 <==> w >= 0x8000
    ensures AsUint16(s) == w
  {
    if w < 0x8000 then w else w - 0x1_0000
  }

  /** The two conversions are inverse to each other in the other order too. */
  lemma AsInt16OfAsUint16(s: i16)
    ensures AsInt16(AsUint16(s)) == s
  {
  }

  /**
   * What `read_word` returns when the module sends `hi` and then `lo`:
   * `readchar() << 8` is stored into an `int16_t`, and that is or-ed with
   * the second byte. The low byte of the stored value is zero, so the `|`
   * adds `lo`.
   */
  function ReadWordValue(hi: u8, lo: u8): (v: i16)
    ensures v == AsInt16(Word(hi, lo))
  {
    var high: i16 := AsInt16(hi * 0x100);
    high + lo
  }

  /**
   * `read_word` keeps the 16-bit pattern of the two bytes, and the result
   * is negative exactly when the high byte has its top bit set.
   */
  lemma ReadWordValueMeaning(hi: u8, lo: u8)
    ensures AsUint16(ReadWordValue(hi, lo)) == Word(hi, lo)
    ensures ReadWordValue(hi, lo) < 0 <==> hi >= 0x80
  {
  }

  /**
   * The round trip between an encoder and `read_word`: the two bytes sent
   * for `v` are read back as `v`'s 16-bit pattern, seen as an `int16_t`.
   */
  lemma ReadWordRoundTrip(v: u16)
    ensures ReadWordValue(Hi(v), Lo(v)) == AsInt16(v)
    ensures AsUint16(ReadWordValue(Hi(v), Lo(v))) == v
  {
    WordOfHiLo(v);
    ReadWordValueMeaning(Hi(v), Lo(v));
  }

  /** A run of 16-bit fields as the encoders lay it out: each one high byte first. */
  function Fields(ws: seq<u16>): (bs: seq<u8>)
    ensures |bs| == 2 * |ws|
    ensures forall i :: 0 <= i < |ws| ==> bs[2 * i] == Hi(ws[i]) && bs[2 * i + 1] == Lo(ws[i])
  {
    if ws == [] then [] else [Hi(ws[0]), Lo(ws[0])] + Fields(ws[1..])
  }

  /** The fields a receiver reads back from a run of bytes, two bytes per field. */
  function Words(bs: seq<u8>): (ws: seq<u16>)
    requires |bs| % 2 == 0
    ensures |ws| == |bs| / 2
    ensures forall i :: 0 <= i < |ws| ==> ws[i] == Word(bs[2 * i], bs[2 * i + 1])
  {
    if bs == [] then [] else [Word(bs[0], bs[1])] + Words(bs[2..])
  }

  /** Reading back what was encoded gives the fields. */
  lemma WordsOfFields(ws: seq<u16>)
    ensures Words(Fields(ws)) == ws
  {
    var bs := Fields(ws);
    forall i | 0 <= i < |ws|
      ensures Words(bs)[i] == ws[i]
    {
      WordOfHiLo(ws[i]);
    }
  }

  /** Encoding what was read back gives the bytes: every byte pair is some field. */
  lemma {:induction false} FieldsOfWords(bs: seq<u8>)
    requires |bs| % 2 == 0
    ensures Fields(Words(bs)) == bs
  {
    if bs != [] {
      var ws := Words(bs);
      assert ws == [Word(bs[0], bs[1])] + Words(bs[2..]);
      assert ws[1..] == Words(bs[2..]);
      FieldsOfWords(bs[2..]);
      assert bs == [bs[0], bs[1]] + bs[2..];
    }
  }
}
