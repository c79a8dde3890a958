/**
 * The driver's session with the module: the port seen as a stream of
 * incoming bytes and a stream of outgoing ones, the device record filled in
 * by the initialization handshake, and the operations that send a frame and
 * then read the module's reply.
 */
module Session {
  import opened Wire
  import opened Frames
  import opened Tables
  import opened Wrappers

  /** The byte the module answers with when it has carried out a command. */
  const ACK: u8 := 0x06

  const OpenFailed: string := "Error while opening serial port."
  const InitFailed: string := "Panel initialization failed."
  const TouchRegionFailed: string := "Touch region reset failed."
  const TouchEnableFailed: string := "Enabling touch events failed."
  const ClearFailed: string := "Clear screen failed."
  const ToggleFailed: string := "Backlight toggling failed."
  const BlitFailed: string := "Error while blitting."
  const LineFailed: string := "Error while drawing line."
  const RectFailed: string := "Error while drawing rectangle."
  const CircleFailed: string := "Error while drawing circle."
  const PenStyleFailed: string := "Pen style change failed."

  /** Everything `ulcd_init` writes when every step is acknowledged. */
  const InitSequence: seq<u8> := [0x55, 0x56, 0x00, 0x59, 0x05, 0x02, 0x59, 0x05, 0x00]

  /** The event codes of the module (`enum EVENT_TYPES`). */
  datatype EventType = NoActivity | TouchPress | TouchRelease | TouchMoving {
    function Code(): i16 {
      match this
      case NoActivity => 0
      case TouchPress => 1
      case TouchRelease => 2
      case TouchMoving => 3
    }
  }

  /** The event type a code stands for, if any. */
  function EventTypeOf(code: i16): (t: Option<EventType>)
    ensures t.Some? <==> 0 <= code <= 3
  {
    if code == 0 then Some(NoActivity)
    else if code == 1 then Some(TouchPress)
    else if code == 2 then Some(TouchRelease)
    else if code == 3 then Some(TouchMoving)
    else None
  }

  lemma EventTypeRoundTrip(t: EventType, code: i16)
    ensures EventTypeOf(t.Code()) == Some(t)
    ensures EventTypeOf(code).Some? ==> EventTypeOf(code).value.Code() == code
  {
  }

  /** `ulcd_event`: the coordinates and the raw type code of a touch event. */
  datatype Event = Event(x: i16, y: i16, kind: i16)

  /**
   * `errorstr`: the one diagnostic slot of the driver, shared by every
   * device and by `ulcd_init` before any device exists. Whichever call
   * fails last, on whichever device, owns its text.
   */
  class ErrorSlot {
    var text: string

    /** The slot is a zero-initialised global: it starts as the empty string. */
    constructor ()
      ensures text == ""
    {
      text := "";
    }
  }

  /** The serial port as the driver uses it. */
  class Port {
    /** The bytes the module has sent and the driver has not read yet, oldest first. */
    var rx: seq<u8>
    /** Every byte the driver has written, oldest first. */
    var tx: seq<u8>
    var isOpen: bool

    /** A closed port with `pending` bytes already waiting in its receive buffer. */
    constructor (pending: seq<u8>)
      ensures rx == pending && tx == [] && !isOpen
    {
      rx := pending;
      tx := [];
      isOpen := false;
    }

    /** `CloseComport`: releases the port; what was sent and what is pending stay as they were. */
    method Close()
      modifies this`isOpen
      ensures !isOpen
    {
      isOpen := false;
    }

    /**
     * `readchar`: waits until a byte has arrived and takes it. The wait has
     * no bound, so the caller must know that the module sends the byte.
     */
    method ReadChar() returns (c: u8)
      requires |rx| >= 1
      modifies this`rx
      ensures c == old(rx)[0] && rx == old(rx)[1..]
    {
      c := rx[0];
      rx := rx[1..];
    }

    /** `SendByte`. */
    method SendByte(b: u8)
      modifies this`tx
      ensures tx == old(tx) + [b]
    {
      tx := tx + [b];
    }

    /** `SendBuf`: writes the first `len` bytes of `buf`. */
    method SendBuf(buf: array<u8>, len: int)
      requires 0 <= len <= buf.Length
      modifies this`tx
      ensures tx == old(tx) + buf[..len]
    {
      tx := tx + buf[..len];
    }

    /**
     * The initial drain of `ulcd_init`: one read of at most 4096 bytes whose
     * result is thrown away. How many bytes it catches is up to timing, so
     * it is a parameter.
     */
    method Drain(count: nat)
      requires count <= 4096 && count <= |rx|
      modifies this`rx
      ensures rx == old(rx)[count..]
    {
      rx := rx[count..];
    }
  }

  /**
   * The replies `ulcd_init` waits for are all there in `r`: the
   * acknowledgement of the init byte, and after an ACK the five version
   * bytes and the touch-region acknowledgement, and after an ACK to that
   * the touch-enable acknowledgement.
   */
  predicate InitRepliesArrive(r: seq<u8>) {
    |r| >= 1 && (r[0] == ACK ==> |r| >= 7 && (r[6] == ACK ==> |r| >= 8))
  }

  /** The words `ulcd_get_event` waits for are all there in `r`: two, and two more after a positive type. */
  predicate PollRepliesArrive(r: seq<u8>) {
    |r| >= 4 && (ReadWordValue(r[0], r[1]) > 0 ==> |r| >= 8)
  }

  /**
   * `ulcd_get_event` asks for coordinates exactly when the type word is
   * positive as an `int16_t`: not zero, and with the top bit of its high
   * byte clear.
   */
  lemma PollAsksForCoordinates(hi: u8, lo: u8)
    ensures ReadWordValue(hi, lo) > 0 <==> hi < 0x80 && (hi, lo) != (0, 0)
  {
    if hi < 0x80 {
      assert AsInt16(hi * 0x100) == hi * 0x100;
    } else {
      assert AsInt16(hi * 0x100) == hi * 0x100 - 0x1_0000;
    }
  }

  /** `ulcd_dev`: a device on a port, with what the module reported about itself. */
  class Device {
    const port: Port
    /** Where failures leave their diagnostic: the driver's one `errorstr`. */
    const errors: ErrorSlot
    var name: string
    var devType: int
    var w: int
    var h: int
    var hwVer: int
    var swVer: int

    /** A fresh record on `port` with an empty name, reporting failures to `errors`. */
    constructor (port: Port, errors: ErrorSlot)
      ensures this.port == port && this.errors == errors && name == ""
    {
      this.port := port;
      this.errors := errors;
      name := "";
      devType, w, h, hwVer, swVer := 0, 0, 0, 0, 0;
    }

    /**
     * The gated steps of `ulcd_init` on a freshly allocated record: the init
     * byte, the version query and its reply, the touch region and touch
     * enabling, each of the three commands acknowledged before the next.
     */
    method Handshake() returns (ok: bool)
      requires InitRepliesArrive(port.rx)
      modifies this, port`rx, port`tx, errors`text
      ensures var o := InitExchange(old(port.rx));
        port.tx == old(port.tx) + o.sent && port.rx == old(port.rx)[o.consumed..] &&
        (ok <==> o.failure.None?) &&
        errors.text == if o.failure.Some? then o.failure.value else old(errors.text)
      ensures ok ==> var r := old(port.rx);
        devType == r[1] && hwVer == r[2] as int - 6 && swVer == r[3] as int - 6 &&
        w == Resolution(r[4]) && h == Resolution(r[5]) && name == DeviceName(r[1])
    {
      ghost var r := port.rx;
      ghost var sent := port.tx;

      // Init panel
      port.SendByte(0x55);
      ok := CheckResult(InitFailed);
      if !ok {
        assert InitExchange(r) == InitOutcome([0x55], 1, Some(InitFailed));
        return;
      }

      // Version information
      port.SendByte(0x56);
      port.SendByte(0x00);
      ReadVersion();
      assert port.rx == r[6..];

      // Touch region
      port.SendByte(0x59);
      port.SendByte(0x05);
      port.SendByte(0x02);
      assert port.tx == sent + InitSequence[..6];
      ok := CheckResult(TouchRegionFailed);
      if !ok {
        assert InitExchange(r) == InitOutcome(InitSequence[..6], 7, Some(TouchRegionFailed));
        return;
      }
      assert port.rx == r[7..];

      // Touch events
      port.SendByte(0x59);
      port.SendByte(0x05);
      port.SendByte(0x00);
      assert port.tx == sent + InitSequence;
      ok := CheckResult(TouchEnableFailed);
    }

    /**
     * The version reply of `ulcd_init`: the type, the hardware and software
     * versions (each sent 6 higher than it is, so that a raw byte below 6
     * gives a negative version), and the width and height codes; then the
     * name that goes with the type.
     */
    method ReadVersion()
      requires |port.rx| >= 5
      modifies this, port`rx
      ensures port.rx == old(port.rx)[5..]
      ensures devType == old(port.rx)[0]
      ensures hwVer == old(port.rx)[1] as int - 6 && swVer == old(port.rx)[2] as int - 6
      ensures w == Resolution(old(port.rx)[3]) && h == Resolution(old(port.rx)[4])
      ensures name == DeviceName(old(port.rx)[0])
    {
      var t := port.ReadChar();
      devType := t;
      var hw := port.ReadChar();
      hwVer := hw as int - 6;
      var sw := port.ReadChar();
      swVer := sw as int - 6;
      var wc := port.ReadChar();
      w := Resolution(wc);
      var hc := port.ReadChar();
      h := Resolution(hc);
      name := DeviceName(devType);
    }

    /** `read_word`: two bytes, the first one high, read back as an `int16_t`. */
    method ReadWord() returns (v: i16)
      requires |port.rx| >= 2
      modifies port`rx
      ensures v == ReadWordValue(old(port.rx)[0], old(port.rx)[1])
      ensures port.rx == old(port.rx)[2..]
    {
      var hi := port.ReadChar();
      var lo := port.ReadChar();
      v := ReadWordValue(hi, lo);
    }

    /**
     * `check_result`: takes one byte; true iff it is ACK. Otherwise the
     * diagnostic `errtext` becomes the error string; on success the error
     * string is left as it was.
     */
    method CheckResult(errtext: string) returns (ok: bool)
      requires |port.rx| >= 1
      modifies port`rx, errors`text
      ensures ok <==> old(port.rx)[0] == ACK
      ensures port.rx == old(port.rx)[1..]
      ensures errors.text == if ok then old(errors.text) else errtext
    {
      var c := port.ReadChar();
      if c != ACK {
        errors.text := errtext;
        return false;
      }
      return true;
    }

    /** `ulcd_clear`: sends 0x45 and checks the acknowledgement. */
    method Clear() returns (ok: bool)
      requires |port.rx| >= 1
      modifies port`rx, port`tx, errors`text
      ensures port.tx == old(port.tx) + [0x45]
      ensures ok <==> old(port.rx)[0] == ACK
      ensures port.rx == old(port.rx)[1..]
      ensures errors.text == if ok then old(errors.text) else ClearFailed
    {
      port.SendByte(0x45);
      ok := CheckResult(ClearFailed);
    }

    /** `ulcd_toggle_power`: sends 0x59, 0x03 and 1 for a positive `toggle`, 0 otherwise. */
    method TogglePower(toggle: i32) returns (ok: bool)
      requires |port.rx| >= 1
      modifies port`rx, port`tx, errors`text
      ensures port.tx == old(port.tx) + [0x59, 0x03, if toggle > 0 then 1 else 0]
      ensures ok <==> old(port.rx)[0] == ACK
      ensures port.rx == old(port.rx)[1..]
      ensures errors.text == if ok then old(errors.text) else ToggleFailed
    {
      port.SendByte(0x59);
      port.SendByte(0x03);
      port.SendByte(if toggle > 0 then 1 else 0);
      ok := CheckResult(ToggleFailed);
    }

    /** `ulcd_toggle_backlight`: sends 0x59, 0x00 and 1 for a positive `toggle`, 0 otherwise. */
    method ToggleBacklight(toggle: i32) returns (ok: bool)
      requires |port.rx| >= 1
      modifies port`rx, port`tx, errors`text
      ensures port.tx == old(port.tx) + [0x59, 0x00, if toggle > 0 then 1 else 0]
      ensures ok <==> old(port.rx)[0] == ACK
      ensures port.rx == old(port.rx)[1..]
      ensures errors.text == if ok then old(errors.text) else ToggleFailed
    {
      port.SendByte(0x59);
      port.SendByte(0x00);
      port.SendByte(if toggle > 0 then 1 else 0);
      ok := CheckResult(ToggleFailed);
    }

    /**
     * `ulcd_get_event`: asks for the event type and reads it with a padding
     * word after it. Only for a positive type does it ask for the
     * coordinates; otherwise both are -1.
     */
    method GetEvent() returns (ev: Event)
      requires PollRepliesArrive(port.rx)
      modifies port`rx, port`tx
      ensures ev.kind == ReadWordValue(old(port.rx)[0], old(port.rx)[1])
      ensures ev.kind > 0 ==>
        port.tx == old(port.tx) + [0x6F, 0x04, 0x6F, 0x05] &&
        ev.x == ReadWordValue(old(port.rx)[4], old(port.rx)[5]) &&
        ev.y == ReadWordValue(old(port.rx)[6], old(port.rx)[7]) &&
        port.rx == old(port.rx)[8..]
      ensures ev.kind <= 0 ==>
        port.tx == old(port.tx) + [0x6F, 0x04] && ev.x == -1 && ev.y == -1 &&
        port.rx == old(port.rx)[4..]
      ensures EventTypeOf(ev.kind) == Some(NoActivity) ==> ev.x == -1 && ev.y == -1
      ensures EventTypeOf(ev.kind).Some? && EventTypeOf(ev.kind) != Some(NoActivity) ==>
        port.tx == old(port.tx) + [0x6F, 0x04, 0x6F, 0x05]
    {
      ghost var r := port.rx;
      port.SendByte(0x6F);
      port.SendByte(0x04);
      var kind := ReadWord();
      var _ := ReadWord();
      assert port.rx == r[4..];
      if kind > 0 {
        port.SendByte(0x6F);
        port.SendByte(0x05);
        var x := ReadWord();
        assert port.rx == r[6..];
        var y := ReadWord();
        ev := Event(x, y, kind);
      } else {
        ev := Event(-1, -1, kind);
      }
    }

    /**
     * `ulcd_wait_event`: asks for the coordinates and reads x and y, then
     * asks for the type and reads it with a padding word after it.
     */
    method WaitEvent() returns (ev: Event)
      requires |port.rx| >= 8
      modifies port`rx, port`tx
      ensures port.tx == old(port.tx) + [0x6F, 0x00, 0x6F, 0x04]
      ensures ev.x == ReadWordValue(old(port.rx)[0], old(port.rx)[1])
      ensures ev.y == ReadWordValue(old(port.rx)[2], old(port.rx)[3])
      ensures ev.kind == ReadWordValue(old(port.rx)[4], old(port.rx)[5])
      ensures port.rx == old(port.rx)[8..]
    {
      port.SendByte(0x6F);
      port.SendByte(0x00);
      var x := ReadWord();
      var y := ReadWord();
      port.SendByte(0x6F);
      port.SendByte(0x04);
      var kind := ReadWord();
      var _ := ReadWord();
      ev := Event(x, y, kind);
    }

    /** `ulcd_blit`: sends the blit frame of w*h*2 bytes of `data` and checks the acknowledgement. */
    method Blit(x: u16, y: u16, w: u16, h: u16, data: seq<u8>) returns (ok: bool)
      requires PixelBytes(w, h) + 10 <= INT_MAX
      requires |data| >= PixelBytes(w, h)
      requires |port.rx| >= 1
      modifies port`rx, port`tx, errors`text
      ensures port.tx == old(port.tx) + Encode(Frames.Blit(x, y, w, h, data[..PixelBytes(w, h)]))
      ensures ok <==> old(port.rx)[0] == ACK
      ensures port.rx == old(port.rx)[1..]
      ensures errors.text == if ok then old(errors.text) else BlitFailed
    {
      var sz := PixelBytes(w, h) + 10;
      var buf := new u8[sz];
      var _ := BlitBuf(buf, x, y, w, h, data);
      port.SendBuf(buf, sz);
      ok := CheckResult(BlitFailed);
    }

    /** `ulcd_draw_line`: sends the line frame and checks the acknowledgement. */
    method DrawLine(x0: u16, y0: u16, x1: u16, y1: u16, color: u16) returns (ok: bool)
      requires |port.rx| >= 1
      modifies port`rx, port`tx, errors`text
      ensures port.tx == old(port.tx) + Encode(Line(x0, y0, x1, y1, color))
      ensures ok <==> old(port.rx)[0] == ACK
      ensures port.rx == old(port.rx)[1..]
      ensures errors.text == if ok then old(errors.text) else LineFailed
    {
      var buf := new u8[11];
      var _ := DrawLineBuf(buf, x0, y0, x1, y1, color);
      port.SendBuf(buf, 11);
      ok := CheckResult(LineFailed);
    }

    /** `ulcd_draw_rect`: sends the rectangle frame and checks the acknowledgement. */
    method DrawRect(x0: u16, y0: u16, x1: u16, y1: u16, color: u16) returns (ok: bool)
      requires |port.rx| >= 1
      modifies port`rx, port`tx, errors`text
      ensures port.tx == old(port.tx) + Encode(Rect(x0, y0, x1, y1, color))
      ensures ok <==> old(port.rx)[0] == ACK
      ensures port.rx == old(port.rx)[1..]
      ensures errors.text == if ok then old(errors.text) else RectFailed
    {
      var buf := new u8[11];
      var _ := DrawRectBuf(buf, x0, y0, x1, y1, color);
      port.SendBuf(buf, 11);
      ok := CheckResult(RectFailed);
    }

    /** `ulcd_draw_circle`: sends the circle frame and checks the acknowledgement. */
    method DrawCircle(x: u16, y: u16, radius: u16, color: u16) returns (ok: bool)
      requires |port.rx| >= 1
      modifies port`rx, port`tx, errors`text
      ensures port.tx == old(port.tx) + Encode(Circle(x, y, radius, color))
      ensures ok <==> old(port.rx)[0] == ACK
      ensures port.rx == old(port.rx)[1..]
      ensures errors.text == if ok then old(errors.text) else CircleFailed
    {
      var buf := new u8[9];
      var _ := DrawCircleBuf(buf, x, y, radius, color);
      port.SendBuf(buf, 9);
      ok := CheckResult(CircleFailed);
    }

    /** `ulcd_pen_style`: sends the pen-style frame and checks the acknowledgement. */
    method SetPenStyle(style: i32) returns (ok: bool)
      requires |port.rx| >= 1
      modifies port`rx, port`tx, errors`text
      ensures port.tx == old(port.tx) + Encode(PenStyle(style % 0x100))
      ensures ok <==> old(port.rx)[0] == ACK
      ensures port.rx == old(port.rx)[1..]
      ensures errors.text == if ok then old(errors.text) else PenStyleFailed
    {
      var buf := new u8[2];
      var _ := PenStyleBuf(buf, style);
      port.SendBuf(buf, 2);
      ok := CheckResult(PenStyleFailed);
    }
  }

  /** What the handshake of `ulcd_init` does with the module's replies `r`. */
  datatype InitOutcome = InitOutcome(
    sent: seq<u8>,         // the bytes written after the drain
    consumed: nat,         // how many reply bytes were read
    failure: Option<string>) // the diagnostic of the step that was refused, if one was

  /**
   * The handshake as a function of the replies: each acknowledgement gates
   * the rest, and a refused step ends it with that step's diagnostic. It
   * succeeds exactly when all three commands are acknowledged, and then it
   * has sent the whole init sequence; whatever happens, what it sends is a
   * prefix of that sequence and it reads no reply it was not waiting for.
   */
  function InitExchange(r: seq<u8>): (o: InitOutcome)
    requires InitRepliesArrive(r)
    ensures o.consumed <= |r|
    ensures |o.sent| <= |InitSequence| && o.sent == InitSequence[..|o.sent|]
    ensures o.failure.None? <==> r[0] == ACK && r[6] == ACK && r[7] == ACK
    ensures o.failure.None? ==> o.sent == InitSequence && o.consumed == 8
  {
    if r[0] != ACK then InitOutcome([0x55], 1, Some(InitFailed))
    else if r[6] != ACK then InitOutcome(InitSequence[..6], 7, Some(TouchRegionFailed))
    else if r[7] != ACK then InitOutcome(InitSequence, 8, Some(TouchEnableFailed))
    else InitOutcome(InitSequence, 8, None)
  }

  /**
   * Which step refuses decides the diagnostic and how far the handshake
   * got: a refused step has sent its own command and nothing after it.
   */
  lemma InitExchangeGates(r: seq<u8>)
    requires InitRepliesArrive(r)
    ensures var o := InitExchange(r);
      (o.failure == Some(InitFailed) <==> r[0] != ACK) &&
      (o.failure == Some(InitFailed) ==> o.sent == [0x55] && o.consumed == 1) &&
      (o.failure == Some(TouchRegionFailed) <==> r[0] == ACK && r[6] != ACK) &&
      (o.failure == Some(TouchRegionFailed) ==> o.sent == [0x55, 0x56, 0x00, 0x59, 0x05, 0x02] && o.consumed == 7) &&
      (o.failure == Some(TouchEnableFailed) <==> r[0] == ACK && r[6] == ACK && r[7] != ACK) &&
      (o.failure == Some(TouchEnableFailed) ==> o.sent == InitSequence && o.consumed == 8)
  {
  }

  /**
   * `ulcd_init`: opens the port (`portOpens` is whether the platform call
   * succeeds), drains `stale` pending bytes, and runs the handshake
   * `InitExchange` describes. The port is left open when a step is refused.
   */
  method Init(errors: ErrorSlot, port: Port, portOpens: bool, stale: nat) returns (dev: Device?)
    requires portOpens ==> stale <= 4096 && stale <= |port.rx| && InitRepliesArrive(port.rx[stale..])
    modifies port, errors
    ensures !portOpens ==>
      dev == null && errors.text == OpenFailed &&
      port.rx == old(port.rx) && port.tx == old(port.tx) && port.isOpen == old(port.isOpen)
    ensures portOpens ==> port.isOpen
    ensures portOpens ==>
      var r := old(port.rx)[stale..];
      var o := InitExchange(r);
      port.tx == old(port.tx) + o.sent && port.rx == r[o.consumed..] &&
      (dev == null <==> o.failure.Some?) &&
      errors.text == if o.failure.Some? then o.failure.value else old(errors.text)
    ensures dev != null ==> var r := old(port.rx)[stale..];
      fresh(dev) && dev.port == port && dev.errors == errors &&
      dev.devType == r[1] && dev.hwVer == r[2] as int - 6 && dev.swVer == r[3] as int - 6 &&
      dev.w == Resolution(r[4]) && dev.h == Resolution(r[5]) && dev.name == DeviceName(r[1])
  {
    if !portOpens {
      errors.text := OpenFailed;
      return null;
    }
    port.isOpen := true;
    port.Drain(stale);
    dev := new Device(port, errors);
    var ok := dev.Handshake();
    if !ok {
      dev := null;
    }
  }

  /** `ulcd_close`: nothing for a null device; otherwise the device's port is released. */
  method Close(dev: Device?)
    modifies if dev == null then {} else {dev.port}
    ensures dev != null ==>
      !dev.port.isOpen && dev.port.rx == old(dev.port.rx) && dev.port.tx == old(dev.port.tx)
  {
    if dev == null {
      return;
    }
    dev.port.Close();
  }

  /**
   * A handshake the module refuses at its first step, as `Init` runs it:
   * the result is null, and the port that was opened stays open with no
   * device left to close it through.
   */
  method RefusedInitLeavesPortOpen() returns (port: Port, dev: Device?)
    ensures dev == null && port.isOpen
    ensures port.tx == [0x55] && port.rx == []
  {
    var errors := new ErrorSlot();
    port := new Port([0x15]);
    dev := Init(errors, port, true, 0);
  }

  /**
   * `ulcd_init` as its callers need it: the same handshake, but every
   * failure after the port opened releases the port again, so the port is
   * open exactly when a device comes back.
   */
  method InitReleasing(errors: ErrorSlot, port: Port, portOpens: bool, stale: nat) returns (dev: Device?)
    requires portOpens ==> stale <= 4096 && stale <= |port.rx| && InitRepliesArrive(port.rx[stale..])
    modifies port, errors
    ensures !portOpens ==>
      dev == null && errors.text == OpenFailed &&
      port.rx == old(port.rx) && port.tx == old(port.tx) && port.isOpen == old(port.isOpen)
    ensures portOpens ==> (port.isOpen <==> dev != null)
    ensures portOpens ==>
      var r := old(port.rx)[stale..];
      var o := InitExchange(r);
      port.tx == old(port.tx) + o.sent && port.rx == r[o.consumed..] &&
      (dev == null <==> o.failure.Some?) &&
      errors.text == if o.failure.Some? then o.failure.value else old(errors.text)
    ensures dev != null ==> var r := old(port.rx)[stale..];
      fresh(dev) && dev.port == port && dev.errors == errors &&
      dev.devType == r[1] && dev.hwVer == r[2] as int - 6 && dev.swVer == r[3] as int - 6 &&
      dev.w == Resolution(r[4]) && dev.h == Resolution(r[5]) && dev.name == DeviceName(r[1])
  {
    dev := Init(errors, port, portOpens, stale);
    if portOpens && dev == null {
      port.Close();
    }
  }
}
