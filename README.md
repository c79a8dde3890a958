# A Dafny model of the libulcd32pt protocol engine

libulcd32pt drives a serial-attached intelligent display module. The driver
turns drawing and panel requests into fixed binary command frames, writes
them to the serial port, and interprets the module's replies: a single ACK
byte (0x06) for commands, raw bytes for the version query, and big-endian
16-bit words for touch events. This project models that protocol engine,
`src/ulcd_driver.c`, and proves properties of the model.

The modules follow the driver's parts:

- `Wire` (wire.dfy): the integer widths (`u8`, `u16`, `i16`, `i32`), how a
  16-bit field travels (`v >> 8`, then `v & 0xFF`), and what `read_word`
  makes of two received bytes. A run of fields encodes with `Fields` and
  reads back with `Words`, and each is the inverse of the other.
- `Frames` (frames.dfy): the command frames built by the `*_buf` functions.
  `Encode` gives the frame of a `Command`. `Decode` is the model's own
  inverse of `Encode`, not a parser taken from the display module. It
  exists to describe the set of frames exactly and to prove that no two
  commands share one. Each is proved to undo the other. The `*_buf` functions are methods that write a
  caller's `array` in place. Each is proved to leave exactly `Encode(..)` at
  the front of the buffer, to return its length, and to leave the rest of
  the buffer alone.
- `Tables` (tables.dfy): `get_res_by_code` and `set_devname_by_type`.
- `Session` (session.dfy): the port as a class. It holds the bytes still to
  be read (`rx`), the bytes written so far (`tx`) and whether it is open.
  The global `errorstr` is one `ErrorSlot` object. `Init` is given it, and
  every device it creates refers to it, so a failure on any device
  overwrites the text every other caller sees. The `ulcd_dev` record is a
  class `Device` with a `port` field and that `errors` field. Every operation states the bytes it writes,
  the bytes it consumes and what it returns. Failing operations also state
  the diagnostic they leave in `errorstr`. `ulcd_init` is `Init`, and the
  gated handshake it runs is `Device.Handshake`. That handshake is specified
  by the pure function `InitExchange`.

Modelling choices:

- `readchar` loops until the port delivers a byte, with no bound. Here it
  takes the next byte of `rx`. An operation that waits for replies requires
  that the module sends them: `InitRepliesArrive` and `PollRepliesArrive`
  say how many bytes each reply path reads.
- `read_word` stores `readchar() << 8` into an `int16_t` and ors in the
  second byte. `ReadWordValue` writes this out as two's-complement
  reinterpretation, which is what the compilers the driver targets do. A
  type word of 0x8000 or more is therefore negative, and `ulcd_get_event`
  treats it like "no activity".
- `ulcd_pen_style_buf` stores its `int` style into an `unsigned char`, which
  is reduction modulo 256 (`style % 0x100`).
- `OpenComport`'s success is the parameter `portOpens` of `Init`. The
  initial drain is the parameter `stale`: the number of pending bytes it
  throws away, at most 4096.
- `ulcd_event` is filled in through a pointer. The model returns it as a
  value instead. Both event functions write all three fields, so nothing is
  lost.
- `ulcd_toggle_power` reports "Backlight toggling failed." when the module
  refuses. That is the text in the code, and the model keeps it.
- When a handshake step is refused, `Init` leaves the port open, as the
  code does. The corrected `InitReleasing` is described under Findings.
- The header declares `ulcd_init(const char*)` and a `serial_port*` port,
  while the code takes an `int` port number and calls the `rs232.h`
  functions. The model follows the code and keeps the port abstract.
  `rs232.h` is not part of this model.

## Model

| member | source | states |
|---|---|---|
| `Wire.Hi` | src/ulcd_driver.c:210 | `v >> 8` is the byte `h` with `0x100 * h <= v < 0x100 * h + 0x100`: the field's high byte |
| `Wire.Lo` | src/ulcd_driver.c:211 | `v & 0xFF` is what remains of `v` after its high byte: `v == 0x100 * Hi(v) + Lo(v)` |
| `Wire.ReadWordValue` | src/ulcd_driver.c:28-31 | shifting the first byte into an `int16_t` and or-ing in the second gives the `int16_t` reading of the 16-bit pattern with the first byte high |
| `Wire.Word` | src/ulcd_driver.c:28-31 | the word assembled from a high and a low byte splits back into exactly those bytes |
| `Wire.WordOfHiLo` | src/ulcd_driver.c:209-219 | splitting a 16-bit field into `v >> 8` and `v & 0xFF` and joining them gives the field back |
| `Wire.AsInt16` | src/ulcd_driver.c:29-30 | storing a 16-bit pattern in an `int16_t` gives a negative value exactly when bit 15 is set, and the same 16-bit pattern |
| `Wire.AsInt16OfAsUint16` | src/ulcd_driver.c:29-30 | the `int16_t`/`uint16_t` conversions undo each other in both orders |
| `Wire.ReadWordValueMeaning` | src/ulcd_driver.c:28-31 | `read_word` keeps the 16-bit pattern of its two bytes, first byte high, and is negative exactly when the first byte is 0x80 or more |
| `Wire.ReadWordRoundTrip` | src/ulcd_driver.c:28-31 | reading back the two bytes an encoder emits for `v` gives `v`'s 16-bit pattern as an `int16_t`: the encode/decode round trip |
| `Wire.Fields` | src/ulcd_driver.c:209-219 | a run of fields is two bytes per field, each field high byte first, in order |
| `Wire.Words` | src/ulcd_driver.c:28-31 | reading a run of bytes two at a time gives one word per pair, first byte high |
| `Wire.WordsOfFields` | src/ulcd_driver.c:209-219 | decoding an encoded run of fields gives the fields |
| `Wire.FieldsOfWords` | src/ulcd_driver.c:28-31 | encoding the fields read from an even run of bytes gives those bytes: the other direction of the round trip |
| `Frames.Encode` | src/ulcd_driver.c:187-261 | every frame begins with its command's opcode and has the length its `*_buf` function returns (11, 11, 9, 2, or data length + 10) |
| `Frames.EncodeDecode` | src/ulcd_driver.c:187-261 | every byte string the model's inverse `Decode` maps to a command is exactly the frame of that command, which is well-formed: the frames are precisely the image of `Encode` |
| `Frames.DecodeEncode` | src/ulcd_driver.c:187-261 | every well-formed command is read back from its frame unchanged |
| `Frames.EncodeInjective` | src/ulcd_driver.c:187-261 | two well-formed commands with the same frame are the same command |
| `Frames.LineLayout` | src/ulcd_driver.c:205-221 | the line frame is 0x4C, then x0, y0, x1, y1, color, each high byte first |
| `Frames.RectLayout` | src/ulcd_driver.c:223-239 | the rectangle frame is 0x72, then x0, y0, x1, y1, color, each high byte first |
| `Frames.CircleLayout` | src/ulcd_driver.c:241-255 | the circle frame is 0x43, then x, y, radius, color, each high byte first |
| `Frames.BlitLayout` | src/ulcd_driver.c:187-203 | the blit frame is 0x49, then x, y, w, h high byte first, then 0x10 at index 9, then the pixel data unchanged from index 10 |
| `Frames.DrawLineBuf` | src/ulcd_driver.c:205-221 | writes the line frame into `buf[0..11]`, returns 11, and leaves the rest of the buffer unchanged |
| `Frames.DrawRectBuf` | src/ulcd_driver.c:223-239 | writes the rectangle frame into `buf[0..11]`, returns 11, and leaves the rest of the buffer unchanged |
| `Frames.DrawCircleBuf` | src/ulcd_driver.c:241-255 | writes the circle frame into `buf[0..9]`, returns 9, and leaves the rest of the buffer unchanged |
| `Frames.PenStyleBuf` | src/ulcd_driver.c:257-261 | writes [0x70, style mod 256], returns 2, and leaves the rest of the buffer unchanged |
| `Frames.BlitBuf` | src/ulcd_driver.c:187-203 | given data of at least w*h*2 bytes and a size that fits in an `int`, writes the blit frame of the first w*h*2 data bytes, returns w*h*2 + 10, and touches no byte beyond that |
| `Frames.MemCopy` | src/ulcd_driver.c:201 | `memcpy` copies exactly `len` source bytes to `dst[at..]` and changes nothing else |
| `Tables.Resolution` | src/ulcd_driver.c:41-55 | the result is nonzero exactly for the eight listed codes, and is one of the listed dimensions or 0 |
| `Tables.ResolutionCodeOf` | src/ulcd_driver.c:41-55 | the table read backwards recovers each known code from its dimension, and every code it gives maps to that dimension |
| `Tables.ResolutionInjective` | src/ulcd_driver.c:41-55 | no two codes share a known dimension |
| `Tables.DeviceName` | src/ulcd_driver.c:57-64 | the name is "Unknown device" exactly for types other than 0, 1, 2, and every name fits with its NUL in the 16-byte `name` field |
| `Tables.DeviceNameInjective` | src/ulcd_driver.c:57-64 | types 0, 1 and 2 get three different names |
| `Session.EventTypeOf` | include/ulcd_driver.h:44-49 | a code names an event type exactly when it is 0 to 3 |
| `Session.EventTypeRoundTrip` | include/ulcd_driver.h:44-49 | event types and their codes convert into each other both ways |
| `Session.ErrorSlot.constructor` | src/ulcd_driver.c:10 | the zero-initialised global `errorstr` starts as the empty string |
| `Session.Port.constructor` | src/ulcd_driver.c:66-68 | before `OpenComport` a port is closed, with nothing written and its pending bytes to read |
| `Session.Port.Close` | src/ulcd_driver.c:125 | `CloseComport` leaves the port closed |
| `Session.Close` | src/ulcd_driver.c:123-127 | `ulcd_close` does nothing for a null device and otherwise closes its port without sending or reading anything |
| `Session.Port.ReadChar` | src/ulcd_driver.c:20-26 | takes exactly the next byte of the input and returns it |
| `Session.Port.SendByte` | src/ulcd_driver.c:83 | appends one byte to the output |
| `Session.Port.SendBuf` | src/ulcd_driver.c:285 | appends the first `len` bytes of the buffer to the output |
| `Session.Port.Drain` | src/ulcd_driver.c:73-75 | discards a prefix of at most 4096 pending bytes |
| `Session.PollAsksForCoordinates` | src/ulcd_driver.c:160 | `ulcd_get_event` asks for coordinates exactly when the type word is nonzero with its top bit clear |
| `Session.Device.constructor` | src/ulcd_driver.c:77-80 | a new record is on the given port, reports to the shared `errorstr`, and has an empty name |
| `Session.Device.ReadWord` | src/ulcd_driver.c:28-31 | consumes exactly two bytes and returns their `int16_t` reading, first byte high |
| `Session.Device.CheckResult` | src/ulcd_driver.c:33-39 | consumes one byte and returns true iff it is 0x06; otherwise `errorstr` becomes the given diagnostic, and on success it is unchanged |
| `Session.Device.ReadVersion` | src/ulcd_driver.c:93-99 | consumes five bytes: type, hardware and software versions each minus 6 (possibly negative), and width and height through `Resolution`; the name follows the type |
| `Session.Device.Handshake` | src/ulcd_driver.c:82-121 | writes, consumes and reports exactly what `InitExchange` says for the replies, and on success fills in the record from the version reply |
| `Session.InitExchange` | src/ulcd_driver.c:82-121 | the handshake succeeds iff all three ACKs arrive, and then it has sent 0x55, 0x56, 0x00, 0x59, 0x05, 0x02, 0x59, 0x05, 0x00 and read 8 bytes; whatever happens it sends a prefix of that sequence and reads only replies it waits for |
| `Session.InitExchangeGates` | src/ulcd_driver.c:82-121 | each refused step records its own diagnostic exactly when it is the first refusal, having sent its own command and nothing after it (1, 6 or 9 bytes sent; 1, 7 or 8 bytes read) |
| `Session.Init` | src/ulcd_driver.c:66-121 | if the port fails to open: null and "Error while opening serial port."; otherwise it drains stale bytes, runs the handshake, returns a fresh device exactly when every step is acknowledged, and leaves the port open either way |
| `Session.RefusedInitLeavesPortOpen` | src/ulcd_driver.c:82-87 | a module that refuses the init byte makes `Init` return null with the opened port still open |
| `Session.InitReleasing` | src/ulcd_driver.c:66-121 | the same exchange and results as `Init`, and once the port has opened it is open exactly when a device is returned |
| `Session.Device.Clear` | src/ulcd_driver.c:129-132 | sends 0x45, consumes the ACK byte, and succeeds iff it is 0x06, with "Clear screen failed." otherwise |
| `Session.Device.TogglePower` | src/ulcd_driver.c:138-143 | sends 0x59, 0x03, then 1 for a positive toggle or 0 otherwise, and checks the ACK |
| `Session.Device.ToggleBacklight` | src/ulcd_driver.c:145-150 | sends 0x59, 0x00, then 1 for a positive toggle or 0 otherwise, and checks the ACK |
| `Session.Device.GetEvent` | src/ulcd_driver.c:152-169 | sends 0x6F, 0x04 and reads the type and a discarded word; for a positive type it also sends 0x6F, 0x05 and reads x then y, and otherwise x = y = -1; so "no activity" has no coordinates and a press, release or move always asks for them |
| `Session.Device.WaitEvent` | src/ulcd_driver.c:171-183 | sends 0x6F, 0x00 and reads x then y, then sends 0x6F, 0x04 and reads the type and a discarded word |
| `Session.Device.Blit` | src/ulcd_driver.c:265-275 | sends the blit frame of the first w*h*2 data bytes and checks the ACK, with "Error while blitting." on failure |
| `Session.Device.DrawLine` | src/ulcd_driver.c:277-290 | sends the line frame and checks the ACK, with "Error while drawing line." on failure |
| `Session.Device.DrawRect` | src/ulcd_driver.c:292-305 | sends the rectangle frame and checks the ACK, with "Error while drawing rectangle." on failure |
| `Session.Device.DrawCircle` | src/ulcd_driver.c:307-319 | sends the circle frame and checks the ACK, with "Error while drawing circle." on failure |
| `Session.Device.SetPenStyle` | src/ulcd_driver.c:321-330 | sends [0x70, style mod 256] and checks the ACK, with "Pen style change failed." on failure |

## Findings

| source | as written | input that shows it | evidently intended | confidence | as-written member | corrected member |
|---|---|---|---|---|---|---|
| src/ulcd_driver.c:82-117 | a refused handshake step frees the record and returns null without calling `CloseComport`, so the opened port stays open and the caller has no device to close it through | the port opens and the module answers the init byte 0x55 with 0x15 instead of 0x06 | every failure of `ulcd_init` releases the port it opened | medium, not executed | `Session.RefusedInitLeavesPortOpen` (with `Session.Init`) | `Session.InitReleasing` |

## Left out

- `src/serial.c` and `include/serial.h` are not part of this model. They hold the platform serial I/O (termios and Win32 calls), with nothing to prove.
- The sleep-and-retry wait in `readchar` is not modelled: it is a liveness and timing matter. Each blocking read instead requires that its byte arrives.
- `alloc_color` and `clamp` are not modelled: they use floating point and truncate floats to `uint8_t`.
- `ulcd_get_error_str` is not modelled as an operation: it returns the `errorstr` slot, which is `ErrorSlot.text` here. The `free` of `ulcd_close` and of the failing `ulcd_init` paths is not modelled; memory is not part of the model.
- There is one `errorstr` in the program. The model represents it as an `ErrorSlot` that callers pass in, and it does not stop a caller from creating a second slot.
- The header declares functions that have no body in the code: `ulcd_set_volume`, audio, `ulcd_sd_*`, `ulcd_draw_pixel`, `ulcd_draw_ellipse`, `ulcd_draw_text` and `ulcd_read_pixel`. They are not modelled because there is no code to check a model against.
- The order in which writes and reads interleave is not recorded: the port keeps the two streams apart. Each method body performs them in the code's order.
- `BlitBuf` and `Blit` take the pixel data as a value. Aliasing between the data and the buffer is not modelled; `memcpy` is undefined for overlapping regions anyway.
- A failing `malloc` in `ulcd_init` is not modelled: the code does not check for it.
- A very large stack array in `ulcd_blit` is not modelled. Only its size limit is kept: w*h*2 + 10 must fit in an `int`.
- `sprintf(errorstr, errtext)` is treated as a copy. None of the diagnostics contains a `%`.
- The `int` fields of `ulcd_dev` are unbounded integers. The values stored in them are at most 320 in magnitude.
