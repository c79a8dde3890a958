/**
 * The two lookup tables of the driver: the pixel dimension behind each
 * resolution code the module reports, and the name of each device type.
 */
module Tables {
  import opened Wire
  import opened Wrappers

  /** The resolution codes the module can report. */
  const ResolutionCodes: set<u8> := {0x22, 0x24, 0x28, 0x32, 0x60, 0x64, 0x76, 0x96}

  /** `get_res_by_code`: the pixel dimension behind a resolution code, 0 for an unknown code. */
  function Resolution(code: u8): (px: nat)
    ensures px != 0 <==> code in ResolutionCodes
    ensures px in {0, 64, 96, 128, 160, 176, 220, 240, 320}
  {
    if code == 0x22 then 220
    else if code == 0x24 then 240
    else if code == 0x28 then 128
    else if code == 0x32 then 320
    else if code == 0x60 then 160
    else if code == 0x64 then 64
    else if code == 0x76 then 176
    else if code == 0x96 then 96
    else 0
  }

  /** The table read backwards: the code the module reports for a pixel dimension. */
  function CodeOf(px: int): Option<u8> {
    if px == 220 then Some(0x22)
    else if px == 240 then Some(0x24)
    else if px == 128 then Some(0x28)
    else if px == 320 then Some(0x32)
    else if px == 160 then Some(0x60)
    else if px == 64 then Some(0x64)
    else if px == 176 then Some(0x76)
    else if px == 96 then Some(0x96)
    else None
  }

  /** Each known code is the only code for its dimension, and every listed dimension has its code. */
  lemma ResolutionCodeOf(code: u8, px: int)
    ensures Resolution(code) != 0 ==> CodeOf(Resolution(code)) == Some(code)
    ensures CodeOf(px) == Some(code) ==> Resolution(code) == px
  {
  }

  /** Two codes that give the same known dimension are the same code. */
  lemma ResolutionInjective(a: u8, b: u8)
    requires Resolution(a) == Resolution(b) != 0
    ensures a == b
  {
    ResolutionCodeOf(a, 0);
    ResolutionCodeOf(b, 0);
  }

  const OledName: string := "micro-OLED"
  const LcdName: string := "micro-LCD"
  const VgaName: string := "micro-VGA"
  const UnknownName: string := "Unknown device"

  /**
   * `set_devname_by_type`: the name of a device type. Every name fits, with
   * its terminating NUL, in the 16-byte `name` field of `ulcd_dev`.
   */
  function DeviceName(devType: int): (name: string)
    ensures 0 < |name| < 16
    ensures name == UnknownName <==> devType !in {0, 1, 2}
  {
    if devType == 0x00 then OledName
    else if devType == 0x01 then LcdName
    else if devType == 0x02 then VgaName
    else UnknownName
  }

  /** The three known device types have three different names. */
  lemma DeviceNameInjective(a: int, b: int)
    requires a in {0, 1, 2} && b in {0, 1, 2}
    requires DeviceName(a) == DeviceName(b)
    ensures a == b
  {
    assert OledName[6] == 'O' && LcdName[6] == 'L' && VgaName[6] == 'V';
  }
}
